/** The CPU core's constants, register file and register numbering (cpu.h).
    A register operand is a raw byte: ids 0..7 name the integer registers,
    ids 0..4 the float registers, and every other byte is unrecognized. */
module CpuDefs {

  import opened Word
  import opened Errors
  import opened Wrappers

  // initial address for the program counter
  const RPC_INIT: u16 := 0x0000
  // initial stack pointer position
  const RSP_INIT: u16 := 0xFFFF
  // end of execution special status code
  const END_OF_EXECUTION: u8 := 0xFF

  /** `cpucore_iregs_t`, in enum order. */
  datatype IReg = RPC | RSP | RBP | IA0 | IA1 | IA2 | IA3 | IRV

  /** `cpucore_fregs_t`, in enum order. */
  datatype FReg = FA0 | FA1 | FA2 | FA3 | FRV

  /** The enum value of an integer register. */
  function IRegId(r: IReg): u8 {
    match r
    case RPC => 0
    case RSP => 1
    case RBP => 2
    case IA0 => 3
    case IA1 => 4
    case IA2 => 5
    case IA3 => 6
    case IRV => 7
  }

  /** The integer register a byte names, if any. */
  function IRegOf(b: u8): Option<IReg> {
    match b
    case 0 => Some(RPC)
    case 1 => Some(RSP)
    case 2 => Some(RBP)
    case 3 => Some(IA0)
    case 4 => Some(IA1)
    case 5 => Some(IA2)
    case 6 => Some(IA3)
    case 7 => Some(IRV)
    case _ => None
  }

  /** The enum value of a float register. */
  function FRegId(r: FReg): u8 {
    match r
    case FA0 => 0
    case FA1 => 1
    case FA2 => 2
    case FA3 => 3
    case FRV => 4
  }

  /** The float register a byte names, if any. */
  function FRegOf(b: u8): Option<FReg> {
    match b
    case 0 => Some(FA0)
    case 1 => Some(FA1)
    case 2 => Some(FA2)
    case 3 => Some(FA3)
    case 4 => Some(FRV)
    case _ => None
  }

  /** `cpucore_t` without its core id: the status code, the three pointer
      registers, the integer registers (read as unsigned short) and the
      float registers (kept as their 32-bit patterns). */
  datatype Regs = Regs(
    stc: u8,
    rpc: u16, rsp: u16, rbp: u16,
    ia0: u16, ia1: u16, ia2: u16, ia3: u16, irv: u16,
    fa0: u32, fa1: u32, fa2: u32, fa3: u32, frv: u32)

  function GetI(r: Regs, x: IReg): u16 {
    match x
    case RPC => r.rpc
    case RSP => r.rsp
    case RBP => r.rbp
    case IA0 => r.ia0
    case IA1 => r.ia1
    case IA2 => r.ia2
    case IA3 => r.ia3
    case IRV => r.irv
  }

  function SetI(r: Regs, x: IReg, v: u16): Regs {
    match x
    case RPC => r.(rpc := v)
    case RSP => r.(rsp := v)
    case RBP => r.(rbp := v)
    case IA0 => r.(ia0 := v)
    case IA1 => r.(ia1 := v)
    case IA2 => r.(ia2 := v)
    case IA3 => r.(ia3 := v)
    case IRV => r.(irv := v)
  }

  function GetF(r: Regs, x: FReg): u32 {
    match x
    case FA0 => r.fa0
    case FA1 => r.fa1
    case FA2 => r.fa2
    case FA3 => r.fa3
    case FRV => r.frv
  }

  function SetF(r: Regs, x: FReg, v: u32): Regs {
    match x
    case FA0 => r.(fa0 := v)
    case FA1 => r.(fa1 := v)
    case FA2 => r.(fa2 := v)
    case FA3 => r.(fa3 := v)
    case FRV => r.(frv := v)
  }

  /** The registers the header documents as callee-saved. */
  const CalleeSavedI: set<IReg> := {RBP, IA0, IA1, IA2, IA3}
  const CalleeSavedF: set<FReg> := {FA0, FA1, FA2, FA3}

  /** The registers the header documents as caller-saved. */
  const CallerSavedI: set<IReg> := {IRV}
  const CallerSavedF: set<FReg> := {FRV}

  // ----- properties of the numbering -----

  /** The integer enum runs rpc = 0 .. irv = 7 and every other byte is
      unrecognized; decoding an id and encoding it again are inverse. */
  lemma IRegNumbering(b: u8, r: IReg)
    ensures IRegOf(b).Some? <==> b <= 7
    ensures IRegOf(IRegId(r)) == Some(r)
    ensures IRegOf(b) == Some(r) ==> IRegId(r) == b
  {
  }

  /** The float enum runs fa0 = 0 .. frv = 4. */
  lemma FRegNumbering(b: u8, r: FReg)
    ensures FRegOf(b).Some? <==> b <= 4
    ensures FRegOf(FRegId(r)) == Some(r)
    ensures FRegOf(b) == Some(r) ==> FRegId(r) == b
  {
  }

  /** A register written with SetI reads back the value; no other register
      and not the status changes. */
  lemma SetIGetI(r: Regs, x: IReg, y: IReg, v: u16)
    ensures GetI(SetI(r, x, v), x) == v
    ensures y != x ==> GetI(SetI(r, x, v), y) == GetI(r, y)
    ensures SetI(r, x, v).stc == r.stc
    ensures forall f :: GetF(SetI(r, x, v), f) == GetF(r, f)
  {
  }

  lemma SetFGetF(r: Regs, x: FReg, y: FReg, v: u32)
    ensures GetF(SetF(r, x, v), x) == v
    ensures y != x ==> GetF(SetF(r, x, v), y) == GetF(r, y)
    ensures SetF(r, x, v).stc == r.stc
    ensures forall i :: GetI(SetF(r, x, v), i) == GetI(r, i)
  {
  }

  /** Every integer register besides rpc and rsp is either callee- or
      caller-saved, and every float register is one or the other. */
  lemma SavingConventionCovers()
    ensures forall x: IReg :: x !in {RPC, RSP} <==> x in CalleeSavedI + CallerSavedI
    ensures CalleeSavedI !! CallerSavedI
    ensures forall x: FReg :: x in CalleeSavedF + CallerSavedF
    ensures CalleeSavedF !! CallerSavedF
  {
    forall x: IReg ensures x !in {RPC, RSP} <==> x in CalleeSavedI + CallerSavedI {
      assert x.RPC? || x.RSP? || x.RBP? || x.IA0? || x.IA1? || x.IA2? || x.IA3? || x.IRV?;
    }
    forall x: FReg ensures x in CalleeSavedF + CallerSavedF {
      assert x.FA0? || x.FA1? || x.FA2? || x.FA3? || x.FRV?;
    }
  }

  /** The halt sentinel differs from every error code and from "no error". */
  lemma EndOfExecutionIsNotAnError()
    ensures !IsError(END_OF_EXECUTION)
    ensures END_OF_EXECUTION != 0
  {
  }
}
