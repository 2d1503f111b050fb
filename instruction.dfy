/** Instructions (instruction.h, instruction.c): a 6-byte record whose first
    byte is the opcode and whose operand fields sit at fixed byte offsets,
    the fetch of such a record from system memory, and the dispatch of the
    opcode to the CPU core's handlers.

    `Effect` gives the meaning of the dispatch as a function of the machine
    state; the method `Instr.Exec` is proved to compute it. The dispatch is
    split into one function and one method per group of the opcode enum
    (stack, memory access, jumps, ...); the C has them as one switch. */
module Instruction {

  import opened Word
  import opened Errors
  import opened Memory
  import opened CpuDefs
  import CpuSpec
  import Cpu

  // instruction size
  const INSTR_SIZE: int := 6

  /** The contents of `instr_t.data`. */
  type Data = d: seq<u8> | |d| == INSTR_SIZE witness [0, 0, 0, 0, 0, 0]

  // byte offsets of the operand fields
  const OFF_R0: int := 1
  const OFF_R1: int := 2
  const OFF_R2: int := 3
  const OFF_R3: int := 4
  const OFF_S0: int := 1
  const OFF_S1: int := 2
  const OFF_S2: int := 3
  const OFF_F: int := 2

  /** Register operands: single bytes. */
  function R0(d: Data): u8 { d[OFF_R0] }
  function R1(d: Data): u8 { d[OFF_R1] }
  function R2(d: Data): u8 { d[OFF_R2] }
  function R3(d: Data): u8 { d[OFF_R3] }

  /** Short operands: the unsigned short stored at the offset. */
  function S0(d: Data): u16 { U16At(d, OFF_S0) }
  function S1(d: Data): u16 { U16At(d, OFF_S1) }
  function S2(d: Data): u16 { U16At(d, OFF_S2) }

  /** The float operand, as its 4-byte pattern. */
  function F(d: Data): u32 { U32At(d, OFF_F) }

  /** The shift handlers take an unsigned char; the dispatch passes S1,
      which the call converts modulo 256. */
  function ShiftAmount(d: Data): u8 { S1(d) % 0x100 }

  // ----- the opcode enum -----

  // no operation
  const NOOP: u8 := 0x00
  // stack instructions
  const IPSH: u8 := 0x01
  const IPOP: u8 := 0x02
  const FPSH: u8 := 0x03
  const FPOP: u8 := 0x04
  // memory access instructions
  const IRDM: u8 := 0x05
  const IWTM: u8 := 0x06
  const FRDM: u8 := 0x07
  const FWTM: u8 := 0x08
  // jump instructions
  const JUMP: u8 := 0x09
  const IJEQ: u8 := 0x0A
  const IJGT: u8 := 0x0B
  const IJGE: u8 := 0x0C
  const IJLT: u8 := 0x0D
  const IJLE: u8 := 0x0E
  // binary arithmetic instructions
  const AND: u8 := 0x0F
  const OR: u8 := 0x10
  const XOR: u8 := 0x11
  const NOT: u8 := 0x12
  const RSFT: u8 := 0x13
  const LSFT: u8 := 0x14
  // integer arithmetic instructions
  const IADD: u8 := 0x15
  const ISUB: u8 := 0x16
  const IMUL: u8 := 0x17
  const IDIV: u8 := 0x18
  const IMOD: u8 := 0x19
  // floating point arithmetic instructions
  const FADD: u8 := 0x1A
  const FSUB: u8 := 0x1B
  const FMUL: u8 := 0x1C
  const FDIV: u8 := 0x1D
  // call/return instructions
  const CALL: u8 := 0x1E
  const RET: u8 := 0x1F
  // immediate value instructions
  const ISET: u8 := 0x20
  const FSET: u8 := 0x21
  // move instructions
  const IMOV: u8 := 0x22
  const FMOV: u8 := 0x23
  const IMEQ: u8 := 0x24
  const IMNE: u8 := 0x25
  const IMLT: u8 := 0x26
  const IMLE: u8 := 0x27
  const IMGT: u8 := 0x28
  const IMGE: u8 := 0x29
  // end of execution
  const HALT: u8 := 0x2A

  /** The enum in declaration order. */
  const Opcodes: seq<u8> := [
    NOOP, IPSH, IPOP, FPSH, FPOP, IRDM, IWTM, FRDM, FWTM,
    JUMP, IJEQ, IJGT, IJGE, IJLT, IJLE,
    AND, OR, XOR, NOT, RSFT, LSFT,
    IADD, ISUB, IMUL, IDIV, IMOD,
    FADD, FSUB, FMUL, FDIV,
    CALL, RET, ISET, FSET,
    IMOV, FMOV, IMEQ, IMNE, IMLT, IMLE, IMGT, IMGE,
    HALT
  ]

  /** The opcodes the switch of instr_exec has a case for. */
  predicate Dispatched(op: u8) {
    op <= FSET || op == HALT
  }

  // ----- undefined behaviour of a dispatch -----

  /** The dispatch of `d` from state `m` stays clear of what the C leaves
      undefined: a stack or memory access past the last byte, a shift by 32
      or more, a division or remainder by zero. */
  predicate Defined(m: CpuSpec.Machine, d: Data) {
    var op := d[0];
    var sp := m.regs.rsp;
    if op == IPSH then CpuSpec.OpFits(sp, CpuSpec.IPushOp(R0(d)))
    else if op == IPOP then CpuSpec.OpFits(sp, CpuSpec.IPopOp(R0(d)))
    else if op == FPSH then CpuSpec.OpFits(sp, CpuSpec.FPushOp(R0(d)))
    else if op == FPOP then CpuSpec.OpFits(sp, CpuSpec.FPopOp(R0(d)))
    else if op == IRDM then R0(d) <= 7 ==> Fits16(S1(d))
    else if op == IWTM then Fits16(S1(d))
    else if op == FRDM then R0(d) <= 4 ==> Fits32(S1(d))
    else if op == FWTM then Fits32(S1(d))
    else if op == RSFT then ShiftAmount(d) < 32
    else if op == LSFT then CpuSpec.LeftShiftDefined(CpuSpec.IVal(m.regs, R0(d)), ShiftAmount(d))
    else if op == IDIV || op == IMOD then CpuSpec.IVal(m.regs, R1(d)) != 0
    else if op == CALL then CpuSpec.CallFits(sp)
    else if op == RET then CpuSpec.RetFits(sp)
    else true
  }

  // ----- the meaning of instr_exec, group by group -----

  /** Stack instructions: the register operand is R0. */
  function ExecStack(m: CpuSpec.Machine, d: Data): CpuSpec.Machine
    requires IPSH <= d[0] <= FPOP && Defined(m, d)
  {
    var op := d[0];
    if op == IPSH then CpuSpec.IPush(m, R0(d))
    else if op == IPOP then CpuSpec.IPop(m, R0(d))
    else if op == FPSH then CpuSpec.FPush(m, R0(d))
    else CpuSpec.FPop(m, R0(d))
  }

  /** Memory access instructions: register R0, address S1. */
  function ExecMemory(m: CpuSpec.Machine, d: Data): CpuSpec.Machine
    requires IRDM <= d[0] <= FWTM && Defined(m, d)
  {
    var op := d[0];
    if op == IRDM then CpuSpec.IRdMem(m, R0(d), S1(d))
    else if op == IWTM then CpuSpec.IWtMem(m, R0(d), S1(d))
    else if op == FRDM then CpuSpec.FRdMem(m, R0(d), S1(d))
    else CpuSpec.FWtMem(m, R0(d), S1(d))
  }

  /** Jump instructions: JUMP takes S0; the conditional jumps compare
      registers R0 and R1 and take the address S2. */
  function ExecJump(r: Regs, d: Data): Regs
    requires JUMP <= d[0] <= IJLE
  {
    var op := d[0];
    if op == JUMP then CpuSpec.Jmp(r, S0(d))
    else if op == IJEQ then CpuSpec.CondJump(r, CpuSpec.EQ, R0(d), R1(d), S2(d))
    else if op == IJGT then CpuSpec.CondJump(r, CpuSpec.GT, R0(d), R1(d), S2(d))
    else if op == IJGE then CpuSpec.CondJump(r, CpuSpec.GE, R0(d), R1(d), S2(d))
    else if op == IJLT then CpuSpec.CondJump(r, CpuSpec.LT, R0(d), R1(d), S2(d))
    else CpuSpec.CondJump(r, CpuSpec.LE, R0(d), R1(d), S2(d))
  }

  /** Binary arithmetic instructions: registers R0, R1; the shifts take
      S1 converted to unsigned char. */
  function ExecBitwise(r: Regs, d: Data): Regs
    requires AND <= d[0] <= LSFT
    requires d[0] == RSFT ==> ShiftAmount(d) < 32
    requires d[0] == LSFT ==> CpuSpec.LeftShiftDefined(CpuSpec.IVal(r, R0(d)), ShiftAmount(d))
  {
    var op := d[0];
    if op == AND then CpuSpec.And(r, R0(d), R1(d))
    else if op == OR then CpuSpec.Or(r, R0(d), R1(d))
    else if op == XOR then CpuSpec.Xor(r, R0(d), R1(d))
    else if op == NOT then CpuSpec.Not(r, R0(d))
    else if op == RSFT then CpuSpec.RShift(r, R0(d), ShiftAmount(d))
    else CpuSpec.LShift(r, R0(d), ShiftAmount(d))
  }

  /** Integer arithmetic instructions: registers R0, R1. */
  function ExecInteger(r: Regs, d: Data): Regs
    requires IADD <= d[0] <= IMOD
    requires d[0] == IDIV || d[0] == IMOD ==> CpuSpec.IVal(r, R1(d)) != 0
  {
    var op := d[0];
    if op == IADD then CpuSpec.IAdd(r, R0(d), R1(d))
    else if op == ISUB then CpuSpec.ISub(r, R0(d), R1(d))
    else if op == IMUL then CpuSpec.IMul(r, R0(d), R1(d))
    else if op == IDIV then CpuSpec.IDiv(r, R0(d), R1(d))
    else CpuSpec.IMod(r, R0(d), R1(d))
  }

  /** Floating point arithmetic instructions: registers R0, R1. */
  function ExecFloat(r: Regs, d: Data, fpu: CpuSpec.Fpu): Regs
    requires FADD <= d[0] <= FDIV
  {
    var op := d[0];
    var f :=
      if op == FADD then CpuSpec.FADD
      else if op == FSUB then CpuSpec.FSUB
      else if op == FMUL then CpuSpec.FMUL
      else CpuSpec.FDIV;
    CpuSpec.FArithmetic(r, fpu, f, R0(d), R1(d))
  }

  /** Call/return instructions: CALL takes S0. */
  function ExecCallRet(m: CpuSpec.Machine, d: Data): CpuSpec.Machine
    requires CALL <= d[0] <= RET && Defined(m, d)
  {
    if d[0] == CALL then CpuSpec.Call(m, S0(d)) else CpuSpec.Ret(m)
  }

  /** Immediate value instructions: ISET takes R0 and S1, FSET R0 and F. */
  function ExecImmediate(r: Regs, d: Data): Regs
    requires ISET <= d[0] <= FSET
  {
    if d[0] == ISET then CpuSpec.ISetR(r, R0(d), S1(d)) else CpuSpec.FSetR(r, R0(d), F(d))
  }

  /** instr_exec: the handler of the opcode in byte 0; HALT sets the halt
      sentinel, and every opcode without a case, the move instructions
      included, sets ERR_UNREC_INSTR. */
  function Effect(m: CpuSpec.Machine, d: Data, fpu: CpuSpec.Fpu): CpuSpec.Machine
    requires Defined(m, d)
  {
    var op := d[0];
    if op == NOOP then m
    else if op <= FPOP then ExecStack(m, d)
    else if op <= FWTM then ExecMemory(m, d)
    else if op <= IJLE then m.(regs := ExecJump(m.regs, d))
    else if op <= LSFT then m.(regs := ExecBitwise(m.regs, d))
    else if op <= IMOD then m.(regs := ExecInteger(m.regs, d))
    else if op <= FDIV then m.(regs := ExecFloat(m.regs, d, fpu))
    else if op <= RET then ExecCallRet(m, d)
    else if op <= FSET then m.(regs := ExecImmediate(m.regs, d))
    else if op == HALT then m.(regs := m.regs.(stc := CpuDefs.END_OF_EXECUTION))
    else m.(regs := m.regs.(stc := ERR_UNREC_INSTR))
  }

  // ----- properties of the layout -----

  /** The enum runs contiguously from NOOP = 0x00 to HALT = 0x2A. */
  lemma OpcodesContiguous()
    ensures |Opcodes| == HALT as int + 1
    ensures forall i :: 0 <= i < |Opcodes| ==> Opcodes[i] == i
  {
  }

  /** Every operand field lies inside the 6 bytes, and the formats of the
      layout comment overlay one another: S0 begins at R0, S1 at R1, S2 at
      R2, and the float field F spans bytes 2..5, starting with S1. */
  lemma FieldLayout(d: Data)
    ensures OFF_R3 + 1 <= INSTR_SIZE && OFF_S2 + 2 <= INSTR_SIZE && OFF_F + 4 == INSTR_SIZE
    ensures S0(d) == R0(d) + 0x100 * R1(d)
    ensures S1(d) == R1(d) + 0x100 * R2(d)
    ensures S2(d) == R2(d) + 0x100 * R3(d)
    ensures F(d) == S1(d) + 0x1_0000 * U16At(d, 4)
  {
  }

  /** The shift amount is the low byte of S1, that is byte R1. */
  lemma ShiftAmountIsR1(d: Data)
    ensures ShiftAmount(d) == R1(d)
  {
  }

  // ----- properties of the dispatch -----

  /** NOOP changes nothing. */
  lemma NoopChangesNothing(m: CpuSpec.Machine, d: Data, fpu: CpuSpec.Fpu)
    requires d[0] == NOOP
    ensures Defined(m, d) && Effect(m, d, fpu) == m
  {
  }

  /** HALT sets the halt sentinel and changes nothing else. */
  lemma HaltOnlySetsSentinel(m: CpuSpec.Machine, d: Data, fpu: CpuSpec.Fpu)
    requires d[0] == HALT
    ensures Defined(m, d)
    ensures Effect(m, d, fpu).mem == m.mem
    ensures Effect(m, d, fpu).regs == m.regs.(stc := CpuDefs.END_OF_EXECUTION)
  {
  }

  /** CALL runs cpucore_call with the address S0. */
  lemma CallDispatch(m: CpuSpec.Machine, d: Data, fpu: CpuSpec.Fpu)
    requires d[0] == CALL && CpuSpec.CallFits(m.regs.rsp)
    ensures Defined(m, d)
    ensures Effect(m, d, fpu) == CpuSpec.Call(m, S0(d))
  {
  }

  /** An opcode without a case (the move instructions 0x22..0x29 and every
      byte above HALT) sets ERR_UNREC_INSTR and changes nothing else; every
      other run of the switch reaches a handler. */
  lemma UndispatchedOpcodes(m: CpuSpec.Machine, d: Data, fpu: CpuSpec.Fpu)
    ensures !Dispatched(d[0]) <==> (IMOV <= d[0] <= IMGE || d[0] > HALT)
    ensures !Dispatched(d[0]) ==> Defined(m, d)
    ensures !Dispatched(d[0]) ==> Effect(m, d, fpu) == m.(regs := m.regs.(stc := ERR_UNREC_INSTR))
  {
  }

  /** Only IPSH, FPSH, IWTM, FWTM and CALL write memory. */
  lemma {:induction false} OnlyWritersWriteMemory(m: CpuSpec.Machine, d: Data, fpu: CpuSpec.Fpu)
    requires Defined(m, d)
    requires d[0] !in {IPSH, FPSH, IWTM, FWTM, CALL}
    ensures Effect(m, d, fpu).mem == m.mem
  {
    var op := d[0];
    if op == IPOP || op == FPOP {
      assert CpuSpec.ApplyOp(m, if op == IPOP then CpuSpec.IPopOp(R0(d)) else CpuSpec.FPopOp(R0(d))).mem == m.mem;
    } else if op == RET {
      CallRetKeepsMemory(m, d);
    }
  }

  /** ret only reads memory. */
  lemma CallRetKeepsMemory(m: CpuSpec.Machine, d: Data)
    requires d[0] == RET && Defined(m, d)
    ensures ExecCallRet(m, d).mem == m.mem
  {
    PopsKeepMemory(m, CpuSpec.RetPops, 0, |CpuSpec.RetPops|);
  }

  /** A run of pops leaves memory as it is. */
  lemma {:induction false} PopsKeepMemory(m: CpuSpec.Machine, ops: seq<CpuSpec.StackOp>, i: nat, j: nat)
    requires i <= j <= |ops| && CpuSpec.OpsFit(m.regs.rsp, ops, i, j)
    requires forall k :: i <= k < j ==> ops[k].IPopOp? || ops[k].FPopOp?
    ensures CpuSpec.RunOps(m, ops, i, j).mem == m.mem
    decreases j - i
  {
    if i < j {
      PopsKeepMemory(CpuSpec.ApplyOp(m, ops[i]), ops, i + 1, j);
    }
  }

  /** Every instruction but a jump, a call, a return, a pop or a load
      leaves rpc as the fetch-execute loop set it. */
  lemma {:induction false} KeepsRpc(m: CpuSpec.Machine, d: Data, fpu: CpuSpec.Fpu)
    requires Defined(m, d)
    requires !(JUMP <= d[0] <= IJLE) && d[0] !in {IPOP, IRDM, CALL, RET}
    ensures Effect(m, d, fpu).regs.rpc == m.regs.rpc
  {
    var op := d[0];
    if AND <= op <= LSFT {
      BitwiseKeepsRpc(m.regs, d);
    } else if IADD <= op <= IMOD {
      IntegerKeepsRpc(m.regs, d);
    } else if op == IPSH || op == FPSH || op == FPOP {
      StackKeepsRpc(m, d);
    }
  }

  lemma StackKeepsRpc(m: CpuSpec.Machine, d: Data)
    requires d[0] in {IPSH, FPSH, FPOP} && Defined(m, d)
    ensures ExecStack(m, d).regs.rpc == m.regs.rpc
  {
  }

  lemma BitwiseKeepsRpc(r: Regs, d: Data)
    requires AND <= d[0] <= LSFT
    requires d[0] == RSFT ==> ShiftAmount(d) < 32
    requires d[0] == LSFT ==> CpuSpec.LeftShiftDefined(CpuSpec.IVal(r, R0(d)), ShiftAmount(d))
    ensures ExecBitwise(r, d).rpc == r.rpc
  {
    var op := d[0];
    if op == AND || op == OR || op == XOR {
      var (a, b, r1) := CpuSpec.Read2(r, R0(d), R1(d));
      assert r1.rpc == r.rpc;
      var v := if op == AND then CpuSpec.BitAnd(a, b) else if op == OR then CpuSpec.BitOr(a, b) else CpuSpec.BitXor(a, b);
      StoreGeneralKeepsRpc(r1, R0(d), v, ERR_BIN_REGNOTALWD);
    } else {
      var (a, r1) := CpuSpec.GetIRegV(r, R0(d));
      var v := if op == NOT then CpuSpec.BitNot(a)
        else if op == RSFT then CpuSpec.ShiftRight(a, ShiftAmount(d)) else CpuSpec.ShiftLeft(a, ShiftAmount(d));
      StoreGeneralKeepsRpc(r1, R0(d), v, ERR_BIN_REGNOTALWD);
    }
  }

  /** The general destination switch never writes rpc. */
  lemma StoreGeneralKeepsRpc(r: Regs, dest: u8, v: u16, e: u8)
    ensures CpuSpec.StoreGeneral(r, dest, v, e).rpc == r.rpc
  {
  }

  lemma IntegerKeepsRpc(r: Regs, d: Data)
    requires IADD <= d[0] <= IMOD
    requires d[0] == IDIV || d[0] == IMOD ==> CpuSpec.IVal(r, R1(d)) != 0
    ensures ExecInteger(r, d).rpc == r.rpc
  {
  }

  // ----- group methods: the cases of the switch of instr_exec -----

  method StackCase(cpu: Cpu.CpuCore, sysmem: SysMem, d: Data)
    requires sysmem.Valid()
    requires IPSH <= d[0] <= FPOP && Defined(cpu.M(sysmem), d)
    modifies cpu, sysmem, sysmem.mem
    ensures sysmem.Valid()
    ensures cpu.M(sysmem) == ExecStack(old(cpu.M(sysmem)), d)
  {
    var op := d[0];
    if op == IPSH {
      cpu.IPush(sysmem, R0(d));
    } else if op == IPOP {
      cpu.IPop(sysmem, R0(d));
    } else if op == FPSH {
      cpu.FPush(sysmem, R0(d));
    } else {
      cpu.FPop(sysmem, R0(d));
    }
  }

  method MemoryCase(cpu: Cpu.CpuCore, sysmem: SysMem, d: Data)
    requires sysmem.Valid()
    requires IRDM <= d[0] <= FWTM && Defined(cpu.M(sysmem), d)
    modifies cpu, sysmem, sysmem.mem
    ensures sysmem.Valid()
    ensures cpu.M(sysmem) == ExecMemory(old(cpu.M(sysmem)), d)
  {
    var op := d[0];
    if op == IRDM {
      cpu.IRdMem(sysmem, R0(d), S1(d));
    } else if op == IWTM {
      cpu.IWtMem(sysmem, R0(d), S1(d));
    } else if op == FRDM {
      cpu.FRdMem(sysmem, R0(d), S1(d));
    } else {
      cpu.FWtMem(sysmem, R0(d), S1(d));
    }
  }

  method JumpCase(cpu: Cpu.CpuCore, d: Data)
    requires JUMP <= d[0] <= IJLE
    modifies cpu
    ensures cpu.State() == ExecJump(old(cpu.State()), d)
  {
    var op := d[0];
    if op == JUMP {
      cpu.Jmp(S0(d));
    } else if op == IJEQ {
      cpu.IJeq(R0(d), R1(d), S2(d));
    } else if op == IJGT {
      cpu.IJgt(R0(d), R1(d), S2(d));
    } else if op == IJGE {
      cpu.IJge(R0(d), R1(d), S2(d));
    } else if op == IJLT {
      cpu.IJlt(R0(d), R1(d), S2(d));
    } else {
      cpu.IJle(R0(d), R1(d), S2(d));
    }
  }

  method BitwiseCase(cpu: Cpu.CpuCore, d: Data)
    requires AND <= d[0] <= LSFT
    requires d[0] == RSFT ==> ShiftAmount(d) < 32
    requires d[0] == LSFT ==> CpuSpec.LeftShiftDefined(CpuSpec.IVal(cpu.State(), R0(d)), ShiftAmount(d))
    modifies cpu
    ensures cpu.State() == ExecBitwise(old(cpu.State()), d)
  {
    var op := d[0];
    if op == AND {
      cpu.And(R0(d), R1(d));
    } else if op == OR {
      cpu.Or(R0(d), R1(d));
    } else if op == XOR {
      cpu.Xor(R0(d), R1(d));
    } else if op == NOT {
      cpu.Not(R0(d));
    } else if op == RSFT {
      cpu.RShift(R0(d), ShiftAmount(d));
    } else {
      cpu.LShift(R0(d), ShiftAmount(d));
    }
  }

  method IntegerCase(cpu: Cpu.CpuCore, d: Data)
    requires IADD <= d[0] <= IMOD
    requires d[0] == IDIV || d[0] == IMOD ==> CpuSpec.IVal(cpu.State(), R1(d)) != 0
    modifies cpu
    ensures cpu.State() == ExecInteger(old(cpu.State()), d)
  {
    var op := d[0];
    if op == IADD {
      cpu.IAdd(R0(d), R1(d));
    } else if op == ISUB {
      cpu.ISub(R0(d), R1(d));
    } else if op == IMUL {
      cpu.IMul(R0(d), R1(d));
    } else if op == IDIV {
      cpu.IDiv(R0(d), R1(d));
    } else {
      cpu.IMod(R0(d), R1(d));
    }
  }

  method FloatCase(cpu: Cpu.CpuCore, d: Data, fpu: CpuSpec.Fpu)
    requires FADD <= d[0] <= FDIV
    modifies cpu
    ensures cpu.State() == ExecFloat(old(cpu.State()), d, fpu)
  {
    var op := d[0];
    if op == FADD {
      cpu.FAdd(fpu, R0(d), R1(d));
    } else if op == FSUB {
      cpu.FSub(fpu, R0(d), R1(d));
    } else if op == FMUL {
      cpu.FMul(fpu, R0(d), R1(d));
    } else {
      cpu.FDiv(fpu, R0(d), R1(d));
    }
  }

  method CallRetCase(cpu: Cpu.CpuCore, sysmem: SysMem, d: Data)
    requires sysmem.Valid()
    requires CALL <= d[0] <= RET && Defined(cpu.M(sysmem), d)
    modifies cpu, sysmem, sysmem.mem
    ensures sysmem.Valid()
    ensures cpu.M(sysmem) == ExecCallRet(old(cpu.M(sysmem)), d)
  {
    if d[0] == CALL {
      cpu.Call(sysmem, S0(d));
    } else {
      cpu.Ret(sysmem);
    }
  }

  method ImmediateCase(cpu: Cpu.CpuCore, d: Data)
    requires ISET <= d[0] <= FSET
    modifies cpu
    ensures cpu.State() == ExecImmediate(old(cpu.State()), d)
  {
    if d[0] == ISET {
      cpu.ISetR(R0(d), S1(d));
    } else {
      cpu.FSetR(R0(d), F(d));
    }
  }

  /** `instr_t`: the 6-byte buffer the fetch-execute loop refills. */
  class Instr {
    const data: array<u8>

    predicate Valid()
      reads this
    {
      data.Length == INSTR_SIZE
    }

    /** A fresh buffer. The C's `instr_t` is an uninitialized local; the
        loop zeroes and refills it before every use. */
    constructor ()
      ensures Valid() && fresh(data)
    {
      data := new u8[INSTR_SIZE];
    }

    /** instr_zero: every byte becomes 0. */
    method Zero()
      requires Valid()
      modifies data
      ensures data[..] == [0, 0, 0, 0, 0, 0]
    {
      for i := 0 to INSTR_SIZE
        invariant forall k :: 0 <= k < i ==> data[k] == 0
      {
        data[i] := 0;
      }
    }

    /** instr_fetch: copy the 6 bytes at `addr`; memory is only read. The
        copy of bytes past the last address is undefined, hence the bound. */
    method Fetch(sysmem: SysMem, addr: memaddr)
      requires Valid() && sysmem.Valid() && data != sysmem.mem
      requires addr as int + INSTR_SIZE <= MEM_SIZE
      modifies data
      ensures sysmem.Valid()
      ensures data[..] == sysmem.Contents()[addr..addr as int + INSTR_SIZE]
    {
      for i := 0 to INSTR_SIZE
        invariant forall k :: 0 <= k < i ==> data[k] == sysmem.mem[addr as int + k]
      {
        data[i] := sysmem.mem[addr as int + i];
      }
    }

    /** instr_exec: dispatch on byte 0. */
    method Exec(cpu: Cpu.CpuCore, sysmem: SysMem, fpu: CpuSpec.Fpu)
      requires Valid() && sysmem.Valid() && data != sysmem.mem
      requires Defined(cpu.M(sysmem), data[..])
      modifies cpu, sysmem, sysmem.mem
      ensures sysmem.Valid()
      ensures data[..] == old(data[..])
      ensures cpu.M(sysmem) == Effect(old(cpu.M(sysmem)), data[..], fpu)
    {
      var d: Data := data[..];
      var op := d[0];
      if op == NOOP {
      } else if op <= FPOP {
        StackCase(cpu, sysmem, d);
      } else if op <= FWTM {
        MemoryCase(cpu, sysmem, d);
      } else if op <= IJLE {
        JumpCase(cpu, d);
      } else if op <= LSFT {
        BitwiseCase(cpu, d);
      } else if op <= IMOD {
        IntegerCase(cpu, d);
      } else if op <= FDIV {
        FloatCase(cpu, d, fpu);
      } else if op <= RET {
        CallRetCase(cpu, sysmem, d);
      } else if op <= FSET {
        ImmediateCase(cpu, d);
      } else if op == HALT {
        cpu.stc := CpuDefs.END_OF_EXECUTION;
      } else {
        cpu.stc := ERR_UNREC_INSTR;
      }
    }
  }
}
