/** The meaning of every handler of cpu.c as a function from the machine
    state before the call to the state after it. The in-place handlers of
    Cpu.CpuCore are proved to compute exactly these functions, and the
    properties of the handlers are proved about these functions in
    module CpuProps.

    Behaviour the C leaves undefined appears as a precondition: a memory
    access that runs past the last byte of the 0x10000-byte array, a
    division or remainder by zero, a shift by 32 or more. */
module CpuSpec {

  import opened Word
  import opened Errors
  import opened Memory
  import opened CpuDefs
  import opened Wrappers

  /** Register file and system memory together. */
  datatype Machine = Machine(regs: Regs, mem: Mem)

  /** The four float operations of the instruction set. */
  datatype FArith = FADD | FSUB | FMUL | FDIV

  /** IEEE single-precision arithmetic on bit patterns: `fpu(op, a, b)` is
      the pattern of `a op b`. The numerics are not modelled; the handlers
      only route registers and status codes around it. */
  type Fpu = (FArith, u32, u32) -> u32

  /** The six comparisons of the conditional jumps and moves, all on the
      unsigned 16-bit values of the registers. */
  datatype Cond = EQ | NE | GT | GE | LT | LE

  predicate Holds(c: Cond, a: u16, b: u16) {
    match c
    case EQ => a == b
    case NE => a != b
    case GT => a > b
    case GE => a >= b
    case LT => a < b
    case LE => a <= b
  }

  // register ids that the handlers name explicitly
  const ID_RPC: u8 := 0
  const ID_RSP: u8 := 1
  const ID_RBP: u8 := 2
  const ID_IA0: u8 := 3
  const ID_IA1: u8 := 4
  const ID_IA2: u8 := 5
  const ID_IA3: u8 := 6
  const ID_FA0: u8 := 0
  const ID_FA1: u8 := 1
  const ID_FA2: u8 := 2
  const ID_FA3: u8 := 3

  /** cpucore_init: status 0, rpc at RPC_INIT, rsp and rbp at RSP_INIT,
      every other register 0 (the float 0.0 has the all-zero pattern). */
  function Init(): Regs {
    Regs(0, RPC_INIT, RSP_INIT, RSP_INIT, 0, 0, 0, 0, 0, 0, 0, 0, 0, 0)
  }

  /** cpucore_getiregv: the value of register `id`, and the registers
      afterwards (an unrecognized id sets ERR_UNREC_IREG and reads 0). */
  function GetIRegV(r: Regs, id: u8): (u16, Regs) {
    match IRegOf(id)
    case Some(x) => (GetI(r, x), r)
    case None => (0, r.(stc := ERR_UNREC_IREG))
  }

  /** cpucore_getfregv: likewise for the float registers. */
  function GetFRegV(r: Regs, id: u8): (u32, Regs) {
    match FRegOf(id)
    case Some(x) => (GetF(r, x), r)
    case None => (0, r.(stc := ERR_UNREC_FREG))
  }

  /** The value `getiregv` returns, without its effect on the status. */
  function IVal(r: Regs, id: u8): u16 {
    GetIRegV(r, id).0
  }

  function FVal(r: Regs, id: u8): u32 {
    GetFRegV(r, id).0
  }

  /** Two `getiregv` calls in one expression. Both can only set the status
      to ERR_UNREC_IREG, so the order C leaves unspecified does not matter. */
  function Read2(r: Regs, a: u8, b: u8): (u16, u16, Regs) {
    var (va, r1) := GetIRegV(r, a);
    var (vb, r2) := GetIRegV(r1, b);
    (va, vb, r2)
  }

  /** The destination switch shared by the bitwise, multiplicative,
      immediate and move handlers: rpc, rsp and rbp are refused with
      `notAllowed`, ia0..irv receive `v`, any other id is unrecognized. */
  function StoreGeneral(r: Regs, dest: u8, v: u16, notAllowed: u8): Regs {
    match dest
    case 0 => r.(stc := notAllowed)
    case 1 => r.(stc := notAllowed)
    case 2 => r.(stc := notAllowed)
    case 3 => r.(ia0 := v)
    case 4 => r.(ia1 := v)
    case 5 => r.(ia2 := v)
    case 6 => r.(ia3 := v)
    case 7 => r.(irv := v)
    case _ => r.(stc := ERR_UNREC_IREG)
  }

  /** The destination switch of iadd and isub: only rpc is refused. */
  function StoreArith(r: Regs, dest: u8, v: u16, notAllowed: u8): Regs {
    match dest
    case 0 => r.(stc := notAllowed)
    case 1 => r.(rsp := v)
    case 2 => r.(rbp := v)
    case 3 => r.(ia0 := v)
    case 4 => r.(ia1 := v)
    case 5 => r.(ia2 := v)
    case 6 => r.(ia3 := v)
    case 7 => r.(irv := v)
    case _ => r.(stc := ERR_UNREC_IREG)
  }

  // ----- bit-level helpers on unsigned short -----

  function BitAnd(a: u16, b: u16): u16 { ((a as bv16) & (b as bv16)) as int }
  function BitOr(a: u16, b: u16): u16 { ((a as bv16) | (b as bv16)) as int }
  function BitXor(a: u16, b: u16): u16 { ((a as bv16) ^ (b as bv16)) as int }
  function BitNot(a: u16): u16 { (!(a as bv16)) as int }

  /** `(unsigned short) (a >> k)` on the int-promoted value. */
  function ShiftRight(a: u16, k: u8): u16
    requires k < 32
  {
    ((a as bv32) >> k) as int % 0x1_0000
  }

  /** 2^k. */
  function Pow2(k: nat): nat {
    if k == 0 then 1 else 2 * Pow2(k - 1)
  }

  /** `a << k` on the int-promoted value is defined in C only when k is
      below the width of int and a * 2^k still fits in a 32-bit signed int. */
  predicate LeftShiftDefined(a: u16, k: u8) {
    k < 32 && a * Pow2(k) <= 0x7FFF_FFFF
  }

  /** `(unsigned short) (a << k)` on the int-promoted value. */
  function ShiftLeft(a: u16, k: u8): u16
    requires LeftShiftDefined(a, k)
  {
    a * Pow2(k) % 0x1_0000
  }

  // ----- stack instructions -----

  /** cpucore_ipush. The pointer first drops by 2; pushing rsp is refused
      and restores it; otherwise the register's value is written at the new
      rsp and the status becomes the write's status, which is always 0 (it
      also clears an ERR_UNREC_IREG set while reading an unrecognized id). */
  function IPush(m: Machine, id: u8): (m': Machine)
    requires id != ID_RSP ==> Fits16(Sub16(m.regs.rsp, 2))
    ensures m'.regs.rsp == if id == ID_RSP then m.regs.rsp else Sub16(m.regs.rsp, 2)
  {
    var sp := Sub16(m.regs.rsp, 2);
    if id == ID_RSP then
      m.(regs := m.regs.(stc := ERR_IPUSH_RSP, rsp := Add16(sp, 2)))
    else
      var (v, r1) := GetIRegV(m.regs.(rsp := sp), id);
      Machine(r1.(stc := AccessStatus(sp)), Store16(m.mem, sp, v))
  }

  /** cpucore_ipop. Recognized ids other than rsp receive the 2 bytes at
      rsp, with status 0; rsp and unrecognized ids set an error. In every
      case rsp ends 2 higher than the value it read from, so the error
      cases leave it where it was. */
  function IPop(m: Machine, id: u8): (m': Machine)
    requires id <= 7 && id != ID_RSP ==> Fits16(m.regs.rsp)
    ensures m'.regs.rsp == if id <= 7 && id != ID_RSP then Add16(m.regs.rsp, 2) else m.regs.rsp
  {
    var r := m.regs;
    var r1 :=
      match IRegOf(id)
      case Some(RSP) => r.(stc := ERR_IPOP_RSP, rsp := Sub16(r.rsp, 2))
      case Some(x) => SetI(r, x, Load16(m.mem, r.rsp)).(stc := AccessStatus(r.rsp))
      case None => r.(stc := ERR_UNREC_IREG, rsp := Sub16(r.rsp, 2));
    m.(regs := r1.(rsp := Add16(r1.rsp, 2)))
  }

  /** cpucore_fpush: rsp drops by 4 and the float register's pattern is
      written there; the status becomes the write's status whatever the id. */
  function FPush(m: Machine, id: u8): (m': Machine)
    requires Fits32(Sub16(m.regs.rsp, 4))
    ensures m'.regs.rsp == Sub16(m.regs.rsp, 4)
  {
    var sp := Sub16(m.regs.rsp, 4);
    var (v, r1) := GetFRegV(m.regs.(rsp := sp), id);
    Machine(r1.(stc := AccessStatus(sp)), Store32(m.mem, sp, v))
  }

  /** cpucore_fpop. */
  function FPop(m: Machine, id: u8): (m': Machine)
    requires id <= 4 ==> Fits32(m.regs.rsp)
    ensures m'.regs.rsp == if id <= 4 then Add16(m.regs.rsp, 4) else m.regs.rsp
  {
    var r := m.regs;
    var r1 :=
      match FRegOf(id)
      case Some(x) => SetF(r, x, Load32(m.mem, r.rsp)).(stc := AccessStatus(r.rsp))
      case None => r.(stc := ERR_UNREC_FREG, rsp := Sub16(r.rsp, 4));
    m.(regs := r1.(rsp := Add16(r1.rsp, 4)))
  }

  // ----- memory access instructions -----

  /** cpucore_irdmem: every recognized register, rpc and rsp included, may
      be loaded from memory. */
  function IRdMem(m: Machine, id: u8, addr: memaddr): Machine
    requires id <= 7 ==> Fits16(addr)
  {
    match IRegOf(id)
    case Some(x) => m.(regs := SetI(m.regs, x, Load16(m.mem, addr)).(stc := AccessStatus(addr)))
    case None => m.(regs := m.regs.(stc := ERR_UNREC_IREG))
  }

  /** cpucore_iwtmem: the write's status is dropped, so the status changes
      only through `getiregv` (and an unrecognized id stores 0). */
  function IWtMem(m: Machine, id: u8, addr: memaddr): Machine
    requires Fits16(addr)
  {
    var (v, r1) := GetIRegV(m.regs, id);
    Machine(r1, Store16(m.mem, addr, v))
  }

  /** cpucore_frdmem. */
  function FRdMem(m: Machine, id: u8, addr: memaddr): Machine
    requires id <= 4 ==> Fits32(addr)
  {
    match FRegOf(id)
    case Some(x) => m.(regs := SetF(m.regs, x, Load32(m.mem, addr)).(stc := AccessStatus(addr)))
    case None => m.(regs := m.regs.(stc := ERR_UNREC_FREG))
  }

  /** cpucore_fwtmem. */
  function FWtMem(m: Machine, id: u8, addr: memaddr): Machine
    requires Fits32(addr)
  {
    var (v, r1) := GetFRegV(m.regs, id);
    Machine(r1, Store32(m.mem, addr, v))
  }

  // ----- jump instructions -----

  /** cpucore_jmp: the address check can never fire. */
  function Jmp(r: Regs, addr: memaddr): Regs {
    if addr > SYSMEM_MAX_ADDR then r.(stc := ERR_SMEM_MAXADR) else r.(rpc := addr)
  }

  /** cpucore_ij{eq,gt,ge,lt,le}: comparing a register id with itself is an
      error; otherwise jump when the comparison holds. */
  function CondJump(r: Regs, c: Cond, a: u8, b: u8, addr: memaddr): Regs {
    if a == b then r.(stc := ERR_IREG_CMPTOSELF)
    else
      var (va, vb, r1) := Read2(r, a, b);
      if Holds(c, va, vb) then Jmp(r1, addr) else r1
  }

  // ----- binary arithmetic instructions -----

  function And(r: Regs, d: u8, s: u8): Regs {
    var (a, b, r1) := Read2(r, d, s);
    StoreGeneral(r1, d, BitAnd(a, b), ERR_BIN_REGNOTALWD)
  }

  function Or(r: Regs, d: u8, s: u8): Regs {
    var (a, b, r1) := Read2(r, d, s);
    StoreGeneral(r1, d, BitOr(a, b), ERR_BIN_REGNOTALWD)
  }

  function Xor(r: Regs, d: u8, s: u8): Regs {
    var (a, b, r1) := Read2(r, d, s);
    StoreGeneral(r1, d, BitXor(a, b), ERR_BIN_REGNOTALWD)
  }

  function Not(r: Regs, d: u8): Regs {
    var (a, r1) := GetIRegV(r, d);
    StoreGeneral(r1, d, BitNot(a), ERR_BIN_REGNOTALWD)
  }

  function RShift(r: Regs, d: u8, k: u8): Regs
    requires k < 32
  {
    var (a, r1) := GetIRegV(r, d);
    StoreGeneral(r1, d, ShiftRight(a, k), ERR_BIN_REGNOTALWD)
  }

  function LShift(r: Regs, d: u8, k: u8): Regs
    requires LeftShiftDefined(IVal(r, d), k)
  {
    var (a, r1) := GetIRegV(r, d);
    StoreGeneral(r1, d, ShiftLeft(a, k), ERR_BIN_REGNOTALWD)
  }

  // ----- integer arithmetic instructions -----

  /** cpucore_iadd: the sum is computed in unsigned int; above 0xFFFF it is
      replaced by 0xFFFF and ERR_IADD_OVRFLW is set before the store. */
  function IAdd(r: Regs, d: u8, s: u8): Regs {
    var (a, b, r1) := Read2(r, d, s);
    var sum := a + b;
    var r2 := if sum > 0xFFFF then r1.(stc := ERR_IADD_OVRFLW) else r1;
    StoreArith(r2, d, if sum > 0xFFFF then 0xFFFF else sum, ERR_IADD_REGNOTALWD)
  }

  /** cpucore_isub: the difference is converted back to unsigned short. */
  function ISub(r: Regs, d: u8, s: u8): Regs {
    var (a, b, r1) := Read2(r, d, s);
    StoreArith(r1, d, Sub16(a, b), ERR_ISUB_REGNOTALWD)
  }

  /** cpucore_imul: saturating like iadd; its refusal code is the one
      iadd uses, ERR_IADD_REGNOTALWD. */
  /** The product computed in unsigned int; both factors are below 2^16,
      so it never wraps. */
  function Product(a: u16, b: u16): nat {
    a * b
  }

  function IMul(r: Regs, d: u8, s: u8): Regs {
    var (a, b, r1) := Read2(r, d, s);
    var prod := Product(a, b);
    var r2 := if prod > 0xFFFF then r1.(stc := ERR_IMUL_OVRFLW) else r1;
    StoreGeneral(r2, d, if prod > 0xFFFF then 0xFFFF else prod, ERR_IADD_REGNOTALWD)
  }

  function IDiv(r: Regs, d: u8, s: u8): Regs
    requires IVal(r, s) != 0
  {
    var (a, b, r1) := Read2(r, d, s);
    StoreGeneral(r1, d, a / b, ERR_IDIV_REGNOTALWD)
  }

  function IMod(r: Regs, d: u8, s: u8): Regs
    requires IVal(r, s) != 0
  {
    var (a, b, r1) := Read2(r, d, s);
    StoreGeneral(r1, d, a % b, ERR_IMOD_REGNOTALWD)
  }

  // ----- floating point arithmetic instructions (numerics abstracted) -----

  /** cpucore_f{add,sub,mul,div}: `d := d op s` on float registers. */
  function FArithmetic(r: Regs, fpu: Fpu, op: FArith, d: u8, s: u8): Regs {
    var (b, r1) := GetFRegV(r, s);
    match FRegOf(d)
    case Some(x) => SetF(r1, x, fpu(op, GetF(r1, x), b))
    case None => r1.(stc := ERR_UNREC_FREG)
  }

  // ----- call/return instructions -----

  /** One stack operation of call or ret, with the register id it names. */
  datatype StackOp = IPushOp(id: u8) | FPushOp(id: u8) | IPopOp(id: u8) | FPopOp(id: u8)

  /** The stack pointer after `op`, as the push and pop handlers leave it. */
  function SpAfter(sp: u16, op: StackOp): u16 {
    match op
    case IPushOp(id) => if id == ID_RSP then sp else Sub16(sp, 2)
    case FPushOp(_) => Sub16(sp, 4)
    case IPopOp(id) => if id <= 7 && id != ID_RSP then Add16(sp, 2) else sp
    case FPopOp(id) => if id <= 4 then Add16(sp, 4) else sp
  }

  /** The memory access of `op` with the stack pointer at `sp` stays inside
      memory. */
  predicate OpFits(sp: u16, op: StackOp) {
    match op
    case IPushOp(id) => id != ID_RSP ==> Fits16(Sub16(sp, 2))
    case FPushOp(_) => Fits32(Sub16(sp, 4))
    case IPopOp(id) => id <= 7 && id != ID_RSP ==> Fits16(sp)
    case FPopOp(id) => id <= 4 ==> Fits32(sp)
  }

  function ApplyOp(m: Machine, op: StackOp): (m': Machine)
    requires OpFits(m.regs.rsp, op)
    ensures m'.regs.rsp == SpAfter(m.regs.rsp, op)
  {
    match op
    case IPushOp(id) => IPush(m, id)
    case FPushOp(id) => FPush(m, id)
    case IPopOp(id) => IPop(m, id)
    case FPopOp(id) => FPop(m, id)
  }

  /** Every access of `ops[i..j]`, run from stack pointer `sp`, stays
      inside memory. */
  predicate OpsFit(sp: u16, ops: seq<StackOp>, i: nat, j: nat)
    requires i <= j <= |ops|
    decreases j - i
  {
    i == j || (OpFits(sp, ops[i]) && OpsFit(SpAfter(sp, ops[i]), ops, i + 1, j))
  }

  /** The operations `ops[i..j]` carried out one after the other. */
  function RunOps(m: Machine, ops: seq<StackOp>, i: nat, j: nat): Machine
    requires i <= j <= |ops| && OpsFit(m.regs.rsp, ops, i, j)
    decreases j - i
  {
    if i == j then m else RunOps(ApplyOp(m, ops[i]), ops, i + 1, j)
  }

  /** Running `ops[i..j]` is running `ops[i]`, then the rest from the state
      that leaves. */
  lemma RunOpsSplit(m: Machine, ops: seq<StackOp>, i: nat, j: nat)
    requires i < j <= |ops| && OpsFit(m.regs.rsp, ops, i, j)
    ensures OpFits(m.regs.rsp, ops[i])
    ensures OpsFit(ApplyOp(m, ops[i]).regs.rsp, ops, i + 1, j)
    ensures RunOps(m, ops, i, j) == RunOps(ApplyOp(m, ops[i]), ops, i + 1, j)
  {
  }

  /** Running `ops[i..k]` is running `ops[i..j]`, then `ops[j..k]`. */
  lemma {:induction false} RunOpsCompose(m: Machine, ops: seq<StackOp>, i: nat, j: nat, k: nat)
    requires i <= j <= k <= |ops| && OpsFit(m.regs.rsp, ops, i, k)
    ensures OpsFit(m.regs.rsp, ops, i, j)
    ensures OpsFit(RunOps(m, ops, i, j).regs.rsp, ops, j, k)
    ensures RunOps(m, ops, i, k) == RunOps(RunOps(m, ops, i, j), ops, j, k)
    decreases j - i
  {
    if i < j {
      RunOpsCompose(ApplyOp(m, ops[i]), ops, i + 1, j, k);
    }
  }

  /** What cpucore_call pushes, in order: rbp, ia0..ia3, fa0..fa3, then rpc
      (which the fetch-execute loop has already advanced past the call). */
  const CallPushes: seq<StackOp> := [
    IPushOp(ID_RBP), IPushOp(ID_IA0), IPushOp(ID_IA1), IPushOp(ID_IA2), IPushOp(ID_IA3),
    FPushOp(ID_FA0), FPushOp(ID_FA1), FPushOp(ID_FA2), FPushOp(ID_FA3),
    IPushOp(ID_RPC)
  ]

  /** What cpucore_ret pops, in order: rpc, fa3..fa0, ia3..ia0, rbp. */
  const RetPops: seq<StackOp> := [
    IPopOp(ID_RPC),
    FPopOp(ID_FA3), FPopOp(ID_FA2), FPopOp(ID_FA1), FPopOp(ID_FA0),
    IPopOp(ID_IA3), IPopOp(ID_IA2), IPopOp(ID_IA1), IPopOp(ID_IA0), IPopOp(ID_RBP)
  ]

  predicate CallFits(sp: u16) { OpsFit(sp, CallPushes, 0, |CallPushes|) }

  predicate RetFits(sp: u16) { OpsFit(sp, RetPops, 0, |RetPops|) }

  /** cpucore_call: the ten pushes, then a jump to `addr`. */
  function Call(m: Machine, addr: memaddr): Machine
    requires CallFits(m.regs.rsp)
  {
    var m' := RunOps(m, CallPushes, 0, |CallPushes|);
    m'.(regs := Jmp(m'.regs, addr))
  }

  /** cpucore_ret: the ten pops. */
  function Ret(m: Machine): Machine
    requires RetFits(m.regs.rsp)
  {
    RunOps(m, RetPops, 0, |RetPops|)
  }

  // ----- immediate value instructions -----

  function ISetR(r: Regs, d: u8, v: u16): Regs {
    StoreGeneral(r, d, v, ERR_IIMM_REGNOTALWD)
  }

  function FSetR(r: Regs, d: u8, v: u32): Regs {
    match FRegOf(d)
    case Some(x) => SetF(r, x, v)
    case None => r.(stc := ERR_UNREC_FREG)
  }

  // ----- move instructions -----

  /** cpucore_imov: move register `src` into register `dst`. */
  function IMov(r: Regs, src: u8, dst: u8): Regs {
    var (v, r1) := GetIRegV(r, src);
    StoreGeneral(r1, dst, v, ERR_IMOV_REGNOTALWD)
  }

  function FMov(r: Regs, src: u8, dst: u8): Regs {
    var (v, r1) := GetFRegV(r, src);
    match FRegOf(dst)
    case Some(x) => SetF(r1, x, v)
    case None => r1.(stc := ERR_UNREC_FREG)
  }

  /** cpucore_imv{eq,ne,lt,le,gt,ge}: move `src` into `dst` when the
      comparison of registers `a` and `b` holds. */
  function CondMove(r: Regs, c: Cond, src: u8, dst: u8, a: u8, b: u8): Regs {
    if a == b then r.(stc := ERR_IREG_CMPTOSELF)
    else
      var (va, vb, r1) := Read2(r, a, b);
      if Holds(c, va, vb) then IMov(r1, src, dst) else r1
  }
}
