/** Properties of the CPU handlers, proved about their functional meaning
    in CpuSpec (and so, through the postconditions of Cpu.CpuCore, about
    the in-place handlers). */
module CpuProps {

  import opened Word
  import opened Errors
  import opened Memory
  import opened CpuDefs
  import opened Wrappers
  import opened CpuSpec

  // ----- register access -----

  /** Reading a recognized register yields its value and changes nothing;
      reading any other id yields 0 and sets ERR_UNREC_IREG. */
  lemma GetIRegVCases(r: Regs, id: u8)
    ensures id <= 7 ==> GetIRegV(r, id) == (GetI(r, IRegOf(id).value), r)
    ensures id > 7 ==> GetIRegV(r, id) == (0, r.(stc := ERR_UNREC_IREG))
  {
  }

  lemma GetFRegVCases(r: Regs, id: u8)
    ensures id <= 4 ==> GetFRegV(r, id) == (GetF(r, FRegOf(id).value), r)
    ensures id > 4 ==> GetFRegV(r, id) == (0, r.(stc := ERR_UNREC_FREG))
  {
  }

  // ----- push and pop -----

  /** Pushing a recognized register other than rsp moves rsp down by 2,
      writes the register's value at the new rsp, clears the status and
      changes nothing else. */
  lemma IPushEffect(m: Machine, id: u8)
    requires id <= 7 && id != ID_RSP && Fits16(Sub16(m.regs.rsp, 2))
    ensures IRegOf(id).Some?
    ensures IPush(m, id).regs == m.regs.(stc := 0, rsp := Sub16(m.regs.rsp, 2))
    ensures IPush(m, id).mem == Store16(m.mem, Sub16(m.regs.rsp, 2), GetI(m.regs, IRegOf(id).value))
  {
  }

  /** Pushing rsp is refused: only the status changes. */
  lemma IPushRspRefused(m: Machine)
    ensures IPush(m, ID_RSP) == m.(regs := m.regs.(stc := ERR_IPUSH_RSP))
  {
  }

  /** Pushing an unrecognized id is not an error: the read's ERR_UNREC_IREG
      is overwritten by the write's status, and 0 is pushed. */
  lemma IPushUnrecognized(m: Machine, id: u8)
    requires id > 7 && Fits16(Sub16(m.regs.rsp, 2))
    ensures IPush(m, id).regs == m.regs.(stc := 0, rsp := Sub16(m.regs.rsp, 2))
    ensures IPush(m, id).mem == Store16(m.mem, Sub16(m.regs.rsp, 2), 0)
  {
  }

  /** Popping into a recognized register other than rsp loads the 2 bytes
      at rsp, moves rsp up by 2, clears the status and leaves memory. */
  lemma IPopEffect(m: Machine, id: u8)
    requires id <= 7 && id != ID_RSP && Fits16(m.regs.rsp)
    ensures IRegOf(id).Some?
    ensures IPop(m, id).regs ==
      SetI(m.regs, IRegOf(id).value, Load16(m.mem, m.regs.rsp)).(stc := 0, rsp := Add16(m.regs.rsp, 2))
    ensures IPop(m, id).mem == m.mem
  {
  }

  /** Popping into rsp or an unrecognized id sets an error and leaves rsp,
      every other register and memory as they were. */
  lemma IPopRefused(m: Machine, id: u8)
    requires id == ID_RSP || id > 7
    ensures IPop(m, id) == m.(regs := m.regs.(stc := if id == ID_RSP then ERR_IPOP_RSP else ERR_UNREC_IREG))
  {
  }

  /** `ipush a; ipop b` copies register a into register b (b may equal a,
      which restores it), with status 0 and rsp back where it was. */
  lemma IPushPop(m: Machine, a: u8, b: u8)
    requires a <= 7 && a != ID_RSP && b <= 7 && b != ID_RSP
    requires Fits16(Sub16(m.regs.rsp, 2))
    ensures IRegOf(a).Some? && IRegOf(b).Some?
    ensures IPop(IPush(m, a), b).regs ==
      SetI(m.regs, IRegOf(b).value, GetI(m.regs, IRegOf(a).value)).(stc := 0)
  {
    var sp := Sub16(m.regs.rsp, 2);
    var x := IRegOf(a).value;
    Load16Store16(m.mem, sp, GetI(m.regs, x));
    Add16Sub16Cancel(m.regs.rsp, 2);
  }

  /** Pushing and popping the same register restores the register file up
      to the status. */
  lemma IPushPopRoundTrip(m: Machine, id: u8)
    requires id <= 7 && id != ID_RSP && Fits16(Sub16(m.regs.rsp, 2))
    ensures IPop(IPush(m, id), id).regs == m.regs.(stc := 0)
  {
    IPushPop(m, id, id);
    var x := IRegOf(id).value;
    assert SetI(m.regs, x, GetI(m.regs, x)) == m.regs by {
      assert x.RPC? || x.RSP? || x.RBP? || x.IA0? || x.IA1? || x.IA2? || x.IA3? || x.IRV?;
    }
  }

  /** Pushing a float register moves rsp down by 4 and writes its pattern
      there; an unrecognized id pushes 0 and also clears the status. */
  lemma FPushEffect(m: Machine, id: u8)
    requires Fits32(Sub16(m.regs.rsp, 4))
    ensures FPush(m, id).regs == m.regs.(stc := 0, rsp := Sub16(m.regs.rsp, 4))
    ensures FPush(m, id).mem ==
      Store32(m.mem, Sub16(m.regs.rsp, 4), if id <= 4 then GetF(m.regs, FRegOf(id).value) else 0)
  {
  }

  /** Popping a recognized float register loads the 4 bytes at rsp; an
      unrecognized id only sets ERR_UNREC_FREG. */
  lemma FPopEffect(m: Machine, id: u8)
    requires id <= 4 ==> Fits32(m.regs.rsp)
    ensures id <= 4 ==> FRegOf(id).Some?
    ensures id <= 4 ==> FPop(m, id).regs == SetF(m.regs, FRegOf(id).value, Load32(m.mem, m.regs.rsp)).(stc := 0, rsp := Add16(m.regs.rsp, 4))
    ensures id > 4 ==> FPop(m, id).regs == m.regs.(stc := ERR_UNREC_FREG)
    ensures FPop(m, id).mem == m.mem
  {
  }

  /** Pushing and popping the same float register restores the register file
      up to the status. */
  lemma FPushPopRoundTrip(m: Machine, id: u8)
    requires id <= 4 && Fits32(Sub16(m.regs.rsp, 4))
    ensures FPop(FPush(m, id), id).regs == m.regs.(stc := 0)
  {
    var sp := Sub16(m.regs.rsp, 4);
    var x := FRegOf(id).value;
    Load32Store32(m.mem, sp, GetF(m.regs, x));
    Add16Sub16Cancel(m.regs.rsp, 4);
    assert x.FA0? || x.FA1? || x.FA2? || x.FA3? || x.FRV?;
  }

  // ----- memory access -----

  /** A register written to memory and loaded back into a register copies
      the value (the load's status is 0). */
  lemma IWtMemRdMem(m: Machine, a: u8, b: u8, addr: memaddr)
    requires a <= 7 && b <= 7 && Fits16(addr)
    ensures IRegOf(a).Some? && IRegOf(b).Some?
    ensures IRdMem(IWtMem(m, a, addr), b, addr).regs ==
      SetI(m.regs, IRegOf(b).value, GetI(m.regs, IRegOf(a).value)).(stc := 0)
  {
    Load16Store16(m.mem, addr, GetI(m.regs, IRegOf(a).value));
  }

  lemma FWtMemRdMem(m: Machine, a: u8, b: u8, addr: memaddr)
    requires a <= 4 && b <= 4 && Fits32(addr)
    ensures FRegOf(a).Some? && FRegOf(b).Some?
    ensures FRdMem(FWtMem(m, a, addr), b, addr).regs ==
      SetF(m.regs, FRegOf(b).value, GetF(m.regs, FRegOf(a).value)).(stc := 0)
  {
    Load32Store32(m.mem, addr, GetF(m.regs, FRegOf(a).value));
  }

  /** The write instructions drop the memory status: writing a recognized
      register leaves the whole register file, status included, unchanged. */
  lemma WtMemKeepsStatus(m: Machine, id: u8, addr: memaddr)
    requires Fits32(addr)
    ensures id <= 7 ==> IWtMem(m, id, addr).regs == m.regs
    ensures id <= 4 ==> FWtMem(m, id, addr).regs == m.regs
  {
  }

  /** rsp and rpc can be loaded from memory. */
  lemma IRdMemPointers(m: Machine, addr: memaddr)
    requires Fits16(addr)
    ensures IRdMem(m, ID_RSP, addr).regs == m.regs.(stc := 0, rsp := Load16(m.mem, addr))
    ensures IRdMem(m, ID_RPC, addr).regs == m.regs.(stc := 0, rpc := Load16(m.mem, addr))
  {
  }

  // ----- jumps -----

  /** The address check of jmp never fires: the jump is always taken. */
  lemma JmpAlwaysTaken(r: Regs, addr: memaddr)
    ensures Jmp(r, addr) == r.(rpc := addr)
  {
  }

  /** A conditional jump between two distinct recognized registers jumps
      exactly when the comparison holds and never touches the status. */
  lemma CondJumpTaken(r: Regs, c: Cond, a: u8, b: u8, addr: memaddr)
    requires a != b && a <= 7 && b <= 7
    ensures CondJump(r, c, a, b, addr) ==
      if Holds(c, IVal(r, a), IVal(r, b)) then r.(rpc := addr) else r
  {
  }

  /** An unrecognized comparand reads as 0 and sets ERR_UNREC_IREG, and
      the comparison of the values read still decides the jump. */
  lemma CondJumpUnknown(r: Regs, c: Cond, a: u8, b: u8, addr: memaddr)
    requires a != b && (a > 7 || b > 7)
    ensures var va := if a <= 7 then IVal(r, a) else 0;
      var vb := if b <= 7 then IVal(r, b) else 0;
      CondJump(r, c, a, b, addr) ==
        if Holds(c, va, vb) then r.(stc := ERR_UNREC_IREG, rpc := addr) else r.(stc := ERR_UNREC_IREG)
  {
  }

  /** Naming the same register twice is an error that changes nothing else. */
  lemma CondJumpSelf(r: Regs, c: Cond, a: u8, addr: memaddr)
    ensures CondJump(r, c, a, a, addr) == r.(stc := ERR_IREG_CMPTOSELF)
  {
  }

  /** The comparisons are the ones their mnemonics name; the negations
      pair up. */
  lemma CondsComplement(a: u16, b: u16)
    ensures Holds(NE, a, b) <==> !Holds(EQ, a, b)
    ensures Holds(LT, a, b) <==> !Holds(GE, a, b)
    ensures Holds(LE, a, b) <==> !Holds(GT, a, b)
    ensures Holds(GT, a, b) <==> Holds(LT, b, a)
  {
  }

  // ----- destination restrictions -----

  /** The shared destination switch: rpc, rsp and rbp are refused with the
      handler's code, ia0..irv receive the value, other ids are
      unrecognized; in no case does a pointer register change. */
  lemma StoreGeneralCases(r: Regs, dest: u8, v: u16, code: u8)
    ensures dest <= 2 ==> StoreGeneral(r, dest, v, code) == r.(stc := code)
    ensures 3 <= dest <= 7 ==> StoreGeneral(r, dest, v, code) == SetI(r, IRegOf(dest).value, v)
    ensures dest > 7 ==> StoreGeneral(r, dest, v, code) == r.(stc := ERR_UNREC_IREG)
    ensures var r' := StoreGeneral(r, dest, v, code); r'.rpc == r.rpc && r'.rsp == r.rsp && r'.rbp == r.rbp
  {
  }

  /** The destination switch of iadd and isub refuses only rpc. */
  lemma StoreArithCases(r: Regs, dest: u8, v: u16, code: u8)
    ensures dest == 0 ==> StoreArith(r, dest, v, code) == r.(stc := code)
    ensures 1 <= dest <= 7 ==> StoreArith(r, dest, v, code) == SetI(r, IRegOf(dest).value, v)
    ensures dest > 7 ==> StoreArith(r, dest, v, code) == r.(stc := ERR_UNREC_IREG)
  {
  }

  /** Registers rpc, rsp and rbp are the same in `r'` and `r`. */
  predicate SamePointers(r: Regs, r': Regs) {
    r'.rpc == r.rpc && r'.rsp == r.rsp && r'.rbp == r.rbp
  }

  /** The reads before the destination switch can only set the status. */
  lemma Read2Status(r: Regs, a: u8, b: u8)
    ensures Read2(r, a, b).2 == r || Read2(r, a, b).2 == r.(stc := ERR_UNREC_IREG)
  {
  }

  /** 2^k grows with k. */
  lemma {:induction false} Pow2Monotone(j: nat, k: nat)
    requires j <= k
    ensures Pow2(j) <= Pow2(k)
    decreases k
  {
    if j < k {
      Pow2Monotone(j, k - 1);
    }
  }

  /** 2^k for k up to 15 is at most 2^15. */
  lemma Pow2Small(k: nat)
    requires k <= 15
    ensures Pow2(k) <= 0x8000
  {
    Pow2Monotone(k, 15);
    Pow2Add(8, 7);
    assert Pow2(8) == 0x100 && Pow2(7) == 0x80;
    assert Pow2(15) == 0x8000;
  }

  /** A left shift by at most 15 is defined for every 16-bit value: the
      largest result, 0xFFFF * 2^15, still fits in a signed int. */
  lemma ShortShiftsDefined(a: u16, k: u8)
    requires k <= 15
    ensures LeftShiftDefined(a, k)
  {
    Pow2Small(k);
    var p := Pow2(k);
    assert a * p <= 0xFFFF * p by {
      assert (0xFFFF - a) * p >= 0;
    }
  }

  /** Where C leaves `a << k` undefined: 0x8000 shifted by 16 and 1 shifted
      by 31 reach 2^31; 0x7FFF shifted by 16 is the largest defined case of
      that shift. */
  lemma LeftShiftLimits()
    ensures !LeftShiftDefined(0x8000, 16) && !LeftShiftDefined(1, 31)
    ensures LeftShiftDefined(0x7FFF, 16) && ShiftLeft(0x7FFF, 16) == 0
  {
    Pow2Add(8, 8);
    Pow2Add(8, 7);
    Pow2Add(16, 15);
    assert Pow2(16) == 0x1_0000 && Pow2(31) == 0x8000_0000;
    assert 0x7FFF * Pow2(16) == 0x7FFF_0000;
  }

  /** 2^(a+b) = 2^a * 2^b. */
  lemma {:induction false} Pow2Add(a: nat, b: nat)
    ensures Pow2(a + b) == Pow2(a) * Pow2(b)
  {
    if b > 0 {
      Pow2Add(a, b - 1);
      assert Pow2(a + b) == 2 * Pow2(a + (b - 1));
    }
  }

  /** No bitwise or shift handler changes rpc, rsp or rbp, whatever the
      operands. */
  lemma BitwisePointersProtected(r: Regs, d: u8, s: u8, k: u8)
    requires k < 32
    ensures SamePointers(r, And(r, d, s)) && SamePointers(r, Or(r, d, s))
    ensures SamePointers(r, Xor(r, d, s)) && SamePointers(r, Not(r, d))
    ensures SamePointers(r, RShift(r, d, k))
    ensures LeftShiftDefined(IVal(r, d), k) ==> SamePointers(r, LShift(r, d, k))
  {
    var (a, b, r1) := Read2(r, d, s);
    Read2Status(r, d, s);
    StoreGeneralCases(r1, d, BitAnd(a, b), ERR_BIN_REGNOTALWD);
    StoreGeneralCases(r1, d, BitOr(a, b), ERR_BIN_REGNOTALWD);
    StoreGeneralCases(r1, d, BitXor(a, b), ERR_BIN_REGNOTALWD);
    var (a', r2) := GetIRegV(r, d);
    StoreGeneralCases(r2, d, BitNot(a'), ERR_BIN_REGNOTALWD);
    StoreGeneralCases(r2, d, ShiftRight(a', k), ERR_BIN_REGNOTALWD);
    if LeftShiftDefined(a', k) {
      StoreGeneralCases(r2, d, ShiftLeft(a', k), ERR_BIN_REGNOTALWD);
    }
  }

  /** imul, idiv and imod never change rpc, rsp or rbp (unlike iadd and
      isub, which may write rsp and rbp). */
  lemma ArithPointersProtected(r: Regs, d: u8, s: u8)
    ensures SamePointers(r, IMul(r, d, s))
    ensures IVal(r, s) != 0 ==> SamePointers(r, IDiv(r, d, s)) && SamePointers(r, IMod(r, d, s))
  {
    IMulPointersProtected(r, d, s);
    if IVal(r, s) != 0 {
      IDivPointersProtected(r, d, s);
    }
  }

  /** imul never changes rpc, rsp or rbp. */
  lemma IMulPointersProtected(r: Regs, d: u8, s: u8)
    ensures SamePointers(r, IMul(r, d, s))
  {
    var (a, b, r1) := Read2(r, d, s);
    Read2Status(r, d, s);
    var prod := Product(a, b);
    var r2 := if prod > 0xFFFF then r1.(stc := ERR_IMUL_OVRFLW) else r1;
    StoreGeneralCases(r2, d, if prod > 0xFFFF then 0xFFFF else prod, ERR_IADD_REGNOTALWD);
  }

  /** idiv and imod by a nonzero source never change rpc, rsp or rbp. */
  lemma IDivPointersProtected(r: Regs, d: u8, s: u8)
    requires IVal(r, s) != 0
    ensures SamePointers(r, IDiv(r, d, s)) && SamePointers(r, IMod(r, d, s))
  {
    var (a, b, r1) := Read2(r, d, s);
    Read2Status(r, d, s);
    StoreGeneralCases(r1, d, a / b, ERR_IDIV_REGNOTALWD);
    StoreGeneralCases(r1, d, a % b, ERR_IMOD_REGNOTALWD);
  }

  /** Immediate and move handlers never change rpc, rsp or rbp. */
  lemma MovePointersProtected(r: Regs, d: u8, s: u8, v: u16, c: Cond, a: u8, b: u8)
    ensures SamePointers(r, ISetR(r, d, v)) && SamePointers(r, IMov(r, s, d))
    ensures SamePointers(r, CondMove(r, c, s, d, a, b))
  {
    StoreGeneralCases(r, d, v, ERR_IIMM_REGNOTALWD);
    var (x, r1) := GetIRegV(r, s);
    StoreGeneralCases(r1, d, x, ERR_IMOV_REGNOTALWD);
    if a != b {
      var (va, vb, r2) := Read2(r, a, b);
      Read2Status(r, a, b);
      var (y, r3) := GetIRegV(r2, s);
      StoreGeneralCases(r3, d, y, ERR_IMOV_REGNOTALWD);
    }
  }

  // ----- integer arithmetic -----

  /** iadd into a register other than rpc stores the sum, saturated at
      0xFFFF; ERR_IADD_OVRFLW is set exactly when the sum exceeds 0xFFFF,
      and otherwise the status is left as it was. rsp and rbp are legal
      destinations. */
  lemma IAddSaturates(r: Regs, d: u8, s: u8)
    requires 1 <= d <= 7 && s <= 7
    ensures IRegOf(d).Some?
    ensures var sum := IVal(r, d) + IVal(r, s);
      IAdd(r, d, s) == SetI(r, IRegOf(d).value, if sum > 0xFFFF then 0xFFFF else sum)
                         .(stc := if sum > 0xFFFF then ERR_IADD_OVRFLW else r.stc)
  {
  }

  /** iadd into rpc is refused; the sum is still computed first, so the
      refusal code replaces any overflow code. */
  lemma IAddIntoRpc(r: Regs, s: u8)
    requires s <= 7
    ensures IAdd(r, ID_RPC, s) == r.(stc := ERR_IADD_REGNOTALWD)
  {
  }

  /** isub stores the difference modulo 2^16: it wraps rather than
      reporting ERR_ISUB_UNDRFLW, and leaves the status as it was. */
  lemma ISubWraps(r: Regs, d: u8, s: u8)
    requires 1 <= d <= 7 && s <= 7
    ensures IRegOf(d).Some?
    ensures ISub(r, d, s) == SetI(r, IRegOf(d).value, Wrap16(IVal(r, d) - IVal(r, s)))
  {
    Add16Sub16Wrap(IVal(r, d), IVal(r, s));
  }

  /** Whatever the operands, isub never produces ERR_ISUB_UNDRFLW unless
      the status already held it. */
  lemma ISubNeverUnderflows(r: Regs, d: u8, s: u8)
    ensures ISub(r, d, s).stc in {r.stc, ERR_UNREC_IREG, ERR_ISUB_REGNOTALWD}
  {
  }

  /** imul stores the product saturated at 0xFFFF and flags an overflow
      exactly when the product exceeds 0xFFFF. */
  lemma IMulSaturates(r: Regs, d: u8, s: u8)
    requires 3 <= d <= 7 && s <= 7
    ensures IRegOf(d).Some?
    ensures var p := IVal(r, d) * IVal(r, s);
      IMul(r, d, s) == SetI(r, IRegOf(d).value, if p > 0xFFFF then 0xFFFF else p)
                         .(stc := if p > 0xFFFF then ERR_IMUL_OVRFLW else r.stc)
  {
  }

  /** imul refuses rpc, rsp and rbp with iadd's code ERR_IADD_REGNOTALWD. */
  lemma IMulRefusal(r: Regs, d: u8, s: u8)
    requires d <= 2 && s <= 7
    ensures IMul(r, d, s) == r.(stc := ERR_IADD_REGNOTALWD)
  {
  }

  /** idiv and imod into ia0..irv store the quotient and the remainder of
      unsigned division and leave the status alone. */
  lemma IDivModStore(r: Regs, d: u8, s: u8)
    requires 3 <= d <= 7 && s <= 7 && IVal(r, s) != 0
    ensures IRegOf(d).Some?
    ensures IDiv(r, d, s) == SetI(r, IRegOf(d).value, IVal(r, d) / IVal(r, s))
    ensures IMod(r, d, s) == SetI(r, IRegOf(d).value, IVal(r, d) % IVal(r, s))
  {
  }

  /** What idiv leaves in d and what imod leaves in d, from the same
      state, divide the old value of d by s: `q * b + m == a` with
      `m < b`. */
  lemma IDivIModDivide(r: Regs, d: u8, s: u8)
    requires 3 <= d <= 7 && s <= 7 && IVal(r, s) != 0
    ensures var q := IVal(IDiv(r, d, s), d);
      var m := IVal(IMod(r, d, s), d);
      q * IVal(r, s) + m == IVal(r, d) && m < IVal(r, s)
  {
    var a, b := IVal(r, d), IVal(r, s);
    StoredQuotient(r, d, s);
    DivisionIdentity(a, b, IVal(IDiv(r, d, s), d), IVal(IMod(r, d, s), d));
  }

  /** The values idiv and imod leave in d are the quotient and remainder. */
  lemma StoredQuotient(r: Regs, d: u8, s: u8)
    requires 3 <= d <= 7 && s <= 7 && IVal(r, s) != 0
    ensures IVal(IDiv(r, d, s), d) == IVal(r, d) / IVal(r, s)
    ensures IVal(IMod(r, d, s), d) == IVal(r, d) % IVal(r, s)
  {
    IDivModStore(r, d, s);
  }

  /** Euclidean division on naturals. */
  lemma DivisionIdentity(a: nat, b: nat, q: int, m: int)
    requires b > 0 && q == a / b && m == a % b
    ensures q * b + m == a && m < b
  {
  }

  // ----- float arithmetic -----

  /** A float operation between recognized registers stores
      `fpu(op, d, s)` in d and changes nothing else; an unrecognized
      destination only sets ERR_UNREC_FREG. */
  lemma FArithmeticRouting(r: Regs, fpu: Fpu, op: FArith, d: u8, s: u8)
    requires s <= 4
    ensures d <= 4 ==> FRegOf(d).Some?
    ensures d <= 4 ==> FArithmetic(r, fpu, op, d, s) == SetF(r, FRegOf(d).value, fpu(op, FVal(r, d), FVal(r, s)))
    ensures d > 4 ==> FArithmetic(r, fpu, op, d, s) == r.(stc := ERR_UNREC_FREG)
  {
  }

  /** An unrecognized source reads as 0 and sets ERR_UNREC_FREG, and the
      operation is still carried out. */
  lemma FArithmeticUnknownSource(r: Regs, fpu: Fpu, op: FArith, d: u8, s: u8)
    requires d <= 4 && s > 4
    ensures FRegOf(d).Some?
    ensures FArithmetic(r, fpu, op, d, s) == SetF(r, FRegOf(d).value, fpu(op, FVal(r, d), 0)).(stc := ERR_UNREC_FREG)
  {
  }

  // ----- moves -----

  /** imov between recognized registers into ia0..irv copies the value. */
  lemma IMovCopies(r: Regs, src: u8, dst: u8)
    requires src <= 7 && 3 <= dst <= 7
    ensures IRegOf(dst).Some?
    ensures IMov(r, src, dst) == SetI(r, IRegOf(dst).value, IVal(r, src))
  {
  }

  /** A conditional move between distinct recognized comparands moves
      exactly when the comparison holds. */
  lemma CondMoveTaken(r: Regs, c: Cond, src: u8, dst: u8, a: u8, b: u8)
    requires a != b && a <= 7 && b <= 7
    ensures CondMove(r, c, src, dst, a, b) ==
      if Holds(c, IVal(r, a), IVal(r, b)) then IMov(r, src, dst) else r
  {
  }

  /** An unrecognized comparand reads as 0 and sets ERR_UNREC_IREG; the
      move still happens when the comparison of the values read holds. */
  lemma CondMoveUnknown(r: Regs, c: Cond, src: u8, dst: u8, a: u8, b: u8)
    requires a != b && (a > 7 || b > 7)
    ensures var va := if a <= 7 then IVal(r, a) else 0;
      var vb := if b <= 7 then IVal(r, b) else 0;
      CondMove(r, c, src, dst, a, b) ==
        if Holds(c, va, vb) then IMov(r.(stc := ERR_UNREC_IREG), src, dst) else r.(stc := ERR_UNREC_IREG)
  {
  }

  lemma CondMoveSelf(r: Regs, c: Cond, src: u8, dst: u8, a: u8)
    ensures CondMove(r, c, src, dst, a, a) == r.(stc := ERR_IREG_CMPTOSELF)
  {
  }

  /** fmov and fsetr between recognized registers. */
  lemma FMovCopies(r: Regs, src: u8, dst: u8, v: u32)
    requires src <= 4 && dst <= 4
    ensures FRegOf(dst).Some?
    ensures FMov(r, src, dst) == SetF(r, FRegOf(dst).value, FVal(r, src))
    ensures FSetR(r, dst, v) == SetF(r, FRegOf(dst).value, v)
  {
  }

  // ----- bitwise operations -----

  /** `xor d d` clears a register d that may be written and changes
      nothing else; on rpc, rsp or rbp it only sets ERR_BIN_REGNOTALWD,
      and on an unrecognized id only ERR_UNREC_IREG. */
  lemma XorSelfClears(r: Regs, d: u8)
    ensures 3 <= d <= 7 ==> IRegOf(d).Some? && Xor(r, d, d) == SetI(r, IRegOf(d).value, 0)
    ensures d <= 2 ==> Xor(r, d, d) == r.(stc := ERR_BIN_REGNOTALWD)
    ensures d > 7 ==> Xor(r, d, d) == r.(stc := ERR_UNREC_IREG)
  {
    var (a, b, r1) := Read2(r, d, d);
    assert BitXor(a, b) == 0 by {
      assert a == b;
    }
  }
}
