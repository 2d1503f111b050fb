/** The stack frame of cpucore_call and cpucore_ret (cpu.c): call pushes
    28 bytes below the caller's rsp and jumps; ret pops the same 28 bytes
    in reverse, so a callee that leaves rsp and its frame alone gets back
    to the caller with rbp, ia0..ia3, fa0..fa3, rsp and the return address
    restored. Throughout, the caller's rsp is at least 28, so the frame
    does not wrap around the top of the 16-bit address space. */
module CallRet {

  import opened Word
  import opened Memory
  import opened CpuDefs
  import opened CpuSpec
  import opened CpuProps

  /** A push of a recognized register other than rsp. */
  predicate IsPush(op: StackOp) {
    (op.IPushOp? && op.id <= 7 && op.id != ID_RSP) || (op.FPushOp? && op.id <= 4)
  }

  /** The number of bytes `op` moves the stack pointer by. */
  function Size(op: StackOp): nat {
    if op.IPushOp? || op.IPopOp? then 2 else 4
  }

  /** The bytes `ops[i..j]` occupy on the stack. */
  function Need(ops: seq<StackOp>, i: nat, j: nat): nat
    requires i <= j <= |ops|
    decreases j - i
  {
    if i == j then 0 else Size(ops[i]) + Need(ops, i + 1, j)
  }

  /** Memory at `a` holds the value that push `op` saves from registers `r`. */
  predicate Saved(mem: Mem, a: int, op: StackOp, r: Regs) {
    if op.IPushOp? then Fits16(a) && Load16(mem, a) == IVal(r, op.id)
    else Fits32(a) && Load32(mem, a) == FVal(r, op.id)
  }

  /** Reading a register other than rsp ignores rsp and the status. */
  lemma ValIgnoresRspStc(r: Regs, op: StackOp, c: u8, sp: u16)
    requires IsPush(op)
    ensures op.IPushOp? ==> IVal(r.(stc := c, rsp := sp), op.id) == IVal(r, op.id)
    ensures op.FPushOp? ==> FVal(r.(stc := c, rsp := sp), op.id) == FVal(r, op.id)
  {
  }

  /** One push of a recognized register other than rsp: rsp drops by its
      size, the status clears, the value lands at the new rsp and no byte
      outside it changes. */
  lemma PushStep(m: Machine, op: StackOp)
    requires IsPush(op) && Size(op) <= m.regs.rsp
    ensures OpFits(m.regs.rsp, op)
    ensures ApplyOp(m, op).regs == m.regs.(stc := 0, rsp := m.regs.rsp - Size(op))
    ensures Saved(ApplyOp(m, op).mem, m.regs.rsp - Size(op), op, m.regs)
    ensures forall a :: 0 <= a < MEM_SIZE && !(m.regs.rsp - Size(op) <= a < m.regs.rsp) ==> ApplyOp(m, op).mem[a] == m.mem[a]
  {
    var sp := m.regs.rsp - Size(op);
    if op.IPushOp? {
      IPushEffect(m, op.id);
      Load16Store16(m.mem, sp, IVal(m.regs, op.id));
      Store16Frame(m.mem, sp, IVal(m.regs, op.id));
    } else {
      FPushEffect(m, op.id);
      Load32Store32(m.mem, sp, FVal(m.regs, op.id));
      Store32Frame(m.mem, sp, FVal(m.regs, op.id));
    }
  }

  /** The registers after one such push. */
  lemma PushStepRegs(m: Machine, op: StackOp)
    requires IsPush(op) && Size(op) <= m.regs.rsp
    ensures OpFits(m.regs.rsp, op)
    ensures ApplyOp(m, op).regs == m.regs.(stc := 0, rsp := m.regs.rsp - Size(op))
  {
    PushStep(m, op);
  }

  /** The registers after one such push, and the value it saved. */
  lemma PushStepSaved(m: Machine, op: StackOp)
    requires IsPush(op) && Size(op) <= m.regs.rsp
    ensures OpFits(m.regs.rsp, op)
    ensures ApplyOp(m, op).regs == m.regs.(stc := 0, rsp := m.regs.rsp - Size(op))
    ensures Saved(ApplyOp(m, op).mem, m.regs.rsp - Size(op), op, m.regs)
  {
    PushStep(m, op);
  }

  /** The pushes `ops[i..j]` are all of recognized registers other than
      rsp and fit below stack pointer `sp`. */
  predicate PushesFit(ops: seq<StackOp>, i: nat, j: nat, sp: int)
    requires i <= j <= |ops|
  {
    (forall k :: i <= k < j ==> IsPush(ops[k])) && Need(ops, i, j) <= sp
  }

  /** The pushes after the first fit below the stack pointer the first leaves. */
  lemma PushesFitTail(ops: seq<StackOp>, i: nat, j: nat, sp: int)
    requires i < j <= |ops| && PushesFit(ops, i, j, sp)
    ensures IsPush(ops[i]) && Size(ops[i]) <= sp && PushesFit(ops, i + 1, j, sp - Size(ops[i]))
  {
  }

  /** A run of such pushes stays inside memory, drops rsp by the bytes the
      pushes need and clears the status. */
  lemma {:induction false} PushesRegs(m: Machine, ops: seq<StackOp>, i: nat, j: nat)
    requires i <= j <= |ops| && PushesFit(ops, i, j, m.regs.rsp)
    ensures OpsFit(m.regs.rsp, ops, i, j)
    ensures i < j ==> RunOps(m, ops, i, j).regs == m.regs.(stc := 0, rsp := m.regs.rsp - Need(ops, i, j))
    decreases j - i
  {
    if i < j {
      PushesFitTail(ops, i, j, m.regs.rsp);
      PushStep(m, ops[i]);
      PushesRegs(ApplyOp(m, ops[i]), ops, i + 1, j);
    }
  }

  /** A run of such pushes stays inside memory. */
  lemma PushesOpsFit(m: Machine, ops: seq<StackOp>, i: nat, j: nat)
    requires i <= j <= |ops| && PushesFit(ops, i, j, m.regs.rsp)
    ensures OpsFit(m.regs.rsp, ops, i, j)
  {
    PushesRegs(m, ops, i, j);
  }

  /** A run of such pushes changes no byte outside the ones it pushes. */
  lemma {:induction false} PushesFrame(m: Machine, ops: seq<StackOp>, i: nat, j: nat)
    requires i <= j <= |ops| && PushesFit(ops, i, j, m.regs.rsp)
    ensures OpsFit(m.regs.rsp, ops, i, j)
    ensures forall a :: 0 <= a < MEM_SIZE && !(m.regs.rsp - Need(ops, i, j) <= a < m.regs.rsp) ==>
      RunOps(m, ops, i, j).mem[a] == m.mem[a]
    decreases j - i
  {
    PushesOpsFit(m, ops, i, j);
    if i < j {
      PushesFitTail(ops, i, j, m.regs.rsp);
      PushStep(m, ops[i]);
      PushesFrame(ApplyOp(m, ops[i]), ops, i + 1, j);
    }
  }

  /** In a run of such pushes each value lands in its own slot, directly
      below the slots of the pushes before it. */
  lemma {:induction false} PushesSaved(m: Machine, ops: seq<StackOp>, i: nat, j: nat)
    requires i <= j <= |ops| && PushesFit(ops, i, j, m.regs.rsp)
    ensures OpsFit(m.regs.rsp, ops, i, j)
    ensures forall k :: i <= k < j ==> Saved(RunOps(m, ops, i, j).mem, m.regs.rsp - Need(ops, i, k + 1), ops[k], m.regs)
    decreases j - i, 1
  {
    PushesOpsFit(m, ops, i, j);
    if i < j {
      PushesSavedFirst(m, ops, i, j);
      PushesSavedLater(m, ops, i, j);
    }
  }

  /** The first push of the run keeps its slot through the later pushes. */
  lemma PushesSavedFirst(m: Machine, ops: seq<StackOp>, i: nat, j: nat)
    requires i < j <= |ops| && PushesFit(ops, i, j, m.regs.rsp)
    ensures OpsFit(m.regs.rsp, ops, i, j)
    ensures Saved(RunOps(m, ops, i, j).mem, m.regs.rsp - Need(ops, i, i + 1), ops[i], m.regs)
  {
    PushesOpsFit(m, ops, i, j);
    var op := ops[i];
    PushesFitTail(ops, i, j, m.regs.rsp);
    RunOpsSplit(m, ops, i, j);
    PushStepSaved(m, op);
    var m1 := ApplyOp(m, op);
    PushesFrame(m1, ops, i + 1, j);
    SavedAboveKept(m1.mem, RunOps(m1, ops, i + 1, j).mem, m1.regs.rsp, Need(ops, i + 1, j), op, m.regs);
    assert Need(ops, i, i + 1) == Size(op);
  }

  /** The later pushes land in their slots, seen from the registers before
      the first push. */
  lemma {:induction false} PushesSavedLater(m: Machine, ops: seq<StackOp>, i: nat, j: nat)
    requires i < j <= |ops| && PushesFit(ops, i, j, m.regs.rsp)
    ensures OpsFit(m.regs.rsp, ops, i, j)
    ensures forall k :: i < k < j ==> Saved(RunOps(m, ops, i, j).mem, m.regs.rsp - Need(ops, i, k + 1), ops[k], m.regs)
    decreases j - i, 0
  {
    PushesOpsFit(m, ops, i, j);
    PushesFitTail(ops, i, j, m.regs.rsp);
    RunOpsSplit(m, ops, i, j);
    PushStepRegs(m, ops[i]);
    var m1 := ApplyOp(m, ops[i]);
    PushesSaved(m1, ops, i + 1, j);
    SavedAfterFirst(m, ops, i, j, RunOps(m1, ops, i + 1, j).mem);
  }

  /** The slots of the pushes after the first, seen from the registers
      before the first push. */
  lemma SavedAfterFirst(m: Machine, ops: seq<StackOp>, i: nat, j: nat, mem: Mem)
    requires i < j <= |ops| && PushesFit(ops, i, j, m.regs.rsp)
    requires ApplyOp(m, ops[i]).regs == m.regs.(stc := 0, rsp := m.regs.rsp - Size(ops[i]))
    requires forall k :: i + 1 <= k < j ==>
      Saved(mem, ApplyOp(m, ops[i]).regs.rsp - Need(ops, i + 1, k + 1), ops[k], ApplyOp(m, ops[i]).regs)
    ensures forall k :: i < k < j ==> Saved(mem, m.regs.rsp - Need(ops, i, k + 1), ops[k], m.regs)
  {
    var sp1 := m.regs.rsp - Size(ops[i]);
    var r1 := ApplyOp(m, ops[i]).regs;
    forall k | i < k < j
      ensures Saved(mem, m.regs.rsp - Need(ops, i, k + 1), ops[k], m.regs)
    {
      assert Saved(mem, sp1 - Need(ops, i + 1, k + 1), ops[k], r1);
      assert m.regs.rsp - Need(ops, i, k + 1) == sp1 - Need(ops, i + 1, k + 1);
      SavedRegs(mem, sp1 - Need(ops, i + 1, k + 1), ops[k], m.regs, sp1);
    }
  }

  /** Whether a push's value is saved does not depend on rsp or the status. */
  lemma SavedRegs(mem: Mem, a: int, op: StackOp, r: Regs, sp: u16)
    requires IsPush(op) && Saved(mem, a, op, r.(stc := 0, rsp := sp))
    ensures Saved(mem, a, op, r)
  {
    ValIgnoresRspStc(r, op, 0, sp);
  }

  /** A value saved at `a` stays saved while only the `n` bytes below `a` change. */
  lemma SavedAboveKept(mem: Mem, mem': Mem, a: int, n: int, op: StackOp, r: Regs)
    requires IsPush(op) && Saved(mem, a, op, r)
    requires forall b :: 0 <= b < MEM_SIZE && !(a - n <= b < a) ==> mem'[b] == mem[b]
    ensures Saved(mem', a, op, r)
  {
    SavedUntouched(mem, mem', a, op, r);
  }

  /** A saved value stays saved while its bytes do not change. */
  lemma SavedUntouched(mem: Mem, mem': Mem, a: int, op: StackOp, r: Regs)
    requires IsPush(op) && Saved(mem, a, op, r)
    requires forall b :: a <= b < a + Size(op) && 0 <= b < MEM_SIZE ==> mem'[b] == mem[b]
    ensures Saved(mem', a, op, r)
  {
    assert mem'[a] == mem[a] && mem'[a + 1] == mem[a + 1];
    if op.FPushOp? {
      assert mem'[a + 2] == mem[a + 2] && mem'[a + 3] == mem[a + 3];
    }
  }

  /** The 28 bytes at `sp` hold the frame call builds for registers `r`,
      lowest address first: rpc, fa3, fa2, fa1, fa0, ia3, ia2, ia1, ia0,
      rbp. */
  predicate Frame(mem: Mem, sp: int, r: Regs) {
    0 <= sp && sp + 28 <= MEM_SIZE &&
    Load16(mem, sp) == r.rpc &&
    Load32(mem, sp + 2) == r.fa3 && Load32(mem, sp + 6) == r.fa2 &&
    Load32(mem, sp + 10) == r.fa1 && Load32(mem, sp + 14) == r.fa0 &&
    Load16(mem, sp + 18) == r.ia3 && Load16(mem, sp + 20) == r.ia2 &&
    Load16(mem, sp + 22) == r.ia1 && Load16(mem, sp + 24) == r.ia0 &&
    Load16(mem, sp + 26) == r.rbp
  }

  /** The ten slots of the frame, each as the push that fills it sees it. */
  lemma SavedIsFrame(mem: Mem, sp: int, r: Regs)
    requires 28 <= sp
    requires Saved(mem, sp - 2, IPushOp(ID_RBP), r) && Saved(mem, sp - 4, IPushOp(ID_IA0), r)
    requires Saved(mem, sp - 6, IPushOp(ID_IA1), r) && Saved(mem, sp - 8, IPushOp(ID_IA2), r)
    requires Saved(mem, sp - 10, IPushOp(ID_IA3), r) && Saved(mem, sp - 14, FPushOp(ID_FA0), r)
    requires Saved(mem, sp - 18, FPushOp(ID_FA1), r) && Saved(mem, sp - 22, FPushOp(ID_FA2), r)
    requires Saved(mem, sp - 26, FPushOp(ID_FA3), r) && Saved(mem, sp - 28, IPushOp(ID_RPC), r)
    ensures Frame(mem, sp - 28, r)
  {
  }

  /** The calls' stack operations: ten pushes of recognized registers
      other than rsp, 28 bytes in all, and ten pops likewise. */
  lemma CallPushesFit(sp: int)
    requires 28 <= sp
    ensures PushesFit(CallPushes, 0, |CallPushes|, sp)
    ensures Need(CallPushes, 0, |CallPushes|) == 28
  {
    assert forall k :: 0 <= k < |CallPushes| ==> IsPush(CallPushes[k]);
    CallOffsetsHigh();
  }

  /** Where each push of call puts its register, counted down from the
      caller's rsp. */
  lemma CallOffsetsLow()
    ensures Need(CallPushes, 0, 1) == 2 && Need(CallPushes, 0, 2) == 4 && Need(CallPushes, 0, 3) == 6
    ensures Need(CallPushes, 0, 4) == 8 && Need(CallPushes, 0, 5) == 10
  {
  }

  lemma CallOffsetsHigh()
    ensures Need(CallPushes, 0, 6) == 14 && Need(CallPushes, 0, 7) == 18 && Need(CallPushes, 0, 8) == 22
    ensures Need(CallPushes, 0, 9) == 26 && Need(CallPushes, 0, 10) == 28
  {
  }

  /** The slots call's pushes fill make up the frame. */
  lemma CallSlotsAreFrame(mem: Mem, sp: int, r: Regs)
    requires 28 <= sp <= MEM_SIZE
    requires forall k :: 0 <= k < |CallPushes| ==> Saved(mem, sp - Need(CallPushes, 0, k + 1), CallPushes[k], r)
    ensures Frame(mem, sp - 28, r)
  {
    CallOffsetsLow();
    CallOffsetsHigh();
    assert Saved(mem, sp - 2, IPushOp(ID_RBP), r);
    assert Saved(mem, sp - 4, IPushOp(ID_IA0), r);
    assert Saved(mem, sp - 6, IPushOp(ID_IA1), r);
    assert Saved(mem, sp - 8, IPushOp(ID_IA2), r);
    assert Saved(mem, sp - 10, IPushOp(ID_IA3), r);
    assert Saved(mem, sp - 14, FPushOp(ID_FA0), r);
    assert Saved(mem, sp - 18, FPushOp(ID_FA1), r);
    assert Saved(mem, sp - 22, FPushOp(ID_FA2), r);
    assert Saved(mem, sp - 26, FPushOp(ID_FA3), r);
    assert Saved(mem, sp - 28, IPushOp(ID_RPC), r);
    SavedIsFrame(mem, sp, r);
  }

  /** call lowers rsp by exactly 28, clears the status and sets rpc to the
      target; every other register keeps its value. */
  lemma CallRegs(m: Machine, addr: memaddr)
    requires 28 <= m.regs.rsp
    ensures CallFits(m.regs.rsp)
    ensures Call(m, addr).regs == m.regs.(stc := 0, rsp := m.regs.rsp - 28, rpc := addr)
  {
    CallPushesFit(m.regs.rsp);
    PushesRegs(m, CallPushes, 0, |CallPushes|);
  }

  /** Below the caller's rsp, call leaves the frame of the caller's
      registers, with the return address at the callee's rsp. */
  lemma CallFrame(m: Machine, addr: memaddr)
    requires 28 <= m.regs.rsp
    ensures CallFits(m.regs.rsp)
    ensures Frame(Call(m, addr).mem, m.regs.rsp - 28, m.regs)
  {
    CallPushesFit(m.regs.rsp);
    PushesSaved(m, CallPushes, 0, |CallPushes|);
    CallSlotsAreFrame(RunOps(m, CallPushes, 0, |CallPushes|).mem, m.regs.rsp, m.regs);
  }

  /** call changes no byte of memory outside the 28 below the caller's rsp. */
  lemma CallKeepsRest(m: Machine, addr: memaddr)
    requires 28 <= m.regs.rsp
    ensures CallFits(m.regs.rsp)
    ensures forall a :: 0 <= a < MEM_SIZE && !(m.regs.rsp - 28 <= a < m.regs.rsp) ==> Call(m, addr).mem[a] == m.mem[a]
  {
    CallPushesFit(m.regs.rsp);
    PushesFrame(m, CallPushes, 0, |CallPushes|);
  }

  // ----- ret -----

  /** A register named by a stack operation. */
  datatype Loc = ILoc(id: u8) | FLoc(id: u8)

  /** The register an operation pushes or pops. */
  function Dest(op: StackOp): Loc {
    if op.IPushOp? || op.IPopOp? then ILoc(op.id) else FLoc(op.id)
  }

  /** The value of a register, as `getiregv` or `getfregv` reads it. */
  function ValAt(r: Regs, l: Loc): int {
    match l
    case ILoc(id) => IVal(r, id)
    case FLoc(id) => FVal(r, id)
  }

  /** A pop into a recognized register other than rsp. */
  predicate IsPop(op: StackOp) {
    (op.IPopOp? && op.id <= 7 && op.id != ID_RSP) || (op.FPopOp? && op.id <= 4)
  }

  /** The register `op` pops holds the value stored in `mem` at `a`. */
  predicate Restored(r: Regs, mem: Mem, a: int, op: StackOp) {
    if op.IPopOp? then Fits16(a) && IVal(r, op.id) == Load16(mem, a)
    else Fits32(a) && FVal(r, op.id) == Load32(mem, a)
  }

  /** One pop into a recognized register other than rsp, with the popped
      bytes below the top of memory: rsp rises by its size, the status
      clears, the register receives the bytes at the old rsp, and memory and
      every other register except rsp keep their values. */
  lemma PopStep(m: Machine, op: StackOp)
    requires IsPop(op) && m.regs.rsp + Size(op) < MEM_SIZE
    ensures OpFits(m.regs.rsp, op)
    ensures ApplyOp(m, op).mem == m.mem
    ensures ApplyOp(m, op).regs.stc == 0 && ApplyOp(m, op).regs.rsp == m.regs.rsp + Size(op)
    ensures Restored(ApplyOp(m, op).regs, m.mem, m.regs.rsp, op)
    ensures forall l :: l != Dest(op) && l != ILoc(ID_RSP) ==> ValAt(ApplyOp(m, op).regs, l) == ValAt(m.regs, l)
  {
    if op.IPopOp? {
      IPopEffect(m, op.id);
    } else {
      FPopEffect(m, op.id);
    }
  }

  /** The pops `ops[i..j]` are all into recognized registers other than rsp
      and end below the top of memory when started at `sp`. */
  predicate PopsFit(ops: seq<StackOp>, i: nat, j: nat, sp: int)
    requires i <= j <= |ops|
  {
    (forall k :: i <= k < j ==> IsPop(ops[k])) && sp + Need(ops, i, j) < MEM_SIZE
  }

  /** A run of such pops stays inside memory, raises rsp by the bytes the
      pops need, clears the status and leaves memory unchanged. */
  lemma {:induction false} PopsRegs(m: Machine, ops: seq<StackOp>, i: nat, j: nat)
    requires i <= j <= |ops| && PopsFit(ops, i, j, m.regs.rsp)
    ensures OpsFit(m.regs.rsp, ops, i, j)
    ensures RunOps(m, ops, i, j).mem == m.mem
    ensures RunOps(m, ops, i, j).regs.rsp == m.regs.rsp + Need(ops, i, j)
    ensures i < j ==> RunOps(m, ops, i, j).regs.stc == 0
    decreases j - i
  {
    if i < j {
      PopStep(m, ops[i]);
      PopsRegs(ApplyOp(m, ops[i]), ops, i + 1, j);
    }
  }

  /** A run of such pops leaves every register it does not pop, rsp aside. */
  lemma {:induction false} PopsUntouched(m: Machine, ops: seq<StackOp>, i: nat, j: nat, l: Loc)
    requires i <= j <= |ops| && PopsFit(ops, i, j, m.regs.rsp)
    requires l != ILoc(ID_RSP) && forall k :: i <= k < j ==> Dest(ops[k]) != l
    ensures OpsFit(m.regs.rsp, ops, i, j)
    ensures ValAt(RunOps(m, ops, i, j).regs, l) == ValAt(m.regs, l)
    decreases j - i
  {
    PopsRegs(m, ops, i, j);
    if i < j {
      PopStep(m, ops[i]);
      PopsUntouched(ApplyOp(m, ops[i]), ops, i + 1, j, l);
    }
  }

  /** In a run of such pops, a register that no later pop overwrites ends
      with the bytes at its own slot. */
  lemma {:induction false} PopsRestored(m: Machine, ops: seq<StackOp>, i: nat, j: nat, k: nat)
    requires i <= k < j <= |ops| && PopsFit(ops, i, j, m.regs.rsp)
    requires forall n :: k < n < j ==> Dest(ops[n]) != Dest(ops[k])
    ensures OpsFit(m.regs.rsp, ops, i, j)
    ensures Restored(RunOps(m, ops, i, j).regs, m.mem, m.regs.rsp + Need(ops, i, k), ops[k])
    decreases j - i
  {
    PopsRegs(m, ops, i, j);
    var op := ops[i];
    PopStep(m, op);
    var m1 := ApplyOp(m, op);
    PopsRegs(m1, ops, i + 1, j);
    if k == i {
      PopsUntouched(m1, ops, i + 1, j, Dest(op));
    } else {
      PopsRestored(m1, ops, i + 1, j, k);
    }
  }

  /** The registers ret loads from the 28 bytes at `sp`. */
  function FrameRegs(r: Regs, mem: Mem, sp: int): Regs
    requires 0 <= sp && sp + 28 <= MEM_SIZE
  {
    r.(rpc := Load16(mem, sp),
       fa3 := Load32(mem, sp + 2), fa2 := Load32(mem, sp + 6),
       fa1 := Load32(mem, sp + 10), fa0 := Load32(mem, sp + 14),
       ia3 := Load16(mem, sp + 18), ia2 := Load16(mem, sp + 20),
       ia1 := Load16(mem, sp + 22), ia0 := Load16(mem, sp + 24),
       rbp := Load16(mem, sp + 26))
  }

  /** The ten pops of ret: into recognized registers other than rsp, each
      register once, 28 bytes in all. */
  lemma RetPopsFit(sp: int)
    requires sp + 28 < MEM_SIZE
    ensures PopsFit(RetPops, 0, |RetPops|, sp)
    ensures Need(RetPops, 0, |RetPops|) == 28
    ensures forall k, n :: 0 <= k < n < |RetPops| ==> Dest(RetPops[n]) != Dest(RetPops[k])
  {
    assert forall k :: 0 <= k < |RetPops| ==> IsPop(RetPops[k]);
    assert Need(RetPops, 0, 10) == 28;
  }

  /** Where each pop of ret reads, counted up from the callee's rsp. */
  lemma RetOffsets()
    ensures Need(RetPops, 0, 0) == 0 && Need(RetPops, 0, 1) == 2 && Need(RetPops, 0, 2) == 6
    ensures Need(RetPops, 0, 3) == 10 && Need(RetPops, 0, 4) == 14 && Need(RetPops, 0, 5) == 18
    ensures Need(RetPops, 0, 6) == 20 && Need(RetPops, 0, 7) == 22 && Need(RetPops, 0, 8) == 24
    ensures Need(RetPops, 0, 9) == 26
  {
  }

  /** Registers that hold the bytes of every slot ret pops agree with
      FrameRegs on the ten popped registers. */
  lemma RestoredSlots(r: Regs, mem: Mem, sp: int)
    requires 0 <= sp && sp + 28 <= MEM_SIZE
    requires forall k :: 0 <= k < |RetPops| ==> Restored(r, mem, sp + Need(RetPops, 0, k), RetPops[k])
    ensures r == FrameRegs(r, mem, sp)
  {
    RetOffsets();
    assert Restored(r, mem, sp, IPopOp(ID_RPC));
    assert Restored(r, mem, sp + 2, FPopOp(ID_FA3));
    assert Restored(r, mem, sp + 6, FPopOp(ID_FA2));
    assert Restored(r, mem, sp + 10, FPopOp(ID_FA1));
    assert Restored(r, mem, sp + 14, FPopOp(ID_FA0));
    assert Restored(r, mem, sp + 18, IPopOp(ID_IA3));
    assert Restored(r, mem, sp + 20, IPopOp(ID_IA2));
    assert Restored(r, mem, sp + 22, IPopOp(ID_IA1));
    assert Restored(r, mem, sp + 24, IPopOp(ID_IA0));
    assert Restored(r, mem, sp + 26, IPopOp(ID_RBP));
  }

  /** After ret every popped register holds the bytes of its slot. */
  lemma RetSlots(m: Machine)
    requires m.regs.rsp + 28 < MEM_SIZE
    ensures RetFits(m.regs.rsp)
    ensures Ret(m).regs == FrameRegs(Ret(m).regs, m.mem, m.regs.rsp)
  {
    RetPopsFit(m.regs.rsp);
    PopsRegs(m, RetPops, 0, |RetPops|);
    forall k | 0 <= k < |RetPops|
      ensures Restored(Ret(m).regs, m.mem, m.regs.rsp + Need(RetPops, 0, k), RetPops[k])
    {
      PopsRestored(m, RetPops, 0, |RetPops|, k);
    }
    RestoredSlots(Ret(m).regs, m.mem, m.regs.rsp);
  }

  /** ret raises rsp by exactly 28, clears the status and leaves memory
      alone. */
  lemma RetKeeps(m: Machine)
    requires m.regs.rsp + 28 < MEM_SIZE
    ensures RetFits(m.regs.rsp)
    ensures Ret(m).mem == m.mem
    ensures Ret(m).regs.stc == 0 && Ret(m).regs.rsp == m.regs.rsp + 28
  {
    RetPopsFit(m.regs.rsp);
    PopsRegs(m, RetPops, 0, |RetPops|);
  }

  /** ret restores neither return-value register: irv and frv keep what
      the callee left in them. */
  lemma RetKeepsReturnValues(m: Machine)
    requires m.regs.rsp + 28 < MEM_SIZE
    ensures RetFits(m.regs.rsp)
    ensures Ret(m).regs.irv == m.regs.irv && Ret(m).regs.frv == m.regs.frv
  {
    RetPopsFit(m.regs.rsp);
    PopsUntouched(m, RetPops, 0, |RetPops|, ILoc(7));
    PopsUntouched(m, RetPops, 0, |RetPops|, FLoc(4));
  }

  /** ret, with the frame below the top of memory, raises rsp by exactly
      28, clears the status, loads rpc, fa3..fa0, ia3..ia0 and rbp from the
      frame, and leaves irv, frv and memory alone. */
  lemma RetEffect(m: Machine)
    requires m.regs.rsp + 28 < MEM_SIZE
    ensures RetFits(m.regs.rsp)
    ensures Ret(m) == Machine(FrameRegs(m.regs, m.mem, m.regs.rsp).(stc := 0, rsp := m.regs.rsp + 28), m.mem)
  {
    RetKeeps(m);
    RetKeepsReturnValues(m);
    RetSlots(m);
  }

  // ----- call followed by ret -----

  /** A callee that returns with rsp where call left it and the frame
      intact gets back to the caller with rpc at the return address and
      rbp, ia0..ia3, fa0..fa3 and rsp as the caller had them; irv and frv
      carry the callee's values back. */
  lemma RetRestoresCaller(m: Machine, callee: Machine)
    requires 28 <= m.regs.rsp
    requires callee.regs.rsp == m.regs.rsp - 28 && Frame(callee.mem, callee.regs.rsp, m.regs)
    ensures RetFits(callee.regs.rsp)
    ensures Ret(callee).mem == callee.mem
    ensures Ret(callee).regs == m.regs.(stc := 0, irv := callee.regs.irv, frv := callee.regs.frv)
  {
    RetEffect(callee);
  }

  /** `call a` immediately followed by `ret` restores every register, up to
      the status, and leaves the frame in memory below rsp. */
  lemma CallThenRet(m: Machine, addr: memaddr)
    requires 28 <= m.regs.rsp
    ensures CallFits(m.regs.rsp)
    ensures RetFits(Call(m, addr).regs.rsp)
    ensures Ret(Call(m, addr)) == Machine(m.regs.(stc := 0), Call(m, addr).mem)
  {
    CallRegs(m, addr);
    CallFrame(m, addr);
    RetRestoresCaller(m, Call(m, addr));
  }

  /** call saves exactly the integer registers the header documents as
      callee-saved, plus the return address. */
  lemma CallSavesCalleeSavedI()
    ensures forall x: IReg :: x in CalleeSavedI + {RPC} <==> IPushOp(IRegId(x)) in CallPushes
  {
    forall x: IReg ensures x in CalleeSavedI + {RPC} <==> IPushOp(IRegId(x)) in CallPushes {
      assert x.RPC? || x.RSP? || x.RBP? || x.IA0? || x.IA1? || x.IA2? || x.IA3? || x.IRV?;
    }
  }

  /** call saves exactly the float registers the header documents as
      callee-saved. */
  lemma CallSavesCalleeSavedF()
    ensures forall x: FReg :: x in CalleeSavedF <==> FPushOp(FRegId(x)) in CallPushes
  {
    forall x: FReg ensures x in CalleeSavedF <==> FPushOp(FRegId(x)) in CallPushes {
      assert x.FA0? || x.FA1? || x.FA2? || x.FA3? || x.FRV?;
    }
  }

  /** ret pops the registers call pushes, in the reverse order. */
  lemma RetMirrorsCall()
    ensures |RetPops| == |CallPushes|
    ensures forall k :: 0 <= k < |RetPops| ==> Dest(RetPops[k]) == Dest(CallPushes[|CallPushes| - 1 - k])
    ensures forall k :: 0 <= k < |CallPushes| ==> IsPush(CallPushes[k]) && IsPop(RetPops[k])
  {
  }
}
