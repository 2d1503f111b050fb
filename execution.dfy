/** The fetch-execute loop (execution.c, exec_main): while the status is 0,
    fetch the 6 bytes at rpc, advance rpc by the instruction size, and
    execute what was fetched.

    `Run` gives the meaning of the loop, bounded by a number of cycles
    (`fuel`) since a program need not stop; the method `ExecMain` is proved
    to compute it. */
module Execution {

  import opened Word
  import opened Errors
  import opened Memory
  import opened CpuDefs
  import CpuSpec
  import CallRet
  import Cpu
  import I = Instruction

  /** The 6 bytes a fetch at `a` copies. */
  function FetchAt(mem: Mem, a: memaddr): I.Data
    requires a as int + I.INSTR_SIZE <= MEM_SIZE
  {
    mem[a..a as int + I.INSTR_SIZE]
  }

  /** The state after `cpu->rpc += INSTR_SIZE` (an unsigned short sum). */
  function Advance(m: CpuSpec.Machine): CpuSpec.Machine {
    m.(regs := m.regs.(rpc := Add16(m.regs.rpc, I.INSTR_SIZE)))
  }

  /** One cycle stays clear of undefined behaviour: the fetch stays inside
      memory and so does the instruction fetched. */
  predicate CanStep(m: CpuSpec.Machine) {
    m.regs.rpc as int + I.INSTR_SIZE <= MEM_SIZE &&
    I.Defined(Advance(m), FetchAt(m.mem, m.regs.rpc))
  }

  /** One cycle of the loop: fetch at rpc, advance rpc, execute. */
  function Step(m: CpuSpec.Machine, fpu: CpuSpec.Fpu): CpuSpec.Machine
    requires CanStep(m)
  {
    I.Effect(Advance(m), FetchAt(m.mem, m.regs.rpc), fpu)
  }

  /** Why a bounded run ended: the status became nonzero, the cycle bound
      was reached, or the next cycle would be undefined. */
  datatype Status = Stopped | OutOfFuel | Undefined

  /** How a run ended, the state it ended in, and the cycles it counted. */
  datatype Outcome = Outcome(status: Status, final: CpuSpec.Machine, cycles: nat)

  /** The loop `while (!cpu->stc)` for at most `fuel` cycles. */
  function Run(m: CpuSpec.Machine, fpu: CpuSpec.Fpu, fuel: nat): Outcome
    decreases fuel
  {
    if m.regs.stc != 0 then Outcome(Stopped, m, 0)
    else if fuel == 0 then Outcome(OutOfFuel, m, 0)
    else if !CanStep(m) then Outcome(Undefined, m, 0)
    else
      var o := Run(Step(m, fpu), fpu, fuel - 1);
      o.(cycles := o.cycles + 1)
  }

  /** exec_main without its diagnostics, for at most `fuel` cycles: the
      final state and the cycle count are the ones `Run` gives. */
  method ExecMain(cpu: Cpu.CpuCore, sysmem: SysMem, fpu: CpuSpec.Fpu, fuel: nat) returns (cycount: nat)
    requires sysmem.Valid()
    requires Run(cpu.M(sysmem), fpu, fuel).status != Undefined
    modifies cpu, sysmem, sysmem.mem
    ensures sysmem.Valid()
    ensures cpu.M(sysmem) == Run(old(cpu.M(sysmem)), fpu, fuel).final
    ensures cycount == Run(old(cpu.M(sysmem)), fpu, fuel).cycles
  {
    ghost var m0 := cpu.M(sysmem);
    cycount := 0;
    var instr := new I.Instr();
    while cpu.stc == 0 && cycount < fuel
      invariant sysmem.Valid() && instr.Valid() && instr.data != sysmem.mem
      invariant cycount <= fuel
      invariant Run(cpu.M(sysmem), fpu, fuel - cycount).status != Undefined
      invariant Run(m0, fpu, fuel) == Later(Run(cpu.M(sysmem), fpu, fuel - cycount), cycount)
      decreases fuel - cycount
    {
      ghost var m := cpu.M(sysmem);
      RunCycle(m0, m, fpu, fuel, cycount);
      Cycle(cpu, sysmem, instr, fpu);
      cycount := cycount + 1;
    }
    RunEnded(m0, cpu.M(sysmem), fpu, fuel, cycount);
  }

  /** An outcome reached `k` cycles later. */
  function Later(o: Outcome, k: nat): Outcome {
    o.(cycles := o.cycles + k)
  }

  /** One more cycle of the loop keeps its invariant. */
  lemma RunCycle(m0: CpuSpec.Machine, m: CpuSpec.Machine, fpu: CpuSpec.Fpu, fuel: nat, k: nat)
    requires k < fuel && m.regs.stc == 0
    requires Run(m, fpu, fuel - k).status != Undefined
    requires Run(m0, fpu, fuel) == Later(Run(m, fpu, fuel - k), k)
    ensures CanStep(m)
    ensures Run(Step(m, fpu), fpu, fuel - (k + 1)).status != Undefined
    ensures Run(m0, fpu, fuel) == Later(Run(Step(m, fpu), fpu, fuel - (k + 1)), k + 1)
  {
    RunDefined(m, fpu, fuel - k);
    RunStep(m, fpu, fuel - k);
    assert fuel - k - 1 == fuel - (k + 1);
  }

  /** When the loop exits, the outcome is the state it exits in. */
  lemma RunEnded(m0: CpuSpec.Machine, m: CpuSpec.Machine, fpu: CpuSpec.Fpu, fuel: nat, k: nat)
    requires k <= fuel && (m.regs.stc != 0 || k == fuel)
    requires Run(m0, fpu, fuel) == Later(Run(m, fpu, fuel - k), k)
    ensures Run(m0, fpu, fuel).final == m && Run(m0, fpu, fuel).cycles == k
  {
  }

  /** The body of the loop of exec_main, without the cycle count. */
  method Cycle(cpu: Cpu.CpuCore, sysmem: SysMem, instr: I.Instr, fpu: CpuSpec.Fpu)
    requires sysmem.Valid() && instr.Valid() && instr.data != sysmem.mem
    requires CanStep(cpu.M(sysmem))
    modifies cpu, sysmem, sysmem.mem, instr.data
    ensures sysmem.Valid()
    ensures cpu.M(sysmem) == Step(old(cpu.M(sysmem)), fpu)
  {
    ghost var m := cpu.M(sysmem);
    instr.Zero();
    instr.Fetch(sysmem, cpu.rpc);
    cpu.rpc := Add16(cpu.rpc, I.INSTR_SIZE);
    assert cpu.M(sysmem) == Advance(m);
    instr.Exec(cpu, sysmem, fpu);
  }

  /** A run from status 0 with some bound left is one cycle followed by
      the run from the state that cycle leaves. */
  lemma RunStep(m: CpuSpec.Machine, fpu: CpuSpec.Fpu, fuel: nat)
    requires m.regs.stc == 0 && fuel > 0 && CanStep(m)
    ensures Run(m, fpu, fuel) == Run(Step(m, fpu), fpu, fuel - 1).(cycles := Run(Step(m, fpu), fpu, fuel - 1).cycles + 1)
  {
  }

  /** Such a run is undefined when its first cycle is. */
  lemma RunDefined(m: CpuSpec.Machine, fpu: CpuSpec.Fpu, fuel: nat)
    requires m.regs.stc == 0 && fuel > 0
    requires Run(m, fpu, fuel).status != Undefined
    ensures CanStep(m)
  {
  }

  // ----- properties of the loop -----

  /** A run stops exactly when the final status is nonzero, never counts
      more cycles than its bound, and uses all of it when it runs out. A
      nonzero status before the first cycle stops the loop at once. */
  lemma {:induction false} RunOutcome(m: CpuSpec.Machine, fpu: CpuSpec.Fpu, fuel: nat)
    ensures Run(m, fpu, fuel).status == Stopped <==> Run(m, fpu, fuel).final.regs.stc != 0
    ensures Run(m, fpu, fuel).cycles <= fuel
    ensures Run(m, fpu, fuel).status == OutOfFuel ==> Run(m, fpu, fuel).cycles == fuel
    ensures m.regs.stc != 0 ==> Run(m, fpu, fuel) == Outcome(Stopped, m, 0)
    decreases fuel
  {
    if m.regs.stc == 0 && fuel > 0 && CanStep(m) {
      RunOutcome(Step(m, fpu), fpu, fuel - 1);
    }
  }

  /** Every error code ends the loop, and so does the halt sentinel. */
  lemma ErrorsEndTheRun(m: CpuSpec.Machine, fpu: CpuSpec.Fpu, fuel: nat)
    requires IsError(m.regs.stc) || m.regs.stc == END_OF_EXECUTION
    ensures Run(m, fpu, fuel) == Outcome(Stopped, m, 0)
  {
    ErrorCodesDistinctNonzero();
  }

  /** Once a run has stopped, more cycles change nothing: the bound is only
      a device to make the loop a function. */
  lemma {:induction false} MoreFuelSameStop(m: CpuSpec.Machine, fpu: CpuSpec.Fpu, fuel: nat, more: nat)
    requires Run(m, fpu, fuel).status == Stopped
    requires fuel <= more
    ensures Run(m, fpu, more) == Run(m, fpu, fuel)
    decreases fuel
  {
    if m.regs.stc == 0 {
      MoreFuelSameStop(Step(m, fpu), fpu, fuel - 1, more - 1);
    }
  }

  /** A CALL fetched at `p` jumps to its S0 operand and pushes the return
      address `p + 6` (modulo 2^16), because rpc is advanced before the
      handler runs; it lowers rsp by 28 and saves the caller's registers,
      with rpc already advanced, in the frame under the old rsp. */
  lemma CallPushesReturnAddress(m: CpuSpec.Machine, fpu: CpuSpec.Fpu)
    requires m.regs.rpc as int + I.INSTR_SIZE <= MEM_SIZE
    requires FetchAt(m.mem, m.regs.rpc)[0] == I.CALL
    requires 28 <= m.regs.rsp
    ensures CanStep(m)
    ensures Step(m, fpu).regs == m.regs.(stc := 0, rsp := m.regs.rsp - 28, rpc := I.S0(FetchAt(m.mem, m.regs.rpc)))
    ensures CallRet.Frame(Step(m, fpu).mem, m.regs.rsp - 28, Advance(m).regs)
    ensures Load16(Step(m, fpu).mem, m.regs.rsp - 28) == Add16(m.regs.rpc, I.INSTR_SIZE)
  {
    CallStep(m, fpu);
    var m1 := Advance(m);
    var a := I.S0(FetchAt(m.mem, m.regs.rpc));
    CallRet.CallRegs(m1, a);
    CallRet.CallFrame(m1, a);
  }

  /** The cycle of a CALL is cpucore_call from the advanced state. */
  lemma CallStep(m: CpuSpec.Machine, fpu: CpuSpec.Fpu)
    requires m.regs.rpc as int + I.INSTR_SIZE <= MEM_SIZE
    requires FetchAt(m.mem, m.regs.rpc)[0] == I.CALL
    requires 28 <= m.regs.rsp
    ensures CpuSpec.CallFits(Advance(m).regs.rsp)
    ensures CanStep(m)
    ensures Step(m, fpu) == CpuSpec.Call(Advance(m), I.S0(FetchAt(m.mem, m.regs.rpc)))
  {
    var d := FetchAt(m.mem, m.regs.rpc);
    CallRet.CallRegs(Advance(m), I.S0(d));
    I.CallDispatch(Advance(m), d, fpu);
  }

  /** A JUMP to its own address leaves the state exactly as it was, so the
      loop never stops: every bound runs out. */
  lemma {:induction false} JumpToSelfNeverStops(m: CpuSpec.Machine, fpu: CpuSpec.Fpu, fuel: nat)
    requires m.regs.stc == 0
    requires m.regs.rpc as int + I.INSTR_SIZE <= MEM_SIZE
    requires FetchAt(m.mem, m.regs.rpc)[0] == I.JUMP
    requires I.S0(FetchAt(m.mem, m.regs.rpc)) == m.regs.rpc
    ensures CanStep(m) && Step(m, fpu) == m
    ensures Run(m, fpu, fuel) == Outcome(OutOfFuel, m, fuel)
    decreases fuel
  {
    assert Step(m, fpu) == m;
    if fuel > 0 {
      JumpToSelfNeverStops(m, fpu, fuel - 1);
    }
  }

  /** One cycle completes without setting the status and falls through
      to the next instruction. */
  predicate Straight(m: CpuSpec.Machine, fpu: CpuSpec.Fpu) {
    CanStep(m) && Step(m, fpu).regs.stc == 0 &&
    Step(m, fpu).regs.rpc == Add16(m.regs.rpc, I.INSTR_SIZE)
  }

  /** `k` straight cycles, then a HALT. */
  predicate StraightThenHalt(m: CpuSpec.Machine, fpu: CpuSpec.Fpu, k: nat)
    decreases k
  {
    if k == 0 then
      m.regs.rpc as int + I.INSTR_SIZE <= MEM_SIZE && FetchAt(m.mem, m.regs.rpc)[0] == I.HALT
    else
      Straight(m, fpu) && StraightThenHalt(Step(m, fpu), fpu, k - 1)
  }

  /** `k` straight instructions followed by HALT stop the loop after `k + 1`
      cycles with the halt sentinel as status and rpc `6(k + 1)` past where
      it started. */
  lemma {:induction false} StraightLineHalts(m: CpuSpec.Machine, fpu: CpuSpec.Fpu, k: nat, fuel: nat)
    requires m.regs.stc == 0
    requires m.regs.rpc as int + I.INSTR_SIZE * (k + 1) < MEM_SIZE
    requires StraightThenHalt(m, fpu, k)
    requires k < fuel
    ensures HaltsAfter(Run(m, fpu, fuel), k + 1, m.regs.rpc + I.INSTR_SIZE * (k + 1))
    decreases k, 1
  {
    if k == 0 {
      HaltRun(m, fpu, fuel);
    } else {
      var m' := StraightRun(m, fpu, k, fuel);
      StraightLineHaltsFrom(Run(m, fpu, fuel), m.regs.rpc as int, m', fpu, k, fuel);
    }
  }

  /** The inductive step: a run `r` that is one cycle before the run from
      `m'`, which is one instruction past `pc`, halts one cycle later. */
  lemma {:induction false} StraightLineHaltsFrom(r: Outcome, pc: int, m': CpuSpec.Machine, fpu: CpuSpec.Fpu, k: nat, fuel: nat)
    requires 0 < k && k < fuel
    requires m'.regs.stc == 0 && m'.regs.rpc as int == pc + I.INSTR_SIZE
    requires pc + I.INSTR_SIZE * (k + 1) < MEM_SIZE
    requires StraightThenHalt(m', fpu, k - 1)
    requires r == Later(Run(m', fpu, fuel - 1), 1)
    ensures HaltsAfter(r, k + 1, pc + I.INSTR_SIZE * (k + 1))
    decreases k, 0
  {
    var q := pc + I.INSTR_SIZE * (k + 1);
    assert m'.regs.rpc + I.INSTR_SIZE * (k - 1 + 1) == q;
    StraightLineHalts(m', fpu, k - 1, fuel - 1);
    HaltsLater(r, Run(m', fpu, fuel - 1), k, q);
  }

  /** A run that stopped after `n` cycles on the halt sentinel with rpc at
      `pc`. */
  predicate HaltsAfter(o: Outcome, n: nat, pc: int) {
    o.status == Stopped && o.cycles == n &&
    o.final.regs.stc == END_OF_EXECUTION && o.final.regs.rpc == pc
  }

  /** A halt one cycle later is a halt after one more cycle. */
  lemma HaltsLater(r: Outcome, r': Outcome, n: nat, pc: int)
    requires r == Later(r', 1) && HaltsAfter(r', n, pc)
    ensures HaltsAfter(r, n + 1, pc)
  {
  }

  /** A straight first cycle below the last address moves rpc on by one
      instruction and leaves the rest of the run one cycle later. */
  lemma StraightRun(m: CpuSpec.Machine, fpu: CpuSpec.Fpu, k: nat, fuel: nat) returns (m': CpuSpec.Machine)
    requires m.regs.stc == 0 && 0 < k && 0 < fuel
    requires m.regs.rpc as int + I.INSTR_SIZE < MEM_SIZE
    requires StraightThenHalt(m, fpu, k)
    ensures StraightThenHalt(m', fpu, k - 1)
    ensures m'.regs.stc == 0 && m'.regs.rpc == m.regs.rpc + I.INSTR_SIZE
    ensures Run(m, fpu, fuel) == Later(Run(m', fpu, fuel - 1), 1)
  {
    m' := Step(m, fpu);
    assert m'.regs.rpc == m.regs.rpc + I.INSTR_SIZE by {
      assert m.regs.rpc + I.INSTR_SIZE < 0x1_0000;
    }
    RunStep(m, fpu, fuel);
  }

  /** A run that starts at a HALT stops after one cycle. */
  lemma HaltRun(m: CpuSpec.Machine, fpu: CpuSpec.Fpu, fuel: nat)
    requires m.regs.stc == 0 && 0 < fuel
    requires m.regs.rpc as int + I.INSTR_SIZE < MEM_SIZE
    requires FetchAt(m.mem, m.regs.rpc)[0] == I.HALT
    ensures Run(m, fpu, fuel) == Outcome(Stopped, m.(regs := m.regs.(stc := END_OF_EXECUTION, rpc := m.regs.rpc + I.INSTR_SIZE)), 1)
  {
    HaltStep(m, fpu);
    RunStep(m, fpu, fuel);
  }

  /** The cycle of a HALT below the last address sets the halt sentinel
      and only advances rpc. */
  lemma HaltStep(m: CpuSpec.Machine, fpu: CpuSpec.Fpu)
    requires m.regs.rpc as int + I.INSTR_SIZE < MEM_SIZE
    requires FetchAt(m.mem, m.regs.rpc)[0] == I.HALT
    ensures CanStep(m)
    ensures Step(m, fpu) == m.(regs := m.regs.(stc := END_OF_EXECUTION, rpc := m.regs.rpc + I.INSTR_SIZE))
  {
    I.HaltOnlySetsSentinel(Advance(m), FetchAt(m.mem, m.regs.rpc), fpu);
  }

  /** In particular, a program of `k` NOOPs and a HALT loaded at address 0
      stops after `k + 1` cycles with rpc at `6(k + 1)`. */
  lemma NoopsThenHalt(m: CpuSpec.Machine, fpu: CpuSpec.Fpu, k: nat, fuel: nat)
    requires m.regs.stc == 0 && m.regs.rpc == 0
    requires I.INSTR_SIZE * (k + 1) < MEM_SIZE
    requires forall j :: 0 <= j < k ==> m.mem[I.INSTR_SIZE * j] == I.NOOP
    requires m.mem[I.INSTR_SIZE * k] == I.HALT
    requires k < fuel
    ensures Run(m, fpu, fuel).status == Stopped
    ensures Run(m, fpu, fuel).cycles == k + 1
    ensures Run(m, fpu, fuel).final.regs.stc == END_OF_EXECUTION
    ensures Run(m, fpu, fuel).final.regs.rpc == I.INSTR_SIZE * (k + 1)
  {
    NoopsAreStraight(m, fpu, 0, k);
    StraightLineHalts(m, fpu, k, fuel);
  }

  lemma {:induction false} NoopsAreStraight(m: CpuSpec.Machine, fpu: CpuSpec.Fpu, i: nat, k: nat)
    requires m.regs.stc == 0 && m.regs.rpc == I.INSTR_SIZE * i
    requires i <= k && I.INSTR_SIZE * (k + 1) < MEM_SIZE
    requires forall j :: i <= j < k ==> m.mem[I.INSTR_SIZE * j] == I.NOOP
    requires m.mem[I.INSTR_SIZE * k] == I.HALT
    ensures StraightThenHalt(m, fpu, k - i)
    decreases k - i
  {
    var d := FetchAt(m.mem, m.regs.rpc);
    assert d[0] == m.mem[I.INSTR_SIZE * i];
    if i < k {
      I.NoopChangesNothing(Advance(m), d, fpu);
      assert Step(m, fpu) == Advance(m);
      NoopsAreStraight(Advance(m), fpu, i + 1, k);
    }
  }
}
