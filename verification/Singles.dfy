/** Runs with a single VM: what an oversized spawn call does to them, and that slicing can then be seen. */
module Singles {
  import opened Words
  import opened Types
  import opened Machine
  import opened Syscalls
  import opened Ordered
  import opened Flat
  import opened Invariants
  import opened Slicing
  import opened Turns
  import opened Caches
  import opened VerifyTx

  // ---- One VM alone ----

  /** The root runs, nothing else is there. */
  function Alone(vm: Vm, total: nat): Flat {
    Flat(total, 1, FIRST_PIPE_SLOT, map[ROOT := Runnable], map[], map[ROOT := vm], map[])
  }

  lemma AloneIsLive(vm: Vm, total: nat)
    ensures Live(Alone(vm, total)) && Shaped(Alone(vm, total)) && Inv(Alone(vm, total)) && !Ended(Alone(vm, total))
    ensures ROOT in Alone(vm, total).machines && ROOT < Alone(vm, total).nextVmId
  {
    var f := Alone(vm, total);
    assert IsLargest(f.states.Keys, ROOT);
    assert StateOk(f, ROOT);
  }

  lemma AloneIo(vm: Vm, total: nat)
    ensures Shaped(Alone(vm, total)) && Io(Alone(vm, total)) == Ok(Alone(vm, total))
    ensures Select(Alone(vm, total)) == Some(ROOT)
  {
    var f := Alone(vm, total);
    assert IoVm(f, ROOT) == Some(vm) && IoState(f, ROOT) == Runnable;
    hide IoVm, IoState;
    assert !IoFaults(f);
    assert Io(f).value == f;
    assert RunnableIds(f) == {ROOT};
  }

  /** Its turn is its run. */
  lemma AloneTurn(env: Env, vm: Vm, total: nat, signal: Signal, limit: nat)
    ensures Live(Alone(vm, total)) && Steppable(Alone(vm, total))
    ensures ROOT in Alone(vm, total).machines && ROOT < Alone(vm, total).nextVmId
    ensures var r := Run(env, ROOT, vm, total, limit, signal);
            && (r.stop.Yield? ==> r.stop.message.vm == ROOT)
            && Iterate(env, Alone(vm, total), signal, limit) == Conclude(env, Alone(vm, total), ROOT, r)
  {
    AloneIsLive(vm, total);
    AloneIo(vm, total);
    hide Live, Io, Select, Run, Conclude;
    TurnFrom(env, Alone(vm, total), signal, limit, Alone(vm, total), ROOT);
  }

  lemma BootsAlone(env: Env, core: Core)
    requires env.boot(env.program, []) == Some(Booted(core, 0)) && 0 < |env.program| < TWO64
    ensures BootRoot(env, EMPTY) == Ok(Alone(Vm(core, 0, 0), 0))
  {
    assert Slice(env.program, 0, TWO64 - 1).0 == env.program;
  }

  // ---- A spawn call with 2^58 arguments ----

  const HALF: nat := 0x8000_0000_0000_0000

  function At(pc: u64): Core {
    Core(seq(32, i => if i == A1 then 3 else if i == A3 then ARGC_CAPACITY else if i == A7 then 2601 else 0), pc, [], 0)
  }

  /** A program without memory that computes for 2^63 cycles at 0 and at 1 and calls spawn from then on. */
  function Spawner(start: u64): Env {
    Env((core: Core) => if core.pc < 2 then Compute(HALF, At(core.pc + 1)) else Ecall(1, core),
        core => HostExit(core, 0), (data, argv) => Some(Booted(At(start), 0)), [0], id => Missing)
  }

  lemma CallsAt(start: u64, pc: u64)
    ensures CallsHuge(Spawner(start), At(pc)) <==> pc >= 2
  {
    assert ToDataPieceId(3, 0) == Some(CellDep(0));
  }

  lemma RunCalls(start: u64, vm: Vm, base: nat, limit: nat)
    requires vm.core == At(2) && vm.cycles < limit
    ensures Run(Spawner(start), ROOT, vm, base, limit, Never) == RunResult(vm, Stopped(CapacityOverflow))
  {
    CallsAt(start, 2);
    ExecuteOvercommits(Spawner(start), ROOT, vm.core, base + vm.cycles);
    hide Execute, CallsHuge, At;
  }

  lemma HugeTurn(start: u64, total: nat, limit: nat)
    requires limit > 0
    ensures Steppable(Alone(Vm(At(2), 0, 0), total))
    ensures Iterate(Spawner(start), Alone(Vm(At(2), 0, 0), total), Never, limit) == Fatal(CapacityOverflow)
  {
    var vm := Vm(At(2), 0, 0);
    AloneTurn(Spawner(start), vm, total, Never, limit);
    RunCalls(start, vm, total, limit);
    hide Iterate, Run, At;
  }

  lemma FirstRunPanics(maxCycles: u64, perIterate: u64, perSuspend: u64, rounds: nat)
    requires perIterate > 0 && rounds > 0
    ensures GroupPanics(Spawner(2), EMPTY, {}, 0, maxCycles, perIterate, perSuspend, rounds)
  {
    hide Live, Iterate, At, Ended, IoPanics, BootRoot;
    var env, f, mode := Spawner(2), Alone(Vm(At(2), 0, 0), 0), LimitCycles(perIterate);
    BootsAlone(env, At(2));
    HugeTurn(2, 0, perIterate);
    AloneIsLive(Vm(At(2), 0, 0), 0);
    var cached := StartKeys(EMPTY, if Due(EMPTY, 0, perSuspend) then {} else {});
    RunByTurns(env, f, cached, mode);
    PanicsStep(env, EMPTY, {}, 0, maxCycles, perIterate, perSuspend, rounds);
  }

  /** A root that calls spawn with 2^58 arguments makes the first call of `run` panic: one VM, no pipe, no suspension,
      and the spawned piece does not even exist. */
  method OneVmPanics(maxCycles: u64, perIterate: u64, perSuspend: u64, rounds: nat) returns (r: Verdict)
    requires perIterate > 0 && rounds > 0
    ensures r == Panicked
  {
    hide *;
    FirstRunPanics(maxCycles, perIterate, perSuspend, rounds);
    r := VerifyGroup(Spawner(2), maxCycles, perIterate, perSuspend, rounds);
  }

  // ---- An exit ----

  const IDLE := Core(seq(32, i => if i == A7 then 93 else 0), 0, [], 0)

  /** A program that exits at once. */
  function Exiting(code: int): Env {
    Env((core: Core) => Ecall(1, core), core => HostExit(core, code), (data, argv) => Some(Booted(IDLE, 0)),
        [0], id => Missing)
  }

  lemma ExitTurn(code: int, limit: nat)
    requires limit > 0
    ensures var vm := Vm(IDLE, 0, 0);
            && Steppable(Alone(vm, 0))
            && var t := Iterate(Exiting(code), Alone(vm, 0), Never, limit);
            && t.Turn? && Ended(t.next) && ROOT in t.next.terminated
            && t.next.terminated[ROOT] == code && t.next.totalCycles == 1
  {
    var vm := Vm(IDLE, 0, 0);
    AloneTurn(Exiting(code), vm, 0, Never, limit);
    assert vm.core.Reg(A7) == 93;
    assert Run(Exiting(code), ROOT, vm, 0, limit, Never) == RunResult(Vm(vm.core, 1, code), Exit(code));
    hide Iterate, Run, At;
  }

  lemma ExitVerdict(code: int, maxCycles: u64, perIterate: u64, perSuspend: u64, rounds: nat)
    requires maxCycles > 0 && perIterate > 0 && rounds > 0
    ensures Group(Exiting(code), EMPTY, maxCycles, perIterate, rounds) == Verdict.Exited(code, 1)
    ensures !GroupPanics(Exiting(code), EMPTY, {}, 0, maxCycles, perIterate, perSuspend, rounds)
  {
    hide Live, Iterate, At, Ended, IoPanics, BootRoot, Alone, ClosedWaiter;
    var core := IDLE;
    var env, f, mode := Exiting(code), Alone(Vm(core, 0, 0), 0), LimitCycles(perIterate);
    BootsAlone(env, core);
    ExitTurn(code, perIterate);
    AloneIsLive(Vm(core, 0, 0), 0);
    AloneClosed(Vm(core, 0, 0), 0);
    var cached := StartKeys(EMPTY, if Due(EMPTY, 0, perSuspend) then {} else {});
    NothingClosedNeverPanics(f, cached);
    RunModes(env, f, perIterate, 0, 0);
    RunByTurns(env, f, cached, mode);
    PanicsStep(env, EMPTY, {}, 0, maxCycles, perIterate, perSuspend, rounds);
    GroupStep(env, EMPTY, maxCycles, perIterate, rounds);
  }

  lemma AloneClosed(vm: Vm, total: nat)
    ensures Shaped(Alone(vm, total)) && forall id :: !ClosedWaiter(Alone(vm, total), id)
  {
  }

  /** A program that exits at once makes the loop end with its code, whatever that is, after one cycle. */
  method OneVmExits(code: int, maxCycles: u64, perIterate: u64, perSuspend: u64, rounds: nat) returns (r: Verdict)
    requires maxCycles > 0 && perIterate > 0 && rounds > 0
    ensures r == Verdict.Exited(code, 1)
  {
    hide *;
    ExitVerdict(code, maxCycles, perIterate, perSuspend, rounds);
    r := VerifyGroup(Exiting(code), maxCycles, perIterate, perSuspend, rounds);
  }

  // ---- Two slicings that differ ----

  lemma Computes(start: u64, pc: u64, vm: Vm, base: nat, limit: nat)
    requires pc < 2 && vm.core == At(pc)
    ensures vm.cycles + HALF <= limit ==>
              Run(Spawner(start), ROOT, vm, base, limit, Never) ==
              Run(Spawner(start), ROOT, Vm(At(pc + 1), vm.cycles + HALF, vm.exitCode), base, limit, Never)
    ensures vm.cycles + HALF > limit ==>
              Run(Spawner(start), ROOT, vm, base, limit, Never) == RunResult(vm, Stopped(CyclesExceeded))
  {
    var core := At(pc);
    assert core.pc == pc;
    hide At;
  }

  /** The first slice is cut after one instruction. */
  lemma FirstHalf()
    ensures Steppable(Alone(Vm(At(0), 0, 0), 0))
    ensures Iterate(Spawner(0), Alone(Vm(At(0), 0, 0), 0), Never, HALF) ==
            Cut(Alone(Vm(At(1), 0, 0), HALF), CyclesExceeded)
  {
    hide Iterate, Run, At;
    var vm := Vm(At(0), 0, 0);
    AloneTurn(Spawner(0), vm, 0, Never, HALF);
    Computes(0, 0, vm, 0, HALF);
    Computes(0, 1, Vm(At(1), HALF, 0), 0, HALF);
  }

  /** The second one passes 2^64 cycles. Cut right behind that it reports the overflow; a longer one panics. */
  lemma SecondHalf(limit: nat)
    requires limit >= HALF
    ensures Steppable(Alone(Vm(At(1), 0, 0), HALF))
    ensures Iterate(Spawner(0), Alone(Vm(At(1), 0, 0), HALF), Never, limit) ==
            Fatal(if limit == HALF then CyclesOverflow else CapacityOverflow)
  {
    hide Iterate, Run, At;
    var vm, next := Vm(At(1), 0, 0), Vm(At(2), HALF, 0);
    AloneTurn(Spawner(0), vm, HALF, Never, limit);
    Computes(0, 1, vm, HALF, limit);
    if limit == HALF { CutBefore(next, HALF, limit); } else { RunCalls(0, next, HALF, limit); }
  }

  lemma CutBefore(vm: Vm, base: nat, limit: nat)
    requires vm.core == At(2) && vm.cycles == limit
    ensures Run(Spawner(0), ROOT, vm, base, limit, Never) == RunResult(vm, Stopped(CyclesExceeded))
  {
  }

  /** So where the total overflows, where the slices end can decide between that error and the panic. */
  lemma SlicesCanDiffer()
    ensures BootRoot(Spawner(0), EMPTY) == Ok(Alone(Vm(At(0), 0, 0), 0)) && Inv(Alone(Vm(At(0), 0, 0), 0))
    ensures var first, f := TimeSlice(Never, HALF), Alone(Vm(At(0), 0, 0), 0);
            && Drive(Spawner(0), f, [first, TimeSlice(Never, HALF)]) == Aborted(CyclesOverflow)
            && Drive(Spawner(0), f, [first, TimeSlice(Never, TWO64 - 1)]) == Aborted(CapacityOverflow)
  {
    hide Iterate, Live, At, Alone, Ended;
    BootsAlone(Spawner(0), At(0));
    AloneIsLive(Vm(At(0), 0, 0), 0);
    AloneIsLive(Vm(At(1), 0, 0), HALF);
    FirstHalf();
    SecondHalf(HALF);
    SecondHalf(TWO64 - 1);
    var first, short, long := TimeSlice(Never, HALF), TimeSlice(Never, HALF), TimeSlice(Never, TWO64 - 1);
    DriveOne(Spawner(0), Alone(Vm(At(0), 0, 0), 0), first);
    DriveOne(Spawner(0), Alone(Vm(At(1), 0, 0), HALF), short);
    DriveOne(Spawner(0), Alone(Vm(At(1), 0, 0), HALF), long);
  }
}
