/** Where a run is chopped by the cycle limit, by the pause signal or by a suspension does not matter:
    every way of slicing walks along one and the same sequence of single instructions. */
module Slicing {
  import opened Words
  import opened Types
  import opened Machine
  import opened Syscalls
  import opened Ordered
  import opened Flat
  import opened Invariants
  import opened Deadlocks

  // ---- The unsliced run, one instruction at a time ----

  datatype Status = Running(f: Flat) | Finished(f: Flat) | Crashed(error: Error)

  /** Pending cycles moved into the total. */
  function Normal(g: Flat): Flat
    requires Shaped(g)
  {
    match Select(g)
    case None => g
    case Some(id) => Charge(g, id, g.machines[id])
  }

  predicate RootEnded(f: Flat) {
    ROOT in f.states && f.states[ROOT].Terminated?
  }

  /** What is up next in `f`: input and output is settled first, and a terminated root ends the run. */
  function Settle(f: Flat): Status
    requires Shaped(f)
  {
    if RootEnded(f) then Finished(f)
    else match Io(f)
      case Err(e) => Crashed(e)
      case Ok(g) => Running(Normal(g))
  }

  function SettleResult(r: Result<Flat>): Status
    requires !r.Panic? && (r.Ok? ==> Shaped(r.value))
  {
    match r
    case Ok(f) => Settle(f)
    case Err(e) => Crashed(e)
  }

  function Outcome(env: Env, charged: Flat, id: VmId, stop: Stop): Result<Flat>
    requires Shaped(charged) && id in charged.machines && id < charged.nextVmId
    requires stop.Yield? ==> stop.message.vm == id
    requires !stop.Stopped?
  {
    match stop
    case Yield(message) => Deliver(env, charged, message)
    case Exit(code) => End(charged, id, code)
  }

  lemma OutcomeIsShaped(env: Env, charged: Flat, id: VmId, stop: Stop)
    requires Shaped(charged) && id in charged.machines && id < charged.nextVmId
    requires stop.Yield? ==> stop.message.vm == id
    requires !stop.Stopped?
    ensures var r := Outcome(env, charged, id, stop); !r.Panic? && (r.Ok? ==> Shaped(r.value))
  {
  }

  ghost predicate Steppable(n: Flat) {
    Shaped(n) && forall id | id in n.states :: id < n.nextVmId
  }

  /** One instruction of the selected VM, with everything it triggers. No instruction starts, no message is
      delivered and no VM ends once the total has left 64 bits. */
  ghost function MicroStep(env: Env, s: Status): Status
    requires s.Running? ==> Steppable(s.f)
  {
    if !s.Running? then s
    else match Select(s.f)
      case None => Crashed(Deadlock)
      case Some(id) =>
        var vm := s.f.machines[id];
        if s.f.totalCycles >= TWO64 then Crashed(CyclesOverflow)
        else match Execute(env, id, vm.core, s.f.totalCycles)
        case Advanced(core, spent) => Running(Charge(s.f, id, vm.(core := core, cycles := spent)))
        case YieldedAt(core, spent, message) =>
          var charged := Charge(s.f, id, vm.(core := core, cycles := spent));
          if charged.totalCycles >= TWO64 then Crashed(CyclesOverflow) else
          assert message.vm == id by { ExecuteYieldsOwn(env, id, vm.core, s.f.totalCycles); }
          OutcomeIsShaped(env, charged, id, Yield(message));
          SettleResult(Outcome(env, charged, id, Yield(message)))
        case ExitedAt(core, spent, code) =>
          var charged := Charge(s.f, id, vm.(core := core, cycles := spent, exitCode := code));
          if charged.totalCycles >= TWO64 then Crashed(CyclesOverflow) else
          OutcomeIsShaped(env, charged, id, Exit(code));
          SettleResult(Outcome(env, charged, id, Exit(code)))
        case Broken(error) => Crashed(error)
  }

  lemma ExecuteYieldsOwn(env: Env, id: VmId, core: Core, now: nat)
    ensures var x := Execute(env, id, core, now); x.YieldedAt? ==> WellFormedMessage(id, x.message)
  {
    var instr := env.decode(core);
    if instr.Ecall? { HandleYieldsWellFormed(env, id, instr.at, now + instr.cost); }
  }

  ghost predicate Good(s: Status) {
    && (s.Running? ==> Live(s.f) && Settled(s.f))
    && (s.Finished? ==> Ended(s.f))
  }

  lemma NormalIsLive(g: Flat)
    requires Live(g)
    ensures Live(Normal(g)) && Settled(Normal(g)) && Select(Normal(g)) == Select(g)
  {
    if Select(g).Some? {
      ChargeKeepsLive(g, Select(g).value, g.machines[Select(g).value]);
      assert RunnableIds(Normal(g)) == RunnableIds(g);
    } else {
      assert forall id | id in g.states :: id !in RunnableIds(g);
    }
  }

  lemma SettleIsGood(f: Flat)
    requires Inv(f)
    ensures Good(Settle(f))
  {
    if Live(f) {
      assert StateOk(f, ROOT);
      if Io(f).Ok? {
        IoKeepsLive(f);
        NormalIsLive(Io(f).value);
      }
    }
  }

  lemma OutcomeKeepsInv(env: Env, f: Flat, id: VmId, vm: Vm, stop: Stop)
    requires Live(f) && Select(f) == Some(id) && !stop.Stopped?
    requires stop.Yield? ==> WellFormedMessage(id, stop.message)
    requires stop.Exit? ==> vm.exitCode == stop.code
    ensures var r := Outcome(env, Charge(f, id, vm), id, stop); r.Ok? ==> Inv(r.value)
  {
    ChargeKeepsLive(f, id, vm);
    var charged := Charge(f, id, vm);
    match stop
    case Yield(message) =>
      if Deliver(env, charged, message).Ok? { DeliverKeepsLive(env, charged, message); }
    case Exit(code) =>
      if id != ROOT && EndOther(charged, id, code).Ok? { EndOtherKeepsLive(charged, id, code); }
  }

  lemma MicroStepIsGood(env: Env, s: Status)
    requires Good(s)
    ensures Good(MicroStep(env, s))
  {
    if s.Running? && Select(s.f).Some? {
      var id := Select(s.f).value;
      var vm := s.f.machines[id];
      match Execute(env, id, vm.core, s.f.totalCycles)
      case Advanced(core, spent) =>
        ChargeKeepsLive(s.f, id, vm.(core := core, cycles := spent));
      case YieldedAt(core, spent, message) =>
        ExecuteYieldsOwn(env, id, vm.core, s.f.totalCycles);
        OutcomeIsGood(env, s.f, id, vm.(core := core, cycles := spent), Yield(message));
      case ExitedAt(core, spent, code) =>
        OutcomeIsGood(env, s.f, id, vm.(core := core, cycles := spent, exitCode := code), Exit(code));
      case Broken(_) =>
    }
  }

  lemma OutcomeIsGood(env: Env, f: Flat, id: VmId, vm: Vm, stop: Stop)
    requires Live(f) && Select(f) == Some(id) && !stop.Stopped?
    requires stop.Yield? ==> WellFormedMessage(id, stop.message)
    requires stop.Exit? ==> vm.exitCode == stop.code
    ensures var r := Outcome(env, Charge(f, id, vm), id, stop);
            !r.Panic? && (r.Ok? ==> Shaped(r.value)) && Good(SettleResult(r))
  {
    OutcomeIsShaped(env, Charge(f, id, vm), id, stop);
    OutcomeKeepsInv(env, f, id, vm, stop);
    var r := Outcome(env, Charge(f, id, vm), id, stop);
    if r.Ok? { SettleIsGood(r.value); }
  }

  ghost function Micros(env: Env, s: Status, n: nat): Status
    requires Good(s)
    ensures Good(Micros(env, s, n))
    decreases n
  {
    if n == 0 then s
    else
      MicroStepIsGood(env, s);
      Micros(env, MicroStep(env, s), n - 1)
  }

  lemma {:induction false} MicrosAdd(env: Env, s: Status, m: nat, n: nat)
    requires Good(s)
    ensures Micros(env, Micros(env, s, m), n) == Micros(env, s, m + n)
    decreases m
  {
    hide MicroStep, Settled, Ended;
    if m > 0 {
      MicroStepIsGood(env, s);
      MicrosAdd(env, MicroStep(env, s), m - 1, n);
    }
  }

  lemma {:induction false} TerminalIsAbsorbing(env: Env, s: Status, n: nat)
    requires Good(s) && !s.Running?
    ensures Micros(env, s, n) == s
  {
    if n > 0 { TerminalIsAbsorbing(env, s, n - 1); }
  }

  /** The unsliced run has at most one end. */
  lemma EndIsUnique(env: Env, s: Status, m: nat, n: nat)
    requires Good(s) && !Micros(env, s, m).Running? && !Micros(env, s, n).Running?
    ensures Micros(env, s, m) == Micros(env, s, n)
  {
    hide MicroStep, Live, Settled, Ended;
    if m <= n {
      MicrosAdd(env, s, m, n - m);
      TerminalIsAbsorbing(env, Micros(env, s, m), n - m);
    } else {
      MicrosAdd(env, s, n, m - n);
      TerminalIsAbsorbing(env, Micros(env, s, n), m - n);
    }
  }

  // ---- A slice follows the unsliced run ----

  lemma ChargedSelects(g: Flat, id: VmId, vm: Vm)
    requires Live(g) && Select(g) == Some(id)
    ensures Select(Charge(g, id, vm)) == Some(id)
    ensures Good(Running(Charge(g, id, vm)))
  {
    ChargeKeepsLive(g, id, vm);
    assert RunnableIds(Charge(g, id, vm)) == RunnableIds(g);
  }

  lemma OneStep(env: Env, s: Status)
    requires Good(s)
    ensures Micros(env, s, 1) == MicroStep(env, s)
  {
    MicroStepIsGood(env, s);
    assert Micros(env, MicroStep(env, s), 0) == MicroStep(env, s);
  }

  /** Where a run of VM `id` that stopped with `r` stands on the unsliced run. */
  ghost function Reached(env: Env, g: Flat, id: VmId, r: RunResult): Status
    requires Live(g) && Select(g) == Some(id)
    requires r.stop.Yield? ==> r.stop.message.vm == id
  {
    var charged := Charge(g, id, r.vm);
    if charged.totalCycles >= TWO64 then Crashed(CyclesOverflow)
    else if r.stop.Stopped? then
      if r.stop.error.CyclesExceeded? || r.stop.error.Pause? then Running(charged) else Crashed(r.stop.error)
    else
      OutcomeIsShaped(env, charged, id, r.stop);
      SettleResult(Outcome(env, charged, id, r.stop))
  }

  lemma StepAdvances(env: Env, g: Flat, id: VmId, vm: Vm)
    requires Live(g) && Select(g) == Some(id)
    requires g.totalCycles + vm.cycles < TWO64
    requires Execute(env, id, vm.core, g.totalCycles + vm.cycles).Advanced?
    ensures Good(Running(Charge(g, id, vm)))
    ensures var x := Execute(env, id, vm.core, g.totalCycles + vm.cycles);
            MicroStep(env, Running(Charge(g, id, vm))) ==
            Running(Charge(g, id, vm.(core := x.core, cycles := vm.cycles + x.spent)))
  {
    hide Live, Execute, Settled, Good, Select, Ended, Outcome, SettleResult;
    ChargedSelects(g, id, vm);
    var here := Charge(g, id, vm);
    assert here.machines[id] == vm.(cycles := 0);
    var x := Execute(env, id, vm.core, g.totalCycles + vm.cycles);
    var next := vm.(core := x.core, cycles := vm.cycles + x.spent);
    assert Charge(here, id, vm.(core := x.core, cycles := x.spent)) == Charge(g, id, next);
  }

  /** What a run that stops right here with an executed instruction leaves. */
  function StopOf(vm: Vm, x: Executed): RunResult
    requires !x.Advanced?
  {
    match x
    case YieldedAt(core, spent, message) => RunResult(vm.(core := core, cycles := vm.cycles + spent), Yield(message))
    case ExitedAt(core, spent, code) =>
      RunResult(vm.(core := core, cycles := vm.cycles + spent, exitCode := code), Exit(code))
    case Broken(error) => RunResult(vm, Stopped(error))
  }

  lemma StepStops(env: Env, g: Flat, id: VmId, vm: Vm)
    requires Live(g) && Select(g) == Some(id)
    requires g.totalCycles + vm.cycles < TWO64
    requires !Execute(env, id, vm.core, g.totalCycles + vm.cycles).Advanced?
    ensures Good(Running(Charge(g, id, vm)))
    ensures var r := StopOf(vm, Execute(env, id, vm.core, g.totalCycles + vm.cycles));
            && (r.stop.Yield? ==> r.stop.message.vm == id)
            && MicroStep(env, Running(Charge(g, id, vm))) == Reached(env, g, id, r)
  {
    hide Live, Execute, Settled, Good, Select, Ended, Outcome, SettleResult;
    ChargedSelects(g, id, vm);
    ExecuteYieldsOwn(env, id, vm.core, g.totalCycles + vm.cycles);
    var here := Charge(g, id, vm);
    assert here.machines[id] == vm.(cycles := 0);
    match Execute(env, id, vm.core, g.totalCycles + vm.cycles)
    case YieldedAt(core, spent, message) =>
      assert Charge(here, id, vm.(core := core, cycles := spent)) ==
             Charge(g, id, vm.(core := core, cycles := vm.cycles + spent));
    case ExitedAt(core, spent, code) =>
      assert Charge(here, id, vm.(core := core, cycles := spent, exitCode := code)) ==
             Charge(g, id, vm.(core := core, cycles := vm.cycles + spent, exitCode := code));
    case Broken(error) =>
      ExecuteErrors(env, id, vm.core, g.totalCycles + vm.cycles);
  }

  lemma ExecuteSpends(env: Env, id: VmId, core: Core, now: nat)
    ensures var x := Execute(env, id, core, now); x.Advanced? ==> x.spent >= 1 && !env.decode(core).Trap?
  {
  }

  lemma ExecuteErrors(env: Env, id: VmId, core: Core, now: nat)
    ensures var x := Execute(env, id, core, now); x.Broken? ==> !x.error.CyclesExceeded? && !x.error.Pause?
  {
  }

  /** A run never gives cycles back, so once the total has left 64 bits the turn reports the overflow. */
  lemma {:induction false} RunGrows(env: Env, id: VmId, vm: Vm, base: nat, limit: nat, signal: Signal)
    ensures Run(env, id, vm, base, limit, signal).vm.cycles >= vm.cycles
    decreases if vm.cycles <= limit then limit - vm.cycles + 1 else 0
  {
    hide Execute;
    ExecuteSpends(env, id, vm.core, base + vm.cycles);
    if signal != After(0) && !Exceeds(env, vm, limit) {
      match Execute(env, id, vm.core, base + vm.cycles)
      case Advanced(core, spent) =>
        RunGrows(env, id, vm.(core := core, cycles := vm.cycles + spent), base, limit, Tick(signal));
      case _ =>
    }
  }

  lemma OverflowStops(env: Env, g: Flat, id: VmId, vm: Vm)
    requires Live(g) && Select(g) == Some(id) && g.totalCycles + vm.cycles >= TWO64
    ensures Good(Running(Charge(g, id, vm)))
    ensures MicroStep(env, Running(Charge(g, id, vm))) == Crashed(CyclesOverflow)
  {
    hide Live, Execute, Settled, Good, Select, Ended, Outcome, SettleResult;
    ChargedSelects(g, id, vm);
  }

  lemma {:induction false} RunFollows(env: Env, g: Flat, id: VmId, vm: Vm, limit: nat, signal: Signal) returns (n: nat)
    requires Live(g) && Select(g) == Some(id)
    ensures Good(Running(Charge(g, id, vm)))
    ensures var r := Run(env, id, vm, g.totalCycles, limit, signal);
            && (r.stop.Yield? ==> r.stop.message.vm == id)
            && Micros(env, Running(Charge(g, id, vm)), n) == Reached(env, g, id, r)
    decreases if vm.cycles <= limit then limit - vm.cycles + 1 else 0
  {
    hide MicroStep, Live, Charge, Execute, Settled, Good, Select, Ended, Outcome, SettleResult;
    ChargedSelects(g, id, vm);
    ExecuteSpends(env, id, vm.core, g.totalCycles + vm.cycles);
    var here := Running(Charge(g, id, vm));
    RunGrows(env, id, vm, g.totalCycles, limit, signal);
    ChargedTotal(g, id, vm);
    ChargedTotal(g, id, Run(env, id, vm, g.totalCycles, limit, signal).vm);
    if g.totalCycles + vm.cycles >= TWO64 {
      OneStep(env, here);
      OverflowStops(env, g, id, vm);
      RunYieldsWellFormed(env, id, vm, g.totalCycles, limit, signal);
      n := 1;
    } else if signal == After(0) || Exceeds(env, vm, limit) {
      n := 0;
    } else {
      OneStep(env, here);
      var x := Execute(env, id, vm.core, g.totalCycles + vm.cycles);
      if x.Advanced? {
        StepAdvances(env, g, id, vm);
        var m := RunFollows(env, g, id, vm.(core := x.core, cycles := vm.cycles + x.spent), limit, Tick(signal));
        MicrosAdd(env, here, 1, m);
        n := 1 + m;
      } else {
        StepStops(env, g, id, vm);
        n := 1;
      }
    }
  }

  lemma ChargedTotal(g: Flat, id: VmId, vm: Vm)
    ensures Charge(g, id, vm).totalCycles == g.totalCycles + vm.cycles
  {
  }

  // ---- A whole turn follows the unsliced run ----

  ghost function StatusOf(t: Turned): Status
    requires !t.Fatal? ==> Shaped(t.next)
  {
    if t.Fatal? then Crashed(t.error) else Settle(t.next)
  }

  lemma ConcludeCases(env: Env, g: Flat, id: VmId, r: RunResult)
    requires Shaped(g) && id in g.machines && id < g.nextVmId
    requires r.stop.Yield? ==> r.stop.message.vm == id
    ensures var t := Conclude(env, g, id, r);
            if r.stop == Stopped(CapacityOverflow) then t == Fatal(CapacityOverflow)
            else if g.totalCycles + r.vm.cycles >= TWO64 then t == Fatal(CyclesOverflow)
            else if r.stop.Stopped? then
              t == (if r.stop.error.CyclesExceeded? || r.stop.error.Pause? then Cut(Charge(g, id, r.vm), r.stop.error)
                    else Fatal(r.stop.error))
            else
              var o := Outcome(env, Charge(g, id, r.vm), id, r.stop);
              !o.Panic? && t == ToTurned(o, r.vm.cycles)
  {
    if !r.stop.Stopped? {
      OutcomeIsShaped(env, Charge(g, id, r.vm), id, r.stop);
    }
  }

  /** `unsliced` is where the unsliced run stands and `sliced` where a sliced one does. They are the same, except that a
      slice that is not cut can pass an overflow of the total, which is noticed at its end, and panic before that. */
  ghost predicate Matches(unsliced: Status, sliced: Status) {
    unsliced == sliced || (unsliced == Crashed(CyclesOverflow) && sliced == Crashed(CapacityOverflow))
  }

  lemma ConcludeReaches(env: Env, g: Flat, id: VmId, r: RunResult)
    requires Live(g) && Io(g) == Ok(g) && Select(g) == Some(id)
    requires r.stop.Yield? ==> WellFormedMessage(id, r.stop.message)
    requires r.stop.Exit? ==> r.vm.exitCode == r.stop.code
    ensures var t := Conclude(env, g, id, r);
            && (!t.Fatal? ==> Inv(t.next))
            && Matches(Reached(env, g, id, r), StatusOf(t))
  {
    ConcludeKeepsInv(env, g, id, r);
    ConcludeCases(env, g, id, r);
    if r.stop.Stopped? {
      CutSettles(g, id, r.vm);
    }
  }

  lemma CutSettles(g: Flat, id: VmId, vm: Vm)
    requires Live(g) && Io(g) == Ok(g) && Select(g) == Some(id)
    ensures Settle(Charge(g, id, vm)) == Running(Charge(g, id, vm))
  {
    var c := Charge(g, id, vm);
    ChargedIoIsStable(g, id, vm);
    ChargeKeepsLive(g, id, vm);
    assert StateOk(c, ROOT);
    assert Normal(c) == c;
  }

  /** A turn, however it ends, is a stretch of the unsliced run, up to a panic beyond the overflow of the total. */
  lemma TurnFollows(env: Env, f: Flat, signal: Signal, limit: nat) returns (n: nat)
    requires Live(f)
    ensures Good(Settle(f))
    ensures var t := Iterate(env, f, signal, limit);
            && (!t.Fatal? ==> Inv(t.next))
            && Matches(Micros(env, Settle(f), n), StatusOf(t))
            && (!t.Fatal? ==> Micros(env, Settle(f), n) == StatusOf(t))
  {
    hide Conclude, Run, Reached, Execute, IoVm, IoState, IsLargest;
    SettleIsGood(f);
    LiveRootRuns(f);
    var t := Iterate(env, f, signal, limit);
    IterateKeepsInv(env, f, signal, limit);
    if !t.Fatal? { SettleErrors(t.next); }
    n := 0;
    if Io(f).Ok? {
      IoKeepsLive(f);
      IoIdempotent(f);
      var g := Io(f).value;
      if Select(g).Some? {
        var id := Select(g).value;
        n := RunFollows(env, g, id, g.machines[id], limit, signal);
        RunYieldsWellFormed(env, id, g.machines[id], g.totalCycles, limit, signal);
        RunExitCode(env, id, g.machines[id], g.totalCycles, limit, signal);
        ConcludeReaches(env, g, id, Run(env, id, g.machines[id], g.totalCycles, limit, signal));
      } else {
        n := 1;
        OneStep(env, Settle(f));
      }
    }
  }

  lemma SettleErrors(f: Flat)
    requires Inv(f)
    ensures Shaped(f) && Settle(f) != Crashed(CapacityOverflow)
  {
    SettleEnded(f);
    hide Live, Ended, IoFaults, IoState, IoVm, Normal;
  }

  lemma LiveRootRuns(f: Flat)
    requires Live(f)
    ensures !RootEnded(f)
  {
    assert StateOk(f, ROOT);
  }

  // ---- Whole runs ----

  datatype TimeSlice = TimeSlice(signal: Signal, limit: nat)

  datatype Driven = Completed(f: Flat) | Unfinished(f: Flat) | Aborted(error: Error)

  /** One turn after the other, each with its own limit and pause signal, until the root has terminated. */
  ghost function Drive(env: Env, f: Flat, slices: seq<TimeSlice>): (d: Driven)
    requires Inv(f)
    ensures d.Completed? ==> Ended(d.f)
    ensures d.Unfinished? ==> Live(d.f)
    decreases |slices|
  {
    if Ended(f) then Completed(f)
    else if slices == [] then Unfinished(f)
    else
      IterateKeepsInv(env, f, slices[0].signal, slices[0].limit);
      match Iterate(env, f, slices[0].signal, slices[0].limit)
      case Turn(next, _) => Drive(env, next, slices[1..])
      case Cut(next, _) => Drive(env, next, slices[1..])
      case Fatal(e) => Aborted(e)
  }

  ghost function StatusOfDriven(d: Driven): Status
    requires !d.Aborted? ==> Inv(d.f)
  {
    match d
    case Completed(f) => Finished(f)
    case Unfinished(f) => Settle(f)
    case Aborted(e) => Crashed(e)
  }

  lemma {:induction false} DriveFollows(env: Env, f: Flat, slices: seq<TimeSlice>) returns (n: nat)
    requires Inv(f)
    ensures Good(Settle(f))
    ensures Matches(Micros(env, Settle(f), n), StatusOfDriven(Drive(env, f, slices)))
    decreases |slices|
  {
    hide Live, Iterate, MicroStep, Settle, Ended;
    SettleIsGood(f);
    SettleEnded(f);
    n := 0;
    if !Ended(f) && slices != [] {
      var t := Iterate(env, f, slices[0].signal, slices[0].limit);
      n := TurnFollows(env, f, slices[0].signal, slices[0].limit);
      if !t.Fatal? {
        var m := DriveFollows(env, t.next, slices[1..]);
        MicrosAdd(env, Settle(f), n, m);
        n := n + m;
      }
    }
  }

  lemma SettleEnded(f: Flat)
    requires Inv(f)
    ensures Shaped(f) && (Ended(f) ==> Settle(f) == Finished(f))
    ensures forall id | id in f.states :: id < f.nextVmId
  {
  }

  /** A spawn call with too many arguments has been met. */
  predicate Overcommits(d: Driven) {
    d == Aborted(CapacityOverflow)
  }

  /** Two ways of slicing the same run that both come to an end come to the same end: the same exit code,
      total cycles, pipes and root machine, down to every value it stored on the way, or the same error, an
      overflow of the 64-bit cycle total included. Only where that total overflows can they differ, and then only in
      that one of them notices the overflow and the other panics in an oversized spawn call before it does. */
  lemma SlicingIsTransparent(env: Env, f: Flat, a: seq<TimeSlice>, b: seq<TimeSlice>) returns (n: nat)
    requires Inv(f)
    requires !Drive(env, f, a).Unfinished? && !Drive(env, f, b).Unfinished?
    ensures Drive(env, f, a) == Drive(env, f, b) <==> (Overcommits(Drive(env, f, a)) <==> Overcommits(Drive(env, f, b)))
    ensures Good(Settle(f)) && !Micros(env, Settle(f), n).Running?
    ensures Drive(env, f, a) != Drive(env, f, b) ==>
              && Micros(env, Settle(f), n) == Crashed(CyclesOverflow)
              && {Drive(env, f, a), Drive(env, f, b)} == {Aborted(CyclesOverflow), Aborted(CapacityOverflow)}
  {
    hide Live, Settle, Drive, Ended, MicroStep, Good;
    SettleEnded(f);
    var m := DriveFollows(env, f, a);
    n := DriveFollows(env, f, b);
    EndIsUnique(env, Settle(f), m, n);
  }

  /** A run can be left at any point between two slices and taken up again there. */
  lemma {:induction false} DriveResumes(env: Env, f: Flat, a: seq<TimeSlice>, b: seq<TimeSlice>)
    requires Inv(f) && Drive(env, f, a).Unfinished?
    ensures Drive(env, f, a + b) == Drive(env, Drive(env, f, a).f, b)
    decreases |a|
  {
    hide Live, Iterate, Ended;
    if a == [] {
      assert a + b == b;
    } else {
      SettleEnded(f);
      IterateKeepsInv(env, f, a[0].signal, a[0].limit);
      var t := Iterate(env, f, a[0].signal, a[0].limit);
      assert (a + b)[0] == a[0] && (a + b)[1..] == a[1..] + b;
      DriveResumes(env, t.next, a[1..], b);
    }
  }

  // ---- `Scheduler::run` as a sequence of slices ----

  /** A run is bounded by cycles, or by a pause signal that is noticed after `first` instructions of the first
      turn and `second` instructions of the next. */
  datatype RunMode = LimitCycles(limit: u64) | PauseSignal(first: nat, second: nat)

  function FirstSlice(mode: RunMode): TimeSlice {
    match mode
    case LimitCycles(limit) => TimeSlice(Never, limit)
    case PauseSignal(first, _) => TimeSlice(After(first), TWO64 - 1)
  }

  /** The limit of every later turn is `consumed_cycles - consumed_cycles`. */
  function LaterSlice(mode: RunMode): TimeSlice {
    match mode
    case LimitCycles(_) => TimeSlice(Never, 0)
    case PauseSignal(_, second) => TimeSlice(After(second), 0)
  }

  lemma ZeroLimitStops(env: Env, id: VmId, vm: Vm, base: nat, signal: Signal)
    ensures Run(env, id, vm, base, 0, signal).stop.Stopped?
    ensures Run(env, id, vm, base, 0, signal).vm == vm
  {
  }

  /** With limit 0 no turn gets anywhere: it is cut or fails. */
  lemma ZeroLimitNeverTurns(env: Env, f: Flat, signal: Signal)
    requires Live(f)
    ensures !Iterate(env, f, signal, 0).Turn?
  {
    LiveShape(f);
    if Io(f).Ok? && Select(Io(f).value).Some? {
      var g := Io(f).value;
      var id := Select(g).value;
      ZeroLimitStops(env, id, g.machines[id], g.totalCycles, signal);
    }
  }

  /** The slices one call of `run` goes through. */
  ghost function RunSlices(env: Env, f: Flat, mode: RunMode): seq<TimeSlice>
    requires Inv(f)
  {
    if Ended(f) then []
    else
      var t := Iterate(env, f, FirstSlice(mode).signal, FirstSlice(mode).limit);
      if t.Turn? && !Ended(t.next) then [FirstSlice(mode), LaterSlice(mode)] else [FirstSlice(mode)]
  }

  ghost function RunDrive(env: Env, f: Flat, mode: RunMode): Driven
    requires Inv(f)
  {
    Drive(env, f, RunSlices(env, f, mode))
  }

  lemma DriveOne(env: Env, f: Flat, slice: TimeSlice)
    requires Live(f)
    ensures Steppable(f)
    ensures var t := Iterate(env, f, slice.signal, slice.limit);
            && (t.Turn? ==> Inv(t.next))
            && (t.Cut? ==> Live(t.next))
            && Drive(env, f, [slice]) == (if t.Fatal? then Aborted(t.error) else Drive(env, t.next, []))
            && forall later :: Drive(env, f, [slice, later]) ==
                               if t.Fatal? then Aborted(t.error) else Drive(env, t.next, [later])
  {
    hide Live, Iterate;
    LiveShape(f);
    LiveNotEnded(f);
    IterateKeepsInv(env, f, slice.signal, slice.limit);
    assert [slice][1..] == [];
    forall later ensures [slice, later][1..] == [later] { }
  }

  /** Hence one call of `run` makes at most one turn of progress: it returns an exit code exactly when the root
      terminates in its first turn, and otherwise leaves the scheduler one turn further, or cut short in it. */
  lemma RunMakesOneTurn(env: Env, f: Flat, mode: RunMode)
    requires Live(f)
    ensures Steppable(f)
    ensures var t := Iterate(env, f, FirstSlice(mode).signal, FirstSlice(mode).limit);
            match t
            case Fatal(e) => RunDrive(env, f, mode) == Aborted(e)
            case Cut(next, _) => RunDrive(env, f, mode) == Unfinished(next)
            case Turn(next, _) =>
              && Inv(next)
              && (Ended(next) ==> RunDrive(env, f, mode) == Completed(next))
              && (!Ended(next) ==>
                    && Steppable(next)
                    && var u := Iterate(env, next, LaterSlice(mode).signal, 0);
                    && !u.Turn?
                    && RunDrive(env, f, mode) == (if u.Cut? then Unfinished(u.next) else Aborted(u.error)))
  {
    hide Live, Iterate;
    LiveNotEnded(f);
    DriveOne(env, f, FirstSlice(mode));
    var t := Iterate(env, f, FirstSlice(mode).signal, FirstSlice(mode).limit);
    if t.Cut? { LiveNotEnded(t.next); }
    if t.Turn? && !Ended(t.next) {
      DriveOne(env, t.next, LaterSlice(mode));
      ZeroLimitNeverTurns(env, t.next, LaterSlice(mode).signal);
      var u := Iterate(env, t.next, LaterSlice(mode).signal, 0);
      if u.Cut? { LiveNotEnded(u.next); }
    }
  }

  /** The first turn decides what a call of `run` comes to, unless it is one of progress after which the root lives. */
  ghost predicate FirstTurnDecides(t: Turned, d: Driven)
    requires t.Turn? ==> Inv(t.next)
  {
    match t
    case Fatal(e) => d == Aborted(e)
    case Cut(next, _) => d == Unfinished(next)
    case Turn(next, _) => if Ended(next) then d == Completed(next) else !d.Completed?
  }

  /** A run that is bounded by cycles gives its first turn that limit and no pause signal; one that is to be paused
      gives it the signal and the largest limit there is. */
  lemma RunModes(env: Env, f: Flat, limit: u64, first: nat, second: nat)
    requires Live(f)
    ensures Steppable(f)
    ensures var t := Iterate(env, f, Never, limit);
            (t.Turn? ==> Inv(t.next)) && FirstTurnDecides(t, RunDrive(env, f, LimitCycles(limit)))
    ensures var t := Iterate(env, f, After(first), 0xFFFF_FFFF_FFFF_FFFF);
            (t.Turn? ==> Inv(t.next)) && FirstTurnDecides(t, RunDrive(env, f, PauseSignal(first, second)))
  {
    hide Live, Iterate, RunDrive, Ended;
    RunMakesOneTurn(env, f, LimitCycles(limit));
    RunMakesOneTurn(env, f, PauseSignal(first, second));
  }

  /** The error of a call of `run` that can be gone on from: that of the turn that was cut. */
  ghost function RunError(env: Env, f: Flat, mode: RunMode): Error
    requires Live(f)
  {
    LiveShape(f);
    var t := Iterate(env, f, FirstSlice(mode).signal, FirstSlice(mode).limit);
    if t.Turn? && Steppable(t.next) then
      var u := Iterate(env, t.next, LaterSlice(mode).signal, LaterSlice(mode).limit);
      if u.Turn? then CyclesExceeded else u.error
    else if t.Turn? then CyclesExceeded
    else t.error
  }

  lemma EitherInv(f: Flat)
    requires Inv(f)
    ensures Live(f) || Ended(f)
  {
    hide Live, Ended;
  }

  /** A run that has come to an end stays there. */
  lemma {:induction false} DriveIsFinal(env: Env, f: Flat, a: seq<TimeSlice>, b: seq<TimeSlice>)
    requires Inv(f) && !Drive(env, f, a).Unfinished?
    ensures Drive(env, f, a + b) == Drive(env, f, a)
    decreases |a|
  {
    hide Live, Iterate, Ended;
    if !Ended(f) && a != [] {
      SettleEnded(f);
      IterateKeepsInv(env, f, a[0].signal, a[0].limit);
      var t := Iterate(env, f, a[0].signal, a[0].limit);
      assert (a + b)[0] == a[0] && (a + b)[1..] == a[1..] + b;
      if !t.Fatal? { DriveIsFinal(env, t.next, a[1..], b); }
    }
  }

  lemma LiveNotEnded(f: Flat)
    requires Live(f)
    ensures !Ended(f)
  {
    assert StateOk(f, ROOT);
  }

  lemma LaterLimit(mode: RunMode)
    ensures LaterSlice(mode).limit == 0
    ensures mode.LimitCycles? ==> FirstSlice(mode).signal.Never? && LaterSlice(mode).signal.Never?
  {
  }

  lemma EndedCode(f: Flat)
    requires Ended(f)
    ensures ROOT in f.terminated && ROOT in f.machines && f.terminated[ROOT] == f.machines[ROOT].exitCode
  {
  }

  lemma RunEnded(env: Env, f: Flat, mode: RunMode)
    requires Inv(f)
    ensures Ended(f) ==> RunDrive(env, f, mode) == Completed(f)
    ensures Live(f) ==> !Ended(f)
  {
    if Live(f) { LiveNotEnded(f); }
  }

  lemma CutErrors(env: Env, f: Flat, signal: Signal, limit: nat)
    requires Steppable(f)
    ensures var t := Iterate(env, f, signal, limit);
            t.Cut? ==> t.error.CyclesExceeded? || (t.error.Pause? && !signal.Never?)
  {
    hide Run, Deliver, End, IoVm, IoState;
    if Io(f).Ok? && Select(Io(f).value).Some? {
      var g := Io(f).value;
      var id := Select(g).value;
      NeverPauses(env, id, g.machines[id], g.totalCycles, limit, signal);
    }
  }

  /** Without a pause signal no run is paused. */
  lemma {:induction false} NeverPauses(env: Env, id: VmId, vm: Vm, base: nat, limit: nat, signal: Signal)
    ensures signal.Never? ==> Run(env, id, vm, base, limit, signal).stop != Stopped(Pause)
    decreases if vm.cycles <= limit then limit - vm.cycles + 1 else 0
  {
    hide Execute;
    ExecuteSpends(env, id, vm.core, base + vm.cycles);
    ExecuteErrors(env, id, vm.core, base + vm.cycles);
    if signal != After(0) && !Exceeds(env, vm, limit) {
      match Execute(env, id, vm.core, base + vm.cycles)
      case Advanced(core, spent) =>
        NeverPauses(env, id, vm.(core := core, cycles := vm.cycles + spent), base, limit, Tick(signal));
      case _ =>
    }
  }

  lemma RootExitEnds(env: Env, g: Flat, id: VmId, r: RunResult)
    requires Live(g) && Select(g) == Some(id)
    requires r.stop.Yield? ==> r.stop.message.vm == id
    requires id in g.machines && id < g.nextVmId
    ensures var t := Conclude(env, g, id, r);
            t.Turn? && r.stop.Exit? && id == ROOT ==> RootEnded(t.next)
  {
    hide Deliver, EndOther;
  }

  lemma LiveRootRunsOrNot(f: Flat)
    ensures Live(f) ==> ROOT in f.states && !RootEnded(f)
  {
    if Live(f) { LiveRootRuns(f); }
  }
}
