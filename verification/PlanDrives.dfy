/** Whole runs of a planned workload: programs that keep to their plan are never reported as deadlocked, never make
    the scheduler panic, and can only exit with code 0. */
module PlanDrives {
  import opened Words
  import T = Types
  import M = Machine
  import F = Flat
  import I = Invariants
  import L = Slicing
  import Y = Syscalls
  import U = Turns
  import V = VerifyTx
  import R = Progress
  import opened Planner
  import opened PlanFacts
  import opened Guests
  import opened GuestInv
  import opened PlanOnScheduler
  import opened PlanTurns

  // ---- One turn ----

  /** How `v` stops fits the plan: with the syscall that comes next, with its exit, or because its slice is used up. */
  ghost predicate PlannedStop(d: Data, s: World, f: F.Flat, vmOf: map<T.VmId, nat>, v: nat, stop: F.Stop) {
    match stop
    case Yield(m) => PlannedCall(d, s, vmOf, v, m)
    case Exit(code) => PlannedExit(s, f, vmOf, v, code)
    case Stopped(e) => e.CyclesExceeded? || e.Pause?
  }

  function AfterStop(d: Data, s: World, v: nat, stop: F.Stop): World {
    match stop
    case Yield(m) => AfterCall(d, s, v, m)
    case Exit(_) => if Do(d, s, Alone(v)).Some? then Do(d, s, Alone(v)).value else s
    case Stopped(_) => s
  }

  function NamesAfterStop(d: Data, s: World, v: nat, f: F.Flat, vmOf: map<T.VmId, nat>, stop: F.Stop):
    map<T.VmId, nat>
  {
    if stop.Yield? then NamesAfter(d, s, v, f, vmOf, stop.message) else vmOf
  }

  lemma RootExits(p: Plan, s: World, f: F.Flat, vmOf: map<T.VmId, nat>)
    requires p.Made() && Inv(p, s) && Shows(p, s, f, vmOf) && Through(s, vmOf[T.ROOT])
    ensures vmOf[T.ROOT] == 0 && Do(p.d, s, Alone(0)).Some?
    ensures Inv(p, Do(p.d, s, Alone(0)).value) && Gone(Do(p.d, s, Alone(0)).value, 0)
  {
    hide Inv, Planned, Shows;
    ShowsParts(p, s, f, vmOf);
    LeftWorld(p, s, 0);
  }

  lemma ChargeShows(p: Plan, s: World, f: F.Flat, vmOf: map<T.VmId, nat>, id: T.VmId, vm: M.Vm)
    requires I.Live(f) && F.Select(f) == Some(id) && Shows(p, s, f, vmOf)
    ensures var g := F.Charge(f, id, vm);
            && I.Live(g) && Shows(p, s, g, vmOf) && g.nextVmId == f.nextVmId
            && id in g.states && g.states[id].Runnable? && id in g.machines && id < g.nextVmId && id in vmOf
  {
    hide Shows;
    I.ChargeKeepsLive(f, id, vm);
    I.SelectedIsLive(f, id);
    SameShows(p, s, f, F.Charge(f, id, vm), vmOf);
    ShownVm(p, s, f, vmOf, id);
  }

  lemma RootEnding(f: F.Flat, code: int)
    requires T.ROOT in f.machines
    ensures F.EndRoot(f, code).terminated == f.terminated[T.ROOT := code]
  {
  }

  /** What is true after a turn: the scheduler shows where the plan's own machine has gone, or the root has exited
      with code 0. */
  ghost predicate ShownOrDone(p: Plan, s: World, f: F.Flat, vmOf: map<T.VmId, nat>) {
    || (I.Live(f) && Shows(p, s, f, vmOf))
    || (I.Ended(f) && f.terminated[T.ROOT] == 0 && Gone(s, 0))
  }

  lemma StopShows(p: Plan, s: World, env: M.Env, g: F.Flat, vmOf: map<T.VmId, nat>, id: T.VmId, r: F.RunResult)
    requires Sound(p) && Inv(p, s) && I.Live(g) && F.Select(g) == Some(id) && Shows(p, s, g, vmOf)
    requires id in vmOf && PlannedStop(p.d, s, g, vmOf, vmOf[id], r.stop)
    requires r.stop.Yield? ==> Y.WellFormedMessage(id, r.stop.message)
    requires r.stop.Exit? ==> r.vm.exitCode == r.stop.code
    requires F.Shaped(g) && id in g.machines && id < g.nextVmId
    requires !F.Conclude(env, g, id, r).Fatal?
    ensures var s' := AfterStop(p.d, s, vmOf[id], r.stop);
            && Inv(p, s')
            && ShownOrDone(p, s', F.Conclude(env, g, id, r).next, NamesAfterStop(p.d, s, vmOf[id], g, vmOf, r.stop))
  {
    var charged := F.Charge(g, id, r.vm);
    ChargeShows(p, s, g, vmOf, id, r.vm);
    I.ConcludeKeepsInv(env, g, id, r);
    L.ConcludeCases(env, g, id, r);
    hide Inv, Sound, I.Live, I.Ended, Shows, F.Charge, F.Conclude, F.Deliver, F.End, Do, AfterCall;
    hide PlannedCall, PlannedExit, NamesAfter, F.Select;
    match r.stop
    case Yield(m) =>
      CallShows(p, s, env, charged, vmOf, m);
      NamesSame(p.d, s, vmOf[id], g, charged, vmOf, m);
    case Exit(code) =>
      ExitsWithZero(p, s, g, vmOf, vmOf[id], code);
      EndShows(p, s, charged, vmOf, id);
    case Stopped(_) =>
  }

  lemma ExitsWithZero(p: Plan, s: World, f: F.Flat, vmOf: map<T.VmId, nat>, v: nat, code: int)
    requires Shows(p, s, f, vmOf) && PlannedExit(s, f, vmOf, v, code)
    ensures code == 0 && Through(s, v)
  {
    ShowsParts(p, s, f, vmOf);
    ExitIsZero(s, f, vmOf, v, code);
  }

  lemma EndShows(p: Plan, s: World, f: F.Flat, vmOf: map<T.VmId, nat>, id: T.VmId)
    requires Sound(p) && Inv(p, s) && I.Live(f) && Shows(p, s, f, vmOf)
    requires id in f.states && id in vmOf && Through(s, vmOf[id]) && id in f.machines && F.Shaped(f)
    requires F.End(f, id, 0).Ok?
    ensures var s' := AfterStop(p.d, s, vmOf[id], F.Exit(0));
            && Inv(p, s')
            && (id != T.ROOT ==> Shows(p, s', F.End(f, id, 0).value, vmOf))
            && (id == T.ROOT ==> F.End(f, id, 0).value.terminated == f.terminated[T.ROOT := 0] && Gone(s', 0))
  {
    hide Inv, Planned, Fits, I.Live, Shows, F.EndOther, F.EndRoot, Do;
    if id == T.ROOT {
      RootExits(p, s, f, vmOf);
      RootEnding(f, 0);
    } else {
      ExitShows(p, s, f, vmOf, id);
    }
  }

  lemma NamesSame(d: Data, s: World, v: nat, f: F.Flat, g: F.Flat, vmOf: map<T.VmId, nat>, m: T.Message)
    requires g.nextVmId == f.nextVmId
    ensures NamesAfter(d, s, v, f, vmOf, m) == NamesAfter(d, s, v, g, vmOf, m)
  {
  }

  /** The errors that a plan says nothing about. */
  predicate Excused(e: T.Error) {
    e.CyclesOverflow? || U.BadAccess(e)
  }

  /** A stop that fits the plan is no oversized spawn call, and it is not answered with the error of passing an end that
      one does not own. */
  lemma StopAllowed(p: Plan, s: World, env: M.Env, g: F.Flat, vmOf: map<T.VmId, nat>, id: T.VmId, r: F.RunResult)
    requires Sound(p) && Inv(p, s) && I.Live(g) && F.Select(g) == Some(id) && Shows(p, s, g, vmOf)
    requires id in vmOf && PlannedStop(p.d, s, g, vmOf, vmOf[id], r.stop)
    requires r.stop.Yield? ==> Y.WellFormedMessage(id, r.stop.message)
    requires F.Shaped(g) && id in g.machines && id < g.nextVmId
    ensures var t := F.Conclude(env, g, id, r); t.Fatal? ==> Excused(t.error)
  {
    hide Inv, Planned, Fits, I.Live, Shows, F.Charge, F.Conclude, F.Deliver, F.EndOther, PlannedCall, F.Select;
    L.ConcludeCases(env, g, id, r);
    var charged := F.Charge(g, id, r.vm);
    ChargeShows(p, s, g, vmOf, id, r.vm);
    I.LiveShape(charged);
    match r.stop
    case Yield(m) => CallAllowed(p, s, env, charged, vmOf, m);
    case Exit(code) => U.EndErrors(charged, id, code);
    case Stopped(_) =>
  }

  lemma CallAllowed(p: Plan, s: World, env: M.Env, f: F.Flat, vmOf: map<T.VmId, nat>, m: T.Message)
    requires Sound(p) && Inv(p, s) && Shows(p, s, f, vmOf)
    requires m.vm in vmOf && m.vm in f.machines && m.vm < f.nextVmId && PlannedCall(p.d, s, vmOf, vmOf[m.vm], m)
    ensures F.Deliver(env, f, m).Err? ==> U.BadAccess(F.Deliver(env, f, m).error)
  {
    hide Inv, Planned, Fits, Shows, F.DeliverSpawn, M.Complete64, M.Complete8, M.Store64;
    if F.Deliver(env, f, m).Err? { U.DeliverErrors(env, f, m); }
    if m.Spawn? {
      SpawnAllowed(p, s, env, f, vmOf, m);
    }
  }

  /** The selected VM, whose program has come as far as `s` says, first takes `n` steps without a syscall and then
      stops as planned. */
  ghost predicate PlannedSlice(d: Data, s: World, env: M.Env, g: F.Flat, vmOf: map<T.VmId, nat>, slice: L.TimeSlice,
                               n: nat)
    requires F.Shaped(g)
  {
    match F.Select(g)
    case None => true
    case Some(id) =>
      && id in vmOf
      && var r := F.Run(env, id, g.machines[id], g.totalCycles, slice.limit, slice.signal);
      && Quietly(d, s, vmOf[id], n).Some?
      && PlannedStop(d, Quietly(d, s, vmOf[id], n).value, g, vmOf, vmOf[id], r.stop)
  }

  /** In the turn from `f`, once input and output is settled, the selected VM keeps to the plan. */
  ghost predicate PlannedTurn(d: Data, s: World, env: M.Env, f: F.Flat, vmOf: map<T.VmId, nat>, slice: L.TimeSlice,
                              n: nat)
    requires F.Shaped(f)
  {
    F.Io(f).Ok? ==> PlannedSlice(d, Advanced(d, s, Movers(f, vmOf)), env, F.Io(f).value, vmOf, slice, n)
  }

  /** Where the plan's own machine is after the turn, and the names of the VMs then. */
  ghost function TurnWorld(d: Data, s: World, env: M.Env, f: F.Flat, vmOf: map<T.VmId, nat>, slice: L.TimeSlice,
                           n: nat): (World, map<T.VmId, nat>)
    requires F.Shaped(f)
  {
    var settled := Advanced(d, s, Movers(f, vmOf));
    match F.Io(f)
    case Err(_) => (s, vmOf)
    case Ok(g) =>
      match F.Select(g)
      case None => (settled, vmOf)
      case Some(id) =>
        if id !in vmOf || Quietly(d, settled, vmOf[id], n).None? then (settled, vmOf)
        else
          var v, moved := vmOf[id], Quietly(d, settled, vmOf[id], n).value;
          var stop := F.Run(env, id, g.machines[id], g.totalCycles, slice.limit, slice.signal).stop;
          (AfterStop(d, moved, v, stop), NamesAfterStop(d, moved, v, g, vmOf, stop))
  }

  /** A planned turn reports neither a deadlock nor a pipe end passed without owning it, comes to no oversized spawn
      call, and leads where the plan's own machine goes. */
  lemma TurnShows(p: Plan, s: World, env: M.Env, f: F.Flat, vmOf: map<T.VmId, nat>, slice: L.TimeSlice, n: nat)
    requires Sound(p) && Inv(p, s) && I.Live(f) && Shows(p, s, f, vmOf)
    requires PlannedTurn(p.d, s, env, f, vmOf, slice, n)
    ensures L.Steppable(f)
    ensures var t := F.Iterate(env, f, slice.signal, slice.limit);
            if t.Fatal? then Excused(t.error)
            else
              var (s', vmOf') := TurnWorld(p.d, s, env, f, vmOf, slice, n);
              Inv(p, s') && ShownOrDone(p, s', t.next, vmOf')
  {
    I.LiveShape(f);
    SoundIsMade(p);
    hide *;
    PlansNeverDeadlock(p, s, env, f, vmOf, slice.signal, slice.limit);
    if F.Io(f).Ok? && F.Select(F.Io(f).value).Some? {
      var g := F.Io(f).value;
      var id := F.Select(g).value;
      U.TurnFrom(env, f, slice.signal, slice.limit, g, id);
      I.LiveShape(g);
      var r := F.Run(env, id, g.machines[id], g.totalCycles, slice.limit, slice.signal);
      var actions := IoShows(p, s, f, vmOf);
      var settled := Advanced(p.d, s, Movers(f, vmOf));
      TurnWorldParts(p.d, s, env, f, vmOf, slice, n, g, id);
      I.SelectedIsLive(g, id);
      QuietlyShows(p, settled, g, vmOf, id, n);
      var moved := Quietly(p.d, settled, vmOf[id], n).value;
      StopAllowed(p, moved, env, g, vmOf, id, r);
      if !F.Conclude(env, g, id, r).Fatal? { StopShows(p, moved, env, g, vmOf, id, r); }
    } else {
      NobodyRuns(env, f, slice);
    }
  }

  lemma NobodyRuns(env: M.Env, f: F.Flat, slice: L.TimeSlice)
    requires L.Steppable(f) && !(F.Io(f).Ok? && F.Select(F.Io(f).value).Some?)
    ensures var t := F.Iterate(env, f, slice.signal, slice.limit);
            t.Fatal? && (Excused(t.error) || t.error.Deadlock?)
  {
    U.IoErrors(f);
    hide F.IoVm, F.IoState, F.Conclude, F.Run;
  }

  lemma TurnWorldParts(d: Data, s: World, env: M.Env, f: F.Flat, vmOf: map<T.VmId, nat>, slice: L.TimeSlice, n: nat,
                       g: F.Flat, id: T.VmId)
    requires F.Shaped(f) && PlannedTurn(d, s, env, f, vmOf, slice, n)
    requires F.Io(f) == T.Ok(g) && F.Shaped(g) && F.Select(g) == Some(id) && id in g.machines
    ensures id in vmOf
    ensures var settled := Advanced(d, s, Movers(f, vmOf));
            var stop := F.Run(env, id, g.machines[id], g.totalCycles, slice.limit, slice.signal).stop;
            && Quietly(d, settled, vmOf[id], n).Some?
            && var moved := Quietly(d, settled, vmOf[id], n).value;
            && PlannedStop(d, moved, g, vmOf, vmOf[id], stop)
            && TurnWorld(d, s, env, f, vmOf, slice, n) ==
               (AfterStop(d, moved, vmOf[id], stop), NamesAfterStop(d, moved, vmOf[id], g, vmOf, stop))
  {
    hide Quietly, PlannedStop, AfterStop, NamesAfterStop, F.Run, Advanced, Movers, F.Io;
  }

  // ---- Whole runs ----

  /** In each of these slices the selected VM keeps to the plan; `quiet` counts its steps without a syscall. */
  ghost predicate PlannedRun(d: Data, s: World, env: M.Env, f: F.Flat, vmOf: map<T.VmId, nat>,
                             slices: seq<L.TimeSlice>, quiet: seq<nat>)
    requires I.Inv(f) && |quiet| == |slices|
    decreases |slices|
  {
    I.Ended(f) || slices == [] ||
    (I.LiveShape(f);
     I.IterateKeepsInv(env, f, slices[0].signal, slices[0].limit);
     var t := F.Iterate(env, f, slices[0].signal, slices[0].limit);
     var (s', vmOf') := TurnWorld(d, s, env, f, vmOf, slices[0], quiet[0]);
     && PlannedTurn(d, s, env, f, vmOf, slices[0], quiet[0])
     && (t.Fatal? || PlannedRun(d, s', env, t.next, vmOf', slices[1..], quiet[1..])))
  }

  /** What a planned run comes to. */
  ghost predicate PlannedEnd(p: Plan, r: L.Driven) {
    match r
    case Completed(f) => T.ROOT in f.terminated && f.terminated[T.ROOT] == 0
    case Unfinished(f) => I.Live(f) && forall id :: !F.ClosedWaiter(f, id)
    case Aborted(e) => Excused(e)
  }

  /** However it is sliced, a planned run is not reported as a deadlock, no VM in it ever waits on a closed pipe, and
      if it completes, the root exits with code 0. */
  lemma {:induction false} PlannedRunsSucceed(p: Plan, s: World, env: M.Env, f: F.Flat, vmOf: map<T.VmId, nat>,
                                              slices: seq<L.TimeSlice>, quiet: seq<nat>)
    requires Sound(p) && Inv(p, s) && I.Inv(f) && ShownOrDone(p, s, f, vmOf)
    requires |quiet| == |slices| && PlannedRun(p.d, s, env, f, vmOf, slices, quiet)
    ensures PlannedEnd(p, L.Drive(env, f, slices))
    decreases |slices|
  {
    hide Inv, Planned, Fits, I.Live, Shows, F.Iterate, PlannedTurn, TurnWorld, F.ClosedWaiter;
    if I.Ended(f) {
      if I.Live(f) { L.LiveNotEnded(f); }
    } else if slices == [] {
      PlansNeverPanic(p, s, f, vmOf, {});
    } else {
      I.LiveShape(f);
      I.IterateKeepsInv(env, f, slices[0].signal, slices[0].limit);
      TurnShows(p, s, env, f, vmOf, slices[0], quiet[0]);
      var t := F.Iterate(env, f, slices[0].signal, slices[0].limit);
      var (s', vmOf') := TurnWorld(p.d, s, env, f, vmOf, slices[0], quiet[0]);
      if !t.Fatal? {
        PlannedRunsSucceed(p, s', env, t.next, vmOf', slices[1..], quiet[1..]);
      }
    }
  }

  /** The root's program and those it spawns keep to the plan, wherever their slices end. */
  ghost predicate KeepsToPlan(p: Plan, env: M.Env) {
    && F.BootRoot(env, F.EMPTY).Ok? && I.Live(F.BootRoot(env, F.EMPTY).value)
    && forall slices: seq<L.TimeSlice> :: exists quiet: seq<nat> ::
         |quiet| == |slices| &&
         PlannedRun(p.d, Start(|p.parent|), env, F.BootRoot(env, F.EMPTY).value, map[T.ROOT := 0], slices, quiet)
  }

  lemma PlannedDrive(p: Plan, env: M.Env, slices: seq<L.TimeSlice>)
    requires Sound(p) && KeepsToPlan(p, env)
    ensures PlannedEnd(p, L.Drive(env, F.BootRoot(env, F.EMPTY).value, slices))
  {
    hide Inv, Planned, Fits, I.Live, Shows, PlannedRun, F.BootRoot, Start, L.Drive;
    var quiet: seq<nat> :| |quiet| == |slices| &&
      PlannedRun(p.d, Start(|p.parent|), env, F.BootRoot(env, F.EMPTY).value, map[T.ROOT := 0], slices, quiet);
    BootShowsStart(p, env);
    PlannedRunsSucceed(p, Start(|p.parent|), env, F.BootRoot(env, F.EMPTY).value, map[T.ROOT := 0], slices, quiet);
  }

  lemma PlannedNeverPanics(p: Plan, env: M.Env, maxCycles: u64, perIterate: u64, perSuspend: u64, rounds: nat)
    requires Sound(p) && KeepsToPlan(p, env)
    ensures !V.GroupPanics(env, F.EMPTY, {}, 0, maxCycles, perIterate, perSuspend, rounds)
  {
    if V.GroupPanics(env, F.EMPTY, {}, 0, maxCycles, perIterate, perSuspend, rounds) {
      hide *;
      V.ReachesNothing(env);
      var more, g, id := V.PanicMeaning(env, F.EMPTY, {}, 0, maxCycles, perIterate, perSuspend, rounds, []);
      NoPanicCause(p, env, more, g, id);
    }
  }

  lemma NoPanicCause(p: Plan, env: M.Env, slices: seq<L.TimeSlice>, g: F.Flat, id: T.VmId)
    requires Sound(p) && KeepsToPlan(p, env)
    ensures !V.PanicCause(env, slices, g, id)
  {
    hide *;
    PlannedDrive(p, env, slices);
    if V.PanicCause(env, slices, g, id) {
      V.CauseOnDrive(env, slices, g, id);
      EndHasNoCause(p, L.Drive(env, F.BootRoot(env, F.EMPTY).value, slices), g, id);
    }
  }

  lemma EndHasNoCause(p: Plan, r: L.Driven, g: F.Flat, id: T.VmId)
    requires PlannedEnd(p, r)
    ensures r != L.Aborted(T.CapacityOverflow) && !(r == L.Unfinished(g) && F.ClosedWaiter(g, id))
  {
    hide I.Live, F.ClosedWaiter;
  }

  lemma BootSucceeds(p: Plan, env: M.Env)
    requires KeepsToPlan(p, env)
    ensures F.BootRoot(env, F.EMPTY).Ok?
  {
  }

  /** `verify_tx` on a workload whose programs keep to their plan: it never panics, it fails at most where a plan says
      nothing, and if the workload exits, it exits with code 0, however it is sliced and however often it is suspended.
      With room for every instruction in a slice it comes to one of these verdicts. */
  method VerifyPlanned(ghost p: Plan, env: M.Env, maxCycles: u64, perIterate: u64, perSuspend: u64, rounds: nat)
    returns (r: V.Verdict)
    requires Sound(p) && KeepsToPlan(p, env)
    ensures r.Exited? ==> r.code == 0 && r.cycles <= maxCycles
    ensures r.FailedWith? ==> Excused(r.error)
    ensures !r.Panicked?
    ensures R.Roomy(env, perIterate) && rounds >= maxCycles + 2 ==> !r.StillRunning?
  {
    hide R.Roomy, Sound, KeepsToPlan, I.Live, I.Inv, V.GroupPanics, V.Group, L.Drive, F.BootRoot, V.Reaches;
    PlannedNeverPanics(p, env, maxCycles, perIterate, perSuspend, rounds);
    V.ReachesNothing(env);
    ghost var more, g := V.GroupMeans(env, F.EMPTY, [], maxCycles, perIterate, rounds);
    PlannedDrive(p, env, more);
    BootSucceeds(p, env);
    if R.Roomy(env, perIterate) && rounds >= maxCycles + 2 { R.RoomyEnds(env, maxCycles, perIterate, rounds); }
    r := V.VerifyGroup(env, maxCycles, perIterate, perSuspend, rounds);
  }
}
