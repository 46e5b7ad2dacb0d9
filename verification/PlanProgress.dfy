/** A workload that keeps to its plan gets to its end: how many turns it can take. */
module PlanProgress {
  import opened Words
  import T = Types
  import M = Machine
  import F = Flat
  import I = Invariants
  import C = Caches
  import L = Slicing
  import Y = Syscalls
  import U = Turns
  import SF = SchedulerFacts
  import opened Planner
  import opened PlanFacts
  import opened Guests
  import opened GuestInv
  import opened GuestRuns
  import opened PlanOnScheduler
  import opened PlanTurns
  import opened PlanDrives

  /** What a planned run can still do: the steps left in the plan, and the VMs that are free to run. */
  ghost function Work(d: Data, s: World, f: F.Flat): nat {
    3 * TotalLeft(d, s.guests) + |F.RunnableIds(f)|
  }

  lemma WorkIs(d: Data, s: World, f: F.Flat)
    ensures Work(d, s, f) == 3 * TotalLeft(d, s.guests) + |F.RunnableIds(f)|
  {
  }

  // ---- Sets of runnable VMs ----

  lemma {:induction false} ImageIsSmall(s: set<nat>, h: nat -> nat)
    ensures |set x | x in s :: h(x)| <= |s|
    decreases |s|
  {
    if s != {} {
      var y :| y in s;
      var rest := s - {y};
      ImageIsSmall(rest, h);
      assert (set x | x in s :: h(x)) == (set x | x in rest :: h(x)) + {h(y)};
    }
  }

  lemma SmallerSet(a: set<nat>, b: set<nat>)
    requires a <= b
    ensures |a| <= |b|
  {
    assert |b - a| == |b| - |a|;
  }

  // ---- Input and output ----

  lemma NewlyRunnable(p: Plan, s: World, f: F.Flat, vmOf: map<T.VmId, nat>, id: T.VmId)
    requires I.Live(f) && Shows(p, s, f, vmOf) && id in f.states
    requires F.IoState(f, id).Runnable? && !f.states[id].Runnable?
    ensures exists w :: w in C.PairedWriters(f) && (id == w || id == C.ServedWith(f, w))
  {
    hide I.Live, Shows, F.IoState, C.PairedWriters, C.ServedWith;
    if !SF.InSomePair(f, id) { OnlyPairsMove(p, s, f, vmOf, id); }
    var r, w :| F.Matched(f, r, w) && (id == r || id == w);
    C.ReaderIsUnique(f, r, w);
  }

  lemma IoRunnable(p: Plan, s: World, f: F.Flat, vmOf: map<T.VmId, nat>)
    requires I.Live(f) && Shows(p, s, f, vmOf) && F.Shaped(f) && F.Io(f).Ok?
    ensures |F.RunnableIds(F.Io(f).value)| <= |F.RunnableIds(f)| + 2 * |C.PairedWriters(f)|
  {
    IoShape(f);
    var g, writers, h := F.Io(f).value, C.PairedWriters(f), (w: nat) => C.ServedWith(f, w);
    hide I.Live, Shows, F.IoState, F.Io, C.PairedWriters, C.ServedWith;
    forall id | id in F.RunnableIds(g) && id !in F.RunnableIds(f)
      ensures exists w :: w in writers && (id == w || id == h(w))
    {
      NewlyRunnable(p, s, f, vmOf, id);
      var w :| w in writers && (id == w || id == C.ServedWith(f, w));
      assert h(w) == C.ServedWith(f, w);
    }
    hide F.RunnableIds;
    FewMore(F.RunnableIds(g), F.RunnableIds(f), writers, h);
  }

  lemma FewMore(a: set<nat>, b: set<nat>, s: set<nat>, h: nat -> nat)
    requires forall x | x in a && x !in b :: exists y :: y in s && (x == y || x == h(y))
    ensures |a| <= |b| + 2 * |s|
  {
    var image := set y | y in s :: h(y);
    ImageIsSmall(s, h);
    SmallerSet(a, b + (s + image));
  }

  lemma IoWorks(p: Plan, s: World, f: F.Flat, vmOf: map<T.VmId, nat>)
    requires Sound(p) && Inv(p, s) && I.Live(f) && Shows(p, s, f, vmOf) && F.Shaped(f) && F.Io(f).Ok?
    ensures Work(p.d, Advanced(p.d, s, Movers(f, vmOf)), F.Io(f).value) <= Work(p.d, s, f)
  {
    hide Sound, Inv, I.Live, Shows, F.Io, Advanced, Movers, Perform, TotalLeft, F.RunnableIds;
    SoundIsMade(p);
    var actions := IoShows(p, s, f, vmOf);
    RunIsBounded(p, s, actions);
    IoRunnable(p, s, f, vmOf);
  }

  lemma {:induction false} QuietlyWorks(p: Plan, s: World, f: F.Flat, vmOf: map<T.VmId, nat>, v: nat, n: nat)
    requires Sound(p) && Inv(p, s) && Quietly(p.d, s, v, n).Some?
    ensures Work(p.d, Quietly(p.d, s, v, n).value, f) <= Work(p.d, s, f)
    decreases n
  {
    hide Sound, Inv, Quiet, Do, TotalLeft, OnlyMoved;
    if n > 0 {
      QuietStep(p, s, v);
      AloneAdvances(p, s, v);
      QuietlyWorks(p, Do(p.d, s, Alone(v)).value, f, vmOf, v, n - 1);
    }
  }

  // ---- Syscalls and exits ----

  lemma SameRunnable(f: F.Flat, g: F.Flat)
    requires g.states == f.states
    ensures F.RunnableIds(g) == F.RunnableIds(f)
  {
  }

  lemma BlockedRunnable(f: F.Flat, g: F.Flat, id: T.VmId, state: T.VmState)
    requires id in f.states && f.states[id].Runnable? && g.states == f.states[id := state] && !state.Runnable?
    ensures |F.RunnableIds(g)| == |F.RunnableIds(f)| - 1
  {
    assert F.RunnableIds(g) == F.RunnableIds(f) - {id};
  }

  lemma GrownRunnable(f: F.Flat, g: F.Flat, id: T.VmId)
    requires g.states == f.states[id := T.Runnable]
    ensures |F.RunnableIds(g)| <= |F.RunnableIds(f)| + 1
  {
    assert F.RunnableIds(g) == F.RunnableIds(f) + {id};
  }

  lemma OpenWorks(p: Plan, s: World, f: F.Flat, vmOf: map<T.VmId, nat>, m: T.Message)
    requires Sound(p) && Inv(p, s) && m.OpenPipe? && m.vm in vmOf && m.vm in f.machines
    requires PlannedCall(p.d, s, vmOf, vmOf[m.vm], m) && F.DeliverPipe(f, m.vm, m.pipe1Addr, m.pipe2Addr).Ok?
    ensures Work(p.d, AfterCall(p.d, s, vmOf[m.vm], m), F.DeliverPipe(f, m.vm, m.pipe1Addr, m.pipe2Addr).value) <
            Work(p.d, s, f)
  {
    var v := vmOf[m.vm];
    assert s.guests[v].phase.Creating?;
    assert s.guests[v].phase.next < |p.d.pipes| && p.d.pipes[s.guests[v].phase.next].vm == v;
    hide Sound, Inv, Do, TotalLeft, F.DeliverPipe, F.RunnableIds, PlannedCall;
    OpenedWorld(p, s, v);
    AloneAdvances(p, s, v);
    PipeDelivered(f, m.vm, m.pipe1Addr, m.pipe2Addr);
    SameRunnable(f, F.DeliverPipe(f, m.vm, m.pipe1Addr, m.pipe2Addr).value);
  }

  lemma SpawnWorks(p: Plan, s: World, env: M.Env, f: F.Flat, vmOf: map<T.VmId, nat>, m: T.Message)
    requires Sound(p) && Inv(p, s) && m.Spawn? && m.vm in vmOf && m.vm in f.machines && m.vm < f.nextVmId
    requires PlannedCall(p.d, s, vmOf, vmOf[m.vm], m) && F.DeliverSpawn(env, f, m.vm, m.spawnArgs).Ok?
    ensures Work(p.d, AfterCall(p.d, s, vmOf[m.vm], m), F.DeliverSpawn(env, f, m.vm, m.spawnArgs).value) <
            Work(p.d, s, f)
  {
    var v := vmOf[m.vm];
    var i := if s.guests[v].phase.Spawning? then s.guests[v].phase.next else 0;
    assert s.guests[v].phase.Spawning? && i < |p.d.spawns| && p.d.spawns[i].from == v;
    assert Pick(s.guests[v].table, p.d.spawns[i].pipes, 0) == Picked(m.spawnArgs.pipes);
    hide Sound, Inv, Do, TotalLeft, F.DeliverSpawn, F.RunnableIds, PlannedCall, Pick, HandedOver;
    HandedWorld(p, s, v, m.spawnArgs.pipes);
    AloneAdvances(p, s, v);
    SpawnDelivered(env, f, m.vm, m.spawnArgs);
    GrownRunnable(f, F.DeliverSpawn(env, f, m.vm, m.spawnArgs).value, f.nextVmId);
  }

  lemma PlannedJoin(d: Data, s: World, vmOf: map<T.VmId, nat>, v: nat, m: T.Message)
    requires m.JoinVm? && PlannedCall(d, s, vmOf, v, m)
    ensures v < |s.guests| && s.guests[v].phase.Joining? && s.guests[v].phase.joined < |s.guests[v].spawned|
    ensures m.target in vmOf
    ensures vmOf[m.target] == s.guests[v].spawned[|s.guests[v].spawned| - 1 - s.guests[v].phase.joined]
    ensures AfterCall(d, s, v, m) == if Do(d, s, Alone(v)).Some? then Do(d, s, Alone(v)).value else s
  {
    hide Do;
  }

  lemma JoinMoves(p: Plan, s: World, f: F.Flat, vmOf: map<T.VmId, nat>, m: T.Message) returns (answered: bool)
    requires Sound(p) && Inv(p, s) && Shows(p, s, f, vmOf) && m.JoinVm? && m.vm in vmOf && m.vm in f.states
    requires PlannedCall(p.d, s, vmOf, vmOf[m.vm], m)
    ensures answered <==> m.target in f.terminated
    ensures m.target in f.terminated || m.target in f.states
    ensures var s' := AfterCall(p.d, s, vmOf[m.vm], m);
            if answered then TotalLeft(p.d, s'.guests) < TotalLeft(p.d, s.guests) else s' == s
  {
    hide *;
    var v := vmOf[m.vm];
    PlannedJoin(p.d, s, vmOf, v, m);
    JoinedWorld(p, s, f, vmOf, m.vm, m.target);
    answered := m.target in f.terminated;
    if answered {
      QuietStep(p, s, v);
      AloneAdvances(p, s, v);
    }
  }

  lemma JoinWorks(p: Plan, s: World, f: F.Flat, vmOf: map<T.VmId, nat>, m: T.Message)
    requires Sound(p) && Inv(p, s) && Shows(p, s, f, vmOf) && m.JoinVm? && m.vm in vmOf && m.vm in f.machines
    requires m.vm in f.states && f.states[m.vm].Runnable?
    requires PlannedCall(p.d, s, vmOf, vmOf[m.vm], m) && F.DeliverJoin(f, m.vm, m.target, m.exitCodeAddr).Ok?
    ensures Work(p.d, AfterCall(p.d, s, vmOf[m.vm], m), F.DeliverJoin(f, m.vm, m.target, m.exitCodeAddr).value) <
            Work(p.d, s, f)
  {
    hide *;
    var v, id := vmOf[m.vm], m.vm;
    var answered := JoinMoves(p, s, f, vmOf, m);
    var s' := AfterCall(p.d, s, v, m);
    JoinDelivered(f, id, m.target, m.exitCodeAddr);
    var g := F.DeliverJoin(f, id, m.target, m.exitCodeAddr).value;
    if answered {
      assert g.states == f.states;
      SameRunnable(f, g);
    } else {
      BlockedRunnable(f, g, id, T.Join(m.target, m.exitCodeAddr));
    }
    WorkIs(p.d, s, f);
    WorkIs(p.d, s', g);
  }

  lemma TransferWorks(p: Plan, s: World, env: M.Env, f: F.Flat, vmOf: map<T.VmId, nat>, m: T.Message)
    requires m.PipeRead? || m.PipeWrite?
    requires Shows(p, s, f, vmOf) && m.vm in f.states && f.states[m.vm].Runnable? && m.vm in f.machines
    requires m.vm < f.nextVmId && m.vm in vmOf && PlannedCall(p.d, s, vmOf, vmOf[m.vm], m)
    ensures F.Deliver(env, f, m).Ok?
    ensures Work(p.d, AfterCall(p.d, s, vmOf[m.vm], m), F.Deliver(env, f, m).value) < Work(p.d, s, f)
  {
    ShownVm(p, s, f, vmOf, m.vm);
    hide Shows, F.DeliverIo, WaitsOn, TotalLeft, F.RunnableIds;
    var io := m.io;
    var wait := if m.PipeRead? then T.WaitForRead(io.pipe, io.length, io.bufferAddr, io.lengthAddr)
                else T.WaitForWrite(io.pipe, 0, io.length, io.bufferAddr, io.lengthAddr);
    IoCallShows(p, s, f, vmOf, m.vm, io.pipe, wait);
    BlockedRunnable(f, F.Deliver(env, f, m).value, m.vm, wait);
  }

  lemma CallWorks(p: Plan, s: World, env: M.Env, f: F.Flat, vmOf: map<T.VmId, nat>, m: T.Message)
    requires Sound(p) && Inv(p, s) && Shows(p, s, f, vmOf)
    requires m.vm in f.states && f.states[m.vm].Runnable? && m.vm in f.machines && m.vm < f.nextVmId
    requires m.vm in vmOf && PlannedCall(p.d, s, vmOf, vmOf[m.vm], m)
    requires F.Deliver(env, f, m).Ok?
    ensures Work(p.d, AfterCall(p.d, s, vmOf[m.vm], m), F.Deliver(env, f, m).value) < Work(p.d, s, f)
  {
    hide Shows, Inv, Sound, F.DeliverSpawn, F.DeliverPipe, F.DeliverJoin, F.DeliverIo, PlannedCall, AfterCall, Work;
    match m
    case Spawn(_, _) => SpawnWorks(p, s, env, f, vmOf, m);
    case OpenPipe(_, _, _) => OpenWorks(p, s, f, vmOf, m);
    case JoinVm(_, _, _) => JoinWorks(p, s, f, vmOf, m);
    case PipeRead(_, _) => TransferWorks(p, s, env, f, vmOf, m);
    case PipeWrite(_, _) => TransferWorks(p, s, env, f, vmOf, m);
  }

  /** A VM of a plan is joined by its parent only. */
  lemma OneJoiner(p: Plan, s: World, f: F.Flat, vmOf: map<T.VmId, nat>, id: T.VmId, i: T.VmId, j: T.VmId)
    requires p.Made() && Inv(p, s) && Shows(p, s, f, vmOf) && F.Joins(f, i, id) && F.Joins(f, j, id)
    ensures i == j
  {
    ShowsParts(p, s, f, vmOf);
    JoinerIsParent(p, s, f, vmOf, id, i);
    JoinerIsParent(p, s, f, vmOf, id, j);
    hide *;
    SameVm(f, vmOf, i, j);
  }

  lemma JoinerIsParent(p: Plan, s: World, f: F.Flat, vmOf: map<T.VmId, nat>, id: T.VmId, j: T.VmId)
    requires p.Made() && Inv(p, s) && Shows(p, s, f, vmOf) && F.Joins(f, j, id)
    ensures j in vmOf && id in vmOf && vmOf[id] < |p.parent| && p.parent[vmOf[id]] == vmOf[j]
  {
    hide Planned, NamesOk, CreatedOk, TablesOk, BirthsOk, OwnersOk, SyncOk, JoinsOk;
    assert ShowsVm(p, s, f, vmOf, j);
    hide Shows;
    KidFacts(p, s, vmOf[j], vmOf[id]);
    VmCount(p, s);
  }

  lemma EndRunnable(p: Plan, s: World, f: F.Flat, vmOf: map<T.VmId, nat>, id: T.VmId)
    requires p.Made() && Inv(p, s) && F.Shaped(f) && Shows(p, s, f, vmOf)
    requires id in f.states && f.states[id].Runnable? && F.EndOther(f, id, 0).Ok?
    ensures |F.RunnableIds(F.EndOther(f, id, 0).value)| <= |F.RunnableIds(f)|
  {
    hide Inv, Planned, Shows, F.EndOther, F.Joins;
    EndDelivered(f, id);
    var a, b := F.RunnableIds(F.EndOther(f, id, 0).value), F.RunnableIds(f) - {id};
    if j :| j in a && F.Joins(f, j, id) {
      forall i | i in a ensures i in b + {j} {
        if F.Joins(f, i, id) { OneJoiner(p, s, f, vmOf, id, i, j); }
      }
      SmallerSet(a, b + {j});
    } else {
      SmallerSet(a, b);
    }
  }

  lemma ExitWorks(p: Plan, s: World, f: F.Flat, vmOf: map<T.VmId, nat>, id: T.VmId)
    requires Sound(p) && Inv(p, s) && F.Shaped(f) && Shows(p, s, f, vmOf)
    requires id in f.states && f.states[id].Runnable? && id in vmOf && Through(s, vmOf[id])
    requires F.EndOther(f, id, 0).Ok?
    ensures Do(p.d, s, Alone(vmOf[id])).Some?
    ensures Work(p.d, Do(p.d, s, Alone(vmOf[id])).value, F.EndOther(f, id, 0).value) < Work(p.d, s, f)
  {
    hide *;
    SoundIsMade(p);
    LeftWorld(p, s, vmOf[id]);
    AloneAdvances(p, s, vmOf[id]);
    EndRunnable(p, s, f, vmOf, id);
    WorkIs(p.d, s, f);
    WorkIs(p.d, Do(p.d, s, Alone(vmOf[id])).value, F.EndOther(f, id, 0).value);
  }

  // ---- Turns ----

  lemma ChargeWorks(d: Data, s: World, g: F.Flat, id: T.VmId, vm: M.Vm)
    ensures Work(d, s, F.Charge(g, id, vm)) == Work(d, s, g)
  {
    SameRunnable(g, F.Charge(g, id, vm));
  }

  /** How a turn of progress that does not end the run concludes brings it closer to its end; a cut one leaves it where
      it is. */
  lemma StopWorks(p: Plan, s: World, env: M.Env, g: F.Flat, vmOf: map<T.VmId, nat>, id: T.VmId, r: F.RunResult)
    requires Sound(p) && Inv(p, s) && I.Live(g) && F.Select(g) == Some(id) && Shows(p, s, g, vmOf)
    requires id in vmOf && PlannedStop(p.d, s, g, vmOf, vmOf[id], r.stop)
    requires r.stop.Yield? ==> Y.WellFormedMessage(id, r.stop.message)
    requires F.Shaped(g) && id in g.machines && id < g.nextVmId
    requires !F.Conclude(env, g, id, r).Fatal? && !(r.stop.Exit? && id == T.ROOT)
    ensures var t := F.Conclude(env, g, id, r);
            var left := Work(p.d, AfterStop(p.d, s, vmOf[id], r.stop), t.next);
            if t.Turn? then left < Work(p.d, s, g) else left <= Work(p.d, s, g)
  {
    hide Inv, Sound, I.Live, Shows, F.Charge, F.Conclude, F.Deliver, F.EndOther, Do, AfterCall, PlannedCall;
    hide PlannedExit, F.Select, Work;
    var charged := F.Charge(g, id, r.vm);
    ChargeShows(p, s, g, vmOf, id, r.vm);
    I.LiveShape(charged);
    ChargeWorks(p.d, s, g, id, r.vm);
    L.ConcludeCases(env, g, id, r);
    match r.stop
    case Yield(m) => CallWorks(p, s, env, charged, vmOf, m);
    case Exit(code) =>
      ExitsWithZero(p, s, g, vmOf, vmOf[id], code);
      ExitWorks(p, s, charged, vmOf, id);
    case Stopped(_) =>
  }

  lemma SomebodyRuns(d: Data, s: World, g: F.Flat, id: T.VmId)
    requires F.Select(g) == Some(id)
    ensures Work(d, s, g) >= 1
  {
    assert id in F.RunnableIds(g);
  }

  lemma TurnWorks(p: Plan, s: World, env: M.Env, f: F.Flat, vmOf: map<T.VmId, nat>, slice: L.TimeSlice, n: nat)
    requires Sound(p) && Inv(p, s) && I.Live(f) && Shows(p, s, f, vmOf)
    requires PlannedTurn(p.d, s, env, f, vmOf, slice, n)
    ensures L.Steppable(f)
    ensures var t := F.Iterate(env, f, slice.signal, slice.limit);
            && (t.Turn? ==> Work(p.d, s, f) >= 1)
            && (!t.Fatal? && I.Live(t.next) ==>
                  var left := Work(p.d, TurnWorld(p.d, s, env, f, vmOf, slice, n).0, t.next);
                  if t.Turn? then left < Work(p.d, s, f) else left <= Work(p.d, s, f))
  {
    I.LiveShape(f);
    SoundIsMade(p);
    hide *;
    var t := F.Iterate(env, f, slice.signal, slice.limit);
    if !t.Fatal? {
      var g, id, r := U.TurnParts(env, f, slice);
      I.LiveShape(g);
      var actions := IoShows(p, s, f, vmOf);
      IoWorks(p, s, f, vmOf);
      var settled := Advanced(p.d, s, Movers(f, vmOf));
      TurnWorldParts(p.d, s, env, f, vmOf, slice, n, g, id);
      I.SelectedIsLive(g, id);
      QuietlyShows(p, settled, g, vmOf, id, n);
      QuietlyWorks(p, settled, g, vmOf, vmOf[id], n);
      var moved := Quietly(p.d, settled, vmOf[id], n).value;
      SomebodyRuns(p.d, moved, g, id);
      if I.Live(t.next) {
        NoRootExit(env, g, id, r);
        StopWorks(p, moved, env, g, vmOf, id, r);
      }
    }
  }

  lemma NoRootExit(env: M.Env, g: F.Flat, id: T.VmId, r: F.RunResult)
    requires I.Live(g) && F.Select(g) == Some(id) && F.Shaped(g) && id in g.machines && id < g.nextVmId
    requires r.stop.Yield? ==> Y.WellFormedMessage(id, r.stop.message)
    requires !F.Conclude(env, g, id, r).Fatal? && I.Live(F.Conclude(env, g, id, r).next)
    ensures !(r.stop.Exit? && id == T.ROOT)
  {
    hide I.Live, F.Select;
    if r.stop.Exit? && id == T.ROOT { C.LiveMeansNoRootExit(env, g, id, r); }
  }

  // ---- Whole runs ----

  /** How many of the slices lead to a turn of progress: a syscall or an exit is dealt with. */
  ghost function TurnsIn(env: M.Env, f: F.Flat, slices: seq<L.TimeSlice>): nat
    requires I.Inv(f)
    decreases |slices|
  {
    if I.Ended(f) || slices == [] then 0
    else
      I.LiveShape(f);
      I.IterateKeepsInv(env, f, slices[0].signal, slices[0].limit);
      match F.Iterate(env, f, slices[0].signal, slices[0].limit)
      case Turn(next, _) => 1 + TurnsIn(env, next, slices[1..])
      case Cut(next, _) => TurnsIn(env, next, slices[1..])
      case Fatal(_) => 0
  }

  /** However it is sliced, a planned run takes no more turns of progress than there is work at its start. */
  lemma {:induction false} PlannedTurnsAreFew(p: Plan, s: World, env: M.Env, f: F.Flat, vmOf: map<T.VmId, nat>,
                                              slices: seq<L.TimeSlice>, quiet: seq<nat>)
    requires Sound(p) && Inv(p, s) && I.Inv(f) && ShownOrDone(p, s, f, vmOf)
    requires |quiet| == |slices| && PlannedRun(p.d, s, env, f, vmOf, slices, quiet)
    ensures TurnsIn(env, f, slices) <= if I.Ended(f) then 0 else Work(p.d, s, f)
    decreases |slices|
  {
    hide Inv, Sound, I.Live, Shows, F.Iterate, PlannedTurn, TurnWorld, Work;
    if !I.Ended(f) && slices != [] {
      I.LiveShape(f);
      I.IterateKeepsInv(env, f, slices[0].signal, slices[0].limit);
      TurnShows(p, s, env, f, vmOf, slices[0], quiet[0]);
      TurnWorks(p, s, env, f, vmOf, slices[0], quiet[0]);
      var t := F.Iterate(env, f, slices[0].signal, slices[0].limit);
      var (s', vmOf') := TurnWorld(p.d, s, env, f, vmOf, slices[0], quiet[0]);
      if !t.Fatal? {
        PlannedTurnsAreFew(p, s', env, t.next, vmOf', slices[1..], quiet[1..]);
      }
    }
  }

  /** No slice ends before the VM it is for has come to its next syscall. */
  ghost predicate Uncut(env: M.Env, f: F.Flat, slices: seq<L.TimeSlice>)
    requires I.Inv(f)
    decreases |slices|
  {
    I.Ended(f) || slices == [] ||
    (I.LiveShape(f);
     I.IterateKeepsInv(env, f, slices[0].signal, slices[0].limit);
     var t := F.Iterate(env, f, slices[0].signal, slices[0].limit);
     !t.Cut? && (t.Turn? ==> Uncut(env, t.next, slices[1..])))
  }

  lemma {:induction false} UncutCounts(env: M.Env, f: F.Flat, slices: seq<L.TimeSlice>)
    requires I.Inv(f) && Uncut(env, f, slices) && L.Drive(env, f, slices).Unfinished?
    ensures TurnsIn(env, f, slices) == |slices|
    decreases |slices|
  {
    hide I.Live, I.Ended, F.Iterate;
    if slices != [] {
      L.EitherInv(f);
      I.LiveShape(f);
      I.IterateKeepsInv(env, f, slices[0].signal, slices[0].limit);
      UncutCounts(env, F.Iterate(env, f, slices[0].signal, slices[0].limit).next, slices[1..]);
    }
  }

  /** The number of turns within which a workload made by the planner is through, from the plan alone. */
  function TurnBound(p: Plan): nat {
    3 * TotalLeft(p.d, Start(|p.parent|).guests) + 1
  }

  lemma BootWork(p: Plan, env: M.Env)
    requires F.BootRoot(env, F.EMPTY).Ok?
    ensures Work(p.d, Start(|p.parent|), F.BootRoot(env, F.EMPTY).value) == TurnBound(p)
  {
    assert F.RunnableIds(F.BootRoot(env, F.EMPTY).value) == {T.ROOT};
  }

  /** A planned workload comes to its end: it takes at most so many turns of progress, and if no slice is cut short, one
      slice more than that completes it with exit code 0, unless a memory access or a boot fails or the total
      overflows. */
  lemma PlannedCompletes(p: Plan, env: M.Env, slices: seq<L.TimeSlice>)
    requires Sound(p) && KeepsToPlan(p, env)
    ensures F.BootRoot(env, F.EMPTY).Ok? && I.Inv(F.BootRoot(env, F.EMPTY).value)
    ensures var f := F.BootRoot(env, F.EMPTY).value;
            && TurnsIn(env, f, slices) <= TurnBound(p)
            && PlannedEnd(p, L.Drive(env, f, slices))
            && (Uncut(env, f, slices) && |slices| > TurnBound(p) ==> !L.Drive(env, f, slices).Unfinished?)
  {
    hide Inv, Sound, I.Live, Shows, PlannedRun, F.BootRoot, Start, L.Drive, TurnsIn, Work, TurnBound, Uncut;
    var quiet: seq<nat> :| |quiet| == |slices| &&
      PlannedRun(p.d, Start(|p.parent|), env, F.BootRoot(env, F.EMPTY).value, map[T.ROOT := 0], slices, quiet);
    var f := F.BootRoot(env, F.EMPTY).value;
    SoundIsMade(p);
    BootShowsStart(p, env);
    BootWork(p, env);
    L.LiveNotEnded(f);
    PlannedTurnsAreFew(p, Start(|p.parent|), env, f, map[T.ROOT := 0], slices, quiet);
    PlannedDrive(p, env, slices);
    if Uncut(env, f, slices) && L.Drive(env, f, slices).Unfinished? { UncutCounts(env, f, slices); }
  }
}
