/** The programs of a plan run by the scheduler: as long as each VM makes the syscalls that come next in its part of
    the plan, every turn of the scheduler is a few steps of the plan's own machine. */
module PlanTurns {
  import opened Words
  import T = Types
  import M = Machine
  import F = Flat
  import I = Invariants
  import O = Ordered
  import S = IoSteps
  import C = Caches
  import SF = SchedulerFacts
  import opened Planner
  import opened PlanFacts
  import opened Guests
  import opened GuestInv
  import opened GuestSteps
  import opened GuestRuns
  import PlanCodec
  import opened PlanOnScheduler

  // ---- VMs to which nothing happens ----

  /** What VM `id` relies on outside of itself is still there. */
  ghost predicate Undisturbed(s: World, s': World, f: F.Flat, f': F.Flat, vmOf: map<T.VmId, nat>,
                              vmOf': map<T.VmId, nat>, id: T.VmId)
    requires id in f.states
  {
    && id in f'.states && f'.states[id] == f.states[id]
    && id in vmOf && id in vmOf' && vmOf'[id] == vmOf[id] < |s.guests| == |s'.guests|
    && s'.guests[vmOf[id]] == s.guests[vmOf[id]]
    && (F.Waits(f.states[id]) ==>
          var q := f.states[id].pipe;
          q in s'.owner && s'.owner[q] == vmOf[id] && T.OtherPipe(q) in s'.owner)
    && (f.states[id].Join? ==>
          var target := f.states[id].target;
          target in vmOf ==> target in vmOf' && vmOf'[target] == vmOf[target])
  }

  lemma StaysShown(p: Plan, s: World, s': World, f: F.Flat, f': F.Flat, vmOf: map<T.VmId, nat>,
                   vmOf': map<T.VmId, nat>, id: T.VmId)
    requires id in f.states && id in vmOf && ShowsVm(p, s, f, vmOf, id)
    requires Undisturbed(s, s', f, f', vmOf, vmOf', id)
    ensures ShowsVm(p, s', f', vmOf', id)
  {
  }

  lemma ShownVm(p: Plan, s: World, f: F.Flat, vmOf: map<T.VmId, nat>, id: T.VmId)
    requires Shows(p, s, f, vmOf) && id in f.states
    ensures id in vmOf && ShowsVm(p, s, f, vmOf, id) && vmOf[id] < |s.guests|
    ensures F.Waits(f.states[id]) ==>
              var q := f.states[id].pipe;
              q in s.owner && s.owner[q] == vmOf[id] && T.OtherPipe(q) in s.owner
  {
    assert ShowsVm(p, s, f, vmOf, id);
  }

  lemma ShowsParts(p: Plan, s: World, f: F.Flat, vmOf: map<T.VmId, nat>)
    requires Shows(p, s, f, vmOf)
    ensures Names(f, vmOf) && ShowsPipes(s, f, vmOf) && ShowsEnds(s, f, vmOf)
  {
  }

  lemma ShowsWhole(p: Plan, s: World, f: F.Flat, vmOf: map<T.VmId, nat>)
    requires Names(f, vmOf) && ShowsPipes(s, f, vmOf) && ShowsEnds(s, f, vmOf)
    requires forall id | id in f.states :: ShowsVm(p, s, f, vmOf, id)
    ensures Shows(p, s, f, vmOf)
  {
    hide ShowsVm;
  }

  lemma OtherIndex(f: F.Flat, vmOf: map<T.VmId, nat>, i: T.VmId, j: T.VmId)
    requires Names(f, vmOf) && i in vmOf && j in vmOf && i != j
    ensures vmOf[i] != vmOf[j]
  {
  }

  lemma SameVm(f: F.Flat, vmOf: map<T.VmId, nat>, i: T.VmId, j: T.VmId)
    requires Names(f, vmOf) && i in vmOf && j in vmOf && vmOf[i] == vmOf[j]
    ensures i == j
  {
  }

  /** VMs that have terminated before are not affected by what happens to a live one. */
  lemma EndsStay(s: World, s': World, f: F.Flat, g: F.Flat, vmOf: map<T.VmId, nat>, vmOf': map<T.VmId, nat>, id: T.VmId)
    requires I.Live(f) && Names(f, vmOf) && ShowsEnds(s, f, vmOf) && id in f.states && id in vmOf
    requires vmOf[id] < |s.guests| == |s'.guests| && g.terminated == f.terminated
    requires forall u | 0 <= u < |s.guests| && u != vmOf[id] && !s.guests[u].phase.Unborn? ::
               s'.guests[u] == s.guests[u]
    requires forall j | j in vmOf :: j in vmOf' && vmOf'[j] == vmOf[j]
    ensures ShowsEnds(s', g, vmOf')
  {
    assert id !in f.terminated;
    hide I.Live;
    forall j | j in g.terminated ensures g.terminated[j] == 0 && j in vmOf' && Gone(s', vmOf'[j]) {
      OtherIndex(f, vmOf, id, j);
    }
  }

  // ---- Steps without a syscall ----

  /** What `v` does next takes no syscall, or its join has been answered already. */
  predicate Quiet(d: Data, s: World, v: nat) {
    && v < |s.guests|
    && match s.guests[v].phase
       case Loading(_) => true
       case Creating(i) => i >= |d.pipes| || d.pipes[i].vm != v
       case Spawning(i) => i >= |d.spawns| || d.spawns[i].from != v
       case Moving(_, _) => MoveNext(d, s, v).Some?
       case Joining(j) => j < |s.guests[v].spawned| && JoinNext(s, v).Some?
       case _ => false
  }

  /** The world after `n` such steps of `v`. */
  function Quietly(d: Data, s: World, v: nat, n: nat): Option<World>
    decreases n
  {
    if n == 0 then Some(s)
    else if !Quiet(d, s, v) then None
    else match Do(d, s, Alone(v))
      case None => None
      case Some(s') => Quietly(d, s', v, n - 1)
  }

  /** `s'` differs from `s` in where `v` stands only. */
  ghost predicate OnlyMoved(s: World, s': World, v: nat) {
    && |s'.guests| == |s.guests| && v < |s.guests|
    && (forall u | 0 <= u < |s.guests| && u != v :: s'.guests[u] == s.guests[u])
    && s'.owner == s.owner && s'.nextSlot == s.nextSlot
    && Born(s', v) && !Gone(s', v)
  }

  lemma QuietStep(p: Plan, s: World, v: nat)
    requires Sound(p) && Inv(p, s) && Quiet(p.d, s, v)
    ensures Do(p.d, s, Alone(v)).Some? && Inv(p, Do(p.d, s, Alone(v)).value)
    ensures OnlyMoved(s, Do(p.d, s, Alone(v)).value, v)
  {
    hide Inv, Planned, Fits;
    QuietIsPossible(p.d, s, v);
    AloneKeepsInv(p, s, v);
    var s' := Do(p.d, s, Alone(v)).value;
    hide Do, Quiet;
    QuietMoves(p.d, s, s', v);
    NobodyDied(p, s', v);
  }

  lemma QuietIsPossible(d: Data, s: World, v: nat)
    requires Quiet(d, s, v)
    ensures Do(d, s, Alone(v)).Some? && |Do(d, s, Alone(v)).value.guests| == |s.guests|
  {
    hide OwnEntry, PlanCodec.LoadPlan, PlanCodec.Witness, Find, Zip;
  }

  /** Unless it dies of it, a step without a syscall leaves everything but `v` alone. */
  lemma QuietMoves(d: Data, s: World, s': World, v: nat)
    requires Quiet(d, s, v) && Do(d, s, Alone(v)) == Some(s')
    ensures |s'.guests| == |s.guests| && (!s'.guests[v].phase.Died? ==> OnlyMoved(s, s', v))
  {
    match s.guests[v].phase
    case Loading(_) => LoadMoves(d, s, v);
    case Moving(_, _) => MoveMoves(d, s, v);
    case Joining(_) =>
      hide LoadNext, MoveNext;
    case _ =>
      hide LoadNext, MoveNext, JoinNext;
  }

  lemma LoadMoves(d: Data, s: World, v: nat)
    requires v < |s.guests| && s.guests[v].phase.Loading?
    ensures var s' := LoadNext(d, s, v);
            |s'.guests| == |s.guests| && (!s'.guests[v].phase.Died? ==> OnlyMoved(s, s', v))
  {
    hide OwnEntry, PlanCodec.LoadPlan, PlanCodec.Witness, Zip;
  }

  lemma MoveMoves(d: Data, s: World, v: nat)
    requires v < |s.guests| && s.guests[v].phase.Moving? && MoveNext(d, s, v).Some?
    ensures var s' := MoveNext(d, s, v).value;
            |s'.guests| == |s.guests| && (!s'.guests[v].phase.Died? ==> OnlyMoved(s, s', v))
  {
    hide Find;
  }

  lemma MovedVm(p: Plan, s: World, s': World, f: F.Flat, vmOf: map<T.VmId, nat>, id: T.VmId, j: T.VmId)
    requires Shows(p, s, f, vmOf) && id in f.states && f.states[id].Runnable? && j in f.states
    requires id in vmOf && OnlyMoved(s, s', vmOf[id])
    ensures j in vmOf && ShowsVm(p, s', f, vmOf, j)
  {
    ShowsParts(p, s, f, vmOf);
    ShownVm(p, s, f, vmOf, j);
    hide Shows, WaitsOn;
    if j != id {
      OtherIndex(f, vmOf, id, j);
      StaysShown(p, s, s', f, f, vmOf, vmOf, j);
    }
  }

  lemma MovedShows(p: Plan, s: World, s': World, f: F.Flat, vmOf: map<T.VmId, nat>, id: T.VmId)
    requires I.Live(f) && Shows(p, s, f, vmOf) && id in f.states && f.states[id].Runnable?
    requires id in vmOf && OnlyMoved(s, s', vmOf[id])
    ensures Shows(p, s', f, vmOf)
  {
    ShowsParts(p, s, f, vmOf);
    assert ShowsPipes(s', f, vmOf);
    EndsStay(s, s', f, f, vmOf, vmOf, id);
    hide *;
    forall j | j in f.states ensures j in vmOf && ShowsVm(p, s', f, vmOf, j) {
      MovedVm(p, s, s', f, vmOf, id, j);
    }
    ShowsWhole(p, s', f, vmOf);
  }

  lemma {:induction false} QuietlyShows(p: Plan, s: World, f: F.Flat, vmOf: map<T.VmId, nat>, id: T.VmId, n: nat)
    requires Sound(p) && Inv(p, s) && I.Live(f) && Shows(p, s, f, vmOf)
    requires id in f.states && f.states[id].Runnable? && id in vmOf
    requires Quietly(p.d, s, vmOf[id], n).Some?
    ensures var s' := Quietly(p.d, s, vmOf[id], n).value; Inv(p, s') && Shows(p, s', f, vmOf)
    decreases n
  {
    hide I.Live, Inv, Sound, Shows, Quiet, Do, OnlyMoved;
    if n > 0 {
      QuietStep(p, s, vmOf[id]);
      var s' := Do(p.d, s, Alone(vmOf[id])).value;
      MovedShows(p, s, s', f, vmOf, id);
      QuietlyShows(p, s', f, vmOf, id, n - 1);
    }
  }

  // ---- Syscalls ----

  /** `m` is the syscall that comes next in `v`'s part of the plan. */
  predicate PlannedCall(d: Data, s: World, vmOf: map<T.VmId, nat>, v: nat, m: T.Message) {
    && v < |s.guests|
    && var g := s.guests[v];
    match m
    case OpenPipe(_, _, _) => g.phase.Creating? && g.phase.next < |d.pipes| && d.pipes[g.phase.next].vm == v
    case Spawn(_, args) =>
      && g.phase.Spawning? && g.phase.next < |d.spawns| && d.spawns[g.phase.next].from == v
      && Pick(g.table, d.spawns[g.phase.next].pipes, 0) == Picked(args.pipes)
    case PipeRead(_, io) => WaitsOn(d, s, v, false, io.pipe) && io.length == Remaining(d, s, v)
    case PipeWrite(_, io) => WaitsOn(d, s, v, true, io.pipe) && io.length == Remaining(d, s, v)
    case JoinVm(_, target, _) =>
      && g.phase.Joining? && g.phase.joined < |g.spawned|
      && target in vmOf && vmOf[target] == g.spawned[|g.spawned| - 1 - g.phase.joined]
  }

  /** The world after the syscall. A read or write changes it only when it is answered, and so does a join, which is
      answered at once if the child has exited already. */
  function AfterCall(d: Data, s: World, v: nat, m: T.Message): World {
    if (m.OpenPipe? || m.Spawn? || m.JoinVm?) && Do(d, s, Alone(v)).Some? then Do(d, s, Alone(v)).value else s
  }

  /** A spawned VM is the child that the plan spawns next. */
  function NamesAfter(d: Data, s: World, v: nat, f: F.Flat, vmOf: map<T.VmId, nat>, m: T.Message): map<T.VmId, nat> {
    if m.Spawn? && v < |s.guests| && s.guests[v].phase.Spawning? && s.guests[v].phase.next < |d.spawns| then
      vmOf[f.nextVmId := d.spawns[s.guests[v].phase.next].child]
    else vmOf
  }

  /** The VM that holds an end in the plan holds it in the scheduler. */
  lemma HeldBy(s: World, f: F.Flat, vmOf: map<T.VmId, nat>, id: T.VmId, q: T.PipeId)
    requires Names(f, vmOf) && ShowsPipes(s, f, vmOf) && id in vmOf && q in s.owner && s.owner[q] == vmOf[id]
    ensures F.Owns(f, id, q)
  {
    SameVm(f, vmOf, f.pipes[q], id);
  }

  lemma OldEnds(p: Plan, s: World)
    requires p.Made() && Inv(p, s)
    ensures forall q | q in s.owner :: q < s.nextSlot
  {
    hide Planned;
  }

  /** What opening the next pipe does in the plan's world. */
  lemma OpenedWorld(p: Plan, s: World, v: nat)
    requires Sound(p) && Inv(p, s) && v < |s.guests| && s.guests[v].phase.Creating?
    requires s.guests[v].phase.next < |p.d.pipes| && p.d.pipes[s.guests[v].phase.next].vm == v
    ensures Do(p.d, s, Alone(v)).Some?
    ensures var s' := Do(p.d, s, Alone(v)).value;
            && Inv(p, s') && |s'.guests| == |s.guests| && Born(s', v) && !Gone(s', v)
            && (forall u | 0 <= u < |s.guests| && u != v :: s'.guests[u] == s.guests[u])
            && s'.owner == s.owner[s.nextSlot := v][s.nextSlot + 1 := v] && s'.nextSlot == s.nextSlot + 2
  {
    hide Inv, Planned, Fits;
    CreateStep(p, s, v);
    NobodyDied(p, CreateNext(p.d, s, v), v);
  }

  lemma OpenedVm(p: Plan, s: World, s': World, f: F.Flat, g: F.Flat, vmOf: map<T.VmId, nat>, id: T.VmId, j: T.VmId)
    requires Shows(p, s, f, vmOf) && id in f.states && f.states[id].Runnable? && id in vmOf && j in f.states
    requires vmOf[id] < |s.guests| == |s'.guests| && Born(s', vmOf[id]) && !Gone(s', vmOf[id])
    requires forall u | 0 <= u < |s.guests| && u != vmOf[id] :: s'.guests[u] == s.guests[u]
    requires (forall q | q in s.owner :: q < s.nextSlot)
    requires s'.owner == s.owner[s.nextSlot := vmOf[id]][s.nextSlot + 1 := vmOf[id]]
    requires g.states == f.states
    ensures j in vmOf && ShowsVm(p, s', g, vmOf, j)
  {
    ShowsParts(p, s, f, vmOf);
    ShownVm(p, s, f, vmOf, j);
    hide Shows, WaitsOn;
    if j != id {
      OtherIndex(f, vmOf, id, j);
      StaysShown(p, s, s', f, g, vmOf, vmOf, j);
    }
  }

  lemma OpenedPipes(s: World, s': World, f: F.Flat, g: F.Flat, vmOf: map<T.VmId, nat>, id: T.VmId)
    requires ShowsPipes(s, f, vmOf) && id in vmOf
    requires s'.owner == s.owner[s.nextSlot := vmOf[id]][s.nextSlot + 1 := vmOf[id]] && s'.nextSlot == s.nextSlot + 2
    requires g.pipes == f.pipes[f.nextPipeSlot := id][f.nextPipeSlot + 1 := id] && g.nextPipeSlot == f.nextPipeSlot + 2
    ensures ShowsPipes(s', g, vmOf)
  {
  }

  lemma NamesStay(f: F.Flat, g: F.Flat, vmOf: map<T.VmId, nat>)
    requires Names(f, vmOf) && g.states.Keys == f.states.Keys && g.terminated == f.terminated
    ensures Names(g, vmOf)
  {
  }

  lemma PipeDelivered(f: F.Flat, id: T.VmId, addr1: u64, addr2: u64)
    requires id in f.machines && F.DeliverPipe(f, id, addr1, addr2).Ok?
    ensures var g := F.DeliverPipe(f, id, addr1, addr2).value;
            && g.states == f.states && g.terminated == f.terminated
            && g.pipes == f.pipes[f.nextPipeSlot := id][f.nextPipeSlot + 1 := id]
            && g.nextPipeSlot == f.nextPipeSlot + 2
  {
    var vm := I.PipeShape(f, id, addr1, addr2);
  }

  lemma PipeShows(p: Plan, s: World, f: F.Flat, vmOf: map<T.VmId, nat>, id: T.VmId, m: T.Message)
    requires Sound(p) && Inv(p, s) && I.Live(f) && Shows(p, s, f, vmOf)
    requires id in f.states && f.states[id].Runnable? && id in f.machines && id in vmOf
    requires m.OpenPipe? && m.vm == id && PlannedCall(p.d, s, vmOf, vmOf[id], m)
    requires F.DeliverPipe(f, id, m.pipe1Addr, m.pipe2Addr).Ok?
    ensures var s' := AfterCall(p.d, s, vmOf[id], m);
            Inv(p, s') && Shows(p, s', F.DeliverPipe(f, id, m.pipe1Addr, m.pipe2Addr).value, vmOf)
  {
    ShowsParts(p, s, f, vmOf);
    OpenedWorld(p, s, vmOf[id]);
    OldEnds(p, s);
    PipeDelivered(f, id, m.pipe1Addr, m.pipe2Addr);
    assert AfterCall(p.d, s, vmOf[id], m) == Do(p.d, s, Alone(vmOf[id])).value;
    hide *;
    var s' := Do(p.d, s, Alone(vmOf[id])).value;
    var g := F.DeliverPipe(f, id, m.pipe1Addr, m.pipe2Addr).value;
    NamesStay(f, g, vmOf);
    OpenedPipes(s, s', f, g, vmOf, id);
    EndsStay(s, s', f, g, vmOf, vmOf, id);
    forall j | j in g.states ensures j in vmOf && ShowsVm(p, s', g, vmOf, j) {
      OpenedVm(p, s, s', f, g, vmOf, id, j);
    }
    ShowsWhole(p, s', g, vmOf);
  }

  /** `s'` is `s` after `v` has spawned `c` and passed it the pipe ends `ids`. */
  ghost predicate HandedOver(s: World, s': World, v: nat, c: nat, ids: seq<T.PipeId>) {
    && |s'.guests| == |s.guests| && v < |s.guests| && c < |s.guests| && c != v
    && s.guests[c].phase.Unborn? && s'.guests[c].phase.Loading? && s'.guests[v].phase.Spawning?
    && (forall u | 0 <= u < |s.guests| && u != v && u != c :: s'.guests[u] == s.guests[u])
    && (forall q | q in ids :: q in s.owner && s.owner[q] == v)
    && s'.owner == Hand(s.owner, ids, c) && s'.nextSlot == s.nextSlot
  }

  lemma HandedWorld(p: Plan, s: World, v: nat, ids: seq<T.PipeId>)
    requires Sound(p) && Inv(p, s) && v < |s.guests| && s.guests[v].phase.Spawning?
    requires s.guests[v].phase.next < |p.d.spawns| && p.d.spawns[s.guests[v].phase.next].from == v
    requires Pick(s.guests[v].table, p.d.spawns[s.guests[v].phase.next].pipes, 0) == Picked(ids)
    ensures Do(p.d, s, Alone(v)).Some? && Inv(p, Do(p.d, s, Alone(v)).value)
    ensures HandedOver(s, Do(p.d, s, Alone(v)).value, v, p.d.spawns[s.guests[v].phase.next].child, ids)
  {
    hide Inv, Planned, Fits, Passed, Pick;
    var c := p.d.spawns[s.guests[v].phase.next].child;
    RoomForChild(p, s, v, c);
    var ids' := SpawnStep(p, s, v, c);
    NobodyDied(p, SpawnNext(p.d, s, v), v);
  }

  lemma SpawnDelivered(env: M.Env, f: F.Flat, id: T.VmId, args: T.SpawnArgs)
    requires id in f.machines && id < f.nextVmId && F.DeliverSpawn(env, f, id, args).Ok?
    ensures var g := F.DeliverSpawn(env, f, id, args).value;
            && g.states == f.states[f.nextVmId := T.Runnable] && g.terminated == f.terminated
            && g.pipes == F.Handover(f.pipes, args.pipes, f.nextVmId) && g.nextPipeSlot == f.nextPipeSlot
  {
    hide F.BootMachine, M.Complete64;
  }

  lemma HandedPipes(s: World, s': World, f: F.Flat, g: F.Flat, vmOf: map<T.VmId, nat>, v: nat, c: nat,
                    ids: seq<T.PipeId>)
    requires ShowsPipes(s, f, vmOf) && HandedOver(s, s', v, c, ids) && f.nextVmId !in vmOf
    requires g.pipes == F.Handover(f.pipes, ids, f.nextVmId) && g.nextPipeSlot == f.nextPipeSlot
    ensures ShowsPipes(s', g, vmOf[f.nextVmId := c])
  {
  }

  lemma NextIsNew(p: Plan, s: World, f: F.Flat, vmOf: map<T.VmId, nat>)
    requires I.Live(f) && Shows(p, s, f, vmOf)
    ensures f.nextVmId !in vmOf
    ensures forall j | j in vmOf :: Born(s, vmOf[j])
  {
    forall j | j in vmOf ensures j < f.nextVmId && Born(s, vmOf[j]) {
      if j in f.states { assert ShowsVm(p, s, f, vmOf, j); }
    }
  }

  lemma HandedNames(s: World, f: F.Flat, g: F.Flat, vmOf: map<T.VmId, nat>, c: nat)
    requires Names(f, vmOf) && f.nextVmId !in vmOf && (forall j | j in vmOf :: Born(s, vmOf[j])) && !Born(s, c)
    requires g.states.Keys == f.states.Keys + {f.nextVmId} && g.terminated == f.terminated
    ensures Names(g, vmOf[f.nextVmId := c])
  {
  }

  lemma HandedVm(p: Plan, s: World, s': World, f: F.Flat, g: F.Flat, vmOf: map<T.VmId, nat>, id: T.VmId, c: nat,
                 ids: seq<T.PipeId>, j: T.VmId)
    requires Shows(p, s, f, vmOf) && id in f.states && f.states[id].Runnable? && id in vmOf && j in g.states
    requires HandedOver(s, s', vmOf[id], c, ids) && f.nextVmId !in vmOf && !Born(s, c)
    requires forall j | j in vmOf :: Born(s, vmOf[j])
    requires g.states == f.states[f.nextVmId := T.Runnable]
    ensures j in vmOf[f.nextVmId := c] && ShowsVm(p, s', g, vmOf[f.nextVmId := c], j)
  {
    hide Shows, WaitsOn;
    ShowsParts(p, s, f, vmOf);
    if j in f.states { ShownVm(p, s, f, vmOf, j); }
    if j != id && j != f.nextVmId {
      OtherIndex(f, vmOf, id, j);
      StaysShown(p, s, s', f, g, vmOf, vmOf[f.nextVmId := c], j);
    }
  }

  lemma SpawnOwns(s: World, s': World, f: F.Flat, vmOf: map<T.VmId, nat>, id: T.VmId, c: nat, ids: seq<T.PipeId>)
    requires Names(f, vmOf) && ShowsPipes(s, f, vmOf) && id in vmOf && HandedOver(s, s', vmOf[id], c, ids)
    ensures forall i | 0 <= i < |ids| :: F.Owns(f, id, ids[i])
  {
    forall i | 0 <= i < |ids| ensures F.Owns(f, id, ids[i]) {
      assert ids[i] in ids;
      HeldBy(s, f, vmOf, id, ids[i]);
    }
  }

  /** A planned spawn is never refused for passing an end that its VM does not own. */
  lemma SpawnAllowed(p: Plan, s: World, env: M.Env, f: F.Flat, vmOf: map<T.VmId, nat>, m: T.Message)
    requires Sound(p) && Inv(p, s) && Shows(p, s, f, vmOf) && m.vm in vmOf && m.vm in f.machines && m.vm < f.nextVmId
    requires m.Spawn? && PlannedCall(p.d, s, vmOf, vmOf[m.vm], m)
    ensures F.DeliverSpawn(env, f, m.vm, m.spawnArgs) != T.Err(T.NotPipeOwner)
  {
    hide Shows, Inv, Planned, Fits, Pick, Do, HandedOver, F.DeliverSpawn, Names, ShowsPipes, ShowsEnds;
    ShowsParts(p, s, f, vmOf);
    var v := vmOf[m.vm];
    HandedWorld(p, s, v, m.spawnArgs.pipes);
    SpawnOwns(s, Do(p.d, s, Alone(v)).value, f, vmOf, m.vm, p.d.spawns[s.guests[v].phase.next].child,
              m.spawnArgs.pipes);
    OwnedIsAllowed(env, f, m.vm, m.spawnArgs);
  }

  lemma OwnedIsAllowed(env: M.Env, f: F.Flat, id: T.VmId, args: T.SpawnArgs)
    requires id in f.machines && id < f.nextVmId && forall i | 0 <= i < |args.pipes| :: F.Owns(f, id, args.pipes[i])
    ensures F.DeliverSpawn(env, f, id, args) != T.Err(T.NotPipeOwner)
  {
    hide M.Complete64, F.Handover;
  }

  lemma ChildShows(p: Plan, s: World, s': World, f: F.Flat, g: F.Flat, vmOf: map<T.VmId, nat>, id: T.VmId, c: nat,
                   ids: seq<T.PipeId>)
    requires I.Live(f) && Shows(p, s, f, vmOf) && id in f.states && f.states[id].Runnable? && id in vmOf
    requires HandedOver(s, s', vmOf[id], c, ids) && g.states == f.states[f.nextVmId := T.Runnable]
    requires g.terminated == f.terminated && g.nextPipeSlot == f.nextPipeSlot
    requires g.pipes == F.Handover(f.pipes, ids, f.nextVmId)
    ensures Shows(p, s', g, vmOf[f.nextVmId := c])
  {
    ShowsParts(p, s, f, vmOf);
    NextIsNew(p, s, f, vmOf);
    var vmOf' := vmOf[f.nextVmId := c];
    ChildEnds(s, s', f, g, vmOf, id, c, ids);
    assert !Born(s, c);
    hide *;
    HandedNames(s, f, g, vmOf, c);
    HandedPipes(s, s', f, g, vmOf, vmOf[id], c, ids);
    forall j | j in g.states ensures j in vmOf' && ShowsVm(p, s', g, vmOf', j) {
      HandedVm(p, s, s', f, g, vmOf, id, c, ids, j);
    }
    ShowsWhole(p, s', g, vmOf');
  }

  lemma ChildEnds(s: World, s': World, f: F.Flat, g: F.Flat, vmOf: map<T.VmId, nat>, id: T.VmId, c: nat,
                  ids: seq<T.PipeId>)
    requires I.Live(f) && Names(f, vmOf) && ShowsEnds(s, f, vmOf) && id in f.states && id in vmOf
    requires HandedOver(s, s', vmOf[id], c, ids) && g.terminated == f.terminated && f.nextVmId !in vmOf
    ensures ShowsEnds(s', g, vmOf[f.nextVmId := c])
  {
    hide I.Live, Names, ShowsEnds;
    EndsStay(s, s', f, g, vmOf, vmOf[f.nextVmId := c], id);
  }

  lemma SpawnShows(p: Plan, s: World, env: M.Env, f: F.Flat, vmOf: map<T.VmId, nat>, id: T.VmId, m: T.Message)
    requires Sound(p) && Inv(p, s) && I.Live(f) && Shows(p, s, f, vmOf)
    requires id in f.states && f.states[id].Runnable? && id in f.machines && id in vmOf && id < f.nextVmId
    requires m.Spawn? && m.vm == id && PlannedCall(p.d, s, vmOf, vmOf[id], m)
    requires F.DeliverSpawn(env, f, id, m.spawnArgs).Ok?
    ensures var s' := AfterCall(p.d, s, vmOf[id], m);
            && Inv(p, s')
            && Shows(p, s', F.DeliverSpawn(env, f, id, m.spawnArgs).value, NamesAfter(p.d, s, vmOf[id], f, vmOf, m))
  {
    hide I.Live, Shows, Inv, Planned, Fits, F.DeliverSpawn, Pick, Do, HandedOver, F.Handover;
    var c, ids := p.d.spawns[s.guests[vmOf[id]].phase.next].child, m.spawnArgs.pipes;
    HandedWorld(p, s, vmOf[id], ids);
    SpawnDelivered(env, f, id, m.spawnArgs);
    var s' := Do(p.d, s, Alone(vmOf[id])).value;
    assert AfterCall(p.d, s, vmOf[id], m) == s' && NamesAfter(p.d, s, vmOf[id], f, vmOf, m) == vmOf[f.nextVmId := c];
    hide *;
    ChildShows(p, s, s', f, F.DeliverSpawn(env, f, id, m.spawnArgs).value, vmOf, id, c, ids);
  }

  /** Only the state of VM `id` has changed, into one that shows where its program stands. */
  lemma StateShows(p: Plan, s: World, f: F.Flat, g: F.Flat, vmOf: map<T.VmId, nat>, id: T.VmId)
    requires Shows(p, s, f, vmOf) && id in f.states && g.states.Keys == f.states.Keys
    requires forall j | j in f.states && j != id :: g.states[j] == f.states[j]
    requires g.pipes == f.pipes && g.nextPipeSlot == f.nextPipeSlot && g.terminated == f.terminated
    requires id in vmOf && ShowsVm(p, s, g, vmOf, id)
    ensures Shows(p, s, g, vmOf)
  {
    hide ShowsVm;
    forall j | j in g.states ensures j in vmOf && ShowsVm(p, s, g, vmOf, j) {
      ShownVm(p, s, f, vmOf, j);
      if j != id { StaysShown(p, s, s, f, g, vmOf, vmOf, j); }
    }
  }

  /** A planned read or write is never refused: the VM waits from now on. */
  lemma IoCallShows(p: Plan, s: World, f: F.Flat, vmOf: map<T.VmId, nat>, id: T.VmId, q: T.PipeId, wait: T.VmState)
    requires Shows(p, s, f, vmOf) && id in f.states && id in f.machines && id in vmOf && F.Waits(wait)
    requires WaitsOn(p.d, s, vmOf[id], wait.WaitForWrite?, q) && wait.pipe == q
    requires wait.length == Remaining(p.d, s, vmOf[id]) && (wait.WaitForWrite? ==> wait.consumed == 0)
    requires Born(s, vmOf[id]) && !Gone(s, vmOf[id])
    ensures F.DeliverIo(f, id, q, wait) == T.Ok(f.(states := f.states[id := wait]))
    ensures Shows(p, s, f.(states := f.states[id := wait]), vmOf)
  {
    ShowsParts(p, s, f, vmOf);
    WaitHolds(p.d, s, vmOf[id], wait.WaitForWrite?, q);
    var g := f.(states := f.states[id := wait]);
    assert ShowsVm(p, s, g, vmOf, id);
    hide Shows, ShowsVm, WaitsOn, Names;
    HeldBy(s, f, vmOf, id, q);
    StateShows(p, s, f, g, vmOf, id);
  }

  lemma WaitHolds(d: Data, s: World, v: nat, writing: bool, q: T.PipeId)
    requires WaitsOn(d, s, v, writing, q)
    ensures q in s.owner && s.owner[q] == v && T.OtherPipe(q) in s.owner
  {
  }

  lemma JoinDelivered(f: F.Flat, id: T.VmId, target: T.VmId, addr: u64)
    requires id in f.machines && id in f.states && f.states[id].Runnable?
    requires target in f.terminated || target in f.states
    requires F.DeliverJoin(f, id, target, addr).Ok?
    ensures var g := F.DeliverJoin(f, id, target, addr).value;
            && g.pipes == f.pipes && g.nextPipeSlot == f.nextPipeSlot && g.terminated == f.terminated
            && g.states == f.states[id := if target in f.terminated then T.Runnable else T.Join(target, addr)]
  {
    hide M.Complete8;
  }

  lemma SameShows(p: Plan, s: World, f: F.Flat, g: F.Flat, vmOf: map<T.VmId, nat>)
    requires Shows(p, s, f, vmOf) && g.states == f.states && g.pipes == f.pipes
    requires g.nextPipeSlot == f.nextPipeSlot && g.terminated == f.terminated
    ensures Shows(p, s, g, vmOf)
  {
    hide WaitsOn;
    forall id | id in g.states ensures id in vmOf && ShowsVm(p, s, g, vmOf, id) {
      assert ShowsVm(p, s, f, vmOf, id);
    }
  }

  /** A join that has to wait leaves the plan's world as it is; one that is answered at once is the next step there. */
  lemma JoinedWorld(p: Plan, s: World, f: F.Flat, vmOf: map<T.VmId, nat>, id: T.VmId, target: T.VmId)
    requires Sound(p) && Inv(p, s) && Shows(p, s, f, vmOf) && id in f.states && id in vmOf && target in vmOf
    requires var v := vmOf[id];
             && v < |s.guests| && s.guests[v].phase.Joining? && s.guests[v].phase.joined < |s.guests[v].spawned|
             && vmOf[target] == s.guests[v].spawned[|s.guests[v].spawned| - 1 - s.guests[v].phase.joined]
    ensures target in f.terminated ==> Quiet(p.d, s, vmOf[id])
    ensures target !in f.terminated ==> target in f.states && Do(p.d, s, Alone(vmOf[id])).None?
  {
    hide Sound, Inv, Shows, ShowsVm, Quiet, Do;
    ShowsParts(p, s, f, vmOf);
    var v, c := vmOf[id], vmOf[target];
    if target in f.terminated {
      ExitedIsJoined(p.d, s, v, c);
    } else {
      ShownVm(p, s, f, vmOf, target);
      NotOverYet(p, s, f, vmOf, target);
      LiveIsAwaited(p.d, s, v, c);
    }
  }

  lemma NotOverYet(p: Plan, s: World, f: F.Flat, vmOf: map<T.VmId, nat>, id: T.VmId)
    requires Sound(p) && Inv(p, s) && id in f.states && id in vmOf && ShowsVm(p, s, f, vmOf, id)
    ensures vmOf[id] < |s.guests| && !s.guests[vmOf[id]].phase.Exited? && !s.guests[vmOf[id]].phase.Died?
  {
    SoundIsMade(p);
    hide Inv, Sound;
    NobodyDied(p, s, vmOf[id]);
  }

  lemma SoundIsMade(p: Plan)
    requires Sound(p)
    ensures p.Made()
  {
  }

  lemma ExitedIsJoined(d: Data, s: World, v: nat, c: nat)
    requires v < |s.guests| && s.guests[v].phase.Joining? && s.guests[v].phase.joined < |s.guests[v].spawned|
    requires c == s.guests[v].spawned[|s.guests[v].spawned| - 1 - s.guests[v].phase.joined] && Gone(s, c)
    ensures Quiet(d, s, v)
  {
  }

  lemma LiveIsAwaited(d: Data, s: World, v: nat, c: nat)
    requires v < |s.guests| && s.guests[v].phase.Joining? && s.guests[v].phase.joined < |s.guests[v].spawned|
    requires c == s.guests[v].spawned[|s.guests[v].spawned| - 1 - s.guests[v].phase.joined] && c < |s.guests|
    requires !s.guests[c].phase.Exited? && !s.guests[c].phase.Died?
    ensures Do(d, s, Alone(v)).None?
  {
  }

  lemma JoinShows(p: Plan, s: World, f: F.Flat, vmOf: map<T.VmId, nat>, id: T.VmId, m: T.Message)
    requires Sound(p) && Inv(p, s) && I.Live(f) && Shows(p, s, f, vmOf)
    requires id in f.states && f.states[id].Runnable? && id in f.machines && id in vmOf
    requires m.JoinVm? && m.vm == id && PlannedCall(p.d, s, vmOf, vmOf[id], m)
    requires F.DeliverJoin(f, id, m.target, m.exitCodeAddr).Ok?
    ensures var s' := AfterCall(p.d, s, vmOf[id], m);
            Inv(p, s') && Shows(p, s', F.DeliverJoin(f, id, m.target, m.exitCodeAddr).value, vmOf)
  {
    hide Inv, Sound, I.Live;
    hide Shows, WaitsOn, F.DeliverJoin, Do, Quiet;
    JoinedWorld(p, s, f, vmOf, id, m.target);
    ShowsParts(p, s, f, vmOf);
    ShownVm(p, s, f, vmOf, id);
    JoinDelivered(f, id, m.target, m.exitCodeAddr);
    var g := F.DeliverJoin(f, id, m.target, m.exitCodeAddr).value;
    if m.target in f.terminated {
      QuietStep(p, s, vmOf[id]);
      var s' := Do(p.d, s, Alone(vmOf[id])).value;
      MovedShows(p, s, s', f, vmOf, id);
      SameShows(p, s', f, g, vmOf);
    } else {
      assert ShowsVm(p, s, g, vmOf, id);
      StateShows(p, s, f, g, vmOf, id);
    }
  }

  lemma TransferCallShows(p: Plan, s: World, env: M.Env, f: F.Flat, vmOf: map<T.VmId, nat>, m: T.Message)
    requires m.PipeRead? || m.PipeWrite?
    requires Shows(p, s, f, vmOf) && m.vm in f.states && m.vm in f.machines && m.vm < f.nextVmId
    requires m.vm in vmOf && PlannedCall(p.d, s, vmOf, vmOf[m.vm], m)
    ensures F.Deliver(env, f, m).Ok? && Shows(p, s, F.Deliver(env, f, m).value, vmOf)
  {
    ShownVm(p, s, f, vmOf, m.vm);
    hide Shows, F.DeliverIo, WaitsOn;
    var io := m.io;
    var wait := if m.PipeRead? then T.WaitForRead(io.pipe, io.length, io.bufferAddr, io.lengthAddr)
                else T.WaitForWrite(io.pipe, 0, io.length, io.bufferAddr, io.lengthAddr);
    IoCallShows(p, s, f, vmOf, m.vm, io.pipe, wait);
  }

  /** Whatever planned syscall is delivered, the scheduler shows where the plan's own machine goes with it. */
  lemma CallShows(p: Plan, s: World, env: M.Env, f: F.Flat, vmOf: map<T.VmId, nat>, m: T.Message)
    requires Sound(p) && Inv(p, s) && I.Live(f) && Shows(p, s, f, vmOf)
    requires m.vm in f.states && f.states[m.vm].Runnable? && m.vm in f.machines && m.vm < f.nextVmId
    requires m.vm in vmOf && PlannedCall(p.d, s, vmOf, vmOf[m.vm], m)
    requires F.Deliver(env, f, m).Ok?
    ensures var s' := AfterCall(p.d, s, vmOf[m.vm], m);
            && Inv(p, s')
            && Shows(p, s', F.Deliver(env, f, m).value, NamesAfter(p.d, s, vmOf[m.vm], f, vmOf, m))
  {
    hide I.Live, Shows, Inv, Planned, Fits, F.DeliverSpawn, F.DeliverPipe, F.DeliverJoin, F.DeliverIo, Do, Pick;
    hide WaitsOn, ShowsVm, Remaining;
    match m
    case Spawn(id, args) => SpawnShows(p, s, env, f, vmOf, id, m);
    case OpenPipe(id, _, _) => PipeShows(p, s, f, vmOf, id, m);
    case JoinVm(id, _, _) => JoinShows(p, s, f, vmOf, id, m);
    case PipeRead(_, _) => TransferCallShows(p, s, env, f, vmOf, m);
    case PipeWrite(_, _) => TransferCallShows(p, s, env, f, vmOf, m);
  }

  // ---- Exits ----

  /** `v` is through with its part of the plan. */
  predicate Through(s: World, v: nat) {
    v < |s.guests| && s.guests[v].phase.Joining? && s.guests[v].phase.joined >= |s.guests[v].spawned|
  }

  /** The exit code that the scheduler has recorded for the VM with index `child`, and that joins of it are told. */
  ghost function CodeOf(f: F.Flat, vmOf: map<T.VmId, nat>, child: nat): int {
    if id :| id in f.terminated && id in vmOf && vmOf[id] == child then f.terminated[id] else 0
  }

  /** The first code other than 0 among those of the first `n` children joined, last one first; 0 if there is none. */
  ghost function JoinedCode(f: F.Flat, vmOf: map<T.VmId, nat>, spawned: seq<nat>, n: nat): int
    requires n <= |spawned|
  {
    if n == 0 then 0
    else
      var before := JoinedCode(f, vmOf, spawned, n - 1);
      if before != 0 then before else CodeOf(f, vmOf, spawned[|spawned| - n])
  }

  /** `v` returns the first code other than 0 that a join has told it, at once, or 0 after its last join. */
  ghost predicate PlannedExit(s: World, f: F.Flat, vmOf: map<T.VmId, nat>, v: nat, code: int) {
    && v < |s.guests| && s.guests[v].phase.Joining?
    && var (joined, spawned) := (s.guests[v].phase.joined, s.guests[v].spawned);
    && code == JoinedCode(f, vmOf, spawned, Min(joined, |spawned|))
    && (code != 0 || joined >= |spawned|)
  }

  lemma {:induction false} JoinedCodesAreZero(s: World, f: F.Flat, vmOf: map<T.VmId, nat>, spawned: seq<nat>, n: nat)
    requires ShowsEnds(s, f, vmOf) && n <= |spawned|
    ensures JoinedCode(f, vmOf, spawned, n) == 0
  {
    if n > 0 { JoinedCodesAreZero(s, f, vmOf, spawned, n - 1); }
  }

  /** As all VMs that have ended so far did so with code 0, the next one does as well, and not before its last join. */
  lemma ExitIsZero(s: World, f: F.Flat, vmOf: map<T.VmId, nat>, v: nat, code: int)
    requires ShowsEnds(s, f, vmOf) && PlannedExit(s, f, vmOf, v, code)
    ensures code == 0 && Through(s, v)
  {
    var (joined, spawned) := (s.guests[v].phase.joined, s.guests[v].spawned);
    JoinedCodesAreZero(s, f, vmOf, spawned, Min(joined, |spawned|));
  }

  /** `s'` is `s` after `v` has exited and closed its pipe ends. */
  ghost predicate Departed(s: World, s': World, v: nat) {
    && |s'.guests| == |s.guests| && v < |s.guests| && Gone(s', v)
    && (forall u | 0 <= u < |s.guests| && u != v :: s'.guests[u] == s.guests[u])
    && s'.owner == (map q | q in s.owner && s.owner[q] != v :: s.owner[q]) && s'.ids == s.ids
    && s'.nextSlot == s.nextSlot
  }

  lemma LeftWorld(p: Plan, s: World, v: nat)
    requires p.Made() && Inv(p, s) && Through(s, v)
    ensures Do(p.d, s, Alone(v)).Some?
    ensures Inv(p, Do(p.d, s, Alone(v)).value) && Departed(s, Do(p.d, s, Alone(v)).value, v)
  {
    hide Inv, Planned;
    ExitStep(p, s, v);
  }

  /** A VM that waits is not disturbed when another one exits: the end it waits for is still held. */
  lemma StillWaits(p: Plan, s: World, s': World, v: nat, u: nat, writing: bool, q: T.PipeId)
    requires p.Made() && Inv(p, s) && Inv(p, s') && Departed(s, s', v) && u != v && WaitsOn(p.d, s, u, writing, q)
    ensures q in s'.owner && s'.owner[q] == u && T.OtherPipe(q) in s'.owner
  {
    WaitsFacts(p.d, s, u, writing, q);
    var i := s.guests[u].phase.next;
    assert writing == (p.d.writes[i].from == u);
    hide Inv, Planned, MoveNext, Find;
    WaitsProperly(p, s, u);
    WaitsProperly(p, s', u);
    var x := Needed(p.d.writes[i], u).value;
    hide WaitsOn;
    SamePipe(p, s, u, q, s.ids[x]);
    WaitHolds(p.d, s', u, writing, s'.ids[x]);
  }

  lemma LeftVm(p: Plan, s: World, s': World, f: F.Flat, g: F.Flat, vmOf: map<T.VmId, nat>, id: T.VmId, j: T.VmId)
    requires p.Made() && Inv(p, s) && Inv(p, s') && Shows(p, s, f, vmOf) && j in f.states && j != id && id in vmOf
    requires Departed(s, s', vmOf[id]) && j in g.states
    requires g.states[j] == if F.Joins(f, j, id) then T.Runnable else f.states[j]
    ensures j in vmOf && ShowsVm(p, s', g, vmOf, j)
  {
    hide Inv, Planned, Shows, WaitsOn, Names, ShowsPipes, ShowsEnds;
    ShowsParts(p, s, f, vmOf);
    ShownVm(p, s, f, vmOf, j);
    OtherIndex(f, vmOf, id, j);
    if !F.Joins(f, j, id) {
      if F.Waits(f.states[j]) {
        StillWaits(p, s, s', vmOf[id], vmOf[j], f.states[j].WaitForWrite?, f.states[j].pipe);
      }
      StaysShown(p, s, s', f, g, vmOf, vmOf, j);
    }
  }

  lemma LeftPipes(s: World, s': World, f: F.Flat, g: F.Flat, vmOf: map<T.VmId, nat>, id: T.VmId)
    requires Names(f, vmOf) && ShowsPipes(s, f, vmOf) && id in vmOf && Departed(s, s', vmOf[id])
    requires g.pipes == F.Disowned(f.pipes, id) && g.nextPipeSlot == f.nextPipeSlot
    ensures ShowsPipes(s', g, vmOf)
  {
    forall q ensures q in g.pipes <==> q in s'.owner {
      if q in f.pipes && vmOf[f.pipes[q]] == vmOf[id] { SameVm(f, vmOf, f.pipes[q], id); }
    }
  }

  lemma LeftEnds(s: World, s': World, f: F.Flat, g: F.Flat, vmOf: map<T.VmId, nat>, id: T.VmId)
    requires Names(f, vmOf) && ShowsEnds(s, f, vmOf) && id in vmOf && Departed(s, s', vmOf[id])
    requires g.terminated == f.terminated[id := 0]
    ensures ShowsEnds(s', g, vmOf)
  {
    forall j | j in g.terminated ensures j in vmOf && Gone(s', vmOf[j]) {
      if j != id { OtherIndex(f, vmOf, id, j); }
    }
  }

  lemma EndDelivered(f: F.Flat, id: T.VmId)
    requires F.Shaped(f) && id in f.states && F.EndOther(f, id, 0).Ok?
    ensures var g := F.EndOther(f, id, 0).value;
            && g.states.Keys == f.states.Keys - {id} && g.terminated == f.terminated[id := 0]
            && (forall j | j in g.states ::
                  j in f.states && g.states[j] == if F.Joins(f, j, id) then T.Runnable else f.states[j])
            && g.pipes == F.Disowned(f.pipes, id) && g.nextPipeSlot == f.nextPipeSlot
  {
    hide F.Woken;
  }

  lemma LeftNames(f: F.Flat, g: F.Flat, vmOf: map<T.VmId, nat>, id: T.VmId)
    requires Names(f, vmOf) && id in f.states
    requires g.states.Keys == f.states.Keys - {id} && g.terminated == f.terminated[id := 0]
    ensures Names(g, vmOf)
  {
    assert g.terminated.Keys == f.terminated.Keys + {id};
  }

  /** A child that is through exits with code 0 and leaves a state that shows the plan's world without it. */
  lemma ExitShows(p: Plan, s: World, f: F.Flat, vmOf: map<T.VmId, nat>, id: T.VmId)
    requires p.Made() && Inv(p, s) && F.Shaped(f) && Shows(p, s, f, vmOf)
    requires id in f.states && id in vmOf && Through(s, vmOf[id])
    requires F.EndOther(f, id, 0).Ok?
    ensures Do(p.d, s, Alone(vmOf[id])).Some?
    ensures var s' := Do(p.d, s, Alone(vmOf[id])).value; Inv(p, s') && Shows(p, s', F.EndOther(f, id, 0).value, vmOf)
  {
    hide Planned, Inv, Shows, Do, F.EndOther, F.Shaped;
    LeftWorld(p, s, vmOf[id]);
    var s' := Do(p.d, s, Alone(vmOf[id])).value;
    ShowsParts(p, s, f, vmOf);
    EndDelivered(f, id);
    var g := F.EndOther(f, id, 0).value;
    hide *;
    LeftNames(f, g, vmOf, id);
    LeftPipes(s, s', f, g, vmOf, id);
    LeftEnds(s, s', f, g, vmOf, id);
    forall j | j in g.states ensures j in vmOf && ShowsVm(p, s', g, vmOf, j) {
      LeftVm(p, s, s', f, g, vmOf, id, j);
    }
    ShowsWhole(p, s', g, vmOf);
  }

  // ---- Input and output ----

  /** Where a VM stands when its current read or write is complete. */
  function Completed(d: Data, g: Guest): Guest {
    if g.phase.Moving? && g.phase.next < |d.writes| then
      g.(phase := Moving(g.phase.next, |d.writes[g.phase.next].data|))
    else g
  }

  /** The world after the VMs `vs` have completed their current read or write. */
  function Advanced(d: Data, s: World, vs: set<nat>): World {
    s.(guests := seq(|s.guests|, v requires 0 <= v < |s.guests| =>
                       if v in vs then Completed(d, s.guests[v]) else s.guests[v]))
  }

  datatype Meet = Meet(w: nat, r: nat, p: T.PipeId)

  function Meeters(q: seq<Meet>): set<nat> {
    (set k | 0 <= k < |q| :: q[k].w) + (set k | 0 <= k < |q| :: q[k].r)
  }

  function Meetings(q: seq<Meet>): seq<Action> {
    seq(|q|, k requires 0 <= k < |q| => Meeting(q[k].w, q[k].r, q[k].p))
  }

  ghost predicate MeetApart(d: Data, s: World, q: seq<Meet>) {
    && (forall k | 0 <= k < |q| :: Meets(d, s, q[k].w, q[k].r, q[k].p))
    && forall j, k | 0 <= j < k < |q| ::
         q[j].w != q[k].w && q[j].w != q[k].r && q[j].r != q[k].w && q[j].r != q[k].r
  }

  lemma MeetAdvances(p: Plan, s: World, m: Meet)
    requires p.Made() && Inv(p, s) && Meets(p.d, s, m.w, m.r, m.p)
    ensures Inv(p, Exchange(p.d, s, m.w, m.r, m.p))
    ensures Exchange(p.d, s, m.w, m.r, m.p) == Advanced(p.d, s, {m.w, m.r})
    ensures s.guests[m.w].phase == s.guests[m.r].phase
  {
    hide Inv, Planned;
    MeetStep(p, s, m.w, m.r, m.p);
    ExchangeCompletes(p, s, m.w, m.r, m.p);
    MeetingAgrees(p, s, m.w, m.r, m.p);
    assert Exchange(p.d, s, m.w, m.r, m.p).guests == Advanced(p.d, s, {m.w, m.r}).guests;
  }

  lemma OthersMeet(d: Data, s: World, vs: set<nat>, m: Meet)
    requires Meets(d, s, m.w, m.r, m.p) && m.w !in vs && m.r !in vs
    ensures Meets(d, Advanced(d, s, vs), m.w, m.r, m.p)
  {
    hide Find;
  }

  lemma AdvanceTwice(d: Data, s: World, q: seq<Meet>)
    requires q != []
    ensures Advanced(d, Advanced(d, s, {q[0].w, q[0].r}), Meeters(q[1..])) == Advanced(d, s, Meeters(q))
  {
    var a, b := Advanced(d, Advanced(d, s, {q[0].w, q[0].r}), Meeters(q[1..])), Advanced(d, s, Meeters(q));
    MeetersSplit(q);
    hide Meeters;
    assert a.guests == b.guests;
  }

  lemma MeetersSplit(q: seq<Meet>)
    requires q != []
    ensures Meeters(q) == {q[0].w, q[0].r} + Meeters(q[1..])
  {
    assert q == [q[0]] + q[1..];
    forall v | v in Meeters(q) ensures v in {q[0].w, q[0].r} + Meeters(q[1..]) {
      var k :| 0 <= k < |q| && (q[k].w == v || q[k].r == v);
      if k > 0 { assert q[1..][k - 1] == q[k]; }
    }
    forall v | v in Meeters(q[1..]) ensures v in Meeters(q) {
      var k :| 0 <= k < |q[1..]| && (q[1..][k].w == v || q[1..][k].r == v);
      assert q[k + 1] == q[1..][k];
    }
  }

  lemma MeetingsCount(q: seq<Meet>)
    ensures |Meetings(q)| == |q|
  {
  }

  lemma MeetingsSplit(q: seq<Meet>)
    requires q != []
    ensures Meetings(q) == [Meeting(q[0].w, q[0].r, q[0].p)] + Meetings(q[1..])
  {
  }

  /** Pairs of different VMs that meet can all do so, one after the other. */
  lemma {:induction false} AllMeet(p: Plan, s: World, q: seq<Meet>)
    requires p.Made() && Inv(p, s) && MeetApart(p.d, s, q)
    ensures Inv(p, Advanced(p.d, s, Meeters(q)))
    ensures Perform(p.d, s, Meetings(q)) == Some(Advanced(p.d, s, Meeters(q)))
    decreases |q|
  {
    hide Inv, Planned, Exchange, Meets;
    if q == [] {
      assert Advanced(p.d, s, {}).guests == s.guests;
      assert Meeters(q) == {} && Meetings(q) == [];
    } else {
      MeetAdvances(p, s, q[0]);
      var vs := {q[0].w, q[0].r};
      var s' := Advanced(p.d, s, vs);
      forall k | 0 <= k < |q| - 1 ensures Meets(p.d, s', q[1..][k].w, q[1..][k].r, q[1..][k].p) {
        assert q[1..][k] == q[k + 1];
        OthersMeet(p.d, s, vs, q[k + 1]);
      }
      hide Advanced, Meeters, Meetings;
      AllMeet(p, s', q[1..]);
      AdvanceTwice(p.d, s, q);
      MeetingsSplit(q);
    }
  }

  /** The indices of the VMs that can move data. */
  ghost function Movers(f: F.Flat, vmOf: map<T.VmId, nat>): set<nat> {
    set id | id in f.states && id in vmOf && SF.InSomePair(f, id) :: vmOf[id]
  }

  /** Two matched VMs meet in the plan, and each asks for all that is left of the same operation. */
  lemma PairMeets(p: Plan, s: World, f: F.Flat, vmOf: map<T.VmId, nat>, r: T.VmId, w: T.VmId)
    requires p.Made() && Inv(p, s) && Shows(p, s, f, vmOf) && F.Matched(f, r, w)
    ensures r in vmOf && w in vmOf && r != w
    ensures Meets(p.d, s, vmOf[w], vmOf[r], f.states[r].pipe)
    ensures f.states[w].consumed == 0 && f.states[w].length == f.states[r].length
  {
    assert ShowsVm(p, s, f, vmOf, r) && ShowsVm(p, s, f, vmOf, w);
    ShowsParts(p, s, f, vmOf);
    OtherIndex(f, vmOf, r, w);
    hide Inv, Planned, Shows, ShowsVm, WaitsOn, Names, ShowsPipes, ShowsEnds;
    T.OtherPipeIsInvolution(f.states[r].pipe);
    MeetingAgrees(p, s, vmOf[w], vmOf[r], f.states[r].pipe);
  }

  /** A paired VM becomes runnable: its whole operation is done. */
  lemma PairIsServed(p: Plan, s: World, f: F.Flat, vmOf: map<T.VmId, nat>, r: T.VmId, w: T.VmId)
    requires p.Made() && Inv(p, s) && I.Live(f) && Shows(p, s, f, vmOf) && F.Matched(f, r, w)
    ensures F.IoState(f, r).Runnable? && F.IoState(f, w).Runnable?
  {
    hide Inv, Planned, Shows, I.Live, F.IoState, F.IoVm, F.Chunk;
    PairMeets(p, s, f, vmOf, r, w);
    S.PairStep(f, r, w);
  }

  lemma OnlyPairsMove(p: Plan, s: World, f: F.Flat, vmOf: map<T.VmId, nat>, id: T.VmId)
    requires I.Live(f) && Shows(p, s, f, vmOf) && id in f.states && !SF.InSomePair(f, id)
    ensures F.IoState(f, id) == f.states[id]
  {
    hide Shows, C.IoPanics;
    PlansNeverPanic(p, s, f, vmOf, {});
    forall r, w | F.Matched(f, r, w) ensures id != r && id != w { }
    S.Idle(f, id);
  }

  lemma NotAMover(f: F.Flat, vmOf: map<T.VmId, nat>, id: T.VmId)
    requires Names(f, vmOf) && id in vmOf && (id in f.states ==> !SF.InSomePair(f, id))
    ensures vmOf[id] !in Movers(f, vmOf)
  {
    hide SF.InSomePair;
    forall j | j in f.states && j in vmOf && SF.InSomePair(f, j) ensures vmOf[j] != vmOf[id] {
      OtherIndex(f, vmOf, j, id);
    }
  }

  lemma RunnableShows(p: Plan, s: World, f: F.Flat, g: F.Flat, vmOf: map<T.VmId, nat>, vs: set<nat>, id: T.VmId)
    requires id in f.states && id in vmOf && ShowsVm(p, s, f, vmOf, id) && id in g.states && g.states[id].Runnable?
    ensures ShowsVm(p, Advanced(p.d, s, vs), g, vmOf, id)
  {
    hide WaitsOn;
  }

  lemma UnmovedShows(p: Plan, s: World, f: F.Flat, g: F.Flat, vmOf: map<T.VmId, nat>, vs: set<nat>, id: T.VmId)
    requires Shows(p, s, f, vmOf) && id in f.states && id in g.states && g.states[id] == f.states[id]
    requires id in vmOf && vmOf[id] !in vs
    ensures ShowsVm(p, Advanced(p.d, s, vs), g, vmOf, id)
  {
    ShownVm(p, s, f, vmOf, id);
    hide Shows, ShowsVm;
    StaysShown(p, s, Advanced(p.d, s, vs), f, g, vmOf, vmOf, id);
  }

  lemma IoVmShows(p: Plan, s: World, f: F.Flat, g: F.Flat, vmOf: map<T.VmId, nat>, id: T.VmId)
    requires p.Made() && Inv(p, s) && I.Live(f) && Shows(p, s, f, vmOf) && id in f.states
    requires id in g.states && g.states[id] == F.IoState(f, id)
    ensures id in vmOf && ShowsVm(p, Advanced(p.d, s, Movers(f, vmOf)), g, vmOf, id)
  {
    hide *;
    ShownVm(p, s, f, vmOf, id);
    ShowsParts(p, s, f, vmOf);
    if r, w :| F.Matched(f, r, w) && (id == r || id == w) {
      PairIsServed(p, s, f, vmOf, r, w);
      RunnableShows(p, s, f, g, vmOf, Movers(f, vmOf), id);
    } else {
      NotPaired(f, id);
      OnlyPairsMove(p, s, f, vmOf, id);
      NotAMover(f, vmOf, id);
      UnmovedShows(p, s, f, g, vmOf, Movers(f, vmOf), id);
    }
  }

  lemma NotPaired(f: F.Flat, id: T.VmId)
    requires forall r, w | F.Matched(f, r, w) :: id != r && id != w
    ensures !SF.InSomePair(f, id)
  {
    hide F.Matched;
  }

  lemma AdvancedEnds(d: Data, s: World, f: F.Flat, g: F.Flat, vmOf: map<T.VmId, nat>, vs: set<nat>)
    requires ShowsEnds(s, f, vmOf) && g.terminated == f.terminated
    ensures ShowsEnds(Advanced(d, s, vs), g, vmOf)
  {
  }

  lemma MeetsAll(p: Plan, s: World, f: F.Flat, vmOf: map<T.VmId, nat>) returns (q: seq<Meet>)
    requires p.Made() && Inv(p, s) && I.Live(f) && Shows(p, s, f, vmOf)
    ensures MeetApart(p.d, s, q) && Meeters(q) == Movers(f, vmOf) && |q| == |C.PairedWriters(f)|
  {
    hide Inv, Planned, Shows, I.Live, Meets, O.Ascending, F.Matched, C.ServedWith;
    var writers := O.Ascending(C.PairedWriters(f));
    forall w | w in writers
      ensures F.Matched(f, C.ServedWith(f, w), w)
      ensures C.ServedWith(f, w) in f.states && f.states[C.ServedWith(f, w)].WaitForRead?
      ensures w in vmOf && C.ServedWith(f, w) in vmOf
      ensures Meets(p.d, s, vmOf[w], vmOf[C.ServedWith(f, w)], f.states[C.ServedWith(f, w)].pipe)
    {
      C.ServedIsMatched(f, w);
      PairMeets(p, s, f, vmOf, C.ServedWith(f, w), w);
    }
    q := seq(|writers|, k requires 0 <= k < |writers| =>
      assert writers[k] in writers;
      Meet(vmOf[writers[k]], vmOf[C.ServedWith(f, writers[k])], f.states[C.ServedWith(f, writers[k])].pipe));
    forall j, k | 0 <= j < k < |q|
      ensures q[j].w != q[k].w && q[j].w != q[k].r && q[j].r != q[k].w && q[j].r != q[k].r
    {
      PairsNeverMix(p, s, f, vmOf, C.ServedWith(f, writers[j]), writers[j], C.ServedWith(f, writers[k]), writers[k]);
    }
    MeetersMove(f, vmOf, writers, q);
  }

  lemma PairsNeverMix(p: Plan, s: World, f: F.Flat, vmOf: map<T.VmId, nat>, r: T.VmId, w: T.VmId,
                      r': T.VmId, w': T.VmId)
    requires I.Live(f) && Shows(p, s, f, vmOf) && F.Matched(f, r, w) && F.Matched(f, r', w') && w != w'
    ensures r in vmOf && w in vmOf && r' in vmOf && w' in vmOf
    ensures vmOf[w] != vmOf[w'] && vmOf[w] != vmOf[r'] && vmOf[r] != vmOf[w'] && vmOf[r] != vmOf[r']
  {
    I.PairsAreDisjoint(f, r, w, r', w');
    ShowsParts(p, s, f, vmOf);
    hide I.Live, Shows;
    OtherIndex(f, vmOf, w, w');
    OtherIndex(f, vmOf, w, r');
    OtherIndex(f, vmOf, r, w');
    OtherIndex(f, vmOf, r, r');
  }

  lemma MeetersMove(f: F.Flat, vmOf: map<T.VmId, nat>, writers: seq<T.VmId>, q: seq<Meet>)
    requires I.Live(f) && writers == O.Ascending(C.PairedWriters(f))
    requires forall w | w in writers :: w in vmOf && C.ServedWith(f, w) in vmOf && F.Matched(f, C.ServedWith(f, w), w)
    requires |q| == |writers|
    requires forall k | 0 <= k < |q| :: writers[k] in writers && q[k].w == vmOf[writers[k]] &&
               q[k].r == vmOf[C.ServedWith(f, writers[k])]
    ensures Meeters(q) == Movers(f, vmOf)
  {
    hide I.Live, C.ServedWith, O.Ascending;
    forall v | v in Meeters(q) ensures v in Movers(f, vmOf) {
      var k :| 0 <= k < |q| && (q[k].w == v || q[k].r == v);
      SF.PairSides(f, C.ServedWith(f, writers[k]), writers[k]);
    }
    forall v | v in Movers(f, vmOf) ensures v in Meeters(q) {
      var id :| id in f.states && id in vmOf && SF.InSomePair(f, id) && vmOf[id] == v;
      var r, w :| F.Matched(f, r, w) && (id == r || id == w);
      C.ReaderIsUnique(f, r, w);
      assert w in writers;
      var k :| 0 <= k < |writers| && writers[k] == w;
    }
  }

  lemma IoShape(f: F.Flat)
    requires F.Shaped(f) && F.Io(f).Ok?
    ensures var g := F.Io(f).value;
            && g.states.Keys == f.states.Keys && g.terminated == f.terminated
            && g.pipes == f.pipes && g.nextPipeSlot == f.nextPipeSlot
            && forall id | id in f.states :: g.states[id] == F.IoState(f, id)
  {
    hide F.IoState, F.IoVm;
  }

  lemma AdvancedPipes(d: Data, s: World, f: F.Flat, g: F.Flat, vmOf: map<T.VmId, nat>, vs: set<nat>)
    requires ShowsPipes(s, f, vmOf) && g.pipes == f.pipes && g.nextPipeSlot == f.nextPipeSlot
    ensures ShowsPipes(Advanced(d, s, vs), g, vmOf)
  {
  }

  /** Settling input and output lets exactly the VMs that meet in the plan complete their operations. */
  lemma IoShows(p: Plan, s: World, f: F.Flat, vmOf: map<T.VmId, nat>) returns (actions: seq<Action>)
    requires p.Made() && Inv(p, s) && I.Live(f) && Shows(p, s, f, vmOf) && F.Io(f).Ok?
    ensures var s' := Advanced(p.d, s, Movers(f, vmOf));
            && Perform(p.d, s, actions) == Some(s') && Inv(p, s') && Shows(p, s', F.Io(f).value, vmOf)
    ensures |actions| == |C.PairedWriters(f)|
  {
    var s', g := Advanced(p.d, s, Movers(f, vmOf)), F.Io(f).value;
    hide *;
    ShowsParts(p, s, f, vmOf);
    IoShape(f);
    AdvancedPipes(p.d, s, f, g, vmOf, Movers(f, vmOf));
    var q := MeetsAll(p, s, f, vmOf);
    AllMeet(p, s, q);
    actions := Meetings(q);
    MeetingsCount(q);
    NamesStay(f, g, vmOf);
    AdvancedEnds(p.d, s, f, g, vmOf, Movers(f, vmOf));
    forall id | id in g.states ensures id in vmOf && ShowsVm(p, s', g, vmOf, id) {
      IoVmShows(p, s, f, g, vmOf, id);
    }
    ShowsWhole(p, s', g, vmOf);
  }
}
