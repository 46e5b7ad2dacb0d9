/** Whole runs of a plan: nobody ever fails, somebody can always go on, and every run comes to its end. */
module GuestRuns {
  import opened Words
  import opened Types
  import opened Trees
  import opened Planner
  import opened PlanFacts
  import opened Guests
  import opened GuestInv
  import opened GuestSteps

  // ---- Safety ----

  lemma {:induction false} KidsMembers(spawns: seq<SpawnOp>, v: nat, n: nat, c: nat)
    requires n <= |spawns| && c in Kids(spawns, v, n)
    ensures exists k :: 0 <= k < n && spawns[k].from == v && spawns[k].child == c
    decreases n
  {
    if c != spawns[n - 1].child || spawns[n - 1].from != v { KidsMembers(spawns, v, n - 1, c); }
  }

  lemma KidFacts(p: Plan, s: World, v: nat, c: nat)
    requires p.Made() && PhasesOk(p, s) && KidsOk(p, s) && v < |s.guests| && c in s.guests[v].spawned
    ensures v < c < |s.guests| && p.parent[c] == v
  {
    hide Planned, PassedTo, Creator;
    KidsMembers(p.d.spawns, v, SpawnPos(p.d, s.guests[v]), c);
    var k :| 0 <= k < |p.d.spawns| && p.d.spawns[k].from == v && p.d.spawns[k].child == c;
    PassedExactlyOnPath(p, k, 0);
  }

  /** Whatever VM goes next, the invariant is kept; in particular no program fails. */
  lemma StepKeepsInv(p: Plan, s: World, a: Action)
    requires Sound(p) && Inv(p, s) && Do(p.d, s, a).Some?
    ensures Inv(p, Do(p.d, s, a).value)
  {
    hide Planned, NamesOk, CreatedOk, TablesOk, BirthsOk, OwnersOk, SyncOk, JoinsOk, Meets, Exchange, Fits,
         SpawnChild, Find;
    match a
    case Alone(v) => AloneKeepsInv(p, s, v);
    case Meeting(w, r, pipe) => MeetStep(p, s, w, r, pipe);
  }

  lemma AloneKeepsInv(p: Plan, s: World, v: nat)
    requires Sound(p) && Inv(p, s) && Do(p.d, s, Alone(v)).Some?
    ensures Inv(p, Do(p.d, s, Alone(v)).value)
  {
    hide Planned, NamesOk, CreatedOk, TablesOk, BirthsOk, OwnersOk, SyncOk, JoinsOk, Fits, SpawnChild, Find, Passed,
         PassedTo, Creator, CreateCount;
    assert PhaseOk(p.d, s.guests[v]);
    var g := s.guests[v];
    match g.phase
    case Loading(_) => LoadStep(p, s, v);
    case Creating(i) =>
      if i < |p.d.pipes| && p.d.pipes[i].vm == v { CreateStep(p, s, v); } else { SkipCreating(p, s, v); }
    case Spawning(i) =>
      if i < |p.d.spawns| && p.d.spawns[i].from == v {
        RoomForChild(p, s, v, p.d.spawns[i].child);
        var ids := SpawnStep(p, s, v, p.d.spawns[i].child);
      } else {
        SkipSpawning(p, s, v);
      }
    case Moving(i, done) =>
      if i < |p.d.writes| && Needed(p.d.writes[i], v).Some? && done < |p.d.writes[i].data| {
        WaitsProperly(p, s, v);
      } else {
        MoveOn(p, s, v);
      }
    case Joining(j) =>
      if j >= |g.spawned| {
        ExitStep(p, s, v);
      } else {
        var child := g.spawned[|g.spawned| - 1 - j];
        KidFacts(p, s, v, child);
        assert PhaseOk(p.d, s.guests[child]);
        JoinOn(p, s, v);
      }
  }

  lemma {:induction false} RunKeepsInv(p: Plan, s: World, actions: seq<Action>)
    requires Sound(p) && Inv(p, s) && Perform(p.d, s, actions).Some?
    ensures Inv(p, Perform(p.d, s, actions).value)
    decreases |actions|
  {
    hide Inv, Do, Sound;
    if actions != [] {
      StepKeepsInv(p, s, actions[0]);
      RunKeepsInv(p, Do(p.d, s, actions[0]).value, actions[1..]);
    }
  }

  // ---- Progress ----

  ghost predicate Possible(p: Plan, s: World, a: Action) {
    Do(p.d, s, a).Some?
  }

  /** Never in need of anybody else. */
  predicate Busy(phase: Phase) {
    phase.Loading? || phase.Creating? || phase.Spawning?
  }

  predicate Settling(phase: Phase) {
    phase.Moving? || phase.Joining? || phase.Exited?
  }

  lemma {:induction false} AllBorn(p: Plan, s: World, v: nat)
    requires p.Made() && Inv(p, s) && v < |s.guests|
    requires forall u | 0 <= u < |s.guests| :: s.guests[u].phase.Unborn? || Settling(s.guests[u].phase)
    ensures Settling(s.guests[v].phase)
    decreases v
  {
    hide Planned, NamesOk, CreatedOk, TablesOk, KidsOk, OwnersOk, SyncOk, JoinsOk;
    if v > 0 {
      var k := SpawnPosition(p, v);
      AllBorn(p, s, p.parent[v]);
      assert Born(s, p.d.spawns[k].child);
    }
  }

  /** The VM at the other side of write `i`. */
  function Partner(op: WriteOp, v: nat): nat {
    if op.from == v then op.to else op.from
  }

  /** Of two partners the one at the earlier operation leads to a VM that can go on: the lowest unfinished write
      has both its sides waiting for it. */
  lemma {:induction false} MoverGoesOn(p: Plan, s: World, v: nat) returns (a: Action)
    requires p.Made() && Inv(p, s) && v < |s.guests| && s.guests[v].phase.Moving?
    requires forall u | 0 <= u < |s.guests| :: Settling(s.guests[u].phase)
    ensures Possible(p, s, a)
    decreases s.guests[v].phase.next
  {
    hide Planned, NamesOk, CreatedOk, TablesOk, BirthsOk, KidsOk, OwnersOk, JoinsOk, MoveNext, Find, WaitsOn, Inv;
    var i := s.guests[v].phase.next;
    if i < |p.d.writes| && Needed(p.d.writes[i], v).Some? && s.guests[v].phase.done < |p.d.writes[i].data| {
      WaitsProperly(p, s, v);
      WriteFacts(p, i);
      var u := Partner(p.d.writes[i], v);
      VmCount(p, s);
      PartnerIsNotAhead(p, s, v, u, i);
      if s.guests[u].phase.next < i {
        a := MoverGoesOn(p, s, u);
      } else {
        WaitsProperly(p, s, u);
        var w, r := p.d.writes[i].from, p.d.writes[i].to;
        EndsMatch(p, s, i);
        a := Meeting(w, r, s.ids[2 * i]);
      }
    } else {
      MoveOn(p, s, v);
      a := Alone(v);
    }
  }

  lemma VmCount(p: Plan, s: World)
    requires p.Made() && Inv(p, s)
    ensures |s.guests| == |p.parent|
  {
  }

  lemma EndsMatch(p: Plan, s: World, i: nat)
    requires p.Made() && Inv(p, s) && 2 * i in s.ids
    ensures 2 * i + 1 in s.ids && s.ids[2 * i + 1] == OtherPipe(s.ids[2 * i])
  {
    hide Planned, CreatedOk, TablesOk, BirthsOk, KidsOk, OwnersOk, JoinsOk, SyncOk, PhasesOk;
    assert OtherPipe(2 * i) == 2 * i + 1;
    assert NameOk(p, s, 2 * i);
  }

  lemma PartnerIsNotAhead(p: Plan, s: World, v: nat, u: nat, i: nat)
    requires p.Made() && Inv(p, s) && v < |s.guests| && u < |s.guests| && i < |p.d.writes|
    requires Settling(s.guests[u].phase) && s.guests[v].phase.Moving? && s.guests[v].phase.next == i
    requires s.guests[v].phase.done < |p.d.writes[i].data|
    requires p.d.writes[i].from != p.d.writes[i].to && Needed(p.d.writes[i], v).Some? && u == Partner(p.d.writes[i], v)
    ensures s.guests[u].phase.Moving? && s.guests[u].phase.next <= i
    ensures s.guests[u].phase.next == i ==> s.guests[u].phase.done == s.guests[v].phase.done
  {
    hide Planned, NamesOk, CreatedOk, TablesOk, BirthsOk, KidsOk, OwnersOk, JoinsOk;
    assert Prog(p.d, s.guests[p.d.writes[i].from], i) == Prog(p.d, s.guests[p.d.writes[i].to], i);
  }

  /** A VM that waits for a child to end waits for one further down the tree. */
  lemma {:induction false} JoinerGoesOn(p: Plan, s: World, v: nat) returns (a: Action)
    requires p.Made() && Inv(p, s) && v < |s.guests| && s.guests[v].phase.Joining?
    requires forall u | 0 <= u < |s.guests| :: s.guests[u].phase.Joining? || s.guests[u].phase.Exited?
    ensures Possible(p, s, a)
    decreases |s.guests| - v
  {
    hide Planned, NamesOk, CreatedOk, TablesOk, BirthsOk, OwnersOk, JoinsOk, SyncOk;
    var g := s.guests[v];
    a := Alone(v);
    if g.phase.joined < |g.spawned| {
      var child := g.spawned[|g.spawned| - 1 - g.phase.joined];
      KidFacts(p, s, v, child);
      if s.guests[child].phase.Joining? {
        a := JoinerGoesOn(p, s, child);
      }
    }
  }

  lemma EveryPhase(p: Plan, s: World, u: nat)
    requires p.Made() && PhasesOk(p, s) && u < |s.guests|
    ensures var phase := s.guests[u].phase;
            phase.Unborn? || phase.Loading? || phase.Creating? || phase.Spawning? || Settling(phase)
  {
    assert PhaseOk(p.d, s.guests[u]);
  }

  /** As long as the root has not exited, some VM can go on: no deadlock. */
  lemma SomeoneGoesOn(p: Plan, s: World) returns (a: Action)
    requires Sound(p) && Inv(p, s) && !Gone(s, 0)
    ensures Possible(p, s, a)
  {
    hide Planned, NamesOk, CreatedOk, TablesOk, BirthsOk, KidsOk, OwnersOk, SyncOk, JoinsOk, MoveNext, CreateNext,
         SpawnNext, JoinNext, Fits;
    forall u | 0 <= u < |s.guests|
      ensures var phase := s.guests[u].phase; phase.Unborn? || Busy(phase) || Settling(phase)
    {
      EveryPhase(p, s, u);
    }
    if v: nat :| v < |s.guests| && Busy(s.guests[v].phase) {
      a := Alone(v);
    } else {
      forall v | 0 <= v < |s.guests| ensures Settling(s.guests[v].phase) { AllBorn(p, s, v); }
      if v: nat :| v < |s.guests| && s.guests[v].phase.Moving? {
        a := MoverGoesOn(p, s, v);
      } else {
        a := JoinerGoesOn(p, s, 0);
      }
    }
  }

  // ---- Termination ----

  /** Steps that the operations from `i` on can still take. */
  function Cost(d: Data, i: nat): nat
    decreases |d.writes| - i
  {
    if i >= |d.writes| then 0 else |d.writes[i].data| + 1 + Cost(d, i + 1)
  }

  function LeftJoining(d: Data, joined: nat): nat {
    if joined <= |d.spawns| then |d.spawns| - joined + 1 else 1
  }

  function LeftMoving(d: Data, i: nat, done: nat): nat {
    LeftJoining(d, 0) + 1 + if i < |d.writes| && done <= |d.writes[i].data| then Cost(d, i) - done else 0
  }

  function LeftSpawning(d: Data, i: nat): nat {
    LeftMoving(d, 0, 0) + 1 + if i <= |d.spawns| then |d.spawns| - i else 0
  }

  function LeftCreating(d: Data, i: nat): nat {
    LeftSpawning(d, 0) + 1 + if i <= |d.pipes| then |d.pipes| - i else 0
  }

  /** A bound on the steps a VM can still take. */
  function Left(d: Data, phase: Phase): nat {
    match phase
    case Unborn => LeftCreating(d, 0) + 1
    case Loading(_) => LeftCreating(d, 0) + 1
    case Creating(i) => LeftCreating(d, i)
    case Spawning(i) => LeftSpawning(d, i)
    case Moving(i, done) => LeftMoving(d, i, done)
    case Joining(j) => LeftJoining(d, j)
    case Exited => 0
    case Died(_) => 0
  }

  function TotalLeft(d: Data, guests: seq<Guest>): nat {
    if guests == [] then 0 else Left(d, guests[0].phase) + TotalLeft(d, guests[1..])
  }

  lemma {:induction false} LeftUpdate(d: Data, guests: seq<Guest>, v: nat, g: Guest)
    requires v < |guests|
    ensures TotalLeft(d, guests[v := g]) + Left(d, guests[v].phase) == TotalLeft(d, guests) + Left(d, g.phase)
    decreases |guests|
  {
    hide Left;
    var guests' := guests[v := g];
    if v > 0 {
      assert guests'[1..] == guests[1..][v - 1 := g];
      LeftUpdate(d, guests[1..], v - 1, g);
    } else {
      assert guests'[1..] == guests[1..];
    }
  }

  lemma KidsBound(spawns: seq<SpawnOp>, v: nat, n: nat)
    requires n <= |spawns|
    ensures |Kids(spawns, v, n)| <= n
  {
    if n > 0 { KidsBound(spawns, v, n - 1); }
  }

  /** What a VM does alone brings it closer to its end. */
  lemma PhaseAdvances(p: Plan, s: World, v: nat, phase: Phase)
    requires v < |s.guests|
    requires Left(p.d, phase) < Left(p.d, s.guests[v].phase)
    ensures TotalLeft(p.d, SetPhase(s, v, phase).guests) < TotalLeft(p.d, s.guests)
  {
    hide Left;
    LeftUpdate(p.d, s.guests, v, s.guests[v].(phase := phase));
  }

  lemma MeetingAdvances(p: Plan, s: World, w: nat, r: nat, pipe: PipeId)
    requires Sound(p) && Inv(p, s) && Meets(p.d, s, w, r, pipe)
    ensures TotalLeft(p.d, Exchange(p.d, s, w, r, pipe).guests) < TotalLeft(p.d, s.guests)
  {
    hide Inv, Planned, Exchange, Meets, Fits, Cost;
    MeetingAgrees(p, s, w, r, pipe);
    ExchangeCompletes(p, s, w, r, pipe);
    WriteFacts(p, s.guests[w].phase.next);
    var i := s.guests[w].phase.next;
    var full := Moving(i, |p.d.writes[i].data|);
    CostAt(p.d, i);
    PhaseAdvances(p, s, w, full);
    PhaseAdvances(p, SetPhase(s, w, full), r, full);
  }

  lemma CostAt(d: Data, i: nat)
    requires i < |d.writes|
    ensures Cost(d, i) == |d.writes[i].data| + 1 + Cost(d, i + 1)
    ensures Cost(d, i) >= |d.writes[i].data|
  {
  }

  lemma SpawnAdvances(p: Plan, s: World, v: nat, c: nat)
    requires Sound(p) && Inv(p, s) && AboutToSpawn(p, s, v, c)
    ensures TotalLeft(p.d, SpawnNext(p.d, s, v).guests) < TotalLeft(p.d, s.guests)
  {
    hide Inv, Planned, Fits, SpawnNext, LeftMoving;
    RoomForChild(p, s, v, c);
    var ids := SpawnStep(p, s, v, c);
    var i := s.guests[v].phase.next;
    var child := Handed(p, s, v, c, ids).guests[c];
    var parent := Handed(p, s, v, c, ids).guests[v];
    LeftUpdate(p.d, s.guests, c, child);
    LeftUpdate(p.d, s.guests[c := child], v, parent);
  }

  lemma OneUpdate(d: Data, s: World, s': World, v: nat)
    requires v < |s.guests| && |s'.guests| == |s.guests| && s'.guests == s.guests[v := s'.guests[v]]
    requires Left(d, s'.guests[v].phase) < Left(d, s.guests[v].phase)
    ensures TotalLeft(d, s'.guests) < TotalLeft(d, s.guests)
  {
    hide Left;
    LeftUpdate(d, s.guests, v, s'.guests[v]);
  }

  lemma LoadingAdvances(d: Data, s: World, v: nat)
    requires v < |s.guests| && s.guests[v].phase.Loading?
    ensures TotalLeft(d, LoadNext(d, s, v).guests) < TotalLeft(d, s.guests)
  {
    hide TotalLeft, LeftSpawning, OwnEntry;
    OneUpdate(d, s, LoadNext(d, s, v), v);
  }

  lemma CreatingAdvances(d: Data, s: World, v: nat)
    requires v < |s.guests| && s.guests[v].phase.Creating? && s.guests[v].phase.next <= |d.pipes|
    ensures TotalLeft(d, CreateNext(d, s, v).guests) < TotalLeft(d, s.guests)
  {
    hide TotalLeft, LeftSpawning;
    OneUpdate(d, s, CreateNext(d, s, v), v);
  }

  lemma SpawningAdvances(d: Data, s: World, v: nat)
    requires v < |s.guests| && s.guests[v].phase.Spawning? && s.guests[v].phase.next <= |d.spawns|
    requires s.guests[v].phase.next < |d.spawns| ==> d.spawns[s.guests[v].phase.next].from != v
    ensures TotalLeft(d, SpawnNext(d, s, v).guests) < TotalLeft(d, s.guests)
  {
    hide TotalLeft, LeftMoving;
    OneUpdate(d, s, SpawnNext(d, s, v), v);
  }

  lemma MovingAdvances(d: Data, s: World, v: nat)
    requires v < |s.guests| && s.guests[v].phase.Moving? && MoveNext(d, s, v).Some? && PhaseOk(d, s.guests[v])
    ensures TotalLeft(d, MoveNext(d, s, v).value.guests) < TotalLeft(d, s.guests)
  {
    hide TotalLeft, Cost, Find;
    var i := s.guests[v].phase.next;
    if i < |d.writes| { CostAt(d, i); }
    CostFrom(d, i + 1);
    OneUpdate(d, s, MoveNext(d, s, v).value, v);
  }

  lemma JoiningAdvances(d: Data, s: World, v: nat)
    requires v < |s.guests| && s.guests[v].phase.Joining? && JoinNext(s, v).Some?
    requires |s.guests[v].spawned| <= |d.spawns| && s.guests[v].phase.joined <= |s.guests[v].spawned|
    ensures TotalLeft(d, JoinNext(s, v).value.guests) < TotalLeft(d, s.guests)
  {
    hide TotalLeft;
    OneUpdate(d, s, JoinNext(s, v).value, v);
  }

  lemma AloneAdvances(p: Plan, s: World, v: nat)
    requires Sound(p) && Inv(p, s) && Do(p.d, s, Alone(v)).Some?
    ensures TotalLeft(p.d, Do(p.d, s, Alone(v)).value.guests) < TotalLeft(p.d, s.guests)
  {
    hide Planned, NamesOk, CreatedOk, TablesOk, BirthsOk, KidsOk, OwnersOk, SyncOk, JoinsOk, Fits, LoadNext,
         CreateNext, SpawnNext, MoveNext, JoinNext, TotalLeft;
    assert PhaseOk(p.d, s.guests[v]);
    match s.guests[v].phase
    case Loading(_) => LoadingAdvances(p.d, s, v);
    case Creating(_) => CreatingAdvances(p.d, s, v);
    case Spawning(i) =>
      if i < |p.d.spawns| && p.d.spawns[i].from == v { SpawnAdvances(p, s, v, p.d.spawns[i].child); }
      else { SpawningAdvances(p.d, s, v); }
    case Moving(_, _) => MovingAdvances(p.d, s, v);
    case Joining(_) =>
      SpawnedBound(p, s, v);
      JoiningAdvances(p.d, s, v);
  }

  lemma CostFrom(d: Data, i: nat)
    ensures i >= |d.writes| ==> Cost(d, i) == 0
  {
  }

  lemma SpawnedBound(p: Plan, s: World, v: nat)
    requires p.Made() && Inv(p, s) && v < |s.guests|
    ensures |s.guests[v].spawned| <= |p.d.spawns|
  {
    hide Planned;
    KidsBound(p.d.spawns, v, SpawnPos(p.d, s.guests[v]));
  }

  lemma StepAdvances(p: Plan, s: World, a: Action)
    requires Sound(p) && Inv(p, s) && Do(p.d, s, a).Some?
    ensures TotalLeft(p.d, Do(p.d, s, a).value.guests) < TotalLeft(p.d, s.guests)
  {
    hide Inv, Sound, Meets, Exchange, TotalLeft, LoadNext, CreateNext, SpawnNext, MoveNext, JoinNext;
    match a
    case Alone(v) => AloneAdvances(p, s, v);
    case Meeting(w, r, pipe) => MeetingAdvances(p, s, w, r, pipe);
  }

  lemma {:induction false} RunIsBounded(p: Plan, s: World, actions: seq<Action>)
    requires Sound(p) && Inv(p, s) && Perform(p.d, s, actions).Some?
    ensures |actions| + TotalLeft(p.d, Perform(p.d, s, actions).value.guests) <= TotalLeft(p.d, s.guests)
    decreases |actions|
  {
    hide Inv, Do, Sound, TotalLeft;
    if actions != [] {
      StepKeepsInv(p, s, actions[0]);
      StepAdvances(p, s, actions[0]);
      RunIsBounded(p, Do(p.d, s, actions[0]).value, actions[1..]);
    }
  }

  // ---- The end ----

  /** A VM exits after all VMs below it. */
  lemma {:induction false} GoneBelow(p: Plan, s: World, a: nat, v: nat)
    requires p.Made() && Inv(p, s) && v < |s.guests| && Anc(p.parent, a, v) && Gone(s, a)
    ensures Gone(s, v)
    decreases v
  {
    hide Planned, NamesOk, CreatedOk, TablesOk, OwnersOk, SyncOk;
    if a != v {
      var u := p.parent[v];
      GoneBelow(p, s, a, u);
      var k := SpawnPosition(p, v);
      KidsCover(p.d.spawns, u, |p.d.spawns|, k);
      assert JoinedOk(s, u);
    }
  }

  lemma AllGone(p: Plan, s: World, v: nat)
    requires p.Made() && Inv(p, s) && Gone(s, 0) && v < |s.guests|
    ensures Gone(s, v)
  {
    hide Inv, Planned;
    VmCount(p, s);
    RootIsAnc(p.parent, v);
    GoneBelow(p, s, 0, v);
  }

  lemma NothingHeld(p: Plan, s: World)
    requires p.Made() && Inv(p, s) && forall v | 0 <= v < |s.guests| :: Gone(s, v)
    ensures s.owner == map[]
  {
    hide Planned, CreatedOk, TablesOk, SyncOk, BirthsOk, KidsOk, Anc;
    if s.owner != map[] {
      var q: PipeId :| q in s.owner;
      HolderLives(p, s, q);
    }
  }

  lemma HolderLives(p: Plan, s: World, q: PipeId)
    requires p.Made() && Inv(p, s) && q in s.owner
    ensures s.owner[q] < |s.guests| && !Gone(s, s.owner[q])
  {
    hide Planned, CreatedOk, TablesOk, SyncOk, BirthsOk, KidsOk, Anc, JoinsOk;
    var x := s.names[q];
    assert NameOk(p, s, x);
    assert HeldOk(p, s, x);
  }

  /** A plan that fits always succeeds. However the VMs are interleaved, no program ever fails; while the root has
      not exited some VM can go on; no run is longer than a bound known from the start; and when the root has
      exited, every VM has, with all its writes and reads done, and no pipe end is left open. */
  lemma PlansSucceed(p: Plan, actions: seq<Action>)
    requires Sound(p) && Perform(p.d, Start(|p.parent|), actions).Some?
    ensures var s := Perform(p.d, Start(|p.parent|), actions).value;
            && |s.guests| == |p.parent|
            && (forall v | 0 <= v < |s.guests| :: !s.guests[v].phase.Died?)
            && |actions| <= TotalLeft(p.d, Start(|p.parent|).guests)
            && (!Gone(s, 0) ==> exists a :: Possible(p, s, a))
            && (Gone(s, 0) ==> s.owner == map[] && forall v | 0 <= v < |s.guests| :: Gone(s, v))
  {
    hide Inv, Perform, Planned, Fits, Do, TotalLeft;
    StartIsOk(p);
    RunKeepsInv(p, Start(|p.parent|), actions);
    RunIsBounded(p, Start(|p.parent|), actions);
    var s := Perform(p.d, Start(|p.parent|), actions).value;
    VmCount(p, s);
    if !Gone(s, 0) {
      var a := SomeoneGoesOn(p, s);
    } else {
      forall v | 0 <= v < |s.guests| ensures Gone(s, v) { AllGone(p, s, v); }
      NothingHeld(p, s);
    }
    forall v | 0 <= v < |s.guests| ensures !s.guests[v].phase.Died? { NobodyDied(p, s, v); }
  }

  lemma NobodyDied(p: Plan, s: World, v: nat)
    requires p.Made() && Inv(p, s) && v < |s.guests|
    ensures !s.guests[v].phase.Died?
  {
    assert PhaseOk(p.d, s.guests[v]);
  }
}
