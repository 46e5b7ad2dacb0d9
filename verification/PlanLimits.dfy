/** The exact condition for a plan to succeed: it does if and only if it fits into the buffers of the programs. */
module PlanLimits {
  import opened Words
  import opened Types
  import opened Trees
  import opened Planner
  import opened PlanFacts
  import PlanCodec
  import opened PlanSizes
  import opened Guests
  import opened GuestInv
  import opened GuestSteps
  import opened GuestRuns

  // ---- A plan that fits comes to its end ----

  /** Some interleaving leads from `s` to the exit of the root. */
  lemma {:induction false} RunsToItsEnd(p: Plan, s: World) returns (actions: seq<Action>)
    requires Sound(p) && Inv(p, s)
    ensures Perform(p.d, s, actions).Some? && Gone(Perform(p.d, s, actions).value, 0)
    decreases TotalLeft(p.d, s.guests)
  {
    hide Inv, Sound, Do, TotalLeft;
    if Gone(s, 0) {
      actions := [];
    } else {
      var a := SomeoneGoesOn(p, s);
      StepKeepsInv(p, s, a);
      StepAdvances(p, s, a);
      var rest := RunsToItsEnd(p, Do(p.d, s, a).value);
      actions := [a] + rest;
      assert actions[1..] == rest;
    }
  }

  // ---- A failure spreads up to the root ----

  function JoinedOf(phase: Phase): nat {
    if phase.Joining? then phase.joined else 0
  }

  predicate Late(phase: Phase) {
    phase.Spawning? || phase.Moving? || phase.Joining? || phase.Died?
  }

  /** `u` has spawned `c`, has not joined it, and has not exited. */
  ghost predicate Awaits(s: World, u: nat, c: nat) {
    && u < |s.guests| && Late(s.guests[u].phase)
    && exists k :: 0 <= k < |s.guests[u].spawned| - JoinedOf(s.guests[u].phase) && s.guests[u].spawned[k] == c
  }

  /** VM `v` has failed, and each VM on the way up to the root still waits for the one below. */
  ghost predicate DoomedAt(p: Plan, s: World, v: nat)
    requires Tree(p.parent)
  {
    && |s.guests| == |p.parent| && v < |s.guests| && s.guests[v].phase.Died?
    && forall c: nat | 0 < c && Anc(p.parent, c, v) :: c < |p.parent| && Awaits(s, p.parent[c], c)
  }

  ghost predicate Doomed(p: Plan, s: World)
    requires Tree(p.parent)
  {
    exists v: nat :: DoomedAt(p, s, v)
  }

  lemma DoomedNeverEnds(p: Plan, s: World)
    requires Tree(p.parent) && Doomed(p, s)
    ensures !Gone(s, 0)
  {
    var v: nat :| DoomedAt(p, s, v);
    if v > 0 {
      RootIsAnc(p.parent, v);
      var c := Toward(p.parent, 0, v);
      TowardIsBetween(p.parent, 0, v);
      assert Awaits(s, p.parent[c], c);
    }
  }

  lemma NotGone(p: Plan, s: World, v: nat, c: nat)
    requires Tree(p.parent) && DoomedAt(p, s, v) && Anc(p.parent, c, v)
    ensures !Gone(s, c)
  {
    if c != v {
      var b := Toward(p.parent, c, v);
      TowardIsBetween(p.parent, c, v);
      assert Awaits(s, p.parent[b], b);
    }
  }

  lemma OthersStay(d: Data, s: World, x: nat, u: nat)
    requires Do(d, s, Alone(x)).Some? && u < |s.guests| && u != x && !s.guests[u].phase.Unborn?
    ensures var s' := Do(d, s, Alone(x)).value; |s'.guests| == |s.guests| && s'.guests[u] == s.guests[u]
  {
    hide Find, Pick, OwnEntry, PlanCodec.LoadPlan, PlanCodec.Witness;
  }

  lemma MeetingChanges(d: Data, s: World, w: nat, r: nat, pipe: PipeId, u: nat)
    requires Meets(d, s, w, r, pipe) && u < |s.guests|
    ensures var s' := Exchange(d, s, w, r, pipe);
            && |s'.guests| == |s.guests|
            && s'.guests[u].spawned == s.guests[u].spawned && s'.guests[u].table == s.guests[u].table
            && (u != w && u != r ==> s'.guests[u] == s.guests[u])
            && (u == w || u == r ==>
                  s.guests[u].phase.Moving? && (s'.guests[u].phase.Moving? || s'.guests[u].phase.Died?))
  {
    hide MoveNext, Find;
  }

  /** One's own steps keep a VM waiting for a child that has not exited. */
  lemma OwnStepAwaits(d: Data, s: World, u: nat, c: nat)
    requires Do(d, s, Alone(u)).Some? && Awaits(s, u, c) && c < |s.guests| && !Gone(s, c)
    ensures Awaits(Do(d, s, Alone(u)).value, u, c)
  {
    hide Find, Pick, OwnEntry, PlanCodec.LoadPlan, PlanCodec.Witness, Hand;
    var g, s' := s.guests[u], Do(d, s, Alone(u)).value;
    var k :| 0 <= k < |g.spawned| - JoinedOf(g.phase) && g.spawned[k] == c;
    if g.phase.Joining? {
      assert k <= |g.spawned| - 1 - g.phase.joined;
    }
    assert s'.guests[u].spawned[k] == c;
  }

  lemma AwaitsStays(d: Data, s: World, a: Action, u: nat, c: nat)
    requires Do(d, s, a).Some? && Awaits(s, u, c) && c < |s.guests| && !Gone(s, c)
    ensures Awaits(Do(d, s, a).value, u, c)
  {
    hide Do, Exchange, Meets;
    ActionKinds(d, s, a);
    match a
    case Alone(x) => if x == u { OwnStepAwaits(d, s, u, c); } else { OthersStay(d, s, x, u); }
    case Meeting(w, r, pipe) => MeetingChanges(d, s, w, r, pipe, u);
  }

  lemma ActionKinds(d: Data, s: World, a: Action)
    requires Do(d, s, a).Some?
    ensures a.Meeting? ==> Meets(d, s, a.w, a.r, a.p) && Do(d, s, a) == Some(Exchange(d, s, a.w, a.r, a.p))
    ensures a.Alone? ==> a.v < |s.guests| && !s.guests[a.v].phase.Died? && !s.guests[a.v].phase.Unborn?
  {
    hide Meets, Exchange;
  }

  lemma DiedStays(d: Data, s: World, a: Action, v: nat)
    requires Do(d, s, a).Some? && v < |s.guests| && s.guests[v].phase.Died?
    ensures var s' := Do(d, s, a).value; |s'.guests| == |s.guests| && s'.guests[v].phase.Died?
  {
    hide Do, Exchange, Meets;
    ActionKinds(d, s, a);
    match a
    case Alone(x) => OthersStay(d, s, x, v);
    case Meeting(w, r, pipe) => MeetingChanges(d, s, w, r, pipe, v);
  }

  lemma DoomStays(p: Plan, s: World, a: Action)
    requires Tree(p.parent) && Doomed(p, s) && Do(p.d, s, a).Some?
    ensures Doomed(p, Do(p.d, s, a).value)
  {
    hide Do, Awaits;
    var v: nat :| DoomedAt(p, s, v);
    var s' := Do(p.d, s, a).value;
    DiedStays(p.d, s, a, v);
    forall c: nat | 0 < c && Anc(p.parent, c, v) ensures c < |p.parent| && Awaits(s', p.parent[c], c) {
      NotGone(p, s, v, c);
      AwaitsStays(p.d, s, a, p.parent[c], c);
    }
    assert DoomedAt(p, s', v);
  }

  lemma DeathAwaits(p: Plan, s: World, v: nat, c: nat)
    requires p.Made() && Inv(p, s) && v < |s.guests| && Born(s, v) && !Gone(s, v)
    requires 0 < c && Anc(p.parent, c, v)
    ensures c < |p.parent| && p.parent[c] < v && Awaits(s, p.parent[c], c)
  {
    hide Planned, NamesOk, CreatedOk, TablesOk, OwnersOk, SyncOk;
    AncIsSmaller(p.parent, c, v);
    var u := p.parent[c];
    assert Anc(p.parent, u, c);
    AncTrans(p.parent, u, c, v);
    BornAncestors(p, s, c, v);
    BornAncestors(p, s, u, v);
    if Gone(s, u) { GoneBelow(p, s, u, v); }
    if Gone(s, c) { GoneBelow(p, s, c, v); }
    var k := SpawnPosition(p, c);
    KidsCover(p.d.spawns, u, SpawnPos(p.d, s.guests[u]), k);
    var g := s.guests[u];
    var i :| 0 <= i < |g.spawned| && g.spawned[i] == c;
    assert JoinedOk(s, u) && PhaseOk(p.d, g);
  }

  /** From a regular state, the failure of one VM dooms the run. */
  lemma DeathDooms(p: Plan, s: World, s': World, v: nat)
    requires p.Made() && Inv(p, s) && v < |s.guests| && Born(s, v) && !Gone(s, v)
    requires |s'.guests| == |s.guests| && s'.guests[v].phase.Died?
    requires forall u | 0 <= u < |s.guests| && u != v :: s'.guests[u] == s.guests[u]
    ensures Doomed(p, s')
  {
    hide Planned, Inv;
    VmCount(p, s);
    forall c: nat | 0 < c && Anc(p.parent, c, v) ensures c < |p.parent| && Awaits(s', p.parent[c], c) {
      DeathAwaits(p, s, v, c);
    }
    assert DoomedAt(p, s', v);
  }

  // ---- Up to a failure everything is within the limits ----

  ghost predicate VmWithin(p: Plan, s: World, v: nat)
    requires v < |s.guests|
  {
    var g := s.guests[v];
    && |g.table| <= MAX_PIPE_COUNT && |g.spawned| <= MAX_SPAWNED_VMS
    && (!g.phase.Unborn? && !g.phase.Loading? ==> |PlanCodec.Witness(p.d)| <= PlanCodec.INPUT_DATA_LENGTH)
  }

  ghost predicate Within(p: Plan, s: World) {
    forall v | 0 <= v < |s.guests| :: VmWithin(p, s, v)
  }

  ghost predicate Regular(p: Plan, s: World)
    requires p.Made()
  {
    Inv(p, s) && Within(p, s)
  }

  lemma WithinAfter(p: Plan, s: World, s': World, v: nat)
    requires Within(p, s) && v < |s.guests| && |s'.guests| == |s.guests| && VmWithin(p, s', v)
    requires forall u | 0 <= u < |s.guests| && u != v :: s'.guests[u] == s.guests[u]
    ensures Within(p, s')
  {
    forall u | 0 <= u < |s'.guests| ensures VmWithin(p, s', u) { assert VmWithin(p, s, u); }
  }

  lemma LoadOrDoom(p: Plan, s: World, v: nat)
    requires p.Made() && Regular(p, s) && v < |s.guests| && s.guests[v].phase.Loading?
    ensures var s' := LoadNext(p.d, s, v); Regular(p, s') || Doomed(p, s')
  {
    hide Planned, Inv, Doomed, PlanCodec.LoadPlan, PlanCodec.Witness, PassedTo;
    var s' := LoadNext(p.d, s, v);
    LoadsIfItFits(p);
    VmCount(p, s);
    assert VmWithin(p, s, v);
    if |PlanCodec.Witness(p.d)| > PlanCodec.INPUT_DATA_LENGTH {
      DeathDooms(p, s, s', v);
    } else if |PassedTo(p, v)| > MAX_PIPE_COUNT {
      StartsTooLarge(p, s, v);
      DeathDooms(p, s, s', v);
    } else {
      StartsAsPlanned(p, s, v);
      LoadedKeepsInv(p, s, v);
      assert s' == Loaded(p, s, v);
      WithinAfter(p, s, s', v);
    }
  }

  lemma StartsTooLarge(p: Plan, s: World, v: nat)
    requires p.Made() && Inv(p, s) && v < |s.guests| && s.guests[v].phase.Loading?
    requires |PassedTo(p, v)| > MAX_PIPE_COUNT
    ensures Started(p.d, v, s.guests[v].phase.passed).phase.Died?
  {
    hide Planned, Creator, Passed, NamesOk, CreatedOk, BirthsOk, KidsOk, JoinsOk, SyncOk, OwnersOk, Anc, Kids;
    assert TableOk(p, s, v);
    var k := SpawnPosition(p, v);
    OwnEntryFinds(p.d.spawns, k);
    PipesOfChild(p, k);
  }

  lemma CreateOrDoom(p: Plan, s: World, v: nat)
    requires p.Made() && Regular(p, s) && v < |s.guests| && s.guests[v].phase.Creating?
    ensures var s' := CreateNext(p.d, s, v); Regular(p, s') || Doomed(p, s')
  {
    hide Planned, Inv, Doomed, PlanCodec.Witness;
    var s' := CreateNext(p.d, s, v);
    VmCount(p, s);
    assert VmWithin(p, s, v);
    var i := s.guests[v].phase.next;
    if i >= |p.d.pipes| || p.d.pipes[i].vm != v {
      SkipCreating(p, s, v);
      WithinAfter(p, s, s', v);
    } else if |s.guests[v].table| + 2 > MAX_PIPE_COUNT {
      DeathDooms(p, s, s', v);
    } else {
      CreateWithRoom(p, s, v);
      WithinAfter(p, s, s', v);
    }
  }

  lemma {:induction false} PickTooMany(table: seq<(nat, PipeId)>, ids: map<nat, PipeId>, indices: seq<nat>, used: nat)
    requires forall x | x in indices :: x in ids && Find(table, x) == Some(ids[x])
    requires used <= MAX_PIPE_COUNT < used + |indices|
    ensures Pick(table, indices, used).Unable?
  {
    hide Find;
    assert indices[0] in indices;
    if used < MAX_PIPE_COUNT {
      assert forall x | x in indices[1..] :: x in indices;
      PickTooMany(table, ids, indices[1..], used + 1);
    }
  }

  lemma SpawnTooMany(p: Plan, s: World, v: nat, c: nat)
    requires p.Made() && Inv(p, s) && AboutToSpawn(p, s, v, c)
    requires |s.guests[v].spawned| < MAX_SPAWNED_VMS && c < |s.guests| && |PassedTo(p, c)| > MAX_PIPE_COUNT
    ensures exists code :: SpawnNext(p.d, s, v) == Die(s, v, code)
  {
    hide Planned, Inv, Anc, Creator, Passed;
    var op := p.d.spawns[s.guests[v].phase.next];
    NewChild(p, s, v, c);
    PipesOfChild(p, s.guests[v].phase.next);
    forall x | x in op.pipes ensures x in s.ids && Find(s.guests[v].table, x) == Some(s.ids[x]) {
      HoldsPassed(p, s, v, c, x);
    }
    PickTooMany(s.guests[v].table, s.ids, op.pipes, 0);
    var code := Pick(s.guests[v].table, op.pipes, 0).code;
    assert SpawnNext(p.d, s, v) == Die(s, v, code);
  }

  lemma SpawnOrDoom(p: Plan, s: World, v: nat)
    requires p.Made() && Regular(p, s) && v < |s.guests| && s.guests[v].phase.Spawning?
    ensures var s' := SpawnNext(p.d, s, v); Regular(p, s') || Doomed(p, s')
  {
    hide Planned, Inv, Doomed, PlanCodec.Witness, SpawnChild, PassedTo, Handed;
    var s' := SpawnNext(p.d, s, v);
    VmCount(p, s);
    assert VmWithin(p, s, v);
    var i := s.guests[v].phase.next;
    if i >= |p.d.spawns| || p.d.spawns[i].from != v {
      SkipSpawning(p, s, v);
      WithinAfter(p, s, s', v);
    } else {
      var c := p.d.spawns[i].child;
      NewChild(p, s, v, c);
      if |s.guests[v].spawned| >= MAX_SPAWNED_VMS {
        FullSpawn(p, s, v);
        DeathDooms(p, s, s', v);
      } else if |PassedTo(p, c)| > MAX_PIPE_COUNT {
        SpawnTooMany(p, s, v, c);
        DeathDooms(p, s, s', v);
      } else {
        var ids := SpawnStep(p, s, v, c);
        HandedWithin(p, s, v, c, ids);
      }
    }
  }

  lemma FullSpawn(p: Plan, s: World, v: nat)
    requires v < |s.guests| && s.guests[v].phase.Spawning? && s.guests[v].phase.next < |p.d.spawns|
    requires p.d.spawns[s.guests[v].phase.next].from == v && |s.guests[v].spawned| >= MAX_SPAWNED_VMS
    ensures SpawnNext(p.d, s, v) == Die(s, v, ERROR_TOO_MANY_SPAWNS)
  {
  }

  lemma HandedWithin(p: Plan, s: World, v: nat, c: nat, ids: seq<PipeId>)
    requires p.Made() && Within(p, s) && PassedIds(p, s, v, c, ids) && c < |s.guests| && v != c
    requires |s.guests[v].spawned| < MAX_SPAWNED_VMS && s.guests[c] == UNBORN
    ensures Within(p, Handed(p, s, v, c, ids))
  {
    hide Planned, PlanCodec.Witness;
    var s' := Handed(p, s, v, c, ids);
    forall u | 0 <= u < |s'.guests| ensures VmWithin(p, s', u) {
      assert VmWithin(p, s, u);
    }
  }

  lemma MoveKeepsRegular(p: Plan, s: World, v: nat)
    requires p.Made() && Regular(p, s) && v < |s.guests| && s.guests[v].phase.Moving? && MoveNext(p.d, s, v).Some?
    ensures Regular(p, MoveNext(p.d, s, v).value)
  {
    hide Planned, Inv, PlanCodec.Witness, Find;
    assert VmWithin(p, s, v);
    var i, done := s.guests[v].phase.next, s.guests[v].phase.done;
    if i < |p.d.writes| && Needed(p.d.writes[i], v).Some? && done < |p.d.writes[i].data| {
      WaitsProperly(p, s, v);
    } else {
      MoveOn(p, s, v);
      WithinAfter(p, s, MoveNext(p.d, s, v).value, v);
    }
  }

  lemma JoinKeepsRegular(p: Plan, s: World, v: nat)
    requires p.Made() && Regular(p, s) && v < |s.guests| && s.guests[v].phase.Joining? && JoinNext(s, v).Some?
    ensures Regular(p, JoinNext(s, v).value)
  {
    hide Planned, NamesOk, CreatedOk, TablesOk, BirthsOk, OwnersOk, SyncOk, JoinsOk, Passed, PassedTo, Creator,
         PlanCodec.Witness;
    assert VmWithin(p, s, v);
    var g := s.guests[v];
    if g.phase.joined >= |g.spawned| {
      ExitStep(p, s, v);
    } else {
      var child := g.spawned[|g.spawned| - 1 - g.phase.joined];
      KidFacts(p, s, v, child);
      assert PhaseOk(p.d, s.guests[child]);
      JoinOn(p, s, v);
    }
    WithinAfter(p, s, JoinNext(s, v).value, v);
  }

  lemma MeetKeepsRegular(p: Plan, s: World, w: nat, r: nat, pipe: PipeId)
    requires p.Made() && Regular(p, s) && Meets(p.d, s, w, r, pipe)
    ensures Regular(p, Exchange(p.d, s, w, r, pipe))
  {
    hide Planned, Inv, Meets, Exchange, PlanCodec.Witness;
    MeetStep(p, s, w, r, pipe);
    var s' := Exchange(p.d, s, w, r, pipe);
    assert |s'.guests| == |s.guests| by { VmCount(p, s); VmCount(p, s'); }
    forall u | 0 <= u < |s'.guests| ensures VmWithin(p, s', u) {
      assert VmWithin(p, s, u);
      MeetingChanges(p.d, s, w, r, pipe, u);
    }
  }

  /** Each step of a plan, whether it fits or not, leads to a regular state or to a doomed one. */
  lemma StepOrDoom(p: Plan, s: World, a: Action)
    requires p.Made() && Regular(p, s) && Do(p.d, s, a).Some?
    ensures var s' := Do(p.d, s, a).value; Regular(p, s') || Doomed(p, s')
  {
    hide Planned, Regular, Doomed, Meets, Exchange, LoadNext, CreateNext, SpawnNext, MoveNext, JoinNext;
    match a
    case Meeting(w, r, pipe) => MeetKeepsRegular(p, s, w, r, pipe);
    case Alone(v) =>
      match s.guests[v].phase
      case Loading(_) => LoadOrDoom(p, s, v);
      case Creating(_) => CreateOrDoom(p, s, v);
      case Spawning(_) => SpawnOrDoom(p, s, v);
      case Moving(_, _) => MoveKeepsRegular(p, s, v);
      case Joining(_) => JoinKeepsRegular(p, s, v);
  }

  lemma {:induction false} RunOrDoom(p: Plan, s: World, actions: seq<Action>)
    requires p.Made() && (Regular(p, s) || Doomed(p, s)) && Perform(p.d, s, actions).Some?
    ensures var s' := Perform(p.d, s, actions).value; Regular(p, s') || Doomed(p, s')
    decreases |actions|
  {
    hide Regular, Doomed, Do, Planned;
    if actions != [] {
      if Regular(p, s) { StepOrDoom(p, s, actions[0]); } else { DoomStays(p, s, actions[0]); }
      RunOrDoom(p, Do(p.d, s, actions[0]).value, actions[1..]);
    }
  }

  lemma EndedFits(p: Plan, s: World)
    requires p.Made() && Regular(p, s) && Gone(s, 0)
    ensures Fits(p)
  {
    hide Planned, NamesOk, CreatedOk, BirthsOk, SyncOk, OwnersOk, JoinsOk, PlanCodec.Witness;
    hide PassedTo, CreateCount, Kids;
    assert VmWithin(p, s, 0);
    forall v: nat | v < |p.parent|
      ensures |PassedTo(p, v)| + 2 * CreateCount(p.d.pipes, v, |p.d.pipes|) <= MAX_PIPE_COUNT
      ensures |Kids(p.d.spawns, v, |p.d.spawns|)| <= MAX_SPAWNED_VMS
    {
      AllGone(p, s, v);
      assert VmWithin(p, s, v) && TableOk(p, s, v);
    }
  }

  lemma StartIsWithin(p: Plan)
    ensures Within(p, Start(|p.parent|))
  {
    hide PlanCodec.Witness;
  }

  /** A plan that was made can be carried out to the exit of the root if and only if it fits: the encoded plan into
      the input buffer, and for each VM the pipe ends and children it has to do with into its tables. */
  lemma SucceedsIffItFits(p: Plan)
    requires p.Made()
    ensures Fits(p) <==> exists actions ::
              Perform(p.d, Start(|p.parent|), actions).Some? && Gone(Perform(p.d, Start(|p.parent|), actions).value, 0)
  {
    hide Planned, Inv, Fits, Perform, Within, Doomed;
    var start := Start(|p.parent|);
    StartIsOk(p);
    StartIsWithin(p);
    if Fits(p) {
      var actions := RunsToItsEnd(p, start);
    }
    forall actions | Perform(p.d, start, actions).Some? && Gone(Perform(p.d, start, actions).value, 0)
      ensures Fits(p)
    {
      RunOrDoom(p, start, actions);
      var s := Perform(p.d, start, actions).value;
      if Doomed(p, s) { DoomedNeverEnds(p, s); }
      EndedFits(p, s);
    }
  }
}
