/** Every step of every VM keeps the invariant. */
module GuestSteps {
  import opened Words
  import opened Types
  import opened Trees
  import opened Planner
  import opened PlanFacts
  import PlanCodec
  import opened PlanSizes
  import opened Guests
  import opened GuestInv

  // ---- Steps that only move one VM on ----

  predicate Active(phase: Phase) {
    phase.Creating? || phase.Spawning? || phase.Moving? || phase.Joining?
  }

  /** Moving on from `g` to `g'` passes no pipe or child of the VM's own. */
  ghost predicate PassesNothing(d: Data, v: nat, g: Guest, g': Guest) {
    && (forall k | 0 <= k < |d.pipes| && d.pipes[k].vm == v :: CreatePos(d, g) > k <==> CreatePos(d, g') > k)
    && CreateCount(d.pipes, v, CreatePos(d, g)) == CreateCount(d.pipes, v, CreatePos(d, g'))
    && (forall k | 0 <= k < |d.spawns| && d.spawns[k].from == v :: SpawnPos(d, g) > k <==> SpawnPos(d, g') > k)
    && Kids(d.spawns, v, SpawnPos(d, g)) == Kids(d.spawns, v, SpawnPos(d, g'))
  }

  lemma TreeStep(p: Plan, s: World, v: nat, phase: Phase)
    requires p.Made() && TreeInv(p, s) && v < |s.guests| && Active(s.guests[v].phase) && Active(phase)
    requires PhaseOk(p.d, s.guests[v].(phase := phase))
    requires PassesNothing(p.d, v, s.guests[v], s.guests[v].(phase := phase))
    requires JoinedOk(SetPhase(s, v, phase), v)
    ensures TreeInv(p, SetPhase(s, v, phase))
  {
    hide Planned, Creator, Passed, PassedTo, Anc, CreatePos, SpawnPos, CreateCount, Kids, PhaseOk;
    var s' := SetPhase(s, v, phase);
    SameBorn(s, v, phase);
    assert NamesOk(p, s') by { PhaseKeepsNames(p, s, v, phase); }
    forall u | 0 <= u < |s.guests| ensures TableOk(p, s', u) { assert TableOk(p, s, u); }
    forall x: nat | x in s.ids && x < p.Ends() ensures HeldOk(p, s', x) { assert HeldOk(p, s, x); }
    forall u | 0 <= u < |s.guests| ensures JoinedOk(s', u) { assert JoinedOk(s, u); }
  }

  lemma PhaseStep(p: Plan, s: World, v: nat, phase: Phase)
    requires p.Made() && Inv(p, s) && v < |s.guests| && Active(s.guests[v].phase) && Active(phase)
    requires PhaseOk(p.d, s.guests[v].(phase := phase))
    requires PassesNothing(p.d, v, s.guests[v], s.guests[v].(phase := phase))
    requires forall e | 0 <= e < |p.d.writes| && Needed(p.d.writes[e], v).Some? ::
               Prog(p.d, s.guests[v], e) == Prog(p.d, s.guests[v].(phase := phase), e)
    requires JoinedOk(SetPhase(s, v, phase), v)
    ensures Inv(p, SetPhase(s, v, phase))
  {
    hide TreeInv, Planned, PhaseOk, PassesNothing, JoinedOk, Prog;
    TreeStep(p, s, v, phase);
  }

  lemma PhaseKeepsNames(p: Plan, s: World, v: nat, phase: Phase)
    requires NamesOk(p, s) && v < |s.guests|
    ensures NamesOk(p, SetPhase(s, v, phase))
  {
    var s' := SetPhase(s, v, phase);
    forall x: nat | x in s.ids ensures NameOk(p, s', x) { assert NameOk(p, s, x); }
  }

  lemma SameBorn(s: World, v: nat, phase: Phase)
    requires v < |s.guests| && Active(s.guests[v].phase) && Active(phase)
    ensures forall u: nat :: Born(SetPhase(s, v, phase), u) == Born(s, u)
    ensures forall u: nat :: Gone(SetPhase(s, v, phase), u) == Gone(s, u)
  {
  }

  lemma SkipCreating(p: Plan, s: World, v: nat)
    requires p.Made() && Inv(p, s) && v < |s.guests| && s.guests[v].phase.Creating?
    requires s.guests[v].phase.next < |p.d.pipes| ==> p.d.pipes[s.guests[v].phase.next].vm != v
    ensures Inv(p, CreateNext(p.d, s, v))
  {
    hide Planned, Creator, Passed, PassedTo, Anc, NamesOk, CreatedOk, TablesOk, BirthsOk, KidsOk, SyncOk, OwnersOk;
    var i := s.guests[v].phase.next;
    assert PhaseOk(p.d, s.guests[v]) && JoinedOk(s, v);
    PhaseStep(p, s, v, if i < |p.d.pipes| then Creating(i + 1) else Spawning(0));
  }

  lemma SkipSpawning(p: Plan, s: World, v: nat)
    requires p.Made() && Inv(p, s) && v < |s.guests| && s.guests[v].phase.Spawning?
    requires s.guests[v].phase.next < |p.d.spawns| ==> p.d.spawns[s.guests[v].phase.next].from != v
    ensures Inv(p, SpawnNext(p.d, s, v))
  {
    hide Planned, Creator, Passed, PassedTo, Anc, NamesOk, CreatedOk, TablesOk, BirthsOk, KidsOk, SyncOk, OwnersOk;
    var i := s.guests[v].phase.next;
    assert PhaseOk(p.d, s.guests[v]) && JoinedOk(s, v);
    PhaseStep(p, s, v, if i < |p.d.spawns| then Spawning(i + 1) else Moving(0, 0));
  }

  /** The current operation is another VM's, or done. */
  lemma MoveOn(p: Plan, s: World, v: nat)
    requires p.Made() && Inv(p, s) && v < |s.guests| && s.guests[v].phase.Moving?
    requires var i := s.guests[v].phase.next;
             i < |p.d.writes| ==> Needed(p.d.writes[i], v).None? || s.guests[v].phase.done >= |p.d.writes[i].data|
    ensures MoveNext(p.d, s, v).Some? && Inv(p, MoveNext(p.d, s, v).value)
  {
    hide Planned, Creator, Passed, PassedTo, Anc, NamesOk, CreatedOk, TablesOk, BirthsOk, KidsOk, SyncOk, OwnersOk;
    var i := s.guests[v].phase.next;
    assert PhaseOk(p.d, s.guests[v]) && JoinedOk(s, v);
    if i < |p.d.writes| && Needed(p.d.writes[i], v).Some? {
      WriteFacts(p, i);
      HasEnd(p, s, v, Needed(p.d.writes[i], v).value);
    }
    PhaseStep(p, s, v, if i < |p.d.writes| then Moving(i + 1, 0) else Joining(0));
  }

  lemma JoinOn(p: Plan, s: World, v: nat)
    requires p.Made() && Inv(p, s) && v < |s.guests| && s.guests[v].phase.Joining?
    requires s.guests[v].phase.joined < |s.guests[v].spawned|
    requires Gone(s, s.guests[v].spawned[|s.guests[v].spawned| - 1 - s.guests[v].phase.joined])
    ensures JoinNext(s, v).Some? && Inv(p, JoinNext(s, v).value)
  {
    hide Planned, Creator, Passed, PassedTo, Anc, NamesOk, CreatedOk, TablesOk, BirthsOk, KidsOk, SyncOk, OwnersOk;
    var j := s.guests[v].phase.joined;
    assert PhaseOk(p.d, s.guests[v]) && JoinedOk(s, v);
    PhaseStep(p, s, v, Joining(j + 1));
  }

  // ---- Waiting ----

  /** Where a VM has bytes left to transfer, its end and the other end of the pipe are in place: it does not fail
      but waits for its partner. */
  lemma WaitsProperly(p: Plan, s: World, v: nat)
    requires p.Made() && Inv(p, s) && v < |s.guests| && s.guests[v].phase.Moving?
    requires s.guests[v].phase.next < |p.d.writes| && Needed(p.d.writes[s.guests[v].phase.next], v).Some?
    requires s.guests[v].phase.done < |p.d.writes[s.guests[v].phase.next].data|
    ensures var i := s.guests[v].phase.next;
            var x := Needed(p.d.writes[i], v).value;
            && x < p.Ends() && x in s.ids && x / 2 == i && (x % 2 == 1 <==> p.d.writes[i].from == v)
            && WaitsOn(p.d, s, v, p.d.writes[i].from == v, s.ids[x])
            && s.guests[v].phase.done == Prog(p.d, s.guests[v], i)
  {
    hide Planned, Creator, Passed, PassedTo, CreatePos, SpawnPos, CreateCount, Kids, CreatedOk, TablesOk,
         BirthsOk, KidsOk, JoinsOk, Anc, OwnersOk;
    var i := s.guests[v].phase.next;
    var x := Needed(p.d.writes[i], v).value;
    WriteFacts(p, i);
    assert v == p.User(x);
    HasEnd(p, s, v, x);
    var y := OtherPipe(x);
    assert NameOk(p, s, x);
    UnheldIsDone(p, s, y);
  }

  lemma UnheldIsDone(p: Plan, s: World, x: nat)
    requires p.Made() && OwnersOk(p, s) && x in s.ids && x < p.Ends()
    ensures s.ids[x] in s.owner || Gone(s, p.User(x))
  {
    assert HeldOk(p, s, x);
  }

  /** A VM in its transfer phase knows and owns every end that is meant for it. */
  lemma HasEnd(p: Plan, s: World, v: nat, x: nat)
    requires p.Made() && Inv(p, s) && v < |s.guests| && s.guests[v].phase.Moving?
    requires x < p.Ends() && v == p.User(x)
    ensures x in s.ids && Find(s.guests[v].table, x) == Some(s.ids[x])
    ensures s.ids[x] in s.owner && s.owner[s.ids[x]] == v
  {
    hide Planned, Creator, Passed, PassedTo, SpawnPos, CreateCount, Kids, CreatedOk, TablesOk,
         KidsOk, JoinsOk, OwnersOk, SyncOk;
    TopIsAbove(p, x);
    BornAncestors(p, s, p.Top(x), v);
    if p.Top(x) != v { PastCreating(p.d, s.guests[p.Top(x)]); }
    EndExists(p, s, x);
    Finds(p, s, v, x);
    UserOwns(p, s, x);
  }

  // ---- A read meets its write ----

  /** The two sides of a meeting are at the same operation and equally far with it. */
  lemma MeetingAgrees(p: Plan, s: World, w: nat, r: nat, pipe: PipeId)
    requires p.Made() && Inv(p, s) && Meets(p.d, s, w, r, pipe)
    ensures w < |s.guests| && r < |s.guests| && s.guests[w].phase.Moving?
    ensures s.guests[w].phase == s.guests[r].phase
    ensures var i := s.guests[w].phase.next;
            && i < |p.d.writes| && p.d.writes[i].from == w && p.d.writes[i].to == r
            && s.guests[w].phase.done < |p.d.writes[i].data|
  {
    hide Planned, Prog, NamesOk, CreatedOk, TablesOk, BirthsOk, KidsOk, OwnersOk, JoinsOk;
    WaitsProperly(p, s, w);
    WaitsProperly(p, s, r);
    var i, j := s.guests[w].phase.next, s.guests[r].phase.next;
    SameOperation(p, s, i, j, pipe);
    WriteFacts(p, i);
  }

  lemma SameOperation(p: Plan, s: World, i: nat, j: nat, pipe: PipeId)
    requires NamesOk(p, s) && 2 * i + 1 in s.ids && 2 * j in s.ids
    requires s.ids[2 * j] == pipe && s.ids[2 * i + 1] == OtherPipe(pipe)
    ensures i == j
  {
    var x, y := 2 * j, 2 * i + 1;
    assert x % 2 == 0 && OtherPipe(x) == x + 1;
    assert NameOk(p, s, x) && NameOk(p, s, y);
    assert NameOk(p, s, x + 1);
  }

  /** A meeting moves all that is left, and the reader gets the bytes it expects. */
  lemma ExchangeCompletes(p: Plan, s: World, w: nat, r: nat, pipe: PipeId)
    requires p.Made() && Inv(p, s) && Meets(p.d, s, w, r, pipe)
    ensures var i := s.guests[w].phase.next;
            && i < |p.d.writes|
            && Exchange(p.d, s, w, r, pipe) ==
               SetPhase(SetPhase(s, w, Moving(i, |p.d.writes[i].data|)), r, Moving(i, |p.d.writes[i].data|))
  {
    hide Inv, Planned;
    MeetingAgrees(p, s, w, r, pipe);
  }

  lemma MeetStep(p: Plan, s: World, w: nat, r: nat, pipe: PipeId)
    requires p.Made() && Inv(p, s) && Meets(p.d, s, w, r, pipe)
    ensures Inv(p, Exchange(p.d, s, w, r, pipe))
  {
    hide Planned, NamesOk, CreatedOk, TablesOk, BirthsOk, KidsOk, OwnersOk, Meets, Exchange;
    MeetingAgrees(p, s, w, r, pipe);
    ExchangeCompletes(p, s, w, r, pipe);
    var i := s.guests[w].phase.next;
    var full := Moving(i, |p.d.writes[i].data|);
    assert Apart(p, w, r, i) by { WriteFacts(p, i); }
    TreeStep(p, s, w, full);
    TreeStep(p, SetPhase(s, w, full), r, full);
    var s' := SetPhase(SetPhase(s, w, full), r, full);
    forall e | 0 <= e < |p.d.writes| && p.d.writes[e].from < |s.guests| && p.d.writes[e].to < |s.guests|
      ensures Prog(p.d, s'.guests[p.d.writes[e].from], e) == Prog(p.d, s'.guests[p.d.writes[e].to], e)
    {
      assert Prog(p.d, s.guests[p.d.writes[e].from], e) == Prog(p.d, s.guests[p.d.writes[e].to], e);
    }
  }

  predicate Apart(p: Plan, w: nat, r: nat, i: nat) {
    i < |p.d.writes| && w != r && p.d.writes[i].from == w && p.d.writes[i].to == r
  }

  // ---- Exiting ----

  lemma KidsCover(spawns: seq<SpawnOp>, v: nat, n: nat, k: nat)
    requires k < n <= |spawns| && spawns[k].from == v
    ensures spawns[k].child in Kids(spawns, v, n)
    decreases n
  {
    if k < n - 1 { KidsCover(spawns, v, n - 1, k); }
  }

  /** The child of `a` on the way down to `x`. */
  function Toward(parent: seq<nat>, a: nat, x: nat): nat
    requires Tree(parent) && x < |parent| && Anc(parent, a, x) && a != x
    decreases x
  {
    if parent[x] == a then x else Toward(parent, a, parent[x])
  }

  lemma {:induction false} TowardIsBetween(parent: seq<nat>, a: nat, x: nat)
    requires Tree(parent) && x < |parent| && Anc(parent, a, x) && a != x
    ensures var c := Toward(parent, a, x); 0 < c < |parent| && parent[c] == a && Anc(parent, c, x) && Anc(parent, a, c)
    decreases x
  {
    if parent[x] != a { TowardIsBetween(parent, a, parent[x]); }
  }

  /** All children of a VM that is through with spawning are alive or gone, and it holds no end that is not its own. */
  lemma HoldsOnlyOwn(p: Plan, s: World, v: nat, x: nat)
    requires p.Made() && Inv(p, s) && v < |s.guests| && SpawnPos(p.d, s.guests[v]) == |p.d.spawns|
    requires x in s.ids && x < p.Ends() && s.ids[x] in s.owner && s.owner[s.ids[x]] == v
    requires !s.guests[v].phase.Unborn? && !s.guests[v].phase.Creating?
    ensures p.User(x) == v
  {
    hide Planned, Creator, Passed, PassedTo, CreateCount, Kids, CreatedOk, TablesOk, KidsOk, JoinsOk, SyncOk;
    assert HeldOk(p, s, x);
    TopIsAbove(p, x);
    var u := p.User(x);
    if u != v {
      var c := Toward(p.parent, v, u);
      TowardIsBetween(p.parent, v, u);
      var k := SpawnPosition(p, c);
      AncTrans(p.parent, p.Top(x), v, c);
      AncIsSmaller(p.parent, c, v);
    }
  }

  function Exiting(s: World, v: nat): World
    requires v < |s.guests|
  {
    SetPhase(s, v, Exited).(owner := map q | q in s.owner && s.owner[q] != v :: s.owner[q])
  }

  lemma ExitKeepsNames(p: Plan, s: World, v: nat)
    requires NamesOk(p, s) && v < |s.guests|
    ensures NamesOk(p, Exiting(s, v))
  {
    var s' := Exiting(s, v);
    forall x: nat | x in s.ids ensures NameOk(p, s', x) { assert NameOk(p, s, x); }
  }

  lemma ExitKeepsHeld(p: Plan, s: World, v: nat, x: nat)
    requires p.Made() && Inv(p, s) && v < |s.guests| && s.guests[v].phase.Joining?
    requires x in s.ids && x < p.Ends()
    ensures HeldOk(p, Exiting(s, v), x)
  {
    hide Planned, Creator, Passed, PassedTo, CreateCount, Kids, CreatedOk, TablesOk, KidsOk, JoinsOk, SyncOk,
         BirthsOk;
    assert HeldOk(p, s, x);
    if s.ids[x] in s.owner && s.owner[s.ids[x]] == v {
      HoldsOnlyOwn(p, s, v, x);
    }
    TopIsAbove(p, x);
  }

  lemma EndsAlike(d: Data, g: Guest)
    requires g.phase.Joining?
    ensures CreatePos(d, g.(phase := Exited)) == CreatePos(d, g) && SpawnPos(d, g.(phase := Exited)) == SpawnPos(d, g)
    ensures forall e | 0 <= e < |d.writes| :: Prog(d, g.(phase := Exited), e) == Prog(d, g, e)
  {
  }

  lemma ExitStep(p: Plan, s: World, v: nat)
    requires p.Made() && Inv(p, s) && v < |s.guests| && s.guests[v].phase.Joining?
    requires s.guests[v].phase.joined >= |s.guests[v].spawned|
    ensures JoinNext(s, v) == Some(Exiting(s, v)) && Inv(p, Exiting(s, v))
  {
    hide Planned, Creator, Passed, PassedTo, Anc, CreateCount, Kids, NamesOk, OwnersOk, CreatePos, SpawnPos, Prog;
    var s' := Exiting(s, v);
    EndsAlike(p.d, s.guests[v]);
    ExitKeepsNames(p, s, v);
    assert OwnersOk(p, s') by {
      forall x: nat | x in s.ids && x < p.Ends() ensures HeldOk(p, s', x) { ExitKeepsHeld(p, s, v, x); }
      OwnersFrom(p, s');
    }
    assert PhaseOk(p.d, s.guests[v]);
    forall u | 0 <= u < |s.guests| ensures TableOk(p, s', u) { assert TableOk(p, s, u); }
    forall u | 0 <= u < |s.guests| ensures JoinedOk(s', u) { assert JoinedOk(s, u); }
  }

  lemma OwnersFrom(p: Plan, s: World)
    requires p.Made() && forall x: nat | x in s.ids && x < p.Ends() :: HeldOk(p, s, x)
    ensures OwnersOk(p, s)
  {
  }

  // ---- Creating a pipe ----

  lemma CountGrows(pipes: seq<PipeOp>, v: nat, m: nat, n: nat)
    requires m <= n <= |pipes|
    ensures CreateCount(pipes, v, m) <= CreateCount(pipes, v, n)
    decreases n
  {
    if m < n { CountGrows(pipes, v, m, n - 1); }
  }

  /** VM `v` is about to create a pipe with the planned read end `x`. */
  ghost predicate AboutToCreate(p: Plan, s: World, v: nat, x: nat)
    requires p.Made()
  {
    && v < |s.guests| && s.guests[v].phase.Creating? && s.guests[v].phase.next < |p.d.pipes|
    && p.d.pipes[s.guests[v].phase.next] == PipeOp(v, x, x + 1)
  }

  function Opening(s: World, v: nat, i: nat, x: nat): World
    requires v < |s.guests|
  {
    var g := s.guests[v];
    World(s.guests[v := Guest(Creating(i + 1), g.table + [(x, s.nextSlot), (x + 1, s.nextSlot + 1)], g.spawned)],
          s.owner[s.nextSlot := v][s.nextSlot + 1 := v], s.nextSlot + 2,
          s.ids[x := s.nextSlot][x + 1 := s.nextSlot + 1], s.names[s.nextSlot := x][s.nextSlot + 1 := x + 1])
  }

  lemma PairedEnds(p: Plan, s: World, y: nat)
    requires NamesOk(p, s)
    ensures y in s.ids ==>
              OtherPipe(y) in s.ids && s.ids[y] < s.nextSlot && s.ids[y] in s.names && s.names[s.ids[y]] == y
  {
    if y in s.ids { assert NameOk(p, s, y); }
  }

  lemma NewEnds(p: Plan, s: World, v: nat, x: nat)
    requires p.Made() && Inv(p, s) && AboutToCreate(p, s, v, x)
    ensures x % 2 == 0 && x + 1 < p.Ends() && x !in s.ids && x + 1 !in s.ids
    ensures p.Top(x) == v && p.Top(x + 1) == v
    ensures forall c: nat | (p.OnWay(x, c) || p.OnWay(x + 1, c)) && Born(s, c) :: c == v
    ensures p.OnWay(x, v) && p.OnWay(x + 1, v)
  {
    hide Planned, Creator, Passed, PassedTo, CreateCount, Kids, TablesOk, KidsOk, JoinsOk, SyncOk, OwnersOk, Lca, Anc;
    var i := s.guests[v].phase.next;
    PipeOpFacts(p, i);
    assert (x + 1) / 2 == x / 2;
    TopIsAbove(p, x);
    TopIsAbove(p, x + 1);
    assert x !in s.ids;
    PairedEnds(p, s, x + 1);
    forall c: nat | (p.OnWay(x, c) || p.OnWay(x + 1, c)) && Born(s, c) ensures c == v {
      if c != v { BornAncestors(p, s, v, c); }
    }
  }

  lemma OpeningKeepsNames(p: Plan, s: World, v: nat, i: nat, x: nat)
    requires NamesOk(p, s) && v < |s.guests|
    requires x % 2 == 0 && x + 1 < p.Ends() && x !in s.ids && x + 1 !in s.ids
    ensures NamesOk(p, Opening(s, v, i, x))
  {
    hide NameOk;
    var s' := Opening(s, v, i, x);
    forall z: nat | z in s'.ids ensures NameOk(p, s', z) {
      if z in s.ids { OldName(p, s, v, i, x, z); } else { NewName(p, s, v, i, x, z); }
    }
    forall q: PipeId | q in s'.owner ensures q in s'.names && s'.names[q] in s'.ids && s'.ids[s'.names[q]] == q {
      OpenedOwner(p, s, v, i, x, q);
    }
  }

  lemma OldName(p: Plan, s: World, v: nat, i: nat, x: nat, z: nat)
    requires NamesOk(p, s) && v < |s.guests| && x !in s.ids && x + 1 !in s.ids && z in s.ids
    ensures NameOk(p, Opening(s, v, i, x), z)
  {
    assert NameOk(p, s, z);
    assert OtherPipe(z) != x && OtherPipe(z) != x + 1;
  }

  lemma NewName(p: Plan, s: World, v: nat, i: nat, x: nat, z: nat)
    requires NamesOk(p, s) && v < |s.guests| && x % 2 == 0 && x + 1 < p.Ends() && (z == x || z == x + 1)
    ensures NameOk(p, Opening(s, v, i, x), z)
  {
    assert OtherPipe(x) == x + 1 && OtherPipe(x + 1) == x;
    assert OtherPipe(s.nextSlot) == s.nextSlot + 1 && OtherPipe(s.nextSlot + 1) == s.nextSlot;
  }

  lemma OpenedOwner(p: Plan, s: World, v: nat, i: nat, x: nat, q: PipeId)
    requires NamesOk(p, s) && v < |s.guests| && x !in s.ids && x + 1 !in s.ids
    requires q in Opening(s, v, i, x).owner
    ensures var s' := Opening(s, v, i, x); q in s'.names && s'.names[q] in s'.ids && s'.ids[s'.names[q]] == q
  {
    if q in s.owner { assert NameOk(p, s, s.names[q]); }
  }

  lemma OpeningKeepsCreated(p: Plan, s: World, v: nat, x: nat)
    requires p.Made() && Inv(p, s) && AboutToCreate(p, s, v, x)
    ensures CreatedOk(p, Opening(s, v, s.guests[v].phase.next, x))
  {
    hide Planned, Creator, NamesOk, TablesOk, BirthsOk, KidsOk, JoinsOk, SyncOk, OwnersOk;
    var i := s.guests[v].phase.next;
    var s' := Opening(s, v, i, x);
    PipeOpFacts(p, i);
    forall k | 0 <= k < |p.d.pipes| && p.d.pipes[k].vm < |s.guests|
      ensures p.d.pipes[k].readPipe in s'.ids <==> CreatePos(p.d, s'.guests[p.d.pipes[k].vm]) > k
    {
      PipeOpFacts(p, k);
      assert p.d.pipes[k].readPipe % 2 == 0;
    }
  }

  lemma OpeningKeepsTable(p: Plan, s: World, v: nat, x: nat, u: nat)
    requires p.Made() && Inv(p, s) && AboutToCreate(p, s, v, x) && u < |s.guests|
    ensures TableOk(p, Opening(s, v, s.guests[v].phase.next, x), u)
  {
    hide Planned, Creator, Passed, PassedTo, Anc, NamesOk, CreatedOk, BirthsOk, KidsOk, JoinsOk, SyncOk, OwnersOk, Kids;
    NewEnds(p, s, v, x);
    var i := s.guests[v].phase.next;
    var s' := Opening(s, v, i, x);
    assert TableOk(p, s, u);
    var table, table' := s.guests[u].table, s'.guests[u].table;
    if Born(s, u) && !s.guests[u].phase.Loading? {
      forall z: nat | z in s'.ids && z < p.Ends() && p.OnWay(z, u) ensures Listed(table', z) {
        if z in s.ids {
          var k :| 0 <= k < |table| && table[k].0 == z;
          assert table'[k].0 == z;
        } else {
          assert u == v && (z == x || z == x + 1);
          assert table'[|table|].0 == x && table'[|table| + 1].0 == x + 1;
        }
      }
    }
  }

  lemma OpeningKeepsHeld(p: Plan, s: World, v: nat, x: nat, z: nat)
    requires p.Made() && Inv(p, s) && AboutToCreate(p, s, v, x)
    requires z in Opening(s, v, s.guests[v].phase.next, x).ids && z < p.Ends()
    ensures HeldOk(p, Opening(s, v, s.guests[v].phase.next, x), z)
  {
    hide Planned, Creator, Passed, PassedTo, CreatedOk, TablesOk, BirthsOk, KidsOk, JoinsOk, SyncOk, Kids;
    NewEnds(p, s, v, x);
    var s' := Opening(s, v, s.guests[v].phase.next, x);
    assert forall c: nat :: Born(s', c) == Born(s, c) && Gone(s', c) == Gone(s, c);
    if z in s.ids {
      PairedEnds(p, s, z);
      assert HeldOk(p, s, z);
      assert s'.ids[z] == s.ids[z];
    } else {
      assert s'.owner[s'.ids[z]] == v && p.OnWay(z, v);
      assert Anc(p.parent, v, v);
    }
  }

  lemma OpenStep(p: Plan, s: World, v: nat, x: nat)
    requires p.Made() && Inv(p, s) && AboutToCreate(p, s, v, x)
    ensures Inv(p, Opening(s, v, s.guests[v].phase.next, x))
  {
    hide Planned, Creator, Passed, PassedTo, Anc, CreateCount, Kids, NamesOk, CreatedOk, HeldOk, TableOk;
    var i := s.guests[v].phase.next;
    var s' := Opening(s, v, i, x);
    NewEnds(p, s, v, x);
    OpeningKeepsNames(p, s, v, i, x);
    OpeningKeepsCreated(p, s, v, x);
    forall u | 0 <= u < |s.guests| ensures TableOk(p, s', u) { OpeningKeepsTable(p, s, v, x, u); }
    forall z: nat | z in s'.ids && z < p.Ends() ensures HeldOk(p, s', z) { OpeningKeepsHeld(p, s, v, x, z); }
    forall u | 0 <= u < |s.guests| ensures JoinedOk(s', u) { assert JoinedOk(s, u); }
    assert PhaseOk(p.d, s.guests[v]);
  }

  /** With room for the new ends they are created. */
  lemma CreateWithRoom(p: Plan, s: World, v: nat)
    requires p.Made() && Inv(p, s) && v < |s.guests| && s.guests[v].phase.Creating?
    requires s.guests[v].phase.next < |p.d.pipes| && p.d.pipes[s.guests[v].phase.next].vm == v
    requires |s.guests[v].table| + 2 <= MAX_PIPE_COUNT
    ensures Inv(p, CreateNext(p.d, s, v))
  {
    hide Planned, Inv, Creator;
    var i := s.guests[v].phase.next;
    PipeOpFacts(p, i);
    var x := p.d.pipes[i].readPipe;
    OpenStep(p, s, v, x);
    assert Opening(s, v, i, x) == CreateNext(p.d, s, v);
  }

  /** There is room. */
  lemma CreateStep(p: Plan, s: World, v: nat)
    requires Sound(p) && Inv(p, s) && v < |s.guests| && s.guests[v].phase.Creating?
    requires s.guests[v].phase.next < |p.d.pipes| && p.d.pipes[s.guests[v].phase.next].vm == v
    ensures Inv(p, CreateNext(p.d, s, v))
  {
    hide Planned, Creator, Passed, PassedTo, Anc, Kids, NamesOk, CreatedOk, BirthsOk, KidsOk, JoinsOk, SyncOk, OwnersOk;
    var i := s.guests[v].phase.next;
    CountGrows(p.d.pipes, v, i + 1, |p.d.pipes|);
    assert TableOk(p, s, v);
    CreateWithRoom(p, s, v);
  }

  // ---- Spawning a child ----

  ghost predicate AboutToSpawn(p: Plan, s: World, v: nat, c: nat)
    requires p.Made()
  {
    && v < |s.guests| && s.guests[v].phase.Spawning? && s.guests[v].phase.next < |p.d.spawns|
    && p.d.spawns[s.guests[v].phase.next].from == v && p.d.spawns[s.guests[v].phase.next].child == c
  }

  lemma NewChild(p: Plan, s: World, v: nat, c: nat)
    requires p.Made() && Inv(p, s) && AboutToSpawn(p, s, v, c)
    ensures |s.guests| == |p.parent| && 0 < c < |s.guests| && p.parent[c] == v && v != c && s.guests[c] == UNBORN
    ensures forall x: nat :: x in p.d.spawns[s.guests[v].phase.next].pipes <==>
                             x < p.Ends() && p.OnWay(x, c) && c != p.Top(x)
  {
    hide Planned, Creator, NamesOk, CreatedOk, TablesOk, KidsOk, JoinsOk, SyncOk, OwnersOk, Anc;
    var i := s.guests[v].phase.next;
    forall x: nat ensures x in p.d.spawns[i].pipes <==> x < p.Ends() && p.OnWay(x, c) && c != p.Top(x) {
      PassedExactlyOnPath(p, i, x);
    }
    PassedExactlyOnPath(p, i, 0);
    assert PhaseOk(p.d, s.guests[c]);
  }

  /** The spawning VM knows and holds every end it is to pass on. */
  lemma HoldsPassed(p: Plan, s: World, v: nat, c: nat, x: nat)
    requires p.Made() && Inv(p, s) && AboutToSpawn(p, s, v, c)
    requires x < p.Ends() && p.OnWay(x, c) && c != p.Top(x)
    ensures x in s.ids && Find(s.guests[v].table, x) == Some(s.ids[x])
    ensures s.ids[x] in s.owner && s.owner[s.ids[x]] == v
  {
    hide Planned, Creator, NamesOk, CreatedOk, TablesOk, KidsOk, JoinsOk, SyncOk, OwnersOk;
    NewChild(p, s, v, c);
    TopIsAbove(p, x);
    BornAncestors(p, s, p.Top(x), v);
    if p.Top(x) != v { PastCreating(p.d, s.guests[p.Top(x)]); }
    EndExists(p, s, x);
    Finds(p, s, v, x);
    HolderIsParent(p, s, v, c, x);
  }

  lemma HolderIsParent(p: Plan, s: World, v: nat, c: nat, x: nat)
    requires p.Made() && PhasesOk(p, s) && BirthsOk(p, s) && OwnersOk(p, s)
    requires 0 < c < |s.guests| && p.parent[c] == v && Born(s, v) && !Born(s, c)
    requires x in s.ids && x < p.Ends() && p.OnWay(x, c) && p.OnWay(x, v)
    ensures s.ids[x] in s.owner && s.owner[s.ids[x]] == v
  {
    hide Planned, Creator;
    assert HeldOk(p, s, x);
    if Born(s, p.User(x)) {
      BornAncestors(p, s, c, p.User(x));
    } else {
      var h := s.owner[s.ids[x]];
      AncChain(p.parent, c, h, p.User(x));
      if Anc(p.parent, c, h) { BornAncestors(p, s, c, h); }
      AncIsSmaller(p.parent, v, h);
      if h != c { AncIsSmaller(p.parent, h, v); }
    }
  }

  lemma {:induction false} PickAll(table: seq<(nat, PipeId)>, ids: map<nat, PipeId>, indices: seq<nat>, used: nat)
    requires forall x | x in indices :: x in ids && Find(table, x) == Some(ids[x])
    requires used + |indices| <= MAX_PIPE_COUNT
    ensures var r := Pick(table, indices, used);
            && r.Picked? && |r.ids| == |indices|
            && forall k | 0 <= k < |indices| :: indices[k] in ids && r.ids[k] == ids[indices[k]]
  {
    hide Find;
    if indices != [] {
      assert indices[0] in indices;
      assert forall x | x in indices[1..] :: x in indices;
      PickAll(table, ids, indices[1..], used + 1);
      forall k | 0 <= k < |indices|
        ensures indices[k] in ids && Pick(table, indices, used).ids[k] == ids[indices[k]]
      {
        assert indices[k] in indices;
        if k > 0 { assert indices[1..][k - 1] == indices[k]; }
      }
    }
  }

  lemma {:induction false} OwnEntryFinds(spawns: seq<SpawnOp>, k: nat)
    requires k < |spawns| && forall j | 0 <= j < |spawns| && spawns[j].child == spawns[k].child :: j == k
    ensures OwnEntry(spawns, spawns[k].child) == Some(spawns[k])
  {
    if k > 0 {
      assert spawns[0].child != spawns[k].child;
      forall j | 0 <= j < |spawns| - 1 && spawns[1..][j].child == spawns[k].child ensures j == k - 1 {
        assert spawns[j + 1].child == spawns[k].child;
      }
      OwnEntryFinds(spawns[1..], k - 1);
    }
  }

  lemma KidsGrow(spawns: seq<SpawnOp>, v: nat, m: nat, n: nat)
    requires m <= n <= |spawns|
    ensures |Kids(spawns, v, m)| <= |Kids(spawns, v, n)|
    decreases n
  {
    if m < n { KidsGrow(spawns, v, m, n - 1); }
  }

  function Handing(s: World, v: nat, i: nat, c: nat, ids: seq<PipeId>): World
    requires v < |s.guests| && c < |s.guests|
  {
    var g := s.guests[v];
    s.(guests := s.guests[c := Guest(Loading(ids), [], [])]
                         [v := Guest(Spawning(i + 1), g.table, g.spawned + [c])],
       owner := Hand(s.owner, ids, c))
  }

  /** `ids` are the ids of the ends that the next spawn of `v` passes to `c`. */
  ghost predicate PassedIds(p: Plan, s: World, v: nat, c: nat, ids: seq<PipeId>)
    requires p.Made()
  {
    && AboutToSpawn(p, s, v, c)
    && var pipes := p.d.spawns[s.guests[v].phase.next].pipes;
    && |ids| == |pipes|
    && forall k | 0 <= k < |pipes| :: pipes[k] in s.ids && ids[k] == s.ids[pipes[k]]
  }

  function Handed(p: Plan, s: World, v: nat, c: nat, ids: seq<PipeId>): World
    requires p.Made() && PassedIds(p, s, v, c, ids) && c < |s.guests|
  {
    Handing(s, v, s.guests[v].phase.next, c, ids)
  }

  lemma HandedEnds(p: Plan, s: World, v: nat, c: nat, ids: seq<PipeId>, x: nat)
    requires p.Made() && Inv(p, s) && PassedIds(p, s, v, c, ids) && x in s.ids && x < p.Ends()
    ensures c < |s.guests|
    ensures s.ids[x] in ids <==> p.OnWay(x, c) && c != p.Top(x)
    ensures s.ids[x] in s.owner ==> Handed(p, s, v, c, ids).owner[s.ids[x]] ==
                                    if p.OnWay(x, c) && c != p.Top(x) then c else s.owner[s.ids[x]]
    ensures s.ids[x] in s.owner <==> s.ids[x] in Handed(p, s, v, c, ids).owner
  {
    hide Planned, Creator, CreatedOk, TablesOk, BirthsOk, KidsOk, JoinsOk, SyncOk, OwnersOk, PhasesOk, Anc;
    NewChild(p, s, v, c);
    PairedEnds(p, s, x);
    var pipes := p.d.spawns[s.guests[v].phase.next].pipes;
    if s.ids[x] in ids {
      var k :| 0 <= k < |ids| && ids[k] == s.ids[x];
      PairedEnds(p, s, pipes[k]);
      assert pipes[k] in pipes;
    }
    if x in pipes {
      var k :| 0 <= k < |pipes| && pipes[k] == x;
      assert ids[k] == s.ids[x];
    }
  }

  lemma HandedKeepsNames(p: Plan, s: World, v: nat, c: nat, ids: seq<PipeId>)
    requires p.Made() && NamesOk(p, s) && PassedIds(p, s, v, c, ids) && c < |s.guests|
    ensures NamesOk(p, Handed(p, s, v, c, ids))
  {
    hide Planned;
    var s' := Handed(p, s, v, c, ids);
    forall x: nat | x in s'.ids ensures NameOk(p, s', x) { assert NameOk(p, s, x); }
  }

  lemma HandedKeepsHeld(p: Plan, s: World, v: nat, c: nat, ids: seq<PipeId>, x: nat)
    requires p.Made() && Inv(p, s) && PassedIds(p, s, v, c, ids) && x in s.ids && x < p.Ends()
    ensures c < |s.guests| && HeldOk(p, Handed(p, s, v, c, ids), x)
  {
    hide Planned, Creator, CreatedOk, TablesOk, KidsOk, JoinsOk, SyncOk, OwnersOk, Handed;
    NewChild(p, s, v, c);
    HandedEnds(p, s, v, c, ids, x);
    var s' := Handed(p, s, v, c, ids);
    BornHanded(p, s, v, c, ids);
    assert HeldOk(p, s, x) by { HeldAt(p, s, x); }
    if p.OnWay(x, c) && c != p.Top(x) {
      HoldsPassed(p, s, v, c, x);
      forall b: nat | p.OnWay(x, b) && Born(s', b) ensures Anc(p.parent, b, c) {
        if b != c { assert Anc(p.parent, b, v); }
      }
    } else if p.OnWay(x, c) {
      assert false by { TopUnborn(p, s, c, x); }
    }
  }

  lemma HeldAt(p: Plan, s: World, x: nat)
    requires p.Made() && OwnersOk(p, s) && x in s.ids && x < p.Ends()
    ensures HeldOk(p, s, x)
  {
  }

  /** No end of a VM exists before it starts to create them. */
  lemma TopUnborn(p: Plan, s: World, c: nat, x: nat)
    requires p.Made() && CreatedOk(p, s) && NamesOk(p, s) && c < |s.guests| && CreatePos(p.d, s.guests[c]) == 0
    requires x < p.Ends() && p.Top(x) == c
    ensures x !in s.ids
  {
    hide Planned, Creator;
    var k := EndPosition(p, x);
    PairedEnds(p, s, x);
  }

  lemma BornHanded(p: Plan, s: World, v: nat, c: nat, ids: seq<PipeId>)
    requires p.Made() && PassedIds(p, s, v, c, ids) && c < |s.guests| && v != c && s.guests[c] == UNBORN
    ensures var s' := Handed(p, s, v, c, ids);
            && |s'.guests| == |s.guests| && s'.ids == s.ids
            && (forall u: nat :: Born(s', u) <==> Born(s, u) || u == c)
            && (forall u: nat :: Gone(s', u) <==> Gone(s, u))
  {
    hide Planned;
  }

  lemma HandedKeepsCreated(p: Plan, s: World, v: nat, c: nat, ids: seq<PipeId>)
    requires p.Made() && CreatedOk(p, s) && PassedIds(p, s, v, c, ids) && c < |s.guests| && s.guests[c] == UNBORN
    ensures CreatedOk(p, Handed(p, s, v, c, ids))
  {
    hide Planned;
  }

  lemma HandedKeepsBirths(p: Plan, s: World, v: nat, c: nat, ids: seq<PipeId>)
    requires p.Made() && Inv(p, s) && PassedIds(p, s, v, c, ids)
    ensures c < |s.guests| && BirthsOk(p, Handed(p, s, v, c, ids))
  {
    hide Planned, CreatedOk, NamesOk, TablesOk, KidsOk, JoinsOk, SyncOk, OwnersOk, Handed, PhasesOk;
    NewChild(p, s, v, c);
    var s' := Handed(p, s, v, c, ids);
    BornHanded(p, s, v, c, ids);
    SpawnPosHanded(p, s, v, c, ids);
    var i := SpawnPosition(p, c);
    assert p.d.spawns[s.guests[v].phase.next].child == c;
    forall k | 0 <= k < |p.d.spawns| && p.d.spawns[k].from < |s'.guests|
      ensures Born(s', p.d.spawns[k].child) <==> SpawnPos(p.d, s'.guests[p.d.spawns[k].from]) > k
    {
      assert p.d.spawns[k].child == c ==> k == i;
    }
  }

  lemma SpawnPosHanded(p: Plan, s: World, v: nat, c: nat, ids: seq<PipeId>)
    requires p.Made() && PassedIds(p, s, v, c, ids) && c < |s.guests| && v != c && s.guests[c] == UNBORN
    ensures var s' := Handed(p, s, v, c, ids);
            && |s'.guests| == |s.guests|
            && (forall u: nat | u < |s.guests| && u != v :: SpawnPos(p.d, s'.guests[u]) == SpawnPos(p.d, s.guests[u]))
            && SpawnPos(p.d, s.guests[v]) == s.guests[v].phase.next
            && SpawnPos(p.d, s'.guests[v]) == s.guests[v].phase.next + 1
  {
    hide Planned;
  }

  lemma HandedKeepsKids(p: Plan, s: World, v: nat, c: nat, ids: seq<PipeId>)
    requires p.Made() && KidsOk(p, s) && PassedIds(p, s, v, c, ids)
    requires c < |s.guests| && v != c && s.guests[c] == UNBORN
    ensures KidsOk(p, Handed(p, s, v, c, ids))
  {
    hide Planned;
    SpawnPosHanded(p, s, v, c, ids);
  }

  lemma HandedKeepsTable(p: Plan, s: World, v: nat, c: nat, ids: seq<PipeId>, u: nat)
    requires p.Made() && Inv(p, s) && PassedIds(p, s, v, c, ids) && u < |s.guests|
    ensures c < |s.guests| && TableOk(p, Handed(p, s, v, c, ids), u)
  {
    hide Planned, Creator, Passed, Anc, CreatedOk, NamesOk, BirthsOk, KidsOk, JoinsOk, SyncOk, OwnersOk;
    NewChild(p, s, v, c);
    var s' := Handed(p, s, v, c, ids);
    assert TableOk(p, s, u);
    if u == c { PipesOfChild(p, s.guests[v].phase.next); }
  }

  lemma PipesOfChild(p: Plan, k: nat)
    requires p.Made() && k < |p.d.spawns|
    ensures p.d.spawns[k].child > 0 && p.d.spawns[k].pipes == PassedTo(p, p.d.spawns[k].child)
  {
    assert p.order[k] in p.order;
  }

  lemma HandedKeepsRest(p: Plan, s: World, v: nat, c: nat, ids: seq<PipeId>)
    requires p.Made() && Inv(p, s) && PassedIds(p, s, v, c, ids)
    ensures c < |s.guests| && var s' := Handed(p, s, v, c, ids); PhasesOk(p, s') && SyncOk(p, s') && JoinsOk(s')
  {
    hide Planned, CreatedOk, NamesOk, TablesOk, KidsOk, BirthsOk, OwnersOk, Anc, Creator;
    NewChild(p, s, v, c);
    var s' := Handed(p, s, v, c, ids);
    BornHanded(p, s, v, c, ids);
    assert PhaseOk(p.d, s.guests[v]);
    forall u | 0 <= u < |s.guests| ensures PhaseOk(p.d, s'.guests[u]) { assert PhaseOk(p.d, s.guests[u]); }
    forall u | 0 <= u < |s.guests| ensures JoinedOk(s', u) { assert JoinedOk(s, u); }
  }

  lemma HandStep(p: Plan, s: World, v: nat, c: nat, ids: seq<PipeId>)
    requires p.Made() && Inv(p, s) && PassedIds(p, s, v, c, ids)
    ensures c < |s.guests| && Inv(p, Handed(p, s, v, c, ids))
  {
    hide Planned, Handed, HeldOk, TableOk, PhasesOk, SyncOk, JoinsOk, BirthsOk, KidsOk, CreatedOk, NamesOk;
    NewChild(p, s, v, c);
    BornHanded(p, s, v, c, ids);
    HandedKeepsNames(p, s, v, c, ids);
    HandedKeepsCreated(p, s, v, c, ids);
    HandedKeepsBirths(p, s, v, c, ids);
    HandedKeepsKids(p, s, v, c, ids);
    HandedKeepsRest(p, s, v, c, ids);
    var s' := Handed(p, s, v, c, ids);
    forall u | 0 <= u < |s'.guests| ensures TableOk(p, s', u) { HandedKeepsTable(p, s, v, c, ids, u); }
    forall x: nat | x in s'.ids && x < p.Ends() ensures HeldOk(p, s', x) { HandedKeepsHeld(p, s, v, c, ids, x); }
  }

  /** Every lookup succeeds and every end passed on is owned. */
  lemma SpawnStep(p: Plan, s: World, v: nat, c: nat) returns (ids: seq<PipeId>)
    requires p.Made() && Inv(p, s) && AboutToSpawn(p, s, v, c)
    requires |s.guests[v].spawned| < MAX_SPAWNED_VMS && |PassedTo(p, c)| <= MAX_PIPE_COUNT
    ensures PassedIds(p, s, v, c, ids) && v != c && c < |s.guests| && s.guests[c] == UNBORN
    ensures SpawnNext(p.d, s, v) == Handed(p, s, v, c, ids)
    ensures Inv(p, SpawnNext(p.d, s, v))
  {
    hide Planned, Inv, Anc, Creator, Passed;
    var i := s.guests[v].phase.next;
    var op := p.d.spawns[i];
    NewChild(p, s, v, c);
    PipesOfChild(p, i);
    forall x | x in op.pipes
      ensures x in s.ids && Find(s.guests[v].table, x) == Some(s.ids[x])
      ensures s.ids[x] in s.owner && s.owner[s.ids[x]] == v
    {
      HoldsPassed(p, s, v, c, x);
    }
    PickAll(s.guests[v].table, s.ids, op.pipes, 0);
    ids := Pick(s.guests[v].table, op.pipes, 0).ids;
    forall q | q in ids ensures q in s.owner && s.owner[q] == v {
      var k :| 0 <= k < |ids| && ids[k] == q;
      assert op.pipes[k] in op.pipes;
    }
    HandStep(p, s, v, c, ids);
    assert SpawnNext(p.d, s, v) == Handed(p, s, v, c, ids);
  }

  lemma RoomForChild(p: Plan, s: World, v: nat, c: nat)
    requires Sound(p) && Inv(p, s) && AboutToSpawn(p, s, v, c)
    ensures |s.guests[v].spawned| < MAX_SPAWNED_VMS && c < |s.guests| && |PassedTo(p, c)| <= MAX_PIPE_COUNT
  {
    hide Planned, Creator, NamesOk, CreatedOk, TablesOk, BirthsOk, OwnersOk, SyncOk, JoinsOk, PassedTo, Anc, Kids,
         RoomForAll, PlanCodec.Witness;
    NewChild(p, s, v, c);
    PassedFits(p, s, c);
    SpawnedSoFar(p, s, v);
    KidsFit(p, v);
    var i := s.guests[v].phase.next;
    KidsStep(p.d.spawns, v, i);
    KidsGrow(p.d.spawns, v, i + 1, |p.d.spawns|);
  }

  lemma SpawnedSoFar(p: Plan, s: World, v: nat)
    requires p.Made() && Inv(p, s) && v < |s.guests| && s.guests[v].phase.Spawning?
    ensures s.guests[v].phase.next <= |p.d.spawns|
    ensures s.guests[v].spawned == Kids(p.d.spawns, v, s.guests[v].phase.next)
  {
    hide Planned, NamesOk, CreatedOk, TablesOk, BirthsOk, OwnersOk, SyncOk, JoinsOk;
    assert PhaseOk(p.d, s.guests[v]);
  }

  lemma KidsStep(spawns: seq<SpawnOp>, v: nat, i: nat)
    requires i < |spawns| && spawns[i].from == v
    ensures |Kids(spawns, v, i + 1)| == |Kids(spawns, v, i)| + 1
  {
  }

  lemma KidsFit(p: Plan, v: nat)
    requires p.Made() && RoomForAll(p) && v < |p.parent|
    ensures |Kids(p.d.spawns, v, |p.d.spawns|)| <= MAX_SPAWNED_VMS
  {
    hide Planned;
  }

  // ---- Loading the plan ----

  /** The plan is there, and a spawned VM finds its own entry and the pipes that were passed to it. */
  lemma StartsAsPlanned(p: Plan, s: World, v: nat)
    requires p.Made() && Inv(p, s) && v < |s.guests| && s.guests[v].phase.Loading?
    requires |PassedTo(p, v)| <= MAX_PIPE_COUNT
    ensures var ids := s.guests[v].phase.passed;
            && |ids| == |PassedTo(p, v)|
            && Started(p.d, v, ids) == Guest(Creating(0), Zip(PassedTo(p, v), ids), [])
  {
    hide Planned, Creator, Passed, NamesOk, CreatedOk, BirthsOk, KidsOk, JoinsOk, SyncOk, OwnersOk, Anc, Kids;
    var ids := s.guests[v].phase.passed;
    assert TableOk(p, s, v);
    if v == 0 {
      assert Zip(PassedTo(p, v), ids) == [];
    } else {
      var k := SpawnPosition(p, v);
      OwnEntryFinds(p.d.spawns, k);
      PipesOfChild(p, k);
    }
  }

  /** The passed ends are all that lies on the way of `v` before it creates any itself. */
  lemma StartsWithAll(p: Plan, s: World, v: nat, x: nat)
    requires p.Made() && Inv(p, s) && v < |s.guests| && s.guests[v].phase.Loading?
    requires x in s.ids && x < p.Ends() && p.OnWay(x, v)
    ensures x in PassedTo(p, v)
  {
    hide Planned, Creator, Passed, TablesOk, BirthsOk, KidsOk, JoinsOk, SyncOk, OwnersOk, Anc;
    TopIsAbove(p, x);
    if p.Top(x) == v {
      TopUnborn(p, s, v, x);
    } else {
      var k := SpawnPosition(p, v);
      PipesOfChild(p, k);
      PassedExactlyOnPath(p, k, x);
    }
  }

  function Loaded(p: Plan, s: World, v: nat): World
    requires p.Made() && v < |s.guests| && s.guests[v].phase.Loading?
    requires |s.guests[v].phase.passed| == |PassedTo(p, v)|
  {
    s.(guests := s.guests[v := Guest(Creating(0), Zip(PassedTo(p, v), s.guests[v].phase.passed), [])])
  }

  lemma LoadedKeepsTable(p: Plan, s: World, v: nat, u: nat)
    requires p.Made() && Inv(p, s) && v < |s.guests| && u < |s.guests| && s.guests[v].phase.Loading?
    requires |s.guests[v].phase.passed| == |PassedTo(p, v)|
    ensures TableOk(p, Loaded(p, s, v), u)
  {
    hide Planned, Creator, Passed, PassedTo, Anc, NamesOk, CreatedOk, BirthsOk, KidsOk, JoinsOk, SyncOk, OwnersOk, Kids;
    var s' := Loaded(p, s, v);
    assert TableOk(p, s, u);
    if u == v {
      var table := s'.guests[v].table;
      forall x: nat | x in s.ids && x < p.Ends() && p.OnWay(x, v) ensures Listed(table, x) {
        StartsWithAll(p, s, v, x);
        var k :| 0 <= k < |PassedTo(p, v)| && PassedTo(p, v)[k] == x;
        assert table[k].0 == x;
      }
    }
  }

  lemma LoadedKeepsInv(p: Plan, s: World, v: nat)
    requires p.Made() && Inv(p, s) && v < |s.guests| && s.guests[v].phase.Loading?
    requires |s.guests[v].phase.passed| == |PassedTo(p, v)|
    ensures Inv(p, Loaded(p, s, v))
  {
    hide Planned, Creator, Passed, PassedTo, Anc, CreateCount, NamesOk, TableOk, HeldOk;
    var s' := Loaded(p, s, v);
    assert PhaseOk(p.d, s.guests[v]);
    assert NamesOk(p, s') by { SameNames(p, s, s'); }
    forall u | 0 <= u < |s.guests| ensures TableOk(p, s', u) { LoadedKeepsTable(p, s, v, u); }
    forall u: nat ensures Born(s', u) == Born(s, u) && Gone(s', u) == Gone(s, u) { }
    forall x: nat | x in s.ids && x < p.Ends() ensures HeldOk(p, s', x) { SameHeld(p, s, s', x); }
    forall u | 0 <= u < |s.guests| ensures JoinedOk(s', u) { assert JoinedOk(s, u); }
    forall u | 0 <= u < |s.guests| ensures PhaseOk(p.d, s'.guests[u]) { assert PhaseOk(p.d, s.guests[u]); }
  }

  lemma SameNames(p: Plan, s: World, s': World)
    requires NamesOk(p, s) && s'.owner == s.owner && s'.ids == s.ids && s'.names == s.names && s'.nextSlot == s.nextSlot
    ensures NamesOk(p, s')
  {
    forall x: nat | x in s.ids ensures NameOk(p, s', x) { assert NameOk(p, s, x); }
  }

  lemma SameHeld(p: Plan, s: World, s': World, x: nat)
    requires p.Made() && OwnersOk(p, s) && x in s.ids && x < p.Ends() && s'.owner == s.owner && s'.ids == s.ids
    requires forall u: nat :: Born(s', u) == Born(s, u) && Gone(s', u) == Gone(s, u)
    ensures HeldOk(p, s', x)
  {
    HeldAt(p, s, x);
  }

  lemma PassedFits(p: Plan, s: World, v: nat)
    requires Sound(p) && Inv(p, s) && v < |s.guests|
    ensures |PassedTo(p, v)| <= MAX_PIPE_COUNT
  {
    hide Planned;
  }

  /** The plan fits into the input buffer, so it is loaded. */
  lemma LoadStep(p: Plan, s: World, v: nat)
    requires Sound(p) && Inv(p, s) && v < |s.guests| && s.guests[v].phase.Loading?
    ensures Inv(p, LoadNext(p.d, s, v))
  {
    hide Planned, Inv, PlanCodec.LoadPlan, PlanCodec.Witness, RoomForAll, Started;
    LoadsIfItFits(p);
    PassedFits(p, s, v);
    StartsAsPlanned(p, s, v);
    LoadedKeepsInv(p, s, v);
  }
}
