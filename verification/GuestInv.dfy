/** What holds in every state that programs following a plan can reach, and what follows from it at once. */
module GuestInv {
  import opened Words
  import opened Types
  import opened Trees
  import opened Planner
  import opened PlanFacts
  import PlanCodec
  import opened Guests

  // ---- Capacities ----

  function PassedTo(p: Plan, v: nat): seq<nat>
    requires Choices(p.parent, p.edges)
  {
    if v == 0 then [] else Passed(p.parent, p.edges, v, |p.edges|)
  }

  function CreateCount(pipes: seq<PipeOp>, v: nat, n: nat): nat
    requires n <= |pipes|
  {
    if n == 0 then 0 else CreateCount(pipes, v, n - 1) + if pipes[n - 1].vm == v then 1 else 0
  }

  function Kids(spawns: seq<SpawnOp>, v: nat, n: nat): seq<nat>
    requires n <= |spawns|
  {
    if n == 0 then []
    else Kids(spawns, v, n - 1) + if spawns[n - 1].from == v then [spawns[n - 1].child] else []
  }

  /** The encoded plan fits into the input buffer, and no VM needs more pipe ends or children than the program has
      room for. */
  ghost predicate Fits(p: Plan)
    requires Choices(p.parent, p.edges)
  {
    && |PlanCodec.Witness(p.d)| <= PlanCodec.INPUT_DATA_LENGTH
    && RoomForAll(p)
  }

  ghost predicate RoomForAll(p: Plan)
    requires Choices(p.parent, p.edges)
  {
    forall v: nat | v < |p.parent| ::
      && |PassedTo(p, v)| + 2 * CreateCount(p.d.pipes, v, |p.d.pipes|) <= MAX_PIPE_COUNT
      && |Kids(p.d.spawns, v, |p.d.spawns|)| <= MAX_SPAWNED_VMS
  }

  ghost predicate Sound(p: Plan) {
    p.Made() && Fits(p)
  }

  // ---- Positions in the plan ----

  function CreatePos(d: Data, g: Guest): nat {
    match g.phase
    case Unborn => 0
    case Loading(_) => 0
    case Creating(i) => Min(i, |d.pipes|)
    case _ => |d.pipes|
  }

  function SpawnPos(d: Data, g: Guest): nat {
    match g.phase
    case Unborn => 0
    case Loading(_) => 0
    case Creating(_) => 0
    case Spawning(i) => Min(i, |d.spawns|)
    case _ => |d.spawns|
  }

  /** How many bytes of write `e` the guest is done with. */
  function Prog(d: Data, g: Guest, e: nat): nat
    requires e < |d.writes|
  {
    match g.phase
    case Moving(i, done) => if i == e then done else if i > e then |d.writes[e].data| else 0
    case Joining(_) => |d.writes[e].data|
    case Exited => |d.writes[e].data|
    case _ => 0
  }

  predicate Born(s: World, v: nat) {
    v < |s.guests| && !s.guests[v].phase.Unborn?
  }

  predicate Gone(s: World, v: nat) {
    v < |s.guests| && s.guests[v].phase.Exited?
  }

  // ---- The invariant ----

  ghost predicate PhaseOk(d: Data, g: Guest) {
    match g.phase
    case Unborn => g == UNBORN
    case Loading(_) => g.table == [] && g.spawned == []
    case Creating(i) => i <= |d.pipes|
    case Spawning(i) => i <= |d.spawns|
    case Moving(i, done) => i <= |d.writes| && (i < |d.writes| ==> done <= |d.writes[i].data|)
    case Joining(j) => j <= |g.spawned|
    case Exited => true
    case Died(_) => false
  }

  ghost predicate PhasesOk(p: Plan, s: World) {
    && |s.guests| == |p.parent| && |p.parent| > 0
    && (forall v | 0 <= v < |s.guests| :: PhaseOk(p.d, s.guests[v]))
    && Born(s, 0)
  }

  ghost predicate NameOk(p: Plan, s: World, x: nat)
    requires x in s.ids
  {
    && x < p.Ends()
    && s.ids[x] in s.names && s.names[s.ids[x]] == x
    && s.ids[x] < s.nextSlot && s.ids[x] % 2 == x % 2
    && OtherPipe(x) in s.ids && s.ids[OtherPipe(x)] == OtherPipe(s.ids[x])
  }

  /** Every planned pipe end that exists has its own id, read ends even ones and their partners the next. */
  ghost predicate NamesOk(p: Plan, s: World) {
    && 2 <= s.nextSlot && s.nextSlot % 2 == 0
    && (forall x: nat {:trigger NameOk(p, s, x)} | x in s.ids :: NameOk(p, s, x))
    && (forall q: PipeId | q in s.owner :: q in s.names && s.names[q] in s.ids && s.ids[s.names[q]] == q)
    && (forall q: PipeId | q in s.names :: q < s.nextSlot)
  }

  ghost predicate CreatedOk(p: Plan, s: World)
    requires p.Made()
  {
    forall k | 0 <= k < |p.d.pipes| && p.d.pipes[k].vm < |s.guests| ::
      p.d.pipes[k].readPipe in s.ids <==> CreatePos(p.d, s.guests[p.d.pipes[k].vm]) > k
  }

  predicate Listed(table: seq<(nat, PipeId)>, x: nat) {
    exists k | 0 <= k < |table| :: table[k].0 == x
  }

  ghost predicate TableOk(p: Plan, s: World, v: nat)
    requires p.Made() && v < |s.guests|
  {
    var g := s.guests[v];
    && (forall k | 0 <= k < |g.table| :: g.table[k].0 in s.ids && g.table[k].1 == s.ids[g.table[k].0])
    && (g.phase.Loading? ==>
          && |g.phase.passed| == |PassedTo(p, v)|
          && forall k | 0 <= k < |g.phase.passed| ::
               PassedTo(p, v)[k] in s.ids && g.phase.passed[k] == s.ids[PassedTo(p, v)[k]])
    && (Born(s, v) && !g.phase.Loading? ==>
          && |g.table| == |PassedTo(p, v)| + 2 * CreateCount(p.d.pipes, v, CreatePos(p.d, g))
          && forall x: nat | x in s.ids && x < p.Ends() && p.OnWay(x, v) :: Listed(g.table, x))
  }

  ghost predicate TablesOk(p: Plan, s: World)
    requires p.Made()
  {
    forall v | 0 <= v < |s.guests| :: TableOk(p, s, v)
  }

  ghost predicate BirthsOk(p: Plan, s: World) {
    forall k | 0 <= k < |p.d.spawns| && p.d.spawns[k].from < |s.guests| ::
      Born(s, p.d.spawns[k].child) <==> SpawnPos(p.d, s.guests[p.d.spawns[k].from]) > k
  }

  ghost predicate KidsOk(p: Plan, s: World) {
    forall v | 0 <= v < |s.guests| :: s.guests[v].spawned == Kids(p.d.spawns, v, SpawnPos(p.d, s.guests[v]))
  }

  /** Writer and reader of a write are always equally far with it. */
  ghost predicate SyncOk(p: Plan, s: World) {
    forall e | 0 <= e < |p.d.writes| && p.d.writes[e].from < |s.guests| && p.d.writes[e].to < |s.guests| ::
      Prog(p.d, s.guests[p.d.writes[e].from], e) == Prog(p.d, s.guests[p.d.writes[e].to], e)
  }

  /** A pipe end is held by the VM furthest down its way that exists, until its user has exited. */
  ghost predicate HeldOk(p: Plan, s: World, x: nat)
    requires p.Made() && x in s.ids && x < p.Ends()
  {
    if s.ids[x] in s.owner then
      var h := s.owner[s.ids[x]];
      && p.OnWay(x, h) && Born(s, h) && !Gone(s, h)
      && forall c: nat | p.OnWay(x, c) && Born(s, c) :: Anc(p.parent, c, h)
    else Gone(s, p.User(x))
  }

  ghost predicate OwnersOk(p: Plan, s: World)
    requires p.Made()
  {
    forall x: nat | x in s.ids && x < p.Ends() :: HeldOk(p, s, x)
  }

  ghost predicate JoinedOk(s: World, v: nat)
    requires v < |s.guests|
  {
    var g := s.guests[v];
    && (g.phase.Joining? ==>
          forall k | 0 <= k < |g.spawned| && |g.spawned| - g.phase.joined <= k :: Gone(s, g.spawned[k]))
    && (g.phase.Exited? ==> forall k | 0 <= k < |g.spawned| :: Gone(s, g.spawned[k]))
  }

  ghost predicate JoinsOk(s: World) {
    forall v | 0 <= v < |s.guests| :: JoinedOk(s, v)
  }

  /** Everything that does not concern the bytes. */
  ghost predicate TreeInv(p: Plan, s: World)
    requires p.Made()
  {
    && PhasesOk(p, s) && NamesOk(p, s) && CreatedOk(p, s) && TablesOk(p, s) && BirthsOk(p, s) && KidsOk(p, s)
    && OwnersOk(p, s) && JoinsOk(s)
  }

  ghost predicate Inv(p: Plan, s: World)
    requires p.Made()
  {
    TreeInv(p, s) && SyncOk(p, s)
  }

  lemma MadeTree(p: Plan)
    requires p.Made()
    ensures |p.parent| > 0 && |p.d.writes| == |p.edges|
  {
  }

  lemma StartIsOk(p: Plan)
    requires p.Made()
    ensures Inv(p, Start(|p.parent|))
  {
    hide Planned, Creator, Passed;
    var s := Start(|p.parent|);
    MadeTree(p);
    forall k | 0 <= k < |p.d.spawns| ensures p.d.spawns[k].child > 0 {
      PassedExactlyOnPath(p, k, 0);
    }
    assert forall v | 0 <= v < |s.guests| :: s.guests[v].table == [];
  }

  // ---- Consequences ----

  lemma {:induction false} BornAncestors(p: Plan, s: World, a: nat, v: nat)
    requires p.Made() && PhasesOk(p, s) && BirthsOk(p, s)
    requires v < |p.parent| && Born(s, v) && Anc(p.parent, a, v)
    ensures Born(s, a)
    ensures a != v ==> SpawnPos(p.d, s.guests[a]) > 0
    decreases v
  {
    if a != v {
      var k := SpawnPosition(p, v);
      assert SpawnPos(p.d, s.guests[p.parent[v]]) > k;
      BornAncestors(p, s, a, p.parent[v]);
    }
  }

  lemma PastCreating(d: Data, g: Guest)
    requires SpawnPos(d, g) > 0
    ensures CreatePos(d, g) == |d.pipes|
  {
  }

  /** The ends of a pipe exist once their creator is through with creating. */
  lemma EndExists(p: Plan, s: World, x: nat)
    requires p.Made() && PhasesOk(p, s) && NamesOk(p, s) && CreatedOk(p, s) && x < p.Ends()
    requires p.Top(x) < |s.guests| && CreatePos(p.d, s.guests[p.Top(x)]) == |p.d.pipes|
    ensures x in s.ids
  {
    hide Planned, Creator, CreatePos;
    var k := EndPosition(p, x);
    assert p.d.pipes[k].readPipe in s.ids;
    assert NameOk(p, s, p.d.pipes[k].readPipe);
  }

  lemma {:induction false} FindListed(table: seq<(nat, PipeId)>, ids: map<nat, PipeId>, x: nat)
    requires forall k | 0 <= k < |table| :: table[k].0 in ids && table[k].1 == ids[table[k].0]
    requires Listed(table, x)
    ensures x in ids && Find(table, x) == Some(ids[x])
  {
    if table[0].0 != x {
      var k :| 0 <= k < |table| && table[k].0 == x;
      assert table[1..][k - 1].0 == x;
      FindListed(table[1..], ids, x);
    }
  }

  /** A VM finds every end that lies on its way once the end exists. */
  lemma Finds(p: Plan, s: World, v: nat, x: nat)
    requires p.Made() && TablesOk(p, s) && v < |s.guests| && Born(s, v) && !s.guests[v].phase.Loading?
    requires x in s.ids && x < p.Ends() && p.OnWay(x, v)
    ensures Find(s.guests[v].table, x) == Some(s.ids[x])
  {
    assert TableOk(p, s, v);
    FindListed(s.guests[v].table, s.ids, x);
  }

  /** Once its user is alive, an end belongs to it. */
  lemma UserOwns(p: Plan, s: World, x: nat)
    requires p.Made() && OwnersOk(p, s) && x in s.ids && x < p.Ends()
    requires Born(s, p.User(x)) && !Gone(s, p.User(x))
    ensures s.ids[x] in s.owner && s.owner[s.ids[x]] == p.User(x)
  {
    hide Lca;
    assert HeldOk(p, s, x);
    TopIsAbove(p, x);
    var u := p.User(x);
    var h := s.owner[s.ids[x]];
    AncIsSmaller(p.parent, u, h);
    AncIsSmaller(p.parent, h, u);
  }
}
