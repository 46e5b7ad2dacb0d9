/** The programs that carry out a plan (test-contracts/main.c), one per VM, interleaved in any order. A VM is
    named by its index in the plan. Every syscall is one step; a read and the write it meets are one step of both. */
module Guests {
  import opened Words
  import opened Types
  import opened Planner
  import PlanCodec

  const MAX_PIPE_COUNT := 3200
  const MAX_SPAWNED_VMS := 1024

  const ERROR_NO_SPACE_FOR_PIPES := 43
  const ERROR_NOT_FOUND := 44
  const ERROR_ENCODING := 45
  const ERROR_ARGV := 46
  const ERROR_TOO_MANY_SPAWNS := 47
  const ERROR_PIPE_CLOSED := 48
  const ERROR_CORRUPTED_DATA := 49

  /** Where a program stands; `Died` if it returned an error or made the scheduler return one. While it loads the
      plan, the pipes it was passed are still in its arguments. */
  datatype Phase =
    | Unborn
    | Loading(passed: seq<PipeId>)
    | Creating(next: nat)
    | Spawning(next: nat)
    | Moving(next: nat, done: nat)
    | Joining(joined: nat)
    | Exited
    | Died(code: nat)

  /** `table` are the two parallel arrays of `pipes_t`: the planned index and the id of each known pipe end. */
  datatype Guest = Guest(phase: Phase, table: seq<(nat, PipeId)>, spawned: seq<nat>)

  /** `ids` and `names` record which id each planned pipe end was given. They are history: no step reads them. */
  datatype World = World(guests: seq<Guest>, owner: map<PipeId, nat>, nextSlot: PipeId,
                         ids: map<nat, PipeId>, names: map<PipeId, nat>)

  const UNBORN := Guest(Unborn, [], [])

  /** Only the root runs at first; it gets no pipes. */
  function Start(vms: nat): World {
    World(seq(vms, v => if v == 0 then Guest(Loading([]), [], []) else UNBORN), map[], FIRST_PIPE_SLOT, map[], map[])
  }

  /** `pipes_find`: the first entry with that index. */
  function Find(table: seq<(nat, PipeId)>, index: nat): Option<PipeId> {
    if table == [] then None
    else if table[0].0 == index then Some(table[0].1)
    else Find(table[1..], index)
  }

  datatype Picked = Picked(ids: seq<PipeId>) | Unable(code: nat)

  /** Looks up the pipes to pass on, one by one, into a table that already holds `used` entries. */
  function Pick(table: seq<(nat, PipeId)>, indices: seq<nat>, used: nat): Picked {
    if indices == [] then Picked([])
    else match Find(table, indices[0])
      case None => Unable(ERROR_NOT_FOUND)
      case Some(id) =>
        if used >= MAX_PIPE_COUNT then Unable(ERROR_NO_SPACE_FOR_PIPES)
        else match Pick(table, indices[1..], used + 1)
          case Unable(code) => Unable(code)
          case Picked(rest) => Picked([id] + rest)
  }

  function SetPhase(s: World, v: nat, phase: Phase): World
    requires v < |s.guests|
  {
    s.(guests := s.guests[v := s.guests[v].(phase := phase)])
  }

  /** A VM that comes to its end closes the pipe ends it still has. */
  function Leave(s: World, v: nat, phase: Phase): World
    requires v < |s.guests|
  {
    SetPhase(s, v, phase).(owner := map p | p in s.owner && s.owner[p] != v :: s.owner[p])
  }

  function Die(s: World, v: nat, code: nat): World
    requires v < |s.guests|
  {
    Leave(s, v, Died(code))
  }

  // ---- Creating pipes ----

  function CreateNext(d: Data, s: World, v: nat): World
    requires v < |s.guests| && s.guests[v].phase.Creating?
  {
    var g := s.guests[v];
    var i := g.phase.next;
    if i >= |d.pipes| then SetPhase(s, v, Spawning(0))
    else if d.pipes[i].vm != v then SetPhase(s, v, Creating(i + 1))
    else if |g.table| + 2 > MAX_PIPE_COUNT then Die(s, v, ERROR_NO_SPACE_FOR_PIPES)
    else
      var (r, w, slot) := CreatePipe(s.nextSlot);
      var (x, y) := (d.pipes[i].readPipe, d.pipes[i].writePipe);
      World(s.guests[v := Guest(Creating(i + 1), g.table + [(x, r), (y, w)], g.spawned)],
            s.owner[r := v][w := v], slot, s.ids[x := r][y := w], s.names[r := x][w := y])
  }

  // ---- Spawning ----

  /** The spawn entry a new VM finds for its own index. */
  function OwnEntry(spawns: seq<SpawnOp>, child: nat): Option<SpawnOp> {
    if spawns == [] then None
    else if spawns[0].child == child then Some(spawns[0])
    else OwnEntry(spawns[1..], child)
  }

  function Zip(indices: seq<nat>, ids: seq<PipeId>): (r: seq<(nat, PipeId)>)
    requires |indices| == |ids|
    ensures |r| == |ids| && forall k | 0 <= k < |r| :: r[k] == (indices[k], ids[k])
  {
    seq(|ids|, k requires 0 <= k < |ids| => (indices[k], ids[k]))
  }

  /** How VM `v` goes on after loading the plan: a spawned one takes the pipes `ids` from its arguments. */
  function Started(d: Data, v: nat, ids: seq<PipeId>): Guest {
    if v == 0 then Guest(Creating(0), [], [])
    else match OwnEntry(d.spawns, v)
    case None => Guest(Died(ERROR_ARGV), [], [])
    case Some(op) =>
      if |op.pipes| != |ids| then Guest(Died(ERROR_ARGV), [], [])
      else if |ids| > MAX_PIPE_COUNT then Guest(Died(ERROR_NO_SPACE_FOR_PIPES), [], [])
      else Guest(Creating(0), Zip(op.pipes, ids), [])
  }

  /** Every program first loads the whole plan from the witness. */
  function LoadNext(d: Data, s: World, v: nat): World
    requires v < |s.guests| && s.guests[v].phase.Loading?
  {
    if PlanCodec.LoadPlan(PlanCodec.Witness(d)) != Some(d) then Die(s, v, ERROR_ENCODING)
    else
      var g := Started(d, v, s.guests[v].phase.passed);
      if g.phase.Died? then Die(s, v, g.phase.code) else s.(guests := s.guests[v := g])
  }

  function Hand(owner: map<PipeId, nat>, passed: seq<PipeId>, to: nat): map<PipeId, nat> {
    map p | p in owner :: if p in passed then to else owner[p]
  }

  const SCHEDULER_ERROR := 1

  /** The spawn syscall hands the pipes over; a plan that names no fresh VM has no meaning here. */
  function SpawnChild(d: Data, s: World, v: nat, op: SpawnOp, i: nat): World
    requires v < |s.guests|
  {
    var g := s.guests[v];
    if |g.spawned| >= MAX_SPAWNED_VMS then Die(s, v, ERROR_TOO_MANY_SPAWNS)
    else match Pick(g.table, op.pipes, 0)
      case Unable(code) => Die(s, v, code)
      case Picked(ids) =>
        if exists p | p in ids :: p !in s.owner || s.owner[p] != v then Die(s, v, SCHEDULER_ERROR)
        else if op.child >= |s.guests| || s.guests[op.child] != UNBORN then Die(s, v, ERROR_ARGV)
        else
          s.(guests := s.guests[op.child := Guest(Loading(ids), [], [])]
                               [v := Guest(Spawning(i + 1), g.table, g.spawned + [op.child])],
             owner := Hand(s.owner, ids, op.child))
  }

  function SpawnNext(d: Data, s: World, v: nat): World
    requires v < |s.guests| && s.guests[v].phase.Spawning?
  {
    var i := s.guests[v].phase.next;
    if i >= |d.spawns| then SetPhase(s, v, Moving(0, 0))
    else if d.spawns[i].from != v then SetPhase(s, v, Spawning(i + 1))
    else SpawnChild(d, s, v, d.spawns[i], i)
  }

  // ---- Reading and writing ----

  /** The end that `v` uses in its current operation: it writes if it is the writer, else reads if it is the reader. */
  function Needed(op: WriteOp, v: nat): Option<nat> {
    if op.from == v then Some(op.fromPipe) else if op.to == v then Some(op.toPipe) else None
  }

  /** What a VM in the transfer phase does without a partner: None when it has to wait for one. */
  function MoveNext(d: Data, s: World, v: nat): Option<World>
    requires v < |s.guests| && s.guests[v].phase.Moving?
  {
    var g := s.guests[v];
    var i := g.phase.next;
    if i >= |d.writes| then Some(SetPhase(s, v, Joining(0)))
    else match Needed(d.writes[i], v)
      case None => Some(SetPhase(s, v, Moving(i + 1, 0)))
      case Some(index) =>
        match Find(g.table, index)
        case None => Some(Die(s, v, ERROR_NOT_FOUND))
        case Some(p) =>
          if g.phase.done >= |d.writes[i].data| then Some(SetPhase(s, v, Moving(i + 1, 0)))
          else if p !in s.owner || s.owner[p] != v then Some(Die(s, v, INVALID_PIPE_CODE))
          else if OtherPipe(p) !in s.owner then Some(Die(s, v, ERROR_PIPE_CLOSED))
          else None
  }

  const INVALID_PIPE_CODE := 6

  /** `v` is blocked in a read or write on pipe `p`. */
  predicate WaitsOn(d: Data, s: World, v: nat, writing: bool, p: PipeId) {
    && v < |s.guests| && s.guests[v].phase.Moving?
    && MoveNext(d, s, v).None?
    && var op := d.writes[s.guests[v].phase.next];
    && writing == (op.from == v)
    && Find(s.guests[v].table, if writing then op.fromPipe else op.toPipe) == Some(p)
  }

  /** A writer and a reader wait at the two ends of one pipe. */
  predicate Meets(d: Data, s: World, w: nat, r: nat, p: PipeId) {
    WaitsOn(d, s, w, true, OtherPipe(p)) && WaitsOn(d, s, r, false, p) && w != r
  }

  /** As many bytes go over as both sides still want; the reader compares them with what it expects. */
  function Exchange(d: Data, s: World, w: nat, r: nat, p: PipeId): World
    requires Meets(d, s, w, r, p)
  {
    var i, j := s.guests[w].phase.next, s.guests[r].phase.next;
    var sent, got := s.guests[w].phase.done, s.guests[r].phase.done;
    var n := Min(|d.writes[i].data| - sent, |d.writes[j].data| - got);
    var arrived := d.writes[i].data[sent..sent + n];
    var expected := d.writes[j].data[got..got + n];
    var s' := SetPhase(s, w, Moving(i, sent + n));
    if n == 0 then Die(s', r, ERROR_PIPE_CLOSED)
    else if arrived != expected then Die(s', r, ERROR_CORRUPTED_DATA)
    else SetPhase(s', r, Moving(j, got + n))
  }

  // ---- Joining and exiting ----

  /** Children are joined last one first. */
  function JoinNext(s: World, v: nat): Option<World>
    requires v < |s.guests| && s.guests[v].phase.Joining?
  {
    var g := s.guests[v];
    var j := g.phase.joined;
    if j >= |g.spawned| then
      Some(Leave(s, v, Exited))
    else
      var child := g.spawned[|g.spawned| - 1 - j];
      if child >= |s.guests| then Some(Die(s, v, JOIN_FAILURE_CODE))
      else match s.guests[child].phase
        case Exited => Some(SetPhase(s, v, Joining(j + 1)))
        case Died(code) => Some(Die(s, v, code))
        case _ => None
  }

  const JOIN_FAILURE_CODE := 5

  // ---- Steps and runs ----

  datatype Action = Alone(v: nat) | Meeting(w: nat, r: nat, p: PipeId)

  /** The state after an action, None where it is not possible. */
  function Do(d: Data, s: World, a: Action): Option<World> {
    match a
    case Alone(v) =>
      if v >= |s.guests| then None
      else (
        match s.guests[v].phase
        case Loading(_) => Some(LoadNext(d, s, v))
        case Creating(_) => Some(CreateNext(d, s, v))
        case Spawning(_) => Some(SpawnNext(d, s, v))
        case Moving(_, _) => MoveNext(d, s, v)
        case Joining(_) => JoinNext(s, v)
        case _ => None)
    case Meeting(w, r, p) => if Meets(d, s, w, r, p) then Some(Exchange(d, s, w, r, p)) else None
  }

  /** Where a sequence of actions leads, whatever decided which VM goes next. */
  function Perform(d: Data, s: World, actions: seq<Action>): Option<World>
    decreases |actions|
  {
    if actions == [] then Some(s)
    else match Do(d, s, actions[0])
      case None => None
      case Some(s') => Perform(d, s', actions[1..])
  }
}
