/** How large the planner's inputs may be so that its plan fits into the tables of the programs. */
module PlanBounds {
  import opened Words
  import opened Trees
  import opened Planner
  import opened PlanFacts
  import PlanCodec
  import opened PlanSizes
  import opened Guests
  import opened GuestInv
  import opened GuestRuns

  /** A VM gets at most the two ends of each pipe: passed to it, or created by it, never both. */
  lemma EndsOfOne(parent: seq<nat>, edge: Edge, e: nat, v: nat)
    requires Tree(parent) && edge.writer < |parent| && edge.reader < |parent|
    ensures |PassedOf(parent, edge, e, v)| + (if Creator(parent, edge) == v then 2 else 0) <= 2
  {
    hide Lca, Anc;
  }

  lemma {:induction false} EndsAt(parent: seq<nat>, edges: seq<Edge>, v: nat, n: nat)
    requires Choices(parent, edges) && n <= |edges|
    ensures |Passed(parent, edges, v, n)| + 2 * |CreatedAt(parent, edges, v, n)| <= 2 * n
    decreases n
  {
    hide PassedOf, Creator;
    if n > 0 {
      EndsAt(parent, edges, v, n - 1);
      EndsOfOne(parent, edges[n - 1], n - 1, v);
    }
  }

  lemma {:induction false} CountAppends(a: seq<PipeOp>, b: seq<PipeOp>, v: nat, n: nat)
    requires n <= |b|
    ensures CreateCount(a + b, v, |a| + n) == CreateCount(a, v, |a|) + CreateCount(b, v, n)
    decreases n
  {
    if n > 0 {
      CountAppends(a, b, v, n - 1);
    } else {
      CountPrefix(a, a + b, v, |a|);
    }
  }

  lemma {:induction false} CountPrefix(a: seq<PipeOp>, q: seq<PipeOp>, v: nat, n: nat)
    requires n <= |a| <= |q| && forall i | 0 <= i < n :: a[i] == q[i]
    ensures CreateCount(a, v, n) == CreateCount(q, v, n)
    decreases n
  {
    if n > 0 { CountPrefix(a, q, v, n - 1); }
  }

  lemma {:induction false} CountOfOne(vm: nat, q: seq<PipeOp>, v: nat, n: nat)
    requires n <= |q| && forall i | 0 <= i < n :: q[i].vm == vm
    ensures CreateCount(q, v, n) == if vm == v then n else 0
    decreases n
  {
    if n > 0 { CountOfOne(vm, q, v, n - 1); }
  }

  lemma {:induction false} CountAll(parent: seq<nat>, edges: seq<Edge>, v: nat, vms: nat)
    requires Choices(parent, edges)
    ensures var q := AllPipeOps(parent, edges, vms);
            CreateCount(q, v, |q|) == if v < vms then |CreatedAt(parent, edges, v, |edges|)| else 0
    decreases vms
  {
    hide CreatedAt, PipeOps;
    if vms > 0 {
      var pairs := CreatedAt(parent, edges, vms - 1, |edges|);
      var before, last := AllPipeOps(parent, edges, vms - 1), PipeOps(vms - 1, pairs);
      PipeOpsAt(vms - 1, pairs);
      CountAll(parent, edges, v, vms - 1);
      CountAppends(before, last, v, |last|);
      CountOfOne(vms - 1, last, v, |last|);
    }
  }

  /** With up to 1024 spawns and 1600 writes no table runs out of room. */
  lemma TablesHaveRoom(p: Plan)
    requires p.Made() && |p.parent| <= MAX_SPAWNED_VMS + 1 && 2 * |p.edges| <= MAX_PIPE_COUNT
    ensures RoomForAll(p)
  {
    MadeSizes(p);
    forall v: nat | v < |p.parent|
      ensures |PassedTo(p, v)| + 2 * CreateCount(p.d.pipes, v, |p.d.pipes|) <= MAX_PIPE_COUNT
      ensures |Kids(p.d.spawns, v, |p.d.spawns|)| <= MAX_SPAWNED_VMS
    {
      hide Planned, Order, Passed, CreatedAt, Choices;
      EndsAt(p.parent, p.edges, v, |p.edges|);
      CountPlanned(p, v);
      KidsBound(p.d.spawns, v, |p.d.spawns|);
    }
  }

  lemma CountPlanned(p: Plan, v: nat)
    requires p.Made() && v < |p.parent|
    ensures CreateCount(p.d.pipes, v, |p.d.pipes|) == |CreatedAt(p.parent, p.edges, v, |p.edges|)|
  {
    CountAll(p.parent, p.edges, v, |p.parent|);
  }

  /** What the caller of the planner can check before the call: few enough VMs and writes, and little enough data. */
  predicate SmallEnough(parent: seq<nat>, edges: seq<Edge>) {
    && 0 < |parent| <= MAX_SPAWNED_VMS + 1
    && 2 * |edges| <= MAX_PIPE_COUNT
    && LengthBound(parent, edges) <= PlanCodec.INPUT_DATA_LENGTH
  }

  lemma SmallPlansFit(p: Plan)
    requires p.Made() && SmallEnough(p.parent, p.edges)
    ensures Sound(p)
  {
    hide Planned, Choices, PlanCodec.Witness, RoomForAll;
    TablesHaveRoom(p);
    PlanLength(p);
  }

  /** From the random choices to the end of the run: whatever tree and write edges were drawn, if they are small
      enough, the plan made from them succeeds under every interleaving of its programs. */
  lemma ChoicesSucceed(parent: seq<nat>, edges: seq<Edge>, d: Data, order: seq<nat>, actions: seq<Action>)
    requires Choices(parent, edges) && Planned(parent, edges, d, order) && SmallEnough(parent, edges)
    requires Perform(d, Start(|parent|), actions).Some?
    ensures var s := Perform(d, Start(|parent|), actions).value;
            && |s.guests| == |parent|
            && (forall v | 0 <= v < |s.guests| :: !s.guests[v].phase.Died?)
            && |actions| <= TotalLeft(d, Start(|parent|).guests)
            && (!Gone(s, 0) ==> exists a :: Do(d, s, a).Some?)
            && (Gone(s, 0) ==> s.owner == map[] && forall v | 0 <= v < |s.guests| :: Gone(s, v))
  {
    hide Planned, Choices, Perform, Do, TotalLeft, Fits, SmallEnough;
    var p := Plan(parent, edges, order, d);
    SmallPlansFit(p);
    PlansSucceed(p, actions);
    var s := Perform(d, Start(|parent|), actions).value;
    if !Gone(s, 0) {
      var a :| Possible(p, s, a);
      assert Do(d, s, a).Some?;
    }
  }

  // ---- Plans that are too long ----

  /** A plan whose encoding overruns the input buffer does nothing at all: the root fails in its first step. */
  lemma LongPlansFail(d: Data, vms: nat, actions: seq<Action>)
    requires vms > 0 && |PlanCodec.Witness(d)| > PlanCodec.INPUT_DATA_LENGTH
    requires Perform(d, Start(vms), actions).Some? && actions != []
    ensures |actions| == 1 && Perform(d, Start(vms), actions).value == Die(Start(vms), 0, ERROR_ENCODING)
  {
    hide PlanCodec.Witness, PlanCodec.LoadPlan;
    TooLong(PlanCodec.Witness(d));
    var s := Start(vms);
    forall a ensures Do(d, Die(s, 0, ERROR_ENCODING), a) == None { }
    assert Do(d, s, actions[0]) == Some(Die(s, 0, ERROR_ENCODING));
  }

  const TWO_VMS: seq<nat> := [0, 0]

  function LargeWrites(): (r: seq<Edge>)
    ensures |r| == 1600
    ensures forall e | 0 <= e < |r| :: r[e].writer == 0 && r[e].reader == 1 && |r[e].data| == 1024
  {
    var data: seq<byte> := seq(1024, i => 0);
    seq(1600, i => Edge(0, 1, data))
  }

  /** Two VMs with 1600 writes of 1024 bytes, all of which the planner may draw: the tables have room for this plan,
      but the input buffer does not, and no run of it gets anywhere. */
  lemma LargePlanFails(d: Data, order: seq<nat>, actions: seq<Action>)
    requires Choices(TWO_VMS, LargeWrites()) && Planned(TWO_VMS, LargeWrites(), d, order)
    requires Perform(d, Start(2), actions).Some? && actions != []
    ensures RoomForAll(Plan(TWO_VMS, LargeWrites(), order, d))
    ensures Perform(d, Start(2), actions).value == Die(Start(2), 0, ERROR_ENCODING)
  {
    hide Planned, Choices, Perform, PlanCodec.Witness, RoomForAll, LargeWrites;
    var p := Plan(TWO_VMS, LargeWrites(), order, d);
    TablesHaveRoom(p);
    PlanLength(p);
    SumAtLeast(LargeWrites(), EdgeBytes, 1024);
    LongPlansFail(d, 2, actions);
  }

  lemma LargeWritesCanBeDrawn()
    ensures Choices(TWO_VMS, LargeWrites())
  {
  }
}
