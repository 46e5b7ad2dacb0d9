/** What the planner promises about a plan, read as facts about paths in the spawn tree. */
module PlanFacts {
  import opened Words
  import opened Trees
  import opened Planner

  /** A plan together with the choices it was made from. */
  datatype Plan = Plan(parent: seq<nat>, edges: seq<Edge>, order: seq<nat>, d: Data) {
    ghost predicate Made() {
      Choices(parent, edges) && Planned(parent, edges, d, order)
    }

    /** The number of pipe ends. */
    function Ends(): nat { 2 * |edges| }

    /** The VM that end `x` is meant for. */
    function User(x: nat): nat
      requires x < Ends()
    {
      if x % 2 == 1 then edges[x / 2].writer else edges[x / 2].reader
    }

    /** The VM that creates the pipe of end `x`. */
    function Top(x: nat): nat
      requires Choices(parent, edges) && x < Ends()
    {
      Creator(parent, edges[x / 2])
    }

    /** `v` lies on the tree path from the creator of end `x` down to its user. */
    predicate OnWay(x: nat, v: nat)
      requires Choices(parent, edges) && x < Ends()
    {
      Anc(parent, v, User(x)) && v < |parent| && Anc(parent, Top(x), v)
    }
  }

  lemma TopIsAbove(p: Plan, x: nat)
    requires p.Made() && x < p.Ends()
    ensures p.User(x) < |p.parent| && p.Top(x) < |p.parent| && Anc(p.parent, p.Top(x), p.User(x))
    ensures p.OnWay(x, p.Top(x)) && p.OnWay(x, p.User(x))
    ensures forall v: nat | p.OnWay(x, v) && v != p.Top(x) :: v > 0 && p.OnWay(x, p.parent[v])
  {
    var e := x / 2;
    LcaIsLca(p.parent, p.edges[e].writer, p.edges[e].reader);
    hide Lca;
    forall v: nat | p.OnWay(x, v) && v != p.Top(x) ensures v > 0 && p.OnWay(x, p.parent[v]) {
      assert Anc(p.parent, p.parent[v], v);
      AncTrans(p.parent, p.parent[v], v, p.User(x));
    }
  }

  // ---- The pipes a spawn passes on ----

  /** End `x` is meant for the writer or the reader of the edge, and `child` is on its way there. */
  predicate ComesBy(parent: seq<nat>, edge: Edge, writing: bool, child: nat)
    requires Tree(parent) && edge.writer < |parent| && edge.reader < |parent|
  {
    Below(parent, Creator(parent, edge), if writing then edge.writer else edge.reader, child)
  }

  lemma PassedOfMembers(parent: seq<nat>, edge: Edge, e: nat, child: nat, x: nat)
    requires Tree(parent) && edge.writer < |parent| && edge.reader < |parent|
    ensures x in PassedOf(parent, edge, e, child) <==> x / 2 == e && ComesBy(parent, edge, x % 2 == 1, child)
  {
    hide Below, Creator;
    assert x == 2 * e || x == 2 * e + 1 <==> x / 2 == e;
  }

  lemma {:induction false} PassedMembers(parent: seq<nat>, edges: seq<Edge>, child: nat, n: nat, x: nat)
    requires Choices(parent, edges) && n <= |edges| && child < |parent|
    ensures x in Passed(parent, edges, child, n) <==>
              x / 2 < n && ComesBy(parent, edges[x / 2], x % 2 == 1, child)
    decreases n
  {
    hide PassedOf, ComesBy;
    if n > 0 {
      PassedMembers(parent, edges, child, n - 1, x);
      PassedOfMembers(parent, edges[n - 1], n - 1, child, x);
    }
  }

  /** The spawn edges that list an end of a pipe are exactly the tree path from its creator to its user. */
  lemma PassedExactlyOnPath(p: Plan, k: nat, x: nat)
    requires p.Made() && k < |p.d.spawns|
    ensures var op := p.d.spawns[k];
            && 0 < op.child < |p.parent| && op.from == p.parent[op.child]
            && (x in op.pipes <==> x < p.Ends() && p.OnWay(x, op.child) && op.child != p.Top(x))
  {
    hide Lca, Anc;
    var c := p.order[k];
    assert c in p.order;
    PassedMembers(p.parent, p.edges, c, |p.edges|, x);
  }

  lemma {:induction false} PassedOnce(parent: seq<nat>, edges: seq<Edge>, child: nat, n: nat)
    requires Choices(parent, edges) && n <= |edges| && child < |parent|
    ensures Distinct(Passed(parent, edges, child, n))
    decreases n
  {
    hide Below, Creator;
    if n > 0 {
      PassedOnce(parent, edges, child, n - 1);
      var before := Passed(parent, edges, child, n - 1);
      forall i | 0 <= i < |before| ensures before[i] < 2 * (n - 1) {
        PassedMembers(parent, edges, child, n - 1, before[i]);
      }
      PassedStep(parent, edges, child, n - 1);
    }
  }

  /** Every node below the root is spawned exactly once. */
  lemma SpawnPosition(p: Plan, c: nat) returns (k: nat)
    requires p.Made() && 0 < c < |p.parent|
    ensures k < |p.d.spawns| && p.d.spawns[k].child == c && p.d.spawns[k].from == p.parent[c]
    ensures forall j | 0 <= j < |p.d.spawns| && p.d.spawns[j].child == c :: j == k
  {
    assert c in p.order;
    k :| k < |p.order| && p.order[k] == c;
    assert p.order[k] in p.order;
    forall j | 0 <= j < |p.d.spawns| && p.d.spawns[j].child == c ensures j == k {
      assert p.order[j] in p.order && Distinct(p.order);
    }
  }

  // ---- The pipes that are created ----

  /** `op` makes the two ends of one pipe at the right VM. */
  ghost predicate MakesPipe(parent: seq<nat>, edges: seq<Edge>, op: PipeOp)
    requires Choices(parent, edges)
  {
    && op.readPipe % 2 == 0 && op.writePipe == op.readPipe + 1 && op.readPipe < 2 * |edges|
    && Creator(parent, edges[op.readPipe / 2]) == op.vm
  }

  ghost predicate PairOk(parent: seq<nat>, edges: seq<Edge>, vm: nat, n: nat, pair: (nat, nat))
    requires Choices(parent, edges) && n <= |edges|
  {
    pair.0 < 2 * n && MakesPipe(parent, edges, PipeOp(vm, pair.0, pair.1))
  }

  ghost predicate RisingPairs(q: seq<(nat, nat)>) {
    forall i, j | 0 <= i < j < |q| :: q[i].0 < q[j].0
  }

  lemma PairMakes(parent: seq<nat>, edges: seq<Edge>, vm: nat, n: nat, pair: (nat, nat))
    requires Choices(parent, edges) && n <= |edges| && PairOk(parent, edges, vm, n, pair)
    ensures MakesPipe(parent, edges, PipeOp(vm, pair.0, pair.1))
  {
  }

  lemma LastPairOk(parent: seq<nat>, edges: seq<Edge>, e: nat)
    requires Choices(parent, edges) && e < |edges|
    ensures PairOk(parent, edges, Creator(parent, edges[e]), e + 1, (2 * e, 2 * e + 1))
  {
  }

  lemma {:induction false} CreatedMembers(parent: seq<nat>, edges: seq<Edge>, vm: nat, n: nat)
    requires Choices(parent, edges) && n <= |edges|
    ensures forall i | 0 <= i < |CreatedAt(parent, edges, vm, n)| ::
              PairOk(parent, edges, vm, n, CreatedAt(parent, edges, vm, n)[i])
    ensures RisingPairs(CreatedAt(parent, edges, vm, n))
  {
    hide Creator, CreatedAt;
    if n == 0 {
      NothingCreated(parent, edges, vm);
    } else {
      CreatedMembers(parent, edges, vm, n - 1);
      CreatedStep(parent, edges, vm, n - 1);
      LastPairOk(parent, edges, n - 1);
      hide MakesPipe;
      var before := CreatedAt(parent, edges, vm, n - 1);
      assert forall i | 0 <= i < |before| :: PairOk(parent, edges, vm, n - 1, before[i]);
    }
  }

  lemma NothingCreated(parent: seq<nat>, edges: seq<Edge>, vm: nat)
    requires Choices(parent, edges)
    ensures CreatedAt(parent, edges, vm, 0) == []
  {
  }

  lemma {:induction false} CreatedCover(parent: seq<nat>, edges: seq<Edge>, e: nat, n: nat)
    requires Choices(parent, edges) && e < n <= |edges|
    ensures (2 * e, 2 * e + 1) in CreatedAt(parent, edges, Creator(parent, edges[e]), n)
    decreases n
  {
    hide Creator, CreatedAt;
    CreatedStep(parent, edges, Creator(parent, edges[e]), n - 1);
    if e < n - 1 { CreatedCover(parent, edges, e, n - 1); }
  }

  lemma {:induction false} PipeOpsAt(vm: nat, pairs: seq<(nat, nat)>)
    ensures var q := PipeOps(vm, pairs);
            |q| == |pairs| && forall i | 0 <= i < |q| :: q[i] == PipeOp(vm, pairs[i].0, pairs[i].1)
  {
    if pairs != [] { PipeOpsAt(vm, pairs[..|pairs| - 1]); }
  }

  /** The operations come by VM, and those of one VM by pipe; no pipe is made twice. */
  ghost predicate OrderedPipes(q: seq<PipeOp>) {
    forall i, j | 0 <= i < j < |q| ::
      && q[i].vm <= q[j].vm && q[i].readPipe != q[j].readPipe
      && (q[i].vm == q[j].vm ==> q[i].readPipe < q[j].readPipe)
  }

  /** The pipe operations of all VMs below `vms`. */
  lemma {:induction false} AllPipeOpsMake(parent: seq<nat>, edges: seq<Edge>, vms: nat)
    requires Choices(parent, edges)
    ensures var q := AllPipeOps(parent, edges, vms);
            && (forall i | 0 <= i < |q| :: q[i].vm < vms && MakesPipe(parent, edges, q[i]))
            && OrderedPipes(q)
  {
    hide PipeOps, Creator, MakesPipe, PairOk, CreatedAt;
    if vms > 0 {
      AllPipeOpsMake(parent, edges, vms - 1);
      var vm := vms - 1;
      var pairs := CreatedAt(parent, edges, vm, |edges|);
      CreatedMembers(parent, edges, vm, |edges|);
      PipeOpsAt(vm, pairs);
      var before, last := AllPipeOps(parent, edges, vm), PipeOps(vm, pairs);
      forall i | 0 <= i < |last| ensures last[i].vm == vm && MakesPipe(parent, edges, last[i]) {
        PairMakes(parent, edges, vm, |edges|, pairs[i]);
      }
      JoinOrdered(parent, edges, before, last, vm);
    }
  }

  lemma JoinOrdered(parent: seq<nat>, edges: seq<Edge>, before: seq<PipeOp>, last: seq<PipeOp>, vm: nat)
    requires Choices(parent, edges) && OrderedPipes(before) && OrderedPipes(last)
    requires forall i | 0 <= i < |before| :: before[i].vm < vm && MakesPipe(parent, edges, before[i])
    requires forall i | 0 <= i < |last| :: last[i].vm == vm && MakesPipe(parent, edges, last[i])
    ensures OrderedPipes(before + last)
  {
    hide Creator;
    var q := before + last;
    forall i, j | 0 <= i < j < |q|
      ensures q[i].vm <= q[j].vm && q[i].readPipe != q[j].readPipe
      ensures q[i].vm == q[j].vm ==> q[i].readPipe < q[j].readPipe
    {
      if i < |before| <= j {
        assert MakesPipe(parent, edges, before[i]) && MakesPipe(parent, edges, last[j - |before|]);
      }
    }
  }

  lemma {:induction false} AllPipeOpsCover(parent: seq<nat>, edges: seq<Edge>, vms: nat, e: nat)
    requires Choices(parent, edges) && e < |edges| && Creator(parent, edges[e]) < vms
    ensures PipeOp(Creator(parent, edges[e]), 2 * e, 2 * e + 1) in AllPipeOps(parent, edges, vms)
    decreases vms
  {
    hide CreatedAt, PipeOps, Creator;
    var vm := Creator(parent, edges[e]);
    if vm == vms - 1 {
      var pairs := CreatedAt(parent, edges, vm, |edges|);
      CreatedCover(parent, edges, e, |edges|);
      PipeOpsAt(vm, pairs);
      var i :| 0 <= i < |pairs| && pairs[i] == (2 * e, 2 * e + 1);
      assert PipeOps(vm, pairs)[i] == PipeOp(vm, 2 * e, 2 * e + 1);
    } else {
      AllPipeOpsCover(parent, edges, vms - 1, e);
    }
  }

  /** Every pipe is created exactly once, at the lowest common ancestor of its writer and its reader. */
  lemma PipePosition(p: Plan, e: nat) returns (k: nat)
    requires p.Made() && e < |p.edges|
    ensures k < |p.d.pipes| && p.d.pipes[k] == PipeOp(p.Top(2 * e), 2 * e, 2 * e + 1)
    ensures p.Top(2 * e) == p.Top(2 * e + 1)
    ensures IsLca(p.parent, p.edges[e].writer, p.edges[e].reader, p.Top(2 * e))
    ensures forall j | 0 <= j < |p.d.pipes| && p.d.pipes[j].readPipe == 2 * e :: j == k
  {
    assert (2 * e) / 2 == e && (2 * e + 1) / 2 == e;
    TopIsAbove(p, 2 * e);
    LcaIsLca(p.parent, p.edges[e].writer, p.edges[e].reader);
    AllPipeOpsCover(p.parent, p.edges, |p.parent|, e);
    AllPipeOpsMake(p.parent, p.edges, |p.parent|);
    k :| k < |p.d.pipes| && p.d.pipes[k] == PipeOp(p.Top(2 * e), 2 * e, 2 * e + 1);
  }

  /** The plan lists the pipes by the VM that creates them, and those of one VM by write. */
  lemma PipesInOrder(p: Plan)
    requires p.Made()
    ensures forall i, j | 0 <= i < j < |p.d.pipes| ::
              var x, y := p.d.pipes[i], p.d.pipes[j];
              x.vm < y.vm || (x.vm == y.vm && x.readPipe < y.readPipe)
  {
    hide AllPipeOps, MakesPipe, Lca;
    AllPipeOpsMake(p.parent, p.edges, |p.parent|);
  }

  lemma EndPosition(p: Plan, x: nat) returns (k: nat)
    requires p.Made() && x < p.Ends()
    ensures k < |p.d.pipes| && p.d.pipes[k].vm == p.Top(x)
    ensures p.d.pipes[k].readPipe == x || (x > 0 && p.d.pipes[k].readPipe == x - 1 && x % 2 == 1)
  {
    hide Planned, Lca, IsLca;
    var e := x / 2;
    assert (2 * e) / 2 == e && (2 * e + 1) / 2 == e && (x == 2 * e || x == 2 * e + 1);
    k := PipePosition(p, e);
  }

  /** Write `e` uses the two ends of pipe `e`, at the VMs they are meant for. */
  lemma WriteFacts(p: Plan, e: nat)
    requires p.Made() && e < |p.d.writes|
    ensures var op := p.d.writes[e];
            && op.fromPipe == 2 * e + 1 < p.Ends() && op.toPipe == 2 * e && op.from != op.to
            && p.User(2 * e + 1) == op.from < |p.parent| && p.User(2 * e) == op.to < |p.parent|
            && op.from == p.edges[e].writer && op.to == p.edges[e].reader && op.data == p.edges[e].data
  {
    hide Lca, IsLca;
    assert (2 * e) / 2 == e && (2 * e + 1) / 2 == e;
    assert p.d.writes[e] == WriteOf(p.edges, e);
  }

  lemma PipeOpFacts(p: Plan, k: nat)
    requires p.Made() && k < |p.d.pipes|
    ensures MakesPipe(p.parent, p.edges, p.d.pipes[k]) && p.d.pipes[k].vm < |p.parent|
    ensures forall j | 0 <= j < |p.d.pipes| && p.d.pipes[j].readPipe == p.d.pipes[k].readPipe :: j == k
  {
    hide MakesPipe, AllPipeOps;
    AllPipeOpsMake(p.parent, p.edges, |p.parent|);
  }
}
