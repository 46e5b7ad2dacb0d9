/** The workload planner (`generate_data_graph` in src/dev_utils/mod.rs). Every random choice is an input: the
    parent picked for each new VM, and the edges of the write graph with their data. */
module Planner {
  import opened Words
  import opened Trees

  /** One planned write. Its pipe has the read end `2 * e` and the write end `2 * e + 1`. */
  datatype Edge = Edge(writer: nat, reader: nat, data: seq<byte>)

  datatype SpawnOp = SpawnOp(from: nat, child: nat, pipes: seq<nat>)
  datatype PipeOp = PipeOp(vm: nat, readPipe: nat, writePipe: nat)
  datatype WriteOp = WriteOp(from: nat, fromPipe: nat, to: nat, toPipe: nat, data: seq<byte>)
  datatype Data = Data(spawns: seq<SpawnOp>, pipes: seq<PipeOp>, writes: seq<WriteOp>)

  ghost predicate Choices(parent: seq<nat>, edges: seq<Edge>) {
    && Tree(parent)
    && forall e | 0 <= e < |edges| ::
         edges[e].writer < |parent| && edges[e].reader < |parent| && edges[e].writer != edges[e].reader
  }

  // ---- The creating VM of a pipe: the two-pointer ancestor walk ----

  method CommonAncestor(parent: seq<nat>, writer: nat, reader: nat) returns (l: nat)
    requires Tree(parent) && writer < |parent| && reader < |parent| && writer != reader
    ensures IsLca(parent, writer, reader, l) && l == Lca(parent, writer, reader)
  {
    var a: nat, b: nat := writer, reader;
    var setA, setB := {a}, {b};
    ClimbStart(parent, writer);
    ClimbStart(parent, reader);
    LcaIsLca(parent, writer, reader);
    while true
      invariant a < |parent| && b < |parent| && Anc(parent, a, writer) && Anc(parent, b, reader)
      invariant setA == Climbed(parent, writer, a) && setB == Climbed(parent, reader, b)
      invariant setA !! setB
      decreases a + b
    {
      RootsMeet(parent, writer, a, reader, b);
      assert a > 0 || b > 0;
      var aMoves, bMoves := a > 0, b > 0;
      ghost var a0, b0 := a, b;
      if aMoves {
        ClimbStep(parent, writer, a);
        setA := setA + {parent[a]};
        a := parent[a];
      }
      if bMoves {
        ClimbStep(parent, reader, b);
        setB := setB + {parent[b]};
        b := parent[b];
      }
      if aMoves && a in setB {
        FirstMeeting(parent, writer, a0, reader, b);
        LcaIsUnique(parent, writer, reader, a, Lca(parent, writer, reader));
        return a;
      }
      if bMoves && b in setA {
        FirstMeeting(parent, reader, b0, writer, a);
        SwapLca(parent, writer, reader, b);
        LcaIsUnique(parent, writer, reader, b, Lca(parent, writer, reader));
        return b;
      }
    }
  }

  /** Both walks cannot have ended: the check inside the loop never fails. */
  lemma RootsMeet(parent: seq<nat>, x: nat, a: nat, y: nat, b: nat)
    requires Tree(parent) && x < |parent| && y < |parent| && a < |parent| && b < |parent|
    requires Climbed(parent, x, a) !! Climbed(parent, y, b)
    ensures a > 0 || b > 0
  {
    RootIsAnc(parent, x);
    RootIsAnc(parent, y);
    assert 0 in Climbed(parent, x, 0) && 0 in Climbed(parent, y, 0);
  }

  lemma SwapLca(parent: seq<nat>, x: nat, y: nat, l: nat)
    requires Tree(parent) && x < |parent| && y < |parent| && IsLca(parent, y, x, l)
    ensures IsLca(parent, x, y, l)
  {
  }

  // ---- Passing the pipe ends down ----

  function Creator(parent: seq<nat>, edge: Edge): nat
    requires Tree(parent) && edge.writer < |parent| && edge.reader < |parent|
  {
    Lca(parent, edge.writer, edge.reader)
  }

  /** The ends of pipe `e` that the spawn of `child` passes on. */
  function PassedOf(parent: seq<nat>, edge: Edge, e: nat, child: nat): seq<nat>
    requires Tree(parent) && edge.writer < |parent| && edge.reader < |parent|
  {
    var top := Creator(parent, edge);
    (if Below(parent, top, edge.writer, child) then [2 * e + 1] else []) +
    (if Below(parent, top, edge.reader, child) then [2 * e] else [])
  }

  function Passed(parent: seq<nat>, edges: seq<Edge>, child: nat, n: nat): seq<nat>
    requires Choices(parent, edges) && n <= |edges|
  {
    if n == 0 then [] else Passed(parent, edges, child, n - 1) + PassedOf(parent, edges[n - 1], n - 1, child)
  }

  /** An end comes before another one if its write does; of the same write the writing end comes first. */
  predicate ListedBefore(x: nat, y: nat) {
    x / 2 < y / 2 || (x / 2 == y / 2 && x % 2 == 1 && y % 2 == 0)
  }

  ghost predicate ListedInOrder(q: seq<nat>, n: nat) {
    && (forall i | 0 <= i < |q| :: q[i] < 2 * n)
    && forall i, j | 0 <= i < j < |q| :: ListedBefore(q[i], q[j])
  }

  ghost predicate LastOnes(q: seq<nat>, e: nat) {
    q == [2 * e + 1, 2 * e] || q == [2 * e + 1] || q == [2 * e] || q == []
  }

  /** A spawn lists the ends it passes on in this order. */
  lemma {:induction false} PassedInOrder(parent: seq<nat>, edges: seq<Edge>, child: nat, n: nat)
    requires Choices(parent, edges) && n <= |edges|
    ensures ListedInOrder(Passed(parent, edges, child, n), n)
  {
    if n > 0 {
      PassedInOrder(parent, edges, child, n - 1);
      hide Passed, PassedOf;
      var front, last := Passed(parent, edges, child, n - 1), PassedOf(parent, edges[n - 1], n - 1, child);
      assert Passed(parent, edges, child, n) == front + last by { PassedNext(parent, edges, child, n); }
      LastInOrder(parent, edges[n - 1], n - 1, child);
      AppendsInOrder(front, last, n - 1);
    }
  }

  lemma LastInOrder(parent: seq<nat>, edge: Edge, e: nat, child: nat)
    requires Tree(parent) && edge.writer < |parent| && edge.reader < |parent|
    ensures LastOnes(PassedOf(parent, edge, e, child), e)
  {
    hide Below, Creator;
  }

  lemma AppendsInOrder(front: seq<nat>, last: seq<nat>, e: nat)
    requires ListedInOrder(front, e) && LastOnes(last, e)
    ensures ListedInOrder(front + last, e + 1)
  {
    var q := front + last;
    forall i, j | 0 <= i < j < |q| ensures ListedBefore(q[i], q[j]) {
      if j >= |front| && i < |front| { assert q[i] < 2 * e && q[j] >= 2 * e; }
    }
  }

  lemma PassedNext(parent: seq<nat>, edges: seq<Edge>, child: nat, n: nat)
    requires Choices(parent, edges) && 0 < n <= |edges|
    ensures Passed(parent, edges, child, n) ==
            Passed(parent, edges, child, n - 1) + PassedOf(parent, edges[n - 1], n - 1, child)
  {
  }

  function CreatedAt(parent: seq<nat>, edges: seq<Edge>, vm: nat, n: nat): seq<(nat, nat)>
    requires Choices(parent, edges) && n <= |edges|
  {
    if n == 0 then []
    else CreatedAt(parent, edges, vm, n - 1) +
         if Creator(parent, edges[n - 1]) == vm then [(2 * (n - 1), 2 * (n - 1) + 1)] else []
  }

  /** Appends `pipe` to the operations of every spawn edge from `x` up to `top`; the edge above a node is kept
      under that node. */
  method PassDown(parent: seq<nat>, ops: map<nat, seq<nat>>, x: nat, top: nat, pipe: nat)
    returns (r: map<nat, seq<nat>>)
    requires Tree(parent) && x < |parent| && Anc(parent, top, x)
    requires forall c | 0 < c < |parent| :: c in ops
    ensures r.Keys == ops.Keys
    ensures forall c | c in ops ::
              r[c] == if Below(parent, top, x, c) then ops[c] + [pipe] else ops[c]
  {
    r := ops;
    var a: nat := x;
    while a != top
      invariant a < |parent| && Anc(parent, a, x) && Anc(parent, top, a)
      invariant r.Keys == ops.Keys
      invariant forall c | c in ops ::
                  r[c] == if Below(parent, top, x, c) && !Anc(parent, c, a) then ops[c] + [pipe] else ops[c]
      decreases a
    {
      PassStep(parent, top, x, a);
      r := r[a := r[a] + [pipe]];
      a := parent[a];
    }
    forall c | c in ops ensures Below(parent, top, x, c) ==> !Anc(parent, c, top) {
      BelowIsNotAbove(parent, top, x, c);
    }
  }

  lemma BelowIsNotAbove(parent: seq<nat>, top: nat, x: nat, c: nat)
    requires Tree(parent) && x < |parent| && top < |parent|
    ensures Below(parent, top, x, c) ==> !Anc(parent, c, top)
  {
    if Anc(parent, c, top) {
      AncIsSmaller(parent, c, top);
      if c < |parent| && Anc(parent, top, c) { AncIsSmaller(parent, top, c); }
    }
  }

  lemma PassStep(parent: seq<nat>, top: nat, x: nat, a: nat)
    requires Tree(parent) && x < |parent| && a < |parent| && Anc(parent, a, x) && Anc(parent, top, a) && a != top
    ensures a > 0 && Anc(parent, parent[a], x) && Anc(parent, top, parent[a]) && Below(parent, top, x, a)
    ensures !Anc(parent, a, parent[a])
    ensures forall c | c != a :: Anc(parent, c, a) <==> Anc(parent, c, parent[a])
  {
    assert Anc(parent, parent[a], a);
    AncTrans(parent, parent[a], a, x);
    if Anc(parent, a, parent[a]) { AncIsSmaller(parent, a, parent[a]); }
  }

  // ---- Visiting the spawn tree ----

  function ChildrenBefore(parent: seq<nat>, node: nat, n: nat): seq<nat>
    requires Tree(parent) && n <= |parent|
  {
    if n == 0 then []
    else ChildrenBefore(parent, node, n - 1) + if n - 1 > 0 && parent[n - 1] == node then [n - 1] else []
  }

  /** The children of a node, first one first. */
  function Children(parent: seq<nat>, node: nat): seq<nat>
    requires Tree(parent)
  {
    ChildrenBefore(parent, node, |parent|)
  }

  lemma {:induction false} ChildrenMembers(parent: seq<nat>, node: nat, n: nat)
    requires Tree(parent) && n <= |parent|
    ensures forall c :: c in ChildrenBefore(parent, node, n) <==> 0 < c < n && parent[c] == node
    ensures Distinct(ChildrenBefore(parent, node, n))
  {
    if n > 0 { ChildrenMembers(parent, node, n - 1); }
  }

  lemma {:induction false} ChildrenRise(parent: seq<nat>, node: nat, n: nat)
    requires Tree(parent) && n <= |parent|
    ensures forall i, j | 0 <= i < j < |ChildrenBefore(parent, node, n)| ::
              ChildrenBefore(parent, node, n)[i] < ChildrenBefore(parent, node, n)[j]
  {
    if n > 0 {
      ChildrenRise(parent, node, n - 1);
      ChildrenMembers(parent, node, n - 1);
      var q, front := ChildrenBefore(parent, node, n), ChildrenBefore(parent, node, n - 1);
      forall i, j | 0 <= i < j < |q| ensures q[i] < q[j] {
        assert q[i] in front;
      }
    }
  }

  lemma {:induction false} DistinctBelow(q: seq<nat>, n: nat)
    requires Distinct(q) && forall i | 0 <= i < |q| :: q[i] < n
    ensures |q| <= n
    decreases n
  {
    if |q| > 0 {
      assert 0 <= q[0] < n;
      if i: nat :| i < |q| && q[i] == n - 1 {
        var rest := q[..i] + q[i + 1..];
        assert forall k | 0 <= k < |rest| :: rest[k] == if k < i then q[k] else q[k + 1];
        DistinctBelow(rest, n - 1);
      } else {
        DistinctBelow(q, n - 1);
      }
    }
  }

  /** The order in which a breadth-first walk meets the nodes: `seen` nodes done, their children queued. */
  ghost predicate Walk(parent: seq<nat>, all: seq<nat>, seen: nat)
    requires Tree(parent)
  {
    && 0 < |all| && all[0] == 0 && seen <= |all| && Distinct(all)
    && Rooted(parent, all, seen)
    && Complete(parent, all, seen)
  }

  ghost predicate Complete(parent: seq<nat>, all: seq<nat>, seen: nat)
    requires Tree(parent) && seen <= |all|
  {
    forall c | 0 < c < |parent| && parent[c] in all[..seen] :: c in all
  }

  lemma CompleteStep(parent: seq<nat>, all: seq<nat>, seen: nat, more: seq<nat>)
    requires Tree(parent) && seen < |all| && Complete(parent, all, seen)
    requires forall c | 0 < c < |parent| && parent[c] == all[seen] :: c in more
    ensures Complete(parent, all + more, seen + 1)
  {
    assert (all + more)[..seen + 1] == all[..seen] + [all[seen]];
  }

  lemma ExtendDistinct(q: seq<nat>, more: seq<nat>)
    requires Distinct(q) && Distinct(more) && forall x | x in more :: x !in q
    ensures Distinct(q + more)
  {
    var next := q + more;
    forall i, j | 0 <= i < j < |next| ensures next[i] != next[j] {
      if i < |q| <= j {
        assert next[i] in q && next[j] in more;
      }
    }
  }

  /** Node `i` of the walk is a child of node `p` of the walk. */
  ghost predicate ChildOf(parent: seq<nat>, all: seq<nat>, i: nat, p: nat) {
    i < |all| && p < |all| && all[i] < |parent| && all[p] == parent[all[i]]
  }

  /** Nodes `i` and `j` of the walk come in the order of their parents, or of their numbers under the same one. */
  ghost predicate InTurn(parent: seq<nat>, all: seq<nat>, seen: nat, i: nat, j: nat)
    requires i < |all| && j < |all|
  {
    exists p: nat, q: nat ::
      ChildOf(parent, all, i, p) && ChildOf(parent, all, j, q) && p <= q < seen && (p == q ==> all[i] < all[j])
  }

  ghost predicate BreadthFirst(parent: seq<nat>, all: seq<nat>, seen: nat) {
    forall i: nat, j: nat | 0 < i < j < |all| :: InTurn(parent, all, seen, i, j)
  }

  lemma OldInTurn(parent: seq<nat>, all: seq<nat>, seen: nat, more: seq<nat>, i: nat, j: nat)
    requires i < |all| && j < |all| && InTurn(parent, all, seen, i, j)
    ensures InTurn(parent, all + more, seen + 1, i, j)
  {
    var p: nat, q: nat :|
      ChildOf(parent, all, i, p) && ChildOf(parent, all, j, q) && p <= q < seen && (p == q ==> all[i] < all[j]);
    assert ChildOf(parent, all + more, i, p) && ChildOf(parent, all + more, j, q);
  }

  lemma NewInTurn(parent: seq<nat>, all: seq<nat>, seen: nat, i: nat, j: nat)
    requires Tree(parent) && seen < |all| && Rooted(parent, all, seen)
    requires var next := all + Children(parent, all[seen]); |all| <= j < |next| && 0 < i < j
    ensures InTurn(parent, all + Children(parent, all[seen]), seen + 1, i, j)
  {
    var more := Children(parent, all[seen]);
    var next := all + more;
    ChildrenMembers(parent, all[seen], |parent|);
    ChildrenRise(parent, all[seen], |parent|);
    hide ChildrenBefore;
    assert next[j] in more && ChildOf(parent, next, j, seen);
    if i < |all| {
      assert next[i] == all[i] && parent[all[i]] in all[..seen];
      var p: nat :| p < seen && all[p] == parent[all[i]];
      assert ChildOf(parent, next, i, p);
    } else {
      assert next[i] in more && ChildOf(parent, next, i, seen);
    }
  }

  lemma BreadthStep(parent: seq<nat>, all: seq<nat>, seen: nat)
    requires Tree(parent) && Walk(parent, all, seen) && seen < |all| && BreadthFirst(parent, all, seen)
    ensures BreadthFirst(parent, all + Children(parent, all[seen]), seen + 1)
  {
    hide Children, Complete, Rooted, Distinct, InTurn;
    var more := Children(parent, all[seen]);
    var next, done := all + more, seen + 1;
    forall i: nat, j: nat | 0 < i < j < |next| ensures InTurn(parent, next, done, i, j) {
      if j < |all| { OldInTurn(parent, all, seen, more, i, j); } else { NewInTurn(parent, all, seen, i, j); }
    }
  }

  lemma ChildrenAreNew(parent: seq<nat>, all: seq<nat>, seen: nat)
    requires Tree(parent) && Walk(parent, all, seen) && seen < |all|
    ensures forall x | x in Children(parent, all[seen]) :: x !in all
  {
    ChildrenMembers(parent, all[seen], |parent|);
    forall x | x in Children(parent, all[seen]) ensures x !in all {
      hide ChildrenBefore;
    }
  }

  /** Every queued node but the first is a child of a node that was done before. */
  ghost predicate Rooted(parent: seq<nat>, all: seq<nat>, seen: nat)
    requires Tree(parent) && seen <= |all|
  {
    forall i | 0 <= i < |all| ::
      all[i] < |parent| && (i > 0 ==> all[i] > 0 && parent[all[i]] in all[..seen])
  }

  lemma RootedStep(parent: seq<nat>, all: seq<nat>, seen: nat, more: seq<nat>)
    requires Tree(parent) && 0 < |all| && seen < |all| && Rooted(parent, all, seen)
    requires forall x | x in more :: 0 < x < |parent| && parent[x] == all[seen]
    ensures Rooted(parent, all + more, seen + 1)
  {
    var next := all + more;
    assert next[..seen + 1] == all[..seen] + [all[seen]];
    forall i | 0 <= i < |next|
      ensures next[i] < |parent| && (i > 0 ==> next[i] > 0 && parent[next[i]] in next[..seen + 1])
    {
      if i >= |all| { assert next[i] in more; } else { assert next[i] == all[i]; }
    }
  }

  lemma WalkStep(parent: seq<nat>, all: seq<nat>, seen: nat)
    requires Tree(parent) && Walk(parent, all, seen) && seen < |all|
    ensures Walk(parent, all + Children(parent, all[seen]), seen + 1)
  {
    hide ChildrenBefore, Complete, Distinct, Rooted;
    var more := Children(parent, all[seen]);
    ChildrenMembers(parent, all[seen], |parent|);
    ChildrenAreNew(parent, all, seen);
    ExtendDistinct(all, more);
    CompleteStep(parent, all, seen, more);
    RootedStep(parent, all, seen, more);
  }

  lemma {:induction false} WalkMeetsAll(parent: seq<nat>, all: seq<nat>, x: nat)
    requires Tree(parent) && Walk(parent, all, |all|) && x < |parent|
    ensures x in all
    decreases x
  {
    if x > 0 {
      WalkMeetsAll(parent, all, parent[x]);
      assert all[..|all|] == all;
    }
  }

  // ---- The whole plan ----

  function PipeOps(vm: nat, pairs: seq<(nat, nat)>): seq<PipeOp> {
    if pairs == [] then []
    else PipeOps(vm, pairs[..|pairs| - 1]) + [PipeOp(vm, pairs[|pairs| - 1].0, pairs[|pairs| - 1].1)]
  }

  /** The pipe operations of the VMs below `vms`. */
  function AllPipeOps(parent: seq<nat>, edges: seq<Edge>, vms: nat): seq<PipeOp>
    requires Choices(parent, edges)
  {
    if vms == 0 then []
    else AllPipeOps(parent, edges, vms - 1) + PipeOps(vms - 1, CreatedAt(parent, edges, vms - 1, |edges|))
  }

  function SpawnOf(parent: seq<nat>, edges: seq<Edge>, child: nat): SpawnOp
    requires Choices(parent, edges) && 0 < child < |parent|
  {
    SpawnOp(parent[child], child, Passed(parent, edges, child, |edges|))
  }

  function WriteOf(edges: seq<Edge>, e: nat): WriteOp
    requires e < |edges|
  {
    WriteOp(edges[e].writer, 2 * e + 1, edges[e].reader, 2 * e, edges[e].data)
  }

  /** `order` lists the nodes below the root, each one once. */
  ghost predicate Order(parent: seq<nat>, order: seq<nat>)
    requires Tree(parent)
  {
    Distinct(order) && forall c :: c in order <==> 0 < c < |parent|
  }

  ghost predicate Planned(parent: seq<nat>, edges: seq<Edge>, d: Data, order: seq<nat>)
    requires Choices(parent, edges)
  {
    && Order(parent, order)
    && |d.spawns| == |order|
    && (forall i | 0 <= i < |order| :: order[i] in order && d.spawns[i] == SpawnOf(parent, edges, order[i]))
    && d.pipes == AllPipeOps(parent, edges, |parent|)
    && |d.writes| == |edges|
    && (forall e | 0 <= e < |edges| :: d.writes[e] == WriteOf(edges, e))
  }

  method VisitSpawnTree(parent: seq<nat>)
    returns (order: seq<nat>, spawnOps: map<nat, seq<nat>>, pipesOps: map<nat, seq<(nat, nat)>>)
    requires Tree(parent)
    ensures Order(parent, order) && BreadthFirst(parent, [0] + order, |order| + 1)
    ensures forall c :: c in spawnOps <==> 0 < c < |parent|
    ensures forall c | c in spawnOps :: spawnOps[c] == []
    ensures forall v :: v in pipesOps <==> 0 <= v < |parent|
    ensures forall v | v in pipesOps :: pipesOps[v] == []
  {
    hide Walk, Children, BreadthFirst;
    order, spawnOps, pipesOps := [], map[], map[];
    var processing := [0];
    ghost var seen := 0;
    WalkStarts(parent);
    while processing != []
      invariant Walk(parent, [0] + order, seen) && seen <= |order| + 1 && processing == ([0] + order)[seen..]
      invariant BreadthFirst(parent, [0] + order, seen)
      invariant forall c :: c in spawnOps <==> c in order
      invariant forall c | c in spawnOps :: spawnOps[c] == []
      invariant forall v :: v in pipesOps <==> v in ([0] + order)[..seen]
      invariant forall v | v in pipesOps :: pipesOps[v] == []
      decreases |parent| - seen
    {
      ghost var all := [0] + order;
      WalkBounds(parent, all, seen);
      var node := processing[0];
      assert node == all[seen];
      assert all[..seen + 1] == all[..seen] + [node];
      pipesOps := pipesOps[node := []];
      var children := Children(parent, node);
      WalkStep(parent, all, seen);
      BreadthStep(parent, all, seen);
      order, processing, spawnOps := Enqueue(children, order, processing[1..], spawnOps);
      assert [0] + order == all + children;
      seen := seen + 1;
      assert ([0] + order)[..seen] == all[..seen];
      assert ([0] + order)[seen..] == all[seen..] + children;
    }
    WalkOrders(parent, order, seen);
  }

  method Enqueue(children: seq<nat>, order: seq<nat>, processing: seq<nat>, spawnOps: map<nat, seq<nat>>)
    returns (order': seq<nat>, processing': seq<nat>, spawnOps': map<nat, seq<nat>>)
    requires forall c :: c in spawnOps <==> c in order
    requires forall c | c in spawnOps :: spawnOps[c] == []
    ensures order' == order + children && processing' == processing + children
    ensures forall c :: c in spawnOps' <==> c in order'
    ensures forall c | c in spawnOps' :: spawnOps'[c] == []
  {
    order', processing', spawnOps' := order, processing, spawnOps;
    for i := 0 to |children|
      invariant order' == order + children[..i] && processing' == processing + children[..i]
      invariant forall c :: c in spawnOps' <==> c in order'
      invariant forall c | c in spawnOps' :: spawnOps'[c] == []
    {
      spawnOps' := spawnOps'[children[i] := []];
      order' := order' + [children[i]];
      processing' := processing' + [children[i]];
    }
  }

  lemma WalkBounds(parent: seq<nat>, all: seq<nat>, seen: nat)
    requires Tree(parent) && Walk(parent, all, seen)
    ensures seen <= |all| <= |parent|
    ensures seen < |all| ==> all[seen] < |parent|
  {
    hide Complete;
    DistinctBelow(all, |parent|);
  }

  lemma WalkStarts(parent: seq<nat>)
    requires Tree(parent)
    ensures Walk(parent, [0] + [], 0) && BreadthFirst(parent, [0] + [], 0)
  {
  }

  lemma WalkOrders(parent: seq<nat>, order: seq<nat>, seen: nat)
    requires Tree(parent) && Walk(parent, [0] + order, seen) && seen == |order| + 1
    ensures Order(parent, order)
    ensures ([0] + order)[..seen] == [0] + order
    ensures forall v :: v in [0] + order <==> 0 <= v < |parent|
  {
    hide Complete, Rooted, Distinct;
    var all := [0] + order;
    assert all[..seen] == all;
    forall v | 0 <= v < |parent| ensures v in all {
      WalkMeetsAll(parent, all, v);
    }
    WalkIsWithin(parent, all);
    forall c | 0 < c < |parent| ensures c in order {
      assert c in all;
    }
    DistinctTail(all);
    assert all[1..] == order;
  }

  lemma WalkIsWithin(parent: seq<nat>, all: seq<nat>)
    requires Tree(parent) && Walk(parent, all, |all|)
    ensures forall c | c in all :: c < |parent|
    ensures forall c | c in all[1..] :: 0 < c < |parent|
  {
    hide Complete, Distinct;
    forall c | c in all[1..] ensures 0 < c < |parent| {
      var i :| 0 <= i < |all| - 1 && all[1..][i] == c;
      assert all[i + 1] == c;
    }
  }

  lemma DistinctTail(q: seq<nat>)
    requires Distinct(q) && q != []
    ensures Distinct(q[1..])
  {
  }

  /** The pipes made on behalf of the first `n` edges. */
  ghost predicate Threaded(parent: seq<nat>, edges: seq<Edge>, n: nat,
                           spawnOps: map<nat, seq<nat>>, pipesOps: map<nat, seq<(nat, nat)>>)
    requires Choices(parent, edges) && n <= |edges|
  {
    && (forall c :: c in spawnOps <==> 0 < c < |parent|)
    && (forall v :: v in pipesOps <==> 0 <= v < |parent|)
    && (forall c: nat | c in spawnOps :: spawnOps[c] == Passed(parent, edges, c, n))
    && (forall v: nat | v in pipesOps :: pipesOps[v] == CreatedAt(parent, edges, v, n))
  }

  /** Makes the pipe of edge `e` at the common ancestor and threads its ends down to the writer and the reader. */
  method ThreadPipe(parent: seq<nat>, edges: seq<Edge>, e: nat,
                    spawnOps: map<nat, seq<nat>>, pipesOps: map<nat, seq<(nat, nat)>>)
    returns (spawnOps': map<nat, seq<nat>>, pipesOps': map<nat, seq<(nat, nat)>>)
    requires Choices(parent, edges) && e < |edges| && Threaded(parent, edges, e, spawnOps, pipesOps)
    ensures Threaded(parent, edges, e + 1, spawnOps', pipesOps')
  {
    hide Lca, Below, IsLca, Anc, Passed, CreatedAt, Tree;
    EdgeNodes(parent, edges, e);
    var writer, reader := edges[e].writer, edges[e].reader;
    var ancestor := CommonAncestor(parent, writer, reader);
    LcaIsAbove(parent, writer, reader, ancestor);
    var half := PassDown(parent, spawnOps, writer, ancestor, 2 * e + 1);
    spawnOps' := PassDown(parent, half, reader, ancestor, 2 * e);
    pipesOps' := pipesOps[ancestor := pipesOps[ancestor] + [(2 * e, 2 * e + 1)]];
    forall c: nat | c in spawnOps' ensures spawnOps'[c] == Passed(parent, edges, c, e + 1) {
      PassedStep(parent, edges, c, e);
    }
    forall v: nat | v in pipesOps' ensures pipesOps'[v] == CreatedAt(parent, edges, v, e + 1) {
      CreatedStep(parent, edges, v, e);
    }
  }

  lemma EdgeNodes(parent: seq<nat>, edges: seq<Edge>, e: nat)
    requires Choices(parent, edges) && e < |edges|
    ensures Tree(parent) && edges[e].writer < |parent| && edges[e].reader < |parent|
    ensures edges[e].writer != edges[e].reader
  {
  }

  lemma LcaIsAbove(parent: seq<nat>, x: nat, y: nat, l: nat)
    requires Tree(parent) && x < |parent| && y < |parent| && IsLca(parent, x, y, l)
    ensures l < |parent| && Anc(parent, l, x) && Anc(parent, l, y)
  {
  }

  lemma PassedStep(parent: seq<nat>, edges: seq<Edge>, child: nat, e: nat)
    requires Choices(parent, edges) && e < |edges|
    ensures var top := Creator(parent, edges[e]);
            var before := Passed(parent, edges, child, e);
            var half := if Below(parent, top, edges[e].writer, child) then before + [2 * e + 1] else before;
            Passed(parent, edges, child, e + 1) ==
            if Below(parent, top, edges[e].reader, child) then half + [2 * e] else half
  {
    hide Lca, Below;
  }

  lemma CreatedStep(parent: seq<nat>, edges: seq<Edge>, vm: nat, e: nat)
    requires Choices(parent, edges) && e < |edges|
    ensures var before := CreatedAt(parent, edges, vm, e);
            CreatedAt(parent, edges, vm, e + 1) ==
            if Creator(parent, edges[e]) == vm then before + [(2 * e, 2 * e + 1)] else before
  {
    hide Lca;
  }

  method BuildSpawns(parent: seq<nat>, edges: seq<Edge>, order: seq<nat>, spawnOps: map<nat, seq<nat>>)
    returns (spawns: seq<SpawnOp>)
    requires Choices(parent, edges) && Order(parent, order)
    requires forall c: nat | 0 < c < |parent| :: c in spawnOps && spawnOps[c] == Passed(parent, edges, c, |edges|)
    ensures |spawns| == |order|
    ensures forall i | 0 <= i < |order| :: order[i] in order && spawns[i] == SpawnOf(parent, edges, order[i])
  {
    hide Passed;
    spawns := [];
    for i := 0 to |order|
      invariant |spawns| == i
      invariant forall k | 0 <= k < i :: order[k] in order && spawns[k] == SpawnOf(parent, edges, order[k])
    {
      assert order[i] in order;
      spawns := spawns + [SpawnOp(parent[order[i]], order[i], spawnOps[order[i]])];
    }
  }

  method BuildPipes(parent: seq<nat>, edges: seq<Edge>, pipesOps: map<nat, seq<(nat, nat)>>)
    returns (pipes: seq<PipeOp>)
    requires Choices(parent, edges)
    requires forall v: nat | v < |parent| :: v in pipesOps && pipesOps[v] == CreatedAt(parent, edges, v, |edges|)
    ensures pipes == AllPipeOps(parent, edges, |parent|)
  {
    hide CreatedAt;
    pipes := [];
    for v := 0 to |parent|
      invariant pipes == AllPipeOps(parent, edges, v)
    {
      var pairs := pipesOps[v];
      for k := 0 to |pairs|
        invariant pipes == AllPipeOps(parent, edges, v) + PipeOps(v, pairs[..k])
      {
        assert pairs[..k + 1][..k] == pairs[..k];
        pipes := pipes + [PipeOp(v, pairs[k].0, pairs[k].1)];
      }
      assert pairs[..|pairs|] == pairs;
    }
  }

  /** The plan made from the given choices. */
  method GenerateDataGraph(parent: seq<nat>, edges: seq<Edge>) returns (d: Data)
    requires Choices(parent, edges)
    ensures exists order: seq<nat> ::
              Planned(parent, edges, d, order) && BreadthFirst(parent, [0] + order, |order| + 1)
  {
    hide BreadthFirst;
    var visited, spawnOps, pipesOps := VisitSpawnTree(parent);
    var writes: seq<WriteOp> := [];
    for e := 0 to |edges|
      invariant Threaded(parent, edges, e, spawnOps, pipesOps)
      invariant |writes| == e && forall k | 0 <= k < e :: writes[k] == WriteOf(edges, k)
    {
      writes := writes + [WriteOp(edges[e].writer, 2 * e + 1, edges[e].reader, 2 * e, edges[e].data)];
      spawnOps, pipesOps := ThreadPipe(parent, edges, e, spawnOps, pipesOps);
    }
    var spawns := BuildSpawns(parent, edges, visited, spawnOps);
    var pipes := BuildPipes(parent, edges, pipesOps);
    d := Data(spawns, pipes, writes);
    assert Planned(parent, edges, d, visited);
  }
}
