/** How long the encoding of a plan is, in the numbers of its operations. */
module PlanSizes {
  import opened Words
  import opened Layouts
  import opened Molecule
  import opened RoundTrips
  import opened Trees
  import opened Planner
  import opened PlanFacts
  import opened PlanCodec

  function Sum<T>(q: seq<T>, size: T -> nat): nat {
    if q == [] then 0 else Sum(q[..|q| - 1], size) + size(q[|q| - 1])
  }

  lemma {:induction false} SumBound<T>(q: seq<T>, size: T -> nat, bound: nat)
    requires forall i | 0 <= i < |q| :: size(q[i]) <= bound
    ensures Sum(q, size) <= bound * |q|
  {
    if q != [] {
      SumBound(q[..|q| - 1], size, bound);
      assert bound * |q| == bound * (|q| - 1) + bound;
    }
  }

  lemma {:induction false} SumAtLeast<T>(q: seq<T>, size: T -> nat, bound: nat)
    requires forall i | 0 <= i < |q| :: size(q[i]) >= bound
    ensures Sum(q, size) >= bound * |q|
  {
    if q != [] {
      SumAtLeast(q[..|q| - 1], size, bound);
      assert bound * |q| == bound * (|q| - 1) + bound;
    }
  }

  lemma {:induction false} SumSplits<T>(q: seq<T>, whole: T -> nat, part: T -> nat, factor: nat, each: nat)
    requires forall x: T :: whole(x) == each + factor * part(x)
    ensures Sum(q, whole) == each * |q| + factor * Sum(q, part)
  {
    if q != [] {
      var front, last := q[..|q| - 1], q[|q| - 1];
      SumSplits(front, whole, part, factor, each);
      assert each * |q| == each * |front| + each;
      assert factor * (Sum(front, part) + part(last)) == factor * Sum(front, part) + factor * part(last);
    }
  }

  // ---- Shapes ----

  lemma LayoutLength(parts: seq<seq<byte>>)
    ensures |Layout(parts)| == NUMBER_SIZE * (|parts| + 1) + |Concat(parts)|
  {
    ConcatSize(parts);
  }

  lemma {:induction false} VectorConcat<T>(q: seq<T>, f: T -> Value, size: T -> nat)
    requires forall i | 0 <= i < |q| :: |Build(f(q[i]))| == size(q[i])
    ensures |Concat(Built(Nested(Each(q, f))))| == Sum(q, size)
  {
    hide Build;
    var parts := Built(Nested(Each(q, f)));
    if q != [] {
      var m := |q| - 1;
      VectorConcat(q[..m], f, size);
      assert parts[..m] == Built(Nested(Each(q[..m], f)));
    }
  }

  lemma VectorLength<T>(q: seq<T>, f: T -> Value, size: T -> nat)
    requires forall i | 0 <= i < |q| :: |Build(f(q[i]))| == size(q[i])
    ensures |Build(Nested(Each(q, f)))| == NUMBER_SIZE * (|q| + 1) + Sum(q, size)
  {
    VectorConcat(q, f, size);
    LayoutLength(Built(Nested(Each(q, f))));
  }

  lemma ConcatThree(parts: seq<seq<byte>>)
    requires |parts| == 3
    ensures |Concat(parts)| == |parts[0]| + |parts[1]| + |parts[2]|
  {
    assert parts[..2][..1] == parts[..1] && parts[..1][..0] == [];
    assert |Concat(parts[..1])| == |parts[0]|;
    assert |Concat(parts[..2])| == |parts[0]| + |parts[1]|;
  }

  lemma ConcatFive(parts: seq<seq<byte>>)
    requires |parts| == 5
    ensures |Concat(parts)| == |parts[0]| + |parts[1]| + |parts[2]| + |parts[3]| + |parts[4]|
  {
    ConcatThree(parts[..3]);
    assert parts[..4][..3] == parts[..3] && parts[..5] == parts;
    assert |Concat(parts[..4])| == |Concat(parts[..3])| + |parts[3]|;
  }

  lemma FixedLength(items: seq<seq<byte>>, size: nat)
    requires Uniform(items, size)
    ensures |Build(Fixed(items))| == NUMBER_SIZE + size * |items|
  {
    UniformSize(items, size);
  }

  // ---- Operations ----

  function SpawnSize(op: SpawnOp): nat { 36 + 8 * |op.pipes| }

  function PipeSize(op: PipeOp): nat { 40 }

  function WriteSize(op: WriteOp): nat { 60 + |op.data| }

  lemma SpawnLength(op: SpawnOp)
    ensures |Build(SpawnValue(op))| == SpawnSize(op)
  {
    var parts := Built(SpawnValue(op));
    assert Build(SpawnValue(op)) == Layout(parts);
    assert parts == [Build(IndexValue(op.from)), Build(IndexValue(op.child)), Build(IndicesValue(op.pipes))];
    LayoutLength(parts);
    ConcatThree(parts);
    var items := IndicesValue(op.pipes).items;
    FixedLength(items, 8);
  }

  lemma PipeLength(op: PipeOp)
    ensures |Build(PipeValue(op))| == PipeSize(op)
  {
    var parts := Built(PipeValue(op));
    assert Build(PipeValue(op)) == Layout(parts);
    assert parts == [Build(IndexValue(op.vm)), Build(IndexValue(op.readPipe)), Build(IndexValue(op.writePipe))];
    LayoutLength(parts);
    ConcatThree(parts);
  }

  lemma WriteLength(op: WriteOp)
    ensures |Build(WriteValue(op))| == WriteSize(op)
  {
    var parts := Built(WriteValue(op));
    assert Build(WriteValue(op)) == Layout(parts);
    assert parts == [Build(IndexValue(op.from)), Build(IndexValue(op.fromPipe)), Build(IndexValue(op.to)),
                     Build(IndexValue(op.toPipe)), Build(BytesValue(op.data))];
    LayoutLength(parts);
    ConcatFive(parts);
    FixedLength(BytesValue(op.data).items, 1);
  }

  function PassedEnds(op: SpawnOp): nat { |op.pipes| }

  function DataBytes(op: WriteOp): nat { |op.data| }

  /** The exact length of an encoded plan. */
  lemma WitnessLength(d: Data)
    ensures |Witness(d)| == 28 + 40 * |d.spawns| + 8 * Sum(d.spawns, PassedEnds)
                            + 44 * |d.pipes| + 64 * |d.writes| + Sum(d.writes, DataBytes)
  {
    hide Build, SpawnValue, PipeValue, WriteValue;
    forall i | 0 <= i < |d.spawns| ensures |Build(SpawnValue(d.spawns[i]))| == SpawnSize(d.spawns[i]) {
      SpawnLength(d.spawns[i]);
    }
    forall i | 0 <= i < |d.pipes| ensures |Build(PipeValue(d.pipes[i]))| == PipeSize(d.pipes[i]) {
      PipeLength(d.pipes[i]);
    }
    forall i | 0 <= i < |d.writes| ensures |Build(WriteValue(d.writes[i]))| == WriteSize(d.writes[i]) {
      WriteLength(d.writes[i]);
    }
    VectorLength(d.spawns, SpawnValue, SpawnSize);
    VectorLength(d.pipes, PipeValue, PipeSize);
    VectorLength(d.writes, WriteValue, WriteSize);
    SumSplits(d.spawns, SpawnSize, PassedEnds, 8, 36);
    SumBound(d.pipes, PipeSize, 40);
    SumAtLeast(d.pipes, PipeSize, 40);
    SumSplits(d.writes, WriteSize, DataBytes, 1, 60);
    ThreeVectors(d);
  }

  lemma ThreeVectors(d: Data)
    ensures |Witness(d)| == 16 + |Build(Nested(Each(d.spawns, SpawnValue)))| +
                            |Build(Nested(Each(d.pipes, PipeValue)))| + |Build(Nested(Each(d.writes, WriteValue)))|
  {
    var parts := Built(DataValue(d));
    LayoutLength(parts);
    ConcatThree(parts);
  }

  // ---- Plans that the planner makes ----

  lemma {:induction false} CoverBelow(q: seq<nat>, n: nat)
    requires forall c | 0 <= c < n :: c in q
    ensures |q| >= n
    decreases n
  {
    if n > 0 {
      assert n - 1 in q;
      var i: nat :| i < |q| && q[i] == n - 1;
      var rest := q[..i] + q[i + 1..];
      forall c | 0 <= c < n - 1 ensures c in rest {
        assert c in q;
        var k: nat :| k < |q| && q[k] == c;
        assert rest[if k < i then k else k - 1] == c;
      }
      CoverBelow(rest, n - 1);
    }
  }

  lemma OrderCount(parent: seq<nat>, order: seq<nat>)
    requires Tree(parent) && Order(parent, order)
    ensures |order| == |parent| - 1
  {
    var all := [0] + order;
    assert 0 !in order;
    ExtendDistinct([0], order);
    forall i | 0 <= i < |all| ensures all[i] < |parent| { assert i > 0 ==> all[i] in order; }
    DistinctBelow(all, |parent|);
    forall c | 0 <= c < |parent| ensures c in all { assert c > 0 ==> c in order; }
    CoverBelow(all, |parent|);
  }

  lemma PipeCount(p: Plan)
    requires p.Made()
    ensures |p.d.pipes| == |p.edges|
  {
    hide Planned, MakesPipe, Creator;
    var q: seq<nat> := seq(|p.d.pipes|, k requires 0 <= k < |p.d.pipes| => p.d.pipes[k].readPipe / 2);
    forall k | 0 <= k < |q| ensures q[k] < |p.edges| && p.d.pipes[k].readPipe == 2 * q[k] {
      PipeOpFacts(p, k);
      ReadPipeHalf(p, p.d.pipes[k]);
    }
    forall i, j | 0 <= i < j < |q| ensures q[i] != q[j] {
      PipeOpFacts(p, i);
    }
    DistinctBelow(q, |p.edges|);
    forall e | 0 <= e < |p.edges| ensures e in q {
      var k := PipePosition(p, e);
      assert q[k] == e;
    }
    CoverBelow(q, |p.edges|);
  }

  lemma ReadPipeHalf(p: Plan, op: PipeOp)
    requires p.Made() && MakesPipe(p.parent, p.edges, op)
    ensures op.readPipe / 2 < |p.edges| && op.readPipe == 2 * (op.readPipe / 2)
  {
  }

  /** The ways from the creator of a pipe to its writer and to its reader have no VM in common. */
  lemma OneEndEach(parent: seq<nat>, edge: Edge, e: nat, child: nat)
    requires Tree(parent) && edge.writer < |parent| && edge.reader < |parent| && child < |parent|
    ensures |PassedOf(parent, edge, e, child)| <= 1
  {
    hide Lca;
    var top := Creator(parent, edge);
    LcaIsLca(parent, edge.writer, edge.reader);
    if Below(parent, top, edge.writer, child) && Below(parent, top, edge.reader, child) {
      AncIsSmaller(parent, child, top);
      AncIsSmaller(parent, top, child);
    }
  }

  lemma {:induction false} PassedFew(parent: seq<nat>, edges: seq<Edge>, child: nat, n: nat)
    requires Choices(parent, edges) && n <= |edges| && child < |parent|
    ensures |Passed(parent, edges, child, n)| <= n
    decreases n
  {
    hide PassedOf;
    if n > 0 {
      PassedFew(parent, edges, child, n - 1);
      OneEndEach(parent, edges[n - 1], n - 1, child);
    }
  }

  function EdgeBytes(edge: Edge): nat { |edge.data| }

  lemma {:induction false} SameBytes(edges: seq<Edge>, writes: seq<WriteOp>)
    requires |writes| == |edges| && forall e | 0 <= e < |edges| :: writes[e].data == edges[e].data
    ensures Sum(writes, DataBytes) == Sum(edges, EdgeBytes)
  {
    if edges != [] { SameBytes(edges[..|edges| - 1], writes[..|edges| - 1]); }
  }

  lemma MadeSizes(p: Plan)
    requires p.Made()
    ensures |p.d.spawns| == |p.parent| - 1 && |p.d.pipes| == |p.d.writes| == |p.edges|
    ensures Sum(p.d.writes, DataBytes) == Sum(p.edges, EdgeBytes)
    ensures forall k | 0 <= k < |p.d.spawns| :: PassedEnds(p.d.spawns[k]) <= |p.edges|
  {
    hide Creator, Passed, AllPipeOps;
    OrderCount(p.parent, p.order);
    PipeCount(p);
    SameBytes(p.edges, p.d.writes);
    forall k | 0 <= k < |p.d.spawns| ensures PassedEnds(p.d.spawns[k]) <= |p.edges| {
      assert p.order[k] in p.order;
      PassedFew(p.parent, p.edges, p.order[k], |p.edges|);
    }
  }

  /** A bound on the encoded plan that needs no more than the choices it is made from. */
  function LengthBound(parent: seq<nat>, edges: seq<Edge>): nat
    requires |parent| > 0
  {
    28 + (|parent| - 1) * (40 + 8 * |edges|) + 108 * |edges| + Sum(edges, EdgeBytes)
  }

  /** The exact length of a plan that was made, and that it is within the bound. */
  lemma PlanLength(p: Plan)
    requires p.Made() && |p.parent| > 0
    ensures |Witness(p.d)| == 28 + 40 * (|p.parent| - 1) + 8 * Sum(p.d.spawns, PassedEnds) + 108 * |p.edges| +
                              Sum(p.edges, EdgeBytes)
    ensures |Witness(p.d)| <= LengthBound(p.parent, p.edges)
  {
    hide Witness, Planned, Choices, Sum;
    MadeSizes(p);
    WitnessLength(p.d);
    SumBound(p.d.spawns, PassedEnds, |p.edges|);
    var n, e, passed := |p.parent| - 1, |p.edges|, Sum(p.d.spawns, PassedEnds);
    assert n * (40 + 8 * e) == 40 * n + 8 * (e * n);
  }

  /** A plan short enough for the input buffer has only indices of 64 bits. */
  lemma MadeNarrows(p: Plan)
    requires p.Made() && |Witness(p.d)| <= INPUT_DATA_LENGTH
    ensures Narrows(p.d)
  {
    hide Witness, Planned, Creator, Passed;
    MadeTrees(p);
    PlanLength(p);
    forall k | 0 <= k < |p.d.spawns| ensures SpawnNarrow(p.d.spawns[k]) {
      PassedExactlyOnPath(p, k, 0);
      forall i | 0 <= i < |p.d.spawns[k].pipes| ensures Narrow(p.d.spawns[k].pipes[i]) {
        PassedExactlyOnPath(p, k, p.d.spawns[k].pipes[i]);
        assert p.d.spawns[k].pipes[i] in p.d.spawns[k].pipes;
      }
    }
    forall k | 0 <= k < |p.d.pipes| ensures PipeNarrow(p.d.pipes[k]) { PipeOpFacts(p, k); }
    forall k | 0 <= k < |p.d.writes| ensures WriteNarrow(p.d.writes[k]) { WriteFacts(p, k); }
  }

  lemma MadeTrees(p: Plan)
    requires p.Made()
    ensures |p.parent| > 0
  {
  }

  /** Every program of a plan that was made loads it if and only if its encoding fits into the input buffer. */
  lemma LoadsIfItFits(p: Plan)
    requires p.Made()
    ensures LoadPlan(Witness(p.d)) == Some(p.d) <==> |Witness(p.d)| <= 600 * 1024
  {
    hide Witness, LoadPlan;
    if |Witness(p.d)| <= INPUT_DATA_LENGTH {
      MadeNarrows(p);
      PlanArrives(p.d);
    } else {
      TooLong(Witness(p.d));
    }
  }

  lemma TooLong(bytes: seq<byte>)
    requires |bytes| > INPUT_DATA_LENGTH
    ensures LoadPlan(bytes) == None
  {
  }
}
