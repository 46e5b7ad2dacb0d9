/** A plan as the Molecule value that travels from the planner (src/dev_utils/mod.rs) to the programs (main.c). */
module PlanCodec {
  import opened Words
  import opened Layouts
  import opened Molecule
  import opened RoundTrips
  import opened Planner

  // ---- Writing ----

  function IndexBytes(n: nat): seq<byte> { ToLE(8, n) }

  function IndexValue(n: nat): Value { Raw(IndexBytes(n)) }

  function IndicesValue(q: seq<nat>): Value {
    Fixed(seq(|q|, i requires 0 <= i < |q| => IndexBytes(q[i])))
  }

  function BytesValue(q: seq<byte>): Value {
    Fixed(seq(|q|, i requires 0 <= i < |q| => [q[i]]))
  }

  function SpawnValue(op: SpawnOp): Value {
    Nested([IndexValue(op.from), IndexValue(op.child), IndicesValue(op.pipes)])
  }

  function PipeValue(op: PipeOp): Value {
    Nested([IndexValue(op.vm), IndexValue(op.readPipe), IndexValue(op.writePipe)])
  }

  function WriteValue(op: WriteOp): Value {
    Nested([IndexValue(op.from), IndexValue(op.fromPipe), IndexValue(op.to), IndexValue(op.toPipe),
            BytesValue(op.data)])
  }

  function Each<T>(q: seq<T>, f: T -> Value): (r: seq<Value>)
    ensures |r| == |q| && forall i | 0 <= i < |q| :: r[i] == f(q[i])
  {
    seq(|q|, i requires 0 <= i < |q| => f(q[i]))
  }

  function DataValue(d: Data): Value {
    Nested([Nested(Each(d.spawns, SpawnValue)), Nested(Each(d.pipes, PipeValue)), Nested(Each(d.writes, WriteValue))])
  }

  // ---- The bytes ----

  /** A pipe entry, byte by byte: its size, where its three fields start, and these in the order of the schema. */
  lemma PipeBytes(op: PipeOp)
    ensures Build(PipeValue(op)) ==
            [40, 0, 0, 0] + [16, 0, 0, 0] + [24, 0, 0, 0] + [32, 0, 0, 0] +
            ToLE(8, op.vm) + ToLE(8, op.readPipe) + ToLE(8, op.writePipe)
  {
    var parts := [ToLE(8, op.vm), ToLE(8, op.readPipe), ToLE(8, op.writePipe)];
    assert Build(PipeValue(op)) == Layout(parts) by { assert Built(PipeValue(op)) == parts; }
    hide Build;
    ThreeParts(parts[0], parts[1], parts[2]);
    SmallNumbers();
  }

  lemma ThreeParts(a: seq<byte>, b: seq<byte>, c: seq<byte>)
    requires |a| == 8 && |b| == 8 && |c| == 8
    ensures Layout([a, b, c]) == Pack(40) + Pack(16) + Pack(24) + Pack(32) + a + b + c
  {
    var parts := [a, b, c];
    assert Offset(parts, 1) == 24 && Offset(parts, 2) == 32 && Offset(parts, 3) == 40;
    assert Offsets(parts, 3) == [16, 24, 32];
    hide Pack;
    Concat3(a, b, c);
    Packed3(16, 24, 32);
  }

  lemma Concat3(a: seq<byte>, b: seq<byte>, c: seq<byte>)
    ensures Concat([a, b, c]) == a + b + c
  {
    assert [a, b, c][..2] == [a, b] && [a, b][..1] == [a] && [a][..0] == [];
    assert Concat([a]) == a && Concat([a, b]) == a + b;
  }

  lemma Packed3(x: nat, y: nat, z: nat)
    ensures Packed([x, y, z]) == Pack(x) + Pack(y) + Pack(z)
  {
    hide Pack;
    assert [x, y, z][..2] == [x, y] && [x, y][..1] == [x] && [x][..0] == [];
    assert Packed([x]) == Pack(x) && Packed([x, y]) == Pack(x) + Pack(y);
  }

  /** The parts of the other entries and of the whole witness, in the order of the schema. */
  lemma EntryParts(spawn: SpawnOp, write: WriteOp)
    ensures Build(SpawnValue(spawn)) ==
            Layout([ToLE(8, spawn.from), ToLE(8, spawn.child), Build(IndicesValue(spawn.pipes))])
    ensures Build(WriteValue(write)) ==
            Layout([ToLE(8, write.from), ToLE(8, write.fromPipe), ToLE(8, write.to), ToLE(8, write.toPipe),
                    Build(BytesValue(write.data))])
  {
    hide ToLE, IndicesValue, BytesValue;
    assert Built(SpawnValue(spawn)) ==
           [ToLE(8, spawn.from), ToLE(8, spawn.child), Build(IndicesValue(spawn.pipes))];
    assert Built(WriteValue(write)) ==
           [ToLE(8, write.from), ToLE(8, write.fromPipe), ToLE(8, write.to), ToLE(8, write.toPipe),
            Build(BytesValue(write.data))];
  }

  lemma ListBytes(indices: seq<nat>, data: seq<byte>)
    ensures Build(IndicesValue(indices)) ==
            Pack(|indices|) + Concat(seq(|indices|, i requires 0 <= i < |indices| => ToLE(8, indices[i])))
    ensures Build(BytesValue(data)) == Pack(|data|) + data
  {
    hide ToLE, Pack;
    assert IndicesValue(indices).items == seq(|indices|, i requires 0 <= i < |indices| => ToLE(8, indices[i]));
    SingleBytes(data);
  }

  lemma {:induction false} SingleBytes(q: seq<byte>)
    ensures Concat(BytesValue(q).items) == q
  {
    if q != [] {
      var n := |q| - 1;
      SingleBytes(q[..n]);
      assert BytesValue(q).items[..n] == BytesValue(q[..n]).items;
      assert q == q[..n] + [q[n]];
    }
  }

  lemma SmallNumbers()
    ensures Pack(40) == [40, 0, 0, 0] && Pack(16) == [16, 0, 0, 0]
    ensures Pack(24) == [24, 0, 0, 0] && Pack(32) == [32, 0, 0, 0]
  {
  }

  // ---- Reading ----

  function IndexOf(v: Value): nat
    requires Conforms(VM_INDEX, v)
  {
    FromLE(v.bytes)
  }

  function IndicesOf(v: Value): seq<nat>
    requires Conforms(PIPE_INDICES, v)
  {
    seq(|v.items|, i requires 0 <= i < |v.items| => FromLE(v.items[i]))
  }

  function BytesOf(v: Value): seq<byte>
    requires Conforms(BYTES, v)
  {
    seq(|v.items|, i requires 0 <= i < |v.items| => v.items[i][0])
  }

  function SpawnOfValue(v: Value): SpawnOp
    requires Conforms(SPAWN, v)
  {
    SpawnOp(IndexOf(v.parts[0]), IndexOf(v.parts[1]), IndicesOf(v.parts[2]))
  }

  function PipeOfValue(v: Value): PipeOp
    requires Conforms(PIPE, v)
  {
    PipeOp(IndexOf(v.parts[0]), IndexOf(v.parts[1]), IndexOf(v.parts[2]))
  }

  function WriteOfValue(v: Value): WriteOp
    requires Conforms(WRITE, v)
  {
    WriteOp(IndexOf(v.parts[0]), IndexOf(v.parts[1]), IndexOf(v.parts[2]), IndexOf(v.parts[3]), BytesOf(v.parts[4]))
  }

  function DataOf(v: Value): Data
    requires Conforms(DATA, v)
  {
    assert Conforms(DynVec(SPAWN), v.parts[0]) && Conforms(DynVec(PIPE), v.parts[1]);
    assert Conforms(DynVec(WRITE), v.parts[2]);
    var spawns, pipes, writes := v.parts[0].parts, v.parts[1].parts, v.parts[2].parts;
    Data(seq(|spawns|, i requires 0 <= i < |spawns| => SpawnOfValue(spawns[i])),
         seq(|pipes|, i requires 0 <= i < |pipes| => PipeOfValue(pipes[i])),
         seq(|writes|, i requires 0 <= i < |writes| => WriteOfValue(writes[i])))
  }

  // ---- The plan that arrives ----

  predicate Narrow(n: nat) {
    n < TWO64
  }

  /** All indices fit into 64 bits. */
  ghost predicate Narrows(d: Data) {
    && (forall i | 0 <= i < |d.spawns| :: SpawnNarrow(d.spawns[i]))
    && (forall i | 0 <= i < |d.pipes| :: PipeNarrow(d.pipes[i]))
    && (forall i | 0 <= i < |d.writes| :: WriteNarrow(d.writes[i]))
  }

  ghost predicate SpawnNarrow(op: SpawnOp) {
    Narrow(op.from) && Narrow(op.child) && forall k | 0 <= k < |op.pipes| :: Narrow(op.pipes[k])
  }

  predicate PipeNarrow(op: PipeOp) {
    Narrow(op.vm) && Narrow(op.readPipe) && Narrow(op.writePipe)
  }

  predicate WriteNarrow(op: WriteOp) {
    Narrow(op.from) && Narrow(op.fromPipe) && Narrow(op.to) && Narrow(op.toPipe)
  }

  lemma IndexArrives(n: nat)
    requires Narrow(n)
    ensures Conforms(VM_INDEX, IndexValue(n)) && IndexOf(IndexValue(n)) == n
  {
    Pow256Values();
    FromToLE(8, n);
  }

  lemma SpawnArrives(op: SpawnOp)
    requires SpawnNarrow(op)
    ensures Conforms(SPAWN, SpawnValue(op)) && SpawnOfValue(SpawnValue(op)) == op
  {
    hide ToLE, FromLE, IndexOf;
    IndexArrives(op.from);
    IndexArrives(op.child);
    IndicesArrive(op.pipes);
  }

  lemma IndicesArrive(q: seq<nat>)
    requires forall k | 0 <= k < |q| :: Narrow(q[k])
    ensures Conforms(PIPE_INDICES, IndicesValue(q)) && IndicesOf(IndicesValue(q)) == q
  {
    hide ToLE, FromLE;
    forall k | 0 <= k < |q| ensures FromLE(IndexBytes(q[k])) == q[k] { IndexArrives(q[k]); }
  }

  lemma PipeArrives(op: PipeOp)
    requires PipeNarrow(op)
    ensures Conforms(PIPE, PipeValue(op)) && PipeOfValue(PipeValue(op)) == op
  {
    hide ToLE, FromLE, IndexOf;
    IndexArrives(op.vm);
    IndexArrives(op.readPipe);
    IndexArrives(op.writePipe);
  }

  lemma WriteArrives(op: WriteOp)
    requires WriteNarrow(op)
    ensures Conforms(WRITE, WriteValue(op)) && WriteOfValue(WriteValue(op)) == op
  {
    hide ToLE, FromLE, IndexOf, BytesOf;
    IndexArrives(op.from);
    IndexArrives(op.fromPipe);
    IndexArrives(op.to);
    IndexArrives(op.toPipe);
    BytesArrive(op.data);
  }

  lemma BytesArrive(q: seq<byte>)
    ensures Conforms(BYTES, BytesValue(q)) && BytesOf(BytesValue(q)) == q
  {
  }

  lemma DataArrives(d: Data)
    requires Narrows(d)
    ensures Conforms(DATA, DataValue(d)) && DataOf(DataValue(d)) == d
  {
    hide SpawnValue, PipeValue, WriteValue, SpawnOfValue, PipeOfValue, WriteOfValue;
    var v := DataValue(d);
    forall i | 0 <= i < |d.spawns|
      ensures Conforms(SPAWN, SpawnValue(d.spawns[i])) && SpawnOfValue(SpawnValue(d.spawns[i])) == d.spawns[i]
    {
      SpawnArrives(d.spawns[i]);
    }
    forall i | 0 <= i < |d.pipes|
      ensures Conforms(PIPE, PipeValue(d.pipes[i])) && PipeOfValue(PipeValue(d.pipes[i])) == d.pipes[i]
    {
      PipeArrives(d.pipes[i]);
    }
    forall i | 0 <= i < |d.writes|
      ensures Conforms(WRITE, WriteValue(d.writes[i])) && WriteOfValue(WriteValue(d.writes[i])) == d.writes[i]
    {
      WriteArrives(d.writes[i]);
    }
    assert Conforms(DynVec(SPAWN), v.parts[0]) && Conforms(DynVec(PIPE), v.parts[1]);
    assert Conforms(DynVec(WRITE), v.parts[2]);
    assert Conforms(DATA, v);
  }

  /** The bytes that the planner puts into the transaction. */
  function Witness(d: Data): seq<byte> {
    Build(DataValue(d))
  }

  lemma WitnessParts(d: Data)
    ensures Witness(d) ==
            Layout([Layout(seq(|d.spawns|, i requires 0 <= i < |d.spawns| => Build(SpawnValue(d.spawns[i])))),
                    Layout(seq(|d.pipes|, i requires 0 <= i < |d.pipes| => Build(PipeValue(d.pipes[i])))),
                    Layout(seq(|d.writes|, i requires 0 <= i < |d.writes| => Build(WriteValue(d.writes[i]))))])
  {
    hide SpawnValue, PipeValue, WriteValue, Layout;
    var v := DataValue(d);
    assert Built(v.parts[0]) == seq(|d.spawns|, i requires 0 <= i < |d.spawns| => Build(SpawnValue(d.spawns[i])));
    assert Built(v.parts[1]) == seq(|d.pipes|, i requires 0 <= i < |d.pipes| => Build(PipeValue(d.pipes[i])));
    assert Built(v.parts[2]) == seq(|d.writes|, i requires 0 <= i < |d.writes| => Build(WriteValue(d.writes[i])));
    assert Built(v) == [Build(v.parts[0]), Build(v.parts[1]), Build(v.parts[2])];
  }

  const INPUT_DATA_LENGTH: nat := 600 * 1024

  /** How a program loads its plan. A longer witness overruns the buffer: its length is kept although only the
      front of it was loaded, so its verification is taken to fail. */
  function LoadPlan(bytes: seq<byte>): Option<Data> {
    if |bytes| > INPUT_DATA_LENGTH then None
    else if Verify(DATA, bytes, false) != Valid then None
    else
      SchemaIsWellFormed();
      ReadBuilds(DATA, bytes);
      Some(DataOf(Read(DATA, bytes, false)))
  }

  /** The codec loses nothing: what the planner builds is accepted, in both modes, and holds the plan that was made. */
  lemma PlanRoundTrip(d: Data, compatible: bool)
    requires Narrows(d) && |Witness(d)| < TWO32
    ensures var s := Witness(d);
            && Verify(DATA, s, compatible) == Valid
            && Conforms(DATA, Read(DATA, s, compatible))
            && DataOf(Read(DATA, s, compatible)) == d
  {
    hide Verify, Read, Build, Narrows, DataOf, DataValue, Conforms;
    DataArrives(d);
    SchemaIsWellFormed();
    BuildReads(DATA, DataValue(d), compatible);
  }

  /** Every program reads the plan that was made if and only if its encoding fits into the input buffer. */
  lemma PlanArrives(d: Data)
    requires Narrows(d)
    ensures LoadPlan(Witness(d)) == Some(d) <==> |Witness(d)| <= 600 * 1024
    ensures LoadPlan(Witness(d)) == None <==> |Witness(d)| > 600 * 1024
  {
    hide Verify, Read, Witness, Narrows, DataOf, Conforms;
    if |Witness(d)| <= INPUT_DATA_LENGTH { PlanRoundTrip(d, false); }
  }

  lemma SchemaIsWellFormed()
    ensures WellFormed(DATA)
  {
    assert WellFormed(PIPE) && WellFormed(WRITE) && WellFormed(SPAWN);
  }
}
