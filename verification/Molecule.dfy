/** The Molecule codec of the plan (src/dev_utils/dag.rs). The generated code repeats the same four shapes for every
    type of the schema; here each shape is written once, for any schema. */
module Molecule {
  import opened Words
  import opened Layouts

  /** `Array`: so many bytes. `FixVec`: items of one size. `Table`: the listed fields. `DynVec`: items of any size. */
  datatype Schema =
    | Array(size: nat)
    | FixVec(itemSize: nat)
    | Table(fields: seq<Schema>)
    | DynVec(item: Schema)

  datatype Value =
    | Raw(bytes: seq<byte>)
    | Fixed(items: seq<seq<byte>>)
    | Nested(parts: seq<Value>)

  const VM_INDEX := Array(8)
  const PIPE_INDEX := Array(8)
  const PIPE_INDICES := FixVec(8)
  const BYTES := FixVec(1)
  const PIPE := Table([VM_INDEX, PIPE_INDEX, PIPE_INDEX])
  const WRITE := Table([VM_INDEX, PIPE_INDEX, VM_INDEX, PIPE_INDEX, BYTES])
  const SPAWN := Table([VM_INDEX, VM_INDEX, PIPE_INDICES])
  const DATA := Table([DynVec(SPAWN), DynVec(PIPE), DynVec(WRITE)])

  /** Every table has a field, and items take up room. */
  predicate WellFormed(schema: Schema) {
    match schema
    case Array(_) => true
    case FixVec(itemSize) => itemSize > 0
    case Table(fields) => fields != [] && forall i | 0 <= i < |fields| :: WellFormed(fields[i])
    case DynVec(item) => WellFormed(item)
  }

  predicate Conforms(schema: Schema, v: Value)
    decreases schema
  {
    match schema
    case Array(size) => v.Raw? && |v.bytes| == size
    case FixVec(itemSize) => v.Fixed? && forall i | 0 <= i < |v.items| :: |v.items[i]| == itemSize
    case Table(fields) =>
      v.Nested? && |v.parts| == |fields| && forall i | 0 <= i < |fields| :: Conforms(fields[i], v.parts[i])
    case DynVec(item) => v.Nested? && forall i | 0 <= i < |v.parts| :: Conforms(item, v.parts[i])
  }

  // ---- Building ----

  function Build(v: Value): seq<byte>
    decreases v
  {
    match v
    case Raw(bytes) => bytes
    case Fixed(items) => Pack(|items|) + Concat(items)
    case Nested(parts) => Layout(Built(v))
  }

  function Built(v: Value): (r: seq<seq<byte>>)
    requires v.Nested?
    ensures |r| == |v.parts|
    decreases v, 0
  {
    seq(|v.parts|, i requires 0 <= i < |v.parts| => Build(v.parts[i]))
  }

  /** `write` of a table: sizes are added up into offsets, then everything is appended to the writer. */
  method WriteTable(inner: seq<seq<byte>>) returns (writer: seq<byte>)
    ensures writer == Layout(inner)
  {
    var totalSize := NUMBER_SIZE * (|inner| + 1);
    var offsets: seq<nat> := [];
    for i := 0 to |inner|
      invariant totalSize == Offset(inner, i) && offsets == Offsets(inner, i)
    {
      offsets := offsets + [totalSize];
      totalSize := totalSize + |inner[i]|;
    }
    writer := Pack(totalSize);
    for i := 0 to |offsets|
      invariant writer == Pack(totalSize) + Packed(offsets[..i])
    {
      assert offsets[..i + 1][..i] == offsets[..i];
      writer := writer + Pack(offsets[i]);
    }
    assert offsets[..|offsets|] == offsets;
    ghost var header := writer;
    for i := 0 to |inner|
      invariant writer == header + Concat(inner[..i])
    {
      assert inner[..i + 1][..i] == inner[..i];
      writer := writer + inner[i];
    }
    assert inner[..|inner|] == inner;
  }

  /** `write` of a dynamic vector: an empty one is a lone size. */
  method WriteDynVec(inner: seq<seq<byte>>) returns (writer: seq<byte>)
    ensures writer == Layout(inner)
  {
    if |inner| == 0 {
      writer := Pack(NUMBER_SIZE);
      NothingPacked();
    } else {
      writer := WriteTable(inner);
    }
  }

  /** `write` of a fixed vector. */
  method WriteFixVec(inner: seq<seq<byte>>) returns (writer: seq<byte>)
    ensures writer == Build(Fixed(inner))
  {
    writer := Pack(|inner|);
    for i := 0 to |inner|
      invariant writer == Pack(|inner|) + Concat(inner[..i])
    {
      assert inner[..i + 1][..i] == inner[..i];
      writer := writer + inner[i];
    }
    assert inner[..|inner|] == inner;
  }

  // ---- Verifying ----

  datatype Verdict = Valid | HeaderIsBroken | TotalSizeNotMatch | OffsetsNotMatch | FieldCountNotMatch

  /** The checks on the sizes at the front, in their order; `Valid` if the offsets can be read. */
  function VerifyFront(s: seq<byte>): Verdict {
    if |s| < NUMBER_SIZE then HeaderIsBroken
    else if |s| != Number(s, 0) then TotalSizeNotMatch
    else if |s| < NUMBER_SIZE * 2 then HeaderIsBroken
    else
      var first := Number(s, NUMBER_SIZE);
      if first % NUMBER_SIZE != 0 || first < NUMBER_SIZE * 2 then OffsetsNotMatch
      else if |s| < first then HeaderIsBroken
      else Valid
  }

  /** How many offsets there are. */
  function Count(s: seq<byte>): nat
    requires VerifyFront(s) == Valid
  {
    Number(s, NUMBER_SIZE) / NUMBER_SIZE - 1
  }

  lemma CountFits(s: seq<byte>)
    requires VerifyFront(s) == Valid
    ensures NUMBER_SIZE * (Count(s) + 1) == Number(s, NUMBER_SIZE) <= |s| && Count(s) > 0
    ensures Number(s, 0) == |s|
  {
  }

  predicate Rising(s: seq<byte>, n: nat)
    requires NUMBER_SIZE * (n + 1) <= |s|
  {
    forall i | 0 <= i < n :: Cut(s, n, i) <= Cut(s, n, i + 1)
  }

  lemma FrontIsHeader(s: seq<byte>)
    requires VerifyFront(s) == Valid
    ensures NUMBER_SIZE * (Count(s) + 1) <= |s| && (Rising(s, Count(s)) ==> Header(s, Count(s)))
  {
    CountFits(s);
  }

  function Verify(schema: Schema, s: seq<byte>, compatible: bool): Verdict
    decreases schema, 1, 0
  {
    match schema
    case Array(size) => if |s| != size then TotalSizeNotMatch else Valid
    case FixVec(itemSize) =>
      if |s| < NUMBER_SIZE then HeaderIsBroken
      else
        var count := Number(s, 0);
        if count == 0 then if |s| != NUMBER_SIZE then TotalSizeNotMatch else Valid
        else if |s| != NUMBER_SIZE + itemSize * count then TotalSizeNotMatch
        else Valid
    case Table(fields) =>
      if VerifyFront(s) != Valid then VerifyFront(s)
      else if Count(s) < |fields| then FieldCountNotMatch
      else if !compatible && Count(s) > |fields| then FieldCountNotMatch
      else
        FrontIsHeader(s);
        if !Rising(s, Count(s)) then OffsetsNotMatch
        else VerifyFields(schema, s, compatible, 0)
    case DynVec(item) =>
      if |s| >= NUMBER_SIZE && |s| == Number(s, 0) && |s| == NUMBER_SIZE then Valid
      else if |s| >= NUMBER_SIZE && |s| == Number(s, 0) && |s| < NUMBER_SIZE * 2 then TotalSizeNotMatch
      else if VerifyFront(s) != Valid then VerifyFront(s)
      else
        FrontIsHeader(s);
        if !Rising(s, Count(s)) then OffsetsNotMatch
        else VerifyItems(schema, s, compatible, 0)
  }

  /** The fields that the schema knows, one after the other; the first failure is reported. */
  function VerifyFields(schema: Schema, s: seq<byte>, compatible: bool, i: nat): Verdict
    requires schema.Table? && VerifyFront(s) == Valid && Header(s, Count(s))
    requires i <= |schema.fields| <= Count(s)
    decreases schema, 0, |schema.fields| - i
  {
    if i == |schema.fields| then Valid
    else
      var verdict := Verify(schema.fields[i], Part(s, Count(s), i), compatible);
      if verdict != Valid then verdict else VerifyFields(schema, s, compatible, i + 1)
  }

  function VerifyItems(schema: Schema, s: seq<byte>, compatible: bool, i: nat): Verdict
    requires schema.DynVec? && VerifyFront(s) == Valid && Header(s, Count(s)) && i <= Count(s)
    decreases schema, 0, Count(s) - i
  {
    if i == Count(s) then Valid
    else
      var verdict := Verify(schema.item, Part(s, Count(s), i), compatible);
      if verdict != Valid then verdict else VerifyItems(schema, s, compatible, i + 1)
  }

  // ---- Getters ----

  ghost predicate Verified(s: seq<byte>) {
    VerifyFront(s) == Valid && NUMBER_SIZE * (Count(s) + 1) <= |s| && Rising(s, Count(s))
  }

  /** The getter of field `i` of a table that the schema gives `fieldCount` fields. */
  function Field(s: seq<byte>, fieldCount: nat, i: nat): seq<byte>
    requires Verified(s) && i < fieldCount <= Count(s)
  {
    FrontIsHeader(s);
    CutsRise(s, Count(s), i, i + 1);
    var start := Number(s, NUMBER_SIZE * (1 + i));
    if i < fieldCount - 1 || fieldCount != Count(s) then s[start..Number(s, NUMBER_SIZE * (2 + i))]
    else s[start..]
  }

  lemma FieldIsPart(s: seq<byte>, fieldCount: nat, i: nat)
    requires Verified(s) && i < fieldCount <= Count(s)
    ensures Header(s, Count(s)) && Field(s, fieldCount, i) == Part(s, Count(s), i)
  {
    FrontIsHeader(s);
    CutsRise(s, Count(s), i, i + 1);
  }

  /** `item_count` of a dynamic vector. */
  function ItemCount(s: seq<byte>): int
    requires |s| >= NUMBER_SIZE
    requires Number(s, 0) != NUMBER_SIZE ==> |s| >= NUMBER_SIZE * 2
  {
    if Number(s, 0) == NUMBER_SIZE then 0 else Number(s, NUMBER_SIZE) / NUMBER_SIZE - 1
  }

  /** `get` of a dynamic vector. */
  function GetItem(s: seq<byte>, idx: nat): Option<seq<byte>>
    requires |s| == NUMBER_SIZE || Verified(s)
    requires |s| >= NUMBER_SIZE && Number(s, 0) == |s|
  {
    if idx >= ItemCount(s) then None
    else
      FrontIsHeader(s);
      CutsRise(s, Count(s), idx, idx + 1);
      var start := Number(s, NUMBER_SIZE * (1 + idx));
      if idx == ItemCount(s) - 1 then Some(s[start..])
      else Some(s[start..Number(s, NUMBER_SIZE * (1 + idx) + NUMBER_SIZE)])
  }

  lemma GetItemIsPart(s: seq<byte>, idx: nat)
    requires Verified(s)
    ensures |s| >= NUMBER_SIZE * 2 && Number(s, 0) == |s| && ItemCount(s) == Count(s) && Header(s, Count(s))
    ensures GetItem(s, idx) == if idx < Count(s) then Some(Part(s, Count(s), idx)) else None
  {
    FrontIsHeader(s);
    CountFits(s);
    if idx < Count(s) {
      CutsRise(s, Count(s), idx, idx + 1);
      assert NUMBER_SIZE * (1 + idx) + NUMBER_SIZE == NUMBER_SIZE * (2 + idx);
      assert s[Cut(s, Count(s), idx)..|s|] == s[Cut(s, Count(s), idx)..];
    }
  }

  /** `get` of a fixed vector. */
  function GetFixed(s: seq<byte>, itemSize: nat, idx: nat): Option<seq<byte>>
    requires |s| >= NUMBER_SIZE && |s| == NUMBER_SIZE + itemSize * Number(s, 0)
  {
    if idx >= Number(s, 0) then None
    else
      Times(itemSize, idx, Number(s, 0));
      var start := NUMBER_SIZE + itemSize * idx;
      Some(s[start..start + itemSize])
  }

  lemma Times(k: nat, i: nat, n: nat)
    requires i < n
    ensures k * i + k <= k * n
  {
    assert k * (i + 1) <= k * n;
  }

  /** All items of a fixed vector from `i` on. */
  function FixedFrom(s: seq<byte>, itemSize: nat, i: nat): (r: seq<seq<byte>>)
    requires |s| >= NUMBER_SIZE && |s| == NUMBER_SIZE + itemSize * Number(s, 0) && i <= Number(s, 0)
    ensures |r| == Number(s, 0) - i
    decreases Number(s, 0) - i
  {
    if i == Number(s, 0) then [] else [GetFixed(s, itemSize, i).value] + FixedFrom(s, itemSize, i + 1)
  }

  lemma FixVecSize(itemSize: nat, s: seq<byte>, compatible: bool)
    requires Verify(FixVec(itemSize), s, compatible) == Valid
    ensures |s| >= NUMBER_SIZE && |s| == NUMBER_SIZE + itemSize * Number(s, 0)
  {
  }

  /** The value that the getters hand out, field by field and item by item. */
  function Read(schema: Schema, s: seq<byte>, compatible: bool): Value
    requires Verify(schema, s, compatible) == Valid
    decreases schema, 1, 0
  {
    match schema
    case Array(_) => Raw(s)
    case FixVec(itemSize) =>
      FixVecSize(itemSize, s, compatible);
      Fixed(FixedFrom(s, itemSize, 0))
    case Table(_) =>
      FrontIsHeader(s);
      Nested(ReadFields(schema, s, compatible, 0))
    case DynVec(_) =>
      if |s| == NUMBER_SIZE then Nested([])
      else
        FrontIsHeader(s);
        Nested(ReadItems(schema, s, compatible, 0))
  }

  function ReadFields(schema: Schema, s: seq<byte>, compatible: bool, i: nat): (r: seq<Value>)
    requires schema.Table? && Verified(s) && Header(s, Count(s)) && i <= |schema.fields| <= Count(s)
    requires VerifyFields(schema, s, compatible, i) == Valid
    ensures |r| == |schema.fields| - i
    decreases schema, 0, |schema.fields| - i
  {
    if i == |schema.fields| then []
    else
      FieldIsPart(s, |schema.fields|, i);
      [Read(schema.fields[i], Field(s, |schema.fields|, i), compatible)] + ReadFields(schema, s, compatible, i + 1)
  }

  function ReadItems(schema: Schema, s: seq<byte>, compatible: bool, i: nat): (r: seq<Value>)
    requires schema.DynVec? && Verified(s) && Header(s, Count(s)) && i <= Count(s)
    requires VerifyItems(schema, s, compatible, i) == Valid
    ensures |r| == Count(s) - i
    decreases schema, 0, Count(s) - i
  {
    if i == Count(s) then []
    else
      GetItemIsPart(s, i);
      [Read(schema.item, GetItem(s, i).value, compatible)] + ReadItems(schema, s, compatible, i + 1)
  }
}
