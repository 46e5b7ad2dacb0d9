/** Molecule round trips: what the builder writes is accepted and read back, and what is accepted is what the builder
    would write. */
module RoundTrips {
  import opened Words
  import opened Layouts
  import opened Molecule

  // ---- Fixed vectors ----

  ghost predicate Uniform(items: seq<seq<byte>>, size: nat) {
    forall i | 0 <= i < |items| :: |items[i]| == size
  }

  lemma {:induction false} UniformSize(items: seq<seq<byte>>, size: nat)
    requires Uniform(items, size)
    ensures |Concat(items)| == size * |items|
    decreases |items|
  {
    if items != [] {
      var m := |items| - 1;
      UniformSize(items[..m], size);
      assert size * m + size == size * (m + 1);
    }
  }

  lemma {:induction false} UniformAt(items: seq<seq<byte>>, size: nat, i: nat)
    requires Uniform(items, size) && i < |items|
    ensures size * i + size <= |Concat(items)|
    ensures Concat(items)[size * i..size * i + size] == items[i]
    decreases |items|
  {
    var m := |items| - 1;
    var front := Concat(items[..m]);
    UniformSize(items, size);
    UniformSize(items[..m], size);
    Times(size, i, |items|);
    if i < m {
      UniformAt(items[..m], size, i);
      assert Concat(items)[size * i..size * i + size] == front[size * i..size * i + size];
    }
  }

  lemma {:induction false} FixedReadsBack(items: seq<seq<byte>>, size: nat, i: nat)
    requires Uniform(items, size) && |items| < TWO32 && i <= |items|
    ensures var s := Pack(|items|) + Concat(items);
            && |s| >= NUMBER_SIZE && Number(s, 0) == |items| && |s| == NUMBER_SIZE + size * |items|
            && FixedFrom(s, size, i) == items[i..]
    decreases |items| - i
  {
    hide Concat, ToLE, Number, Uniform;
    var s := Pack(|items|) + Concat(items);
    UniformSize(items, size);
    CountReads(items);
    if i < |items| {
      FixedReadsBack(items, size, i + 1);
      UniformAt(items, size, i);
      var start := NUMBER_SIZE + size * i;
      assert s[start..start + size] == Concat(items)[size * i..size * i + size];
      assert items[i..] == [items[i]] + items[i + 1..];
    }
  }

  lemma CountReads(items: seq<seq<byte>>)
    requires |items| < TWO32
    ensures Number(Pack(|items|) + Concat(items), 0) == |items|
  {
    hide Concat, ToLE, FromLE;
    var s := Pack(|items|) + Concat(items);
    PackInverts(|items|);
    assert s[0..NUMBER_SIZE] == Pack(|items|);
  }

  lemma FewItems(items: seq<seq<byte>>, size: nat)
    requires Uniform(items, size) && size > 0
    ensures |items| <= |Concat(items)|
  {
    UniformSize(items, size);
    assert size * |items| >= 1 * |items|;
  }

  lemma {:induction false} FixedRebuilds(s: seq<byte>, size: nat, i: nat)
    requires |s| >= NUMBER_SIZE && |s| == NUMBER_SIZE + size * Number(s, 0) && i <= Number(s, 0)
    ensures Uniform(FixedFrom(s, size, i), size)
    ensures NUMBER_SIZE + size * i <= |s| && Concat(FixedFrom(s, size, i)) == s[NUMBER_SIZE + size * i..]
    decreases Number(s, 0) - i
  {
    hide Number, Concat, ToLE, FromLE;
    var n := Number(s, 0);
    NothingPacked();
    if i == n {
      assert s[NUMBER_SIZE + size * i..] == [];
    } else {
      FixedRebuilds(s, size, i + 1);
      Times(size, i, n);
      assert size * (i + 1) == size * i + size;
      var item := GetFixed(s, size, i).value;
      ConcatFirst(item, FixedFrom(s, size, i + 1));
      assert s[NUMBER_SIZE + size * i..] == item + s[NUMBER_SIZE + size * (i + 1)..];
    }
  }

  lemma {:induction false} ConcatFirst(first: seq<byte>, rest: seq<seq<byte>>)
    ensures Concat([first] + rest) == first + Concat(rest)
    decreases |rest|
  {
    var all := [first] + rest;
    if rest == [] {
      assert all[..0] == [];
    } else {
      var m := |rest| - 1;
      ConcatFirst(first, rest[..m]);
      assert all[..|all| - 1] == [first] + rest[..m];
    }
  }

  // ---- Tables and dynamic vectors ----

  /** What the front of a layout says. */
  lemma LayoutFront(parts: seq<seq<byte>>)
    requires parts != [] && |Layout(parts)| < TWO32
    ensures var s := Layout(parts);
            && VerifyFront(s) == Valid && Count(s) == |parts| && Verified(s) && Header(s, |parts|)
            && forall i | 0 <= i < |parts| :: Part(s, |parts|, i) == parts[i]
  {
    hide Layout, Number, Offset;
    var s := Layout(parts);
    LayoutTotal(parts);
    LayoutReads(parts, 0);
    StartOffset(parts);
    forall i | 0 <= i <= |parts| ensures NUMBER_SIZE * (|parts| + 1) <= |s| && Cut(s, |parts|, i) == Offset(parts, i) {
      if i < |parts| { LayoutReads(parts, i); }
    }
    forall i | 0 <= i < |parts|
      ensures Cut(s, |parts|, i) <= Cut(s, |parts|, i + 1)
      ensures Header(s, |parts|) ==> Part(s, |parts|, i) == parts[i]
    {
      LayoutReads(parts, i);
    }
  }

  lemma StartOffset(parts: seq<seq<byte>>)
    ensures Offset(parts, 0) == NUMBER_SIZE * (|parts| + 1)
  {
  }

  lemma PartIsShort(parts: seq<seq<byte>>, i: nat)
    requires i < |parts|
    ensures |parts[i]| <= |Layout(parts)|
  {
    ConcatAt(parts, i);
  }

  lemma {:induction false} FieldsVerdict(schema: Schema, s: seq<byte>, compatible: bool, i: nat)
    requires schema.Table? && VerifyFront(s) == Valid && Header(s, Count(s)) && i <= |schema.fields| <= Count(s)
    ensures VerifyFields(schema, s, compatible, i) == Valid <==>
            forall j | i <= j < |schema.fields| :: Verify(schema.fields[j], Part(s, Count(s), j), compatible) == Valid
    decreases |schema.fields| - i
  {
    hide Verify, VerifyFront, Count, Header, Part;
    if i < |schema.fields| { FieldsVerdict(schema, s, compatible, i + 1); }
  }

  lemma {:induction false} ItemsVerdict(schema: Schema, s: seq<byte>, compatible: bool, i: nat)
    requires schema.DynVec? && VerifyFront(s) == Valid && Header(s, Count(s)) && i <= Count(s)
    ensures VerifyItems(schema, s, compatible, i) == Valid <==>
            forall j | i <= j < Count(s) :: Verify(schema.item, Part(s, Count(s), j), compatible) == Valid
    decreases Count(s) - i
  {
    hide Verify, VerifyFront, Header, Part, Count;
    if i < Count(s) { ItemsVerdict(schema, s, compatible, i + 1); }
  }

  /** A table of any parts is accepted if and only if there are as many as the schema has fields, or, with
      compatibility, at least as many, and each field is accepted; parts that the schema does not know are not looked
      at. */
  lemma TableVerdict(fields: seq<Schema>, parts: seq<seq<byte>>, compatible: bool)
    requires parts != [] && |Layout(parts)| < TWO32
    ensures var r := Verify(Table(fields), Layout(parts), compatible);
            && (r == Valid <==>
                  && |fields| <= |parts| && (compatible || |fields| == |parts|)
                  && forall i | 0 <= i < |fields| :: Verify(fields[i], parts[i], compatible) == Valid)
            && (|parts| < |fields| || (!compatible && |fields| < |parts|) ==> r == FieldCountNotMatch)
  {
    var s := Layout(parts);
    LayoutFront(parts);
    hide Layout, VerifyFront, Count, Header, Part, Rising, VerifyFields;
    if |fields| <= |parts| { FieldsVerdict(Table(fields), s, compatible, 0); }
  }

  /** A dynamic vector of any parts is accepted if and only if each of them is. */
  lemma VectorVerdict(item: Schema, parts: seq<seq<byte>>, compatible: bool)
    requires |Layout(parts)| < TWO32
    ensures Verify(DynVec(item), Layout(parts), compatible) == Valid <==>
            forall i | 0 <= i < |parts| :: Verify(item, parts[i], compatible) == Valid
  {
    var s := Layout(parts);
    LayoutTotal(parts);
    LayoutSize(parts);
    if parts == [] {
      StartOffset(parts);
    } else {
      LayoutReads(parts, 0);
      LayoutFront(parts);
      hide Layout, VerifyFront, Count, Header, Part, Rising, VerifyItems, Number;
      ItemsVerdict(DynVec(item), s, compatible, 0);
    }
  }

  /** Whatever is accepted as one of these, in either mode, is the layout of its parts to the last byte. */
  lemma AcceptedIsLayout(schema: Schema, s: seq<byte>, compatible: bool)
    requires (schema.Table? || schema.DynVec?) && Verify(schema, s, compatible) == Valid
    ensures exists n :: Header(s, n) && s == Layout(Parts(s, n))
  {
    hide Layout, VerifyFields, VerifyItems, Parts, Rising, Count;
    if VerifyFront(s) == Valid {
      FrontIsHeader(s);
      assert Header(s, Count(s));
      LayoutOfParts(s, Count(s));
    } else {
      assert Header(s, 0);
      LayoutOfParts(s, 0);
    }
  }

  /** The builder's output is accepted, with or without compatibility, and the getters return the original items. */
  lemma {:induction false} BuildReads(schema: Schema, v: Value, compatible: bool)
    requires WellFormed(schema) && Conforms(schema, v) && |Build(v)| < TWO32
    ensures Verify(schema, Build(v), compatible) == Valid
    ensures Read(schema, Build(v), compatible) == v
    decreases schema, 1, 0
  {
    match schema
    case Array(_) =>
    case FixVec(size) => FixedReads(size, v, compatible);
    case Table(fields) =>
      var parts := Built(v);
      LayoutFront(parts);
      FieldsRead(schema, v, compatible, 0);
      assert v.parts[0..] == v.parts;
    case DynVec(item) =>
      var parts := Built(v);
      if parts == [] {
        EmptyReads(v);
      } else {
        LayoutFront(parts);
        ItemsRead(schema, v, compatible, 0);
        assert v.parts[0..] == v.parts;
      }
  }

  lemma FixedReads(size: nat, v: Value, compatible: bool)
    requires size > 0 && Conforms(FixVec(size), v) && |Build(v)| < TWO32
    ensures Verify(FixVec(size), Build(v), compatible) == Valid
    ensures Read(FixVec(size), Build(v), compatible) == v
  {
    hide Concat, Number;
    assert Uniform(v.items, size);
    FewItems(v.items, size);
    FixedReadsBack(v.items, size, 0);
    assert v.items[0..] == v.items;
  }

  lemma EmptyReads(v: Value)
    requires v == Nested([])
    ensures |Build(v)| == NUMBER_SIZE == Number(Build(v), 0)
  {
    NothingPacked();
    assert Built(v) == [];
    LayoutTotal([]);
  }

  lemma {:induction false} FieldsRead(schema: Schema, v: Value, compatible: bool, i: nat)
    requires WellFormed(schema) && schema.Table? && Conforms(schema, v) && |Build(v)| < TWO32
    requires i <= |schema.fields| && VerifyFront(Build(v)) == Valid && Verified(Build(v))
    requires Count(Build(v)) == |v.parts| && Header(Build(v), |v.parts|)
    requires forall k | 0 <= k < |v.parts| :: Part(Build(v), |v.parts|, k) == Built(v)[k]
    ensures VerifyFields(schema, Build(v), compatible, i) == Valid
    ensures ReadFields(schema, Build(v), compatible, i) == v.parts[i..]
    decreases schema, 0, |schema.fields| - i
  {
    hide Layout, Header, Verified, WellFormed, Conforms, Verify, Read, VerifyFront, Count;
    FieldConforms(schema, v, i);
    if i < |schema.fields| {
      var s := Build(v);
      PartIsShort(Built(v), i);
      assert Part(s, |v.parts|, i) == Build(v.parts[i]);
      BuildReads(schema.fields[i], v.parts[i], compatible);
      FieldsRead(schema, v, compatible, i + 1);
      FieldIsPart(s, |schema.fields|, i);
      assert v.parts[i..] == [v.parts[i]] + v.parts[i + 1..];
    }
  }

  lemma FieldConforms(schema: Schema, v: Value, i: nat)
    requires WellFormed(schema) && schema.Table? && Conforms(schema, v)
    ensures v.Nested? && |v.parts| == |schema.fields|
    ensures i < |schema.fields| ==> WellFormed(schema.fields[i]) && Conforms(schema.fields[i], v.parts[i])
  {
  }

  lemma {:induction false} ItemsRead(schema: Schema, v: Value, compatible: bool, i: nat)
    requires WellFormed(schema) && schema.DynVec? && Conforms(schema, v) && |Build(v)| < TWO32
    requires i <= |v.parts| && VerifyFront(Build(v)) == Valid && Verified(Build(v))
    requires Count(Build(v)) == |v.parts| && Header(Build(v), |v.parts|)
    requires forall k | 0 <= k < |v.parts| :: Part(Build(v), |v.parts|, k) == Built(v)[k]
    ensures VerifyItems(schema, Build(v), compatible, i) == Valid
    ensures ReadItems(schema, Build(v), compatible, i) == v.parts[i..]
    decreases schema, 0, |v.parts| - i
  {
    hide Layout, Header, Verified, WellFormed, Conforms, Verify, Read, VerifyFront, Count, GetItem;
    ItemConforms(schema, v, i);
    if i < |v.parts| {
      var s := Build(v);
      PartIsShort(Built(v), i);
      assert Part(s, |v.parts|, i) == Build(v.parts[i]);
      BuildReads(schema.item, v.parts[i], compatible);
      ItemsRead(schema, v, compatible, i + 1);
      GetItemIsPart(s, i);
      assert v.parts[i..] == [v.parts[i]] + v.parts[i + 1..];
    }
  }

  lemma ItemConforms(schema: Schema, v: Value, i: nat)
    requires WellFormed(schema) && schema.DynVec? && Conforms(schema, v)
    ensures v.Nested? && WellFormed(schema.item) && (i < |v.parts| ==> Conforms(schema.item, v.parts[i]))
  {
  }

  // ---- From accepted bytes back to the same bytes ----

  /** `v` fits the schema, and `s` is what the builder makes of it. */
  ghost predicate Holds(schema: Schema, v: Value, s: seq<byte>) {
    Conforms(schema, v) && Build(v) == s
  }

  /** Bytes accepted without compatibility are exactly what the builder makes of the value they hold: there is one
      encoding of each value. */
  lemma {:induction false} ReadBuilds(schema: Schema, s: seq<byte>)
    requires WellFormed(schema) && Verify(schema, s, false) == Valid
    ensures Conforms(schema, Read(schema, s, false))
    ensures Build(Read(schema, s, false)) == s
    decreases schema, 2, 0
  {
    match schema
    case Array(_) =>
    case FixVec(size) => FixedBuilds(size, s);
    case Table(_) =>
      FrontIsHeader(s);
      TableBuilds(schema, s);
    case DynVec(_) =>
      if |s| == NUMBER_SIZE {
        EmptyBuilds(s);
      } else {
        FrontIsHeader(s);
        VectorBuilds(schema, s);
      }
  }

  lemma {:induction false} TableBuilds(schema: Schema, s: seq<byte>)
    requires WellFormed(schema) && schema.Table? && VerifyFront(s) == Valid && Verified(s) && Header(s, Count(s))
    requires |schema.fields| == Count(s) && VerifyFields(schema, s, false, 0) == Valid
    ensures Holds(schema, Nested(ReadFields(schema, s, false, 0)), s)
    decreases schema, 1, 0
  {
    hide Header, Verified, VerifyFront, Count, VerifyFields, ReadFields, WellFormed, Holds;
    FieldsBuild(schema, s, 0);
    var q := ReadFields(schema, s, false, 0);
    HeldTable(schema, q, s);
  }

  lemma HeldTable(schema: Schema, q: seq<Value>, s: seq<byte>)
    requires schema.Table? && |q| == |schema.fields| && Header(s, |q|)
    requires forall k | 0 <= k < |q| :: Holds(schema.fields[k], q[k - 0], Part(s, |q|, k))
    ensures Holds(schema, Nested(q), s)
  {
    hide Header;
    forall k | 0 <= k < |q| ensures Conforms(schema.fields[k], q[k]) && Build(q[k]) == Part(s, |q|, k) {
      assert Holds(schema.fields[k], q[k - 0], Part(s, |q|, k));
    }
    assert Built(Nested(q)) == Parts(s, |q|);
    LayoutOfParts(s, |q|);
  }

  lemma {:induction false} VectorBuilds(schema: Schema, s: seq<byte>)
    requires WellFormed(schema) && schema.DynVec? && VerifyFront(s) == Valid && Verified(s) && Header(s, Count(s))
    requires VerifyItems(schema, s, false, 0) == Valid
    ensures Holds(schema, Nested(ReadItems(schema, s, false, 0)), s)
    decreases schema, 1, 0
  {
    hide Header, Verified, VerifyFront, Count, VerifyItems, ReadItems, WellFormed, Holds;
    ItemsBuild(schema, s, 0);
    var q := ReadItems(schema, s, false, 0);
    HeldVector(schema, q, s);
  }

  lemma HeldVector(schema: Schema, q: seq<Value>, s: seq<byte>)
    requires schema.DynVec? && Header(s, |q|)
    requires forall k | 0 <= k < |q| :: Holds(schema.item, q[k - 0], Part(s, |q|, k))
    ensures Holds(schema, Nested(q), s)
  {
    hide Header;
    forall k | 0 <= k < |q| ensures Conforms(schema.item, q[k]) && Build(q[k]) == Part(s, |q|, k) {
      assert Holds(schema.item, q[k - 0], Part(s, |q|, k));
    }
    assert Built(Nested(q)) == Parts(s, |q|);
    LayoutOfParts(s, |q|);
  }

  lemma EmptyBuilds(s: seq<byte>)
    requires |s| == NUMBER_SIZE && Number(s, 0) == NUMBER_SIZE
    ensures Build(Nested([])) == s
  {
    hide Number;
    NumberIsPacked(s, 0);
    NothingPacked();
    assert Built(Nested([])) == [];
    assert Offsets([], 0) == [];
    assert s[0..4] == s;
  }

  lemma FixedBuilds(size: nat, s: seq<byte>)
    requires Verify(FixVec(size), s, false) == Valid
    ensures Conforms(FixVec(size), Read(FixVec(size), s, false))
    ensures Build(Read(FixVec(size), s, false)) == s
  {
    hide Number, Concat, ToLE;
    FixVecSize(size, s, false);
    FixedRebuilds(s, size, 0);
    NumberIsPacked(s, 0);
    assert size * 0 == 0;
    assert s == s[0..NUMBER_SIZE] + s[NUMBER_SIZE..];
  }

  lemma {:induction false} FieldsBuild(schema: Schema, s: seq<byte>, i: nat)
    requires WellFormed(schema) && schema.Table? && VerifyFront(s) == Valid && Verified(s) && Header(s, Count(s))
    requires i <= |schema.fields| == Count(s) && VerifyFields(schema, s, false, i) == Valid
    ensures forall k | i <= k < |schema.fields| ::
              Holds(schema.fields[k], ReadFields(schema, s, false, i)[k - i], Part(s, Count(s), k))
    decreases schema, 0, |schema.fields| - i
  {
    hide Header, Verified, Conforms, Verify, Read, VerifyFront, Count, Build, Part, Field;
    if i < |schema.fields| {
      FieldIsPart(s, |schema.fields|, i);
      ReadBuilds(schema.fields[i], Part(s, Count(s), i));
      FieldsBuild(schema, s, i + 1);
      var q := ReadFields(schema, s, false, i);
      forall k | i <= k < |schema.fields| ensures Holds(schema.fields[k], q[k - i], Part(s, Count(s), k)) {
        if k > i { assert q[k - i] == ReadFields(schema, s, false, i + 1)[k - (i + 1)]; }
      }
    }
  }

  lemma {:induction false} ItemsBuild(schema: Schema, s: seq<byte>, i: nat)
    requires WellFormed(schema) && schema.DynVec? && VerifyFront(s) == Valid && Verified(s) && Header(s, Count(s))
    requires i <= Count(s) && VerifyItems(schema, s, false, i) == Valid
    ensures forall k | i <= k < Count(s) ::
              Holds(schema.item, ReadItems(schema, s, false, i)[k - i], Part(s, Count(s), k))
    decreases schema, 0, Count(s) - i
  {
    hide Header, Verified, Conforms, Verify, Read, VerifyFront, Count, Build, Part, GetItem;
    if i < Count(s) {
      GetItemIsPart(s, i);
      ReadBuilds(schema.item, Part(s, Count(s), i));
      ItemsBuild(schema, s, i + 1);
      var q := ReadItems(schema, s, false, i);
      forall k | i <= k < Count(s) ensures Holds(schema.item, q[k - i], Part(s, Count(s), k)) {
        if k > i { assert q[k - i] == ReadItems(schema, s, false, i + 1)[k - (i + 1)]; }
      }
    }
  }
}
