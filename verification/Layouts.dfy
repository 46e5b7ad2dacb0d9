/** The layout that Molecule tables and dynamic vectors share (RFC 0008 of Nervos CKB, "Serialization"): the total
    size, one offset for each part, and the parts, with every number in four bytes, least significant first. */
module Layouts {
  import opened Words

  const NUMBER_SIZE := 4
  const TWO32: nat := 0x1_0000_0000

  /** `pack_number` after the cast to 32 bits. */
  function Pack(n: nat): (r: seq<byte>)
    ensures |r| == NUMBER_SIZE
  {
    ToLE(4, n)
  }

  /** `unpack_number` of what starts at `at`. */
  function Number(s: seq<byte>, at: nat): nat
    requires at + NUMBER_SIZE <= |s|
  {
    FromLE(s[at..at + NUMBER_SIZE])
  }

  lemma PackInverts(n: nat)
    requires n < TWO32
    ensures FromLE(Pack(n)) == n
  {
    Pow256Values();
    FromToLE(4, n);
  }

  lemma NumberIsPacked(s: seq<byte>, at: nat)
    requires at + NUMBER_SIZE <= |s|
    ensures Number(s, at) < TWO32 && Pack(Number(s, at)) == s[at..at + NUMBER_SIZE]
  {
    Pow256Values();
    ToFromLE(s[at..at + NUMBER_SIZE]);
  }

  function Concat(parts: seq<seq<byte>>): seq<byte> {
    if parts == [] then [] else Concat(parts[..|parts| - 1]) + parts[|parts| - 1]
  }

  function Packed(numbers: seq<nat>): (r: seq<byte>)
    ensures |r| == NUMBER_SIZE * |numbers|
  {
    if numbers == [] then [] else Packed(numbers[..|numbers| - 1]) + Pack(numbers[|numbers| - 1])
  }

  /** Where part `i` starts: behind the header and the parts before it. */
  function Offset(parts: seq<seq<byte>>, i: nat): nat
    requires i <= |parts|
  {
    if i == 0 then NUMBER_SIZE * (|parts| + 1) else Offset(parts, i - 1) + |parts[i - 1]|
  }

  function Offsets(parts: seq<seq<byte>>, n: nat): (r: seq<nat>)
    requires n <= |parts|
    ensures |r| == n && forall i | 0 <= i < n :: r[i] == Offset(parts, i)
  {
    seq(n, i requires 0 <= i < n => Offset(parts, i))
  }

  function Layout(parts: seq<seq<byte>>): seq<byte> {
    Pack(Offset(parts, |parts|)) + Packed(Offsets(parts, |parts|)) + Concat(parts)
  }

  // ---- What is where ----

  lemma {:induction false} PackedAt(numbers: seq<nat>, i: nat)
    requires i < |numbers|
    ensures Packed(numbers)[NUMBER_SIZE * i..NUMBER_SIZE * (i + 1)] == Pack(numbers[i])
    decreases |numbers|
  {
    var n := |numbers| - 1;
    if i < n {
      PackedAt(numbers[..n], i);
      var front := Packed(numbers[..n]);
      assert Packed(numbers)[NUMBER_SIZE * i..NUMBER_SIZE * (i + 1)] == front[NUMBER_SIZE * i..NUMBER_SIZE * (i + 1)];
    }
  }

  lemma {:induction false} OffsetOfFront(parts: seq<seq<byte>>, m: nat, i: nat)
    requires i <= m <= |parts|
    ensures Offset(parts[..m], i) + NUMBER_SIZE * (|parts| - m) == Offset(parts, i)
    decreases i
  {
    if i > 0 { OffsetOfFront(parts, m, i - 1); }
  }

  lemma {:induction false} ConcatSize(parts: seq<seq<byte>>)
    ensures NUMBER_SIZE * (|parts| + 1) + |Concat(parts)| == Offset(parts, |parts|)
    decreases |parts|
  {
    if parts != [] {
      var m := |parts| - 1;
      ConcatSize(parts[..m]);
      OffsetOfFront(parts, m, m);
    }
  }

  lemma {:induction false} OffsetsRise(parts: seq<seq<byte>>, i: nat, j: nat)
    requires i <= j <= |parts|
    ensures NUMBER_SIZE * (|parts| + 1) <= Offset(parts, i) <= Offset(parts, j)
    decreases j
  {
    if i < j { OffsetsRise(parts, i, j - 1); }
    else if i > 0 { OffsetsRise(parts, i - 1, i - 1); }
  }

  /** Part `i` within the concatenation. */
  lemma {:induction false} ConcatAt(parts: seq<seq<byte>>, i: nat)
    requires i < |parts|
    ensures var base := NUMBER_SIZE * (|parts| + 1);
            && base <= Offset(parts, i) <= Offset(parts, i + 1) <= base + |Concat(parts)|
            && Concat(parts)[Offset(parts, i) - base..Offset(parts, i + 1) - base] == parts[i]
    decreases |parts|
  {
    var m := |parts| - 1;
    var front := parts[..m];
    ConcatSize(parts);
    ConcatSize(front);
    OffsetsRise(parts, i, i + 1);
    OffsetsRise(parts, i + 1, |parts|);
    OffsetOfFront(parts, m, m);
    if i < m {
      ConcatAt(front, i);
      OffsetOfFront(parts, m, i);
      OffsetOfFront(parts, m, i + 1);
      var lo, hi := Offset(front, i) - NUMBER_SIZE * (m + 1), Offset(front, i + 1) - NUMBER_SIZE * (m + 1);
      assert Concat(parts)[lo..hi] == Concat(front)[lo..hi];
    }
  }

  lemma LayoutSize(parts: seq<seq<byte>>)
    ensures |Layout(parts)| == Offset(parts, |parts|)
  {
    ConcatSize(parts);
  }

  /** Reading a layout back: the total, every offset and every part are where they belong. */
  lemma LayoutReads(parts: seq<seq<byte>>, i: nat)
    requires |Layout(parts)| < TWO32 && i < |parts|
    ensures |Layout(parts)| == Offset(parts, |parts|) >= NUMBER_SIZE * (|parts| + 1)
    ensures Number(Layout(parts), NUMBER_SIZE * (1 + i)) == Offset(parts, i)
    ensures Offset(parts, i) <= Offset(parts, i + 1) <= |Layout(parts)|
    ensures Layout(parts)[Offset(parts, i)..Offset(parts, i + 1)] == parts[i]
  {
    hide Concat, Packed, FromLE, ToLE;
    var s := Layout(parts);
    var numbers := Offsets(parts, |parts|);
    LayoutSize(parts);
    ConcatAt(parts, i);
    OffsetsRise(parts, i, |parts|);
    PackedAt(numbers, i);
    PackInverts(Offset(parts, i));
    HeaderSlice(Pack(Offset(parts, |parts|)), Packed(numbers), Concat(parts), i);
    var base := NUMBER_SIZE * (|parts| + 1);
    assert s[Offset(parts, i)..Offset(parts, i + 1)] ==
           Concat(parts)[Offset(parts, i) - base..Offset(parts, i + 1) - base];
  }

  lemma HeaderSlice(a: seq<byte>, b: seq<byte>, c: seq<byte>, i: nat)
    requires |a| == NUMBER_SIZE && NUMBER_SIZE * (i + 1) <= |b|
    ensures (a + b + c)[NUMBER_SIZE * (1 + i)..NUMBER_SIZE * (1 + i) + NUMBER_SIZE] ==
            b[NUMBER_SIZE * i..NUMBER_SIZE * (i + 1)]
  {
  }

  lemma LayoutTotal(parts: seq<seq<byte>>)
    requires |Layout(parts)| < TWO32
    ensures |Layout(parts)| >= NUMBER_SIZE && Number(Layout(parts), 0) == |Layout(parts)|
  {
    LayoutSize(parts);
    ConcatSize(parts);
    PackInverts(Offset(parts, |parts|));
    assert Layout(parts)[0..NUMBER_SIZE] == Pack(Offset(parts, |parts|));
  }

  // ---- From bytes back to parts ----

  /** `s` starts with its own size and with `n` offsets that rise from the end of the header to the end of `s`. */
  ghost predicate Header(s: seq<byte>, n: nat) {
    && NUMBER_SIZE * (n + 1) <= |s|
    && Number(s, 0) == |s|
    && (n > 0 ==> Number(s, NUMBER_SIZE) == NUMBER_SIZE * (n + 1))
    && (n == 0 ==> |s| == NUMBER_SIZE)
    && forall i | 0 <= i < n :: Cut(s, n, i) <= Cut(s, n, i + 1)
  }

  /** Where part `i` of `n` starts, `|s|` behind the last one. */
  function Cut(s: seq<byte>, n: nat, i: nat): nat
    requires NUMBER_SIZE * (n + 1) <= |s| && i <= n
  {
    if i == n then |s| else Number(s, NUMBER_SIZE * (1 + i))
  }

  lemma {:induction false} CutsRise(s: seq<byte>, n: nat, i: nat, j: nat)
    requires Header(s, n) && i <= j <= n
    ensures Cut(s, n, i) <= Cut(s, n, j) <= |s|
    decreases n - i
  {
    if i < j {
      assert Cut(s, n, i) <= Cut(s, n, i + 1);
      CutsRise(s, n, i + 1, j);
    } else if j < n {
      assert Cut(s, n, j) <= Cut(s, n, j + 1);
      CutsRise(s, n, j + 1, n);
    }
  }

  function Part(s: seq<byte>, n: nat, i: nat): seq<byte>
    requires Header(s, n) && i < n
  {
    CutsRise(s, n, i, i + 1);
    s[Cut(s, n, i)..Cut(s, n, i + 1)]
  }

  function Parts(s: seq<byte>, n: nat): (r: seq<seq<byte>>)
    requires Header(s, n)
    ensures |r| == n && forall i | 0 <= i < n :: r[i] == Part(s, n, i)
  {
    seq(n, i requires 0 <= i < n => Part(s, n, i))
  }

  lemma HeaderFacts(s: seq<byte>, n: nat)
    requires Header(s, n)
    ensures NUMBER_SIZE * (n + 1) <= |s| && Number(s, 0) == |s| && Cut(s, n, n) == |s|
    ensures if n == 0 then |s| == NUMBER_SIZE else Cut(s, n, 0) == NUMBER_SIZE * (n + 1)
    ensures forall i | 0 <= i < n :: Cut(s, n, i) == Number(s, NUMBER_SIZE * (1 + i))
  {
  }

  lemma {:induction false} PartsOffsets(s: seq<byte>, n: nat, i: nat)
    requires Header(s, n) && i <= n && n > 0
    ensures Offset(Parts(s, n), i) == Cut(s, n, i)
    decreases i
  {
    hide Header, Number, Cut;
    HeaderFacts(s, n);
    if i > 0 {
      PartsOffsets(s, n, i - 1);
      CutsRise(s, n, i - 1, i);
    }
  }

  lemma {:induction false} PackedHeader(s: seq<byte>, numbers: seq<nat>)
    requires NUMBER_SIZE * (|numbers| + 1) <= |s|
    requires forall i | 0 <= i < |numbers| :: numbers[i] == Number(s, NUMBER_SIZE * (1 + i))
    ensures Packed(numbers) == s[NUMBER_SIZE..NUMBER_SIZE * (|numbers| + 1)]
    decreases |numbers|
  {
    if numbers != [] {
      var m := |numbers| - 1;
      PackedHeader(s, numbers[..m]);
      NumberIsPacked(s, NUMBER_SIZE * (1 + m));
      assert s[NUMBER_SIZE..NUMBER_SIZE * (m + 2)] ==
             s[NUMBER_SIZE..NUMBER_SIZE * (m + 1)] + s[NUMBER_SIZE * (m + 1)..NUMBER_SIZE * (m + 2)];
    }
  }

  lemma {:induction false} ConcatParts(s: seq<byte>, n: nat, k: nat)
    requires Header(s, n) && k <= n && n > 0
    ensures Cut(s, n, 0) <= Cut(s, n, k) <= |s|
    ensures Concat(Parts(s, n)[..k]) == s[Cut(s, n, 0)..Cut(s, n, k)]
    decreases k
  {
    CutsRise(s, n, 0, k);
    if k > 0 {
      ConcatParts(s, n, k - 1);
      CutsRise(s, n, k - 1, k);
      var front := Parts(s, n)[..k];
      assert front[..k - 1] == Parts(s, n)[..k - 1];
      assert s[Cut(s, n, 0)..Cut(s, n, k)] == s[Cut(s, n, 0)..Cut(s, n, k - 1)] + s[Cut(s, n, k - 1)..Cut(s, n, k)];
    }
  }

  /** Any bytes with a proper header are the layout of their parts, to the last byte. */
  lemma LayoutOfParts(s: seq<byte>, n: nat)
    requires Header(s, n)
    ensures Layout(Parts(s, n)) == s
  {
    hide Header, Number, Cut, Part, Concat, Packed, ToLE;
    var parts := Parts(s, n);
    HeaderFacts(s, n);
    NumberIsPacked(s, 0);
    if n == 0 {
      NothingPacked();
      assert Offsets(parts, 0) == [] && parts == [];
      assert s[0..4] == s;
    } else {
      forall i | 0 <= i <= n ensures Offset(parts, i) == Cut(s, n, i) { PartsOffsets(s, n, i); }
      PackedHeader(s, Offsets(parts, n));
      ConcatParts(s, n, n);
      assert parts[..n] == parts;
      assert s == s[0..4] + s[4..4 * (n + 1)] + s[4 * (n + 1)..];
    }
  }

  lemma NothingPacked()
    ensures Packed([]) == [] && Concat([]) == []
  {
  }
}
