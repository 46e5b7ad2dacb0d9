/** Machine words, bytes and the little-endian layout shared by the VM memory and the Molecule codec. */
module Words {

  datatype Option<+T> = None | Some(value: T)

  function Prepend<T>(front: seq<T>, back: Option<seq<T>>): (r: Option<seq<T>>)
    ensures front == [] ==> r == back
    ensures back == Some([]) ==> r == Some(front)
  {
    match back
    case None => None
    case Some(s) =>
      assert front == [] ==> front + s == s;
      assert s == [] ==> front + s == front;
      Some(front + s)
  }

  lemma PrependTwice<T>(a: seq<T>, b: seq<T>, back: Option<seq<T>>)
    ensures Prepend(a, Prepend(b, back)) == Prepend(a + b, back)
  {
    if back.Some? {
      assert a + (b + back.value) == (a + b) + back.value;
    }
  }

  ghost predicate Distinct<T(!new)>(q: seq<T>) {
    forall i, j | 0 <= i < j < |q| :: q[i] != q[j]
  }

  type byte = x: int | 0 <= x < 0x100

  type u64 = x: int | 0 <= x < 0x1_0000_0000_0000_0000

  const TWO64: nat := 0x1_0000_0000_0000_0000

  /** Unsigned addition as `u64::wrapping_add` performs it. */
  function WrappingAdd(x: u64, y: u64): u64 {
    (x + y) % TWO64
  }

  function Min(x: nat, y: nat): nat {
    if x <= y then x else y
  }

  function Pow256(n: nat): nat {
    if n == 0 then 1 else 256 * Pow256(n - 1)
  }

  /** The `n` low-order bytes of `v`, least significant first. */
  function ToLE(n: nat, v: nat): (r: seq<byte>)
    ensures |r| == n
  {
    if n == 0 then [] else [v % 256] + ToLE(n - 1, v / 256)
  }

  function FromLE(s: seq<byte>): nat {
    if s == [] then 0 else s[0] + 256 * FromLE(s[1..])
  }

  lemma {:induction false} FromToLE(n: nat, v: nat)
    requires v < Pow256(n)
    ensures FromLE(ToLE(n, v)) == v
  {
    if n > 0 {
      FromToLE(n - 1, v / 256);
      assert ToLE(n, v)[1..] == ToLE(n - 1, v / 256);
    }
  }

  lemma {:induction false} ToFromLE(s: seq<byte>)
    ensures FromLE(s) < Pow256(|s|)
    ensures ToLE(|s|, FromLE(s)) == s
  {
    if s != [] {
      ToFromLE(s[1..]);
      var rest := FromLE(s[1..]);
      assert (s[0] + 256 * rest) % 256 == s[0];
      assert (s[0] + 256 * rest) / 256 == rest;
      assert s == [s[0]] + s[1..];
    }
  }

  /** Byte `i` holds the bits from 8i on. */
  lemma {:induction false} LittleEndian(n: nat, v: nat, i: nat)
    requires i < n
    ensures Pow256(i) > 0 && ToLE(n, v)[i] == v / Pow256(i) % 256
  {
    if i > 0 {
      LittleEndian(n - 1, v / 256, i - 1);
      QuotientOfQuotient(v, Pow256(i - 1));
    }
  }

  lemma QuotientOfQuotient(v: nat, d: nat)
    requires d > 0
    ensures v / 256 / d == v / (256 * d)
  {
    var q, r := v / 256, v % 256;
    var p, s := q / d, q % d;
    assert v == 256 * (d * p + s) + r == (256 * d) * p + (256 * s + r);
    assert 256 * s + r < 256 * d;
    QuotientIs(v, 256 * d, p, 256 * s + r);
  }

  lemma QuotientIs(v: nat, d: nat, q: nat, r: nat)
    requires d > 0 && v == d * q + r && r < d
    ensures v / d == q
  {
    var x := q - v / d;
    assert d * x == v % d - r;
    SmallMultiple(d, x);
  }

  lemma SmallMultiple(d: nat, x: int)
    ensures d * x >= d || d * x + d <= 0 || x == 0
  {
  }

  lemma Pow256Values()
    ensures Pow256(4) == 0x1_0000_0000
    ensures Pow256(8) == TWO64
  {
    assert Pow256(1) == 256;
    assert Pow256(2) == 0x1_0000;
    assert Pow256(3) == 0x100_0000;
    assert Pow256(4) == 0x1_0000_0000;
    assert Pow256(5) == 0x100_0000_0000;
    assert Pow256(6) == 0x1_0000_0000_0000;
    assert Pow256(7) == 0x100_0000_0000_0000;
  }
}
