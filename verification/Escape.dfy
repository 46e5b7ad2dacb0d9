/** The NUL-free escape encoding of test-contracts/escape_encoding.h. */
module Escape {
  import opened Words

  const ESCAPE: byte := 0xFE
  const ESCAPE_ERROR_ENCODING := 1

  predicate Special(b: byte) {
    b == 0 || b == ESCAPE
  }

  /** `uint8_t` arithmetic wraps around. */
  function Before(b: byte): byte { (b + 255) % 256 }

  function After(b: byte): byte { (b + 1) % 256 }

  function Code(b: byte): seq<byte> {
    if Special(b) then [ESCAPE, Before(b)] else [b]
  }

  function Encode(s: seq<byte>): seq<byte> {
    if s == [] then [] else Code(s[0]) + Encode(s[1..])
  }

  function Decode(s: seq<byte>): Option<seq<byte>> {
    if s == [] then Some([])
    else if s[0] == ESCAPE then
      if |s| < 2 then None else Prepend([After(s[1])], Decode(s[2..]))
    else Prepend([s[0]], Decode(s[1..]))
  }

  // ---- The code ----

  /** Two bytes are written as two, behind the byte 0xFE; every other byte stands for itself. */
  lemma Codes(b: byte)
    ensures Encode([b]) == if b == 0 then [0xFE, 0xFF] else if b == 0xFE then [0xFE, 0xFD] else [b]
  {
    assert Encode([b]) == Code(b) + Encode([]);
  }

  /** Encoded text can be handed over as a C string: no NUL, and at most twice as long. */
  lemma {:induction false} EncodedIsCString(s: seq<byte>)
    ensures 0 !in Encode(s)
    ensures |s| <= |Encode(s)| <= 2 * |s|
  {
    if s != [] { EncodedIsCString(s[1..]); }
  }

  lemma {:induction false} RoundTrip(s: seq<byte>)
    ensures Decode(Encode(s)) == Some(s)
  {
    if s != [] {
      RoundTrip(s[1..]);
      DecodeCode(s[0], Encode(s[1..]));
      hide Decode, Code;
      assert s == [s[0]] + s[1..];
    }
  }

  lemma DecodeCode(b: byte, rest: seq<byte>)
    ensures Decode(Code(b) + rest) == Prepend([b], Decode(rest))
  {
    hide Prepend;
    var s := Code(b) + rest;
    if Special(b) {
      assert s[2..] == rest && s[1] == Before(b) && After(s[1]) == b;
    } else {
      assert s[1..] == rest;
    }
  }

  lemma {:induction false} EncodeAppends(a: seq<byte>, b: seq<byte>)
    ensures Encode(a + b) == Encode(a) + Encode(b)
  {
    hide Code;
    if a == [] {
      assert a + b == b;
    } else {
      EncodeAppends(a[1..], b);
      assert (a + b)[1..] == a[1..] + b && (a + b)[0] == a[0];
      assert Code(a[0]) + (Encode(a[1..]) + Encode(b)) == (Code(a[0]) + Encode(a[1..])) + Encode(b);
    }
  }

  // ---- ee_encode ----

  /** How many source bytes fit, encoded, into `room` bytes. */
  function Fitting(s: seq<byte>, room: nat): (n: nat)
    ensures n <= |s| && |Encode(s[..n])| <= room
    ensures n < |s| ==> |Encode(s[..n])| + |Code(s[n])| > room
  {
    if s == [] || |Code(s[0])| > room then 0
    else
      var n := Fitting(s[1..], room - |Code(s[0])|) + 1;
      assert s[..n][1..] == s[1..][..n - 1];
      n
  }

  /** Encodes as much of `src` as fits: whole codes only, no byte of `dst` behind them touched. */
  method EeEncode(dst: array<byte>, dstLength: nat, src: seq<byte>) returns (ds: nat, ss: nat)
    requires dstLength <= dst.Length
    modifies dst
    ensures ss == Fitting(src, dstLength) && ds <= dst.Length
    ensures dst[..ds] == Encode(src[..ss]) && dst[ds..] == old(dst[ds..])
  {
    hide Encode, Fitting;
    ds, ss := 0, 0;
    ghost var was := dst[..];
    EncodeNothing(src);
    while ss < |src| && ds < dstLength
      invariant ss <= |src| && ds <= dstLength
      invariant dst[..ds] == Encode(src[..ss])
      invariant forall k | ds <= k < dst.Length :: dst[k] == was[k]
      decreases |src| - ss
    {
      EncodeOneMore(src, ss);
      if src[ss] == 0 || src[ss] == 0xFE {
        if ds + 1 >= dstLength {
          break;
        }
        dst[ds] := 0xFE;
        dst[ds + 1] := Before(src[ss]);
        ss := ss + 1;
        assert dst[..ds + 2] == dst[..ds] + [dst[ds], dst[ds + 1]];
        ds := ds + 2;
      } else {
        dst[ds] := src[ss];
        ss := ss + 1;
        assert dst[..ds + 1] == dst[..ds] + [dst[ds]];
        ds := ds + 1;
      }
    }
    FittingIsUnique(src, dstLength, ss);
  }

  lemma EncodeNothing(s: seq<byte>)
    ensures Encode(s[..0]) == []
  {
  }

  lemma EncodeOneMore(s: seq<byte>, n: nat)
    requires n < |s|
    ensures Encode(s[..n + 1]) == Encode(s[..n]) + Code(s[n])
  {
    assert s[..n + 1] == s[..n] + [s[n]];
    EncodeAppends(s[..n], [s[n]]);
    assert Encode([s[n]]) == Code(s[n]);
  }

  lemma {:induction false} EncodeGrows(s: seq<byte>, m: nat, n: nat)
    requires m < n <= |s|
    ensures |Encode(s[..m])| + |Code(s[m])| <= |Encode(s[..n])|
    decreases n
  {
    EncodeOneMore(s, n - 1);
    if m < n - 1 { EncodeGrows(s, m, n - 1); }
  }

  lemma FittingIsUnique(s: seq<byte>, room: nat, n: nat)
    requires n <= |s| && |Encode(s[..n])| <= room
    requires n < |s| ==> |Encode(s[..n])| + |Code(s[n])| > room
    ensures n == Fitting(s, room)
  {
    var m := Fitting(s, room);
    if m < n { EncodeGrows(s, m, n); }
    if n < m { EncodeGrows(s, n, m); }
  }

  // ---- Encoding in chunks ----

  /** Encodes `s` through a sequence of destination buffers of the given sizes. */
  function InChunks(s: seq<byte>, rooms: seq<nat>): seq<byte>
    decreases |rooms|
  {
    if rooms == [] then []
    else
      var n := Fitting(s, rooms[0]);
      Encode(s[..n]) + InChunks(s[n..], rooms[1..])
  }

  /** Buffers of two or more bytes always make progress, and what they hold, put together, is the one-shot code. */
  lemma {:induction false} ChunksConcatenate(s: seq<byte>, rooms: seq<nat>)
    requires |s| <= |rooms| && forall i | 0 <= i < |rooms| :: rooms[i] >= 2
    ensures InChunks(s, rooms) == Encode(s)
    decreases |rooms|
  {
    if rooms != [] {
      var n := Fitting(s, rooms[0]);
      assert s[..0] == [];
      ChunksConcatenate(s[n..], rooms[1..]);
      EncodeAppends(s[..n], s[n..]);
      assert s[..n] + s[n..] == s;
    }
  }

  // ---- ee_decode ----

  /** `Decoded(out, used)`: `used` source bytes gave `out`. */
  datatype Decoding = Decoded(out: seq<byte>, used: nat) | Malformed

  function Behind(front: seq<byte>, used: nat, d: Decoding): (r: Decoding)
    ensures front == [] && used == 0 ==> r == d
  {
    match d
    case Malformed => Malformed
    case Decoded(out, more) =>
      assert front == [] ==> front + out == out;
      Decoded(front + out, used + more)
  }

  lemma BehindTwice(a: seq<byte>, m: nat, b: seq<byte>, n: nat, d: Decoding)
    ensures Behind(a, m, Behind(b, n, d)) == Behind(a + b, m + n, d)
  {
    if d.Decoded? { assert a + (b + d.out) == (a + b) + d.out; }
  }

  /** Decoding into a destination of limited size. */
  function DecodeInto(s: seq<byte>, room: nat): Decoding {
    if s == [] || room == 0 then Decoded([], 0)
    else if s[0] == ESCAPE then
      if |s| < 2 then Malformed else Behind([After(s[1])], 2, DecodeInto(s[2..], room - 1))
    else Behind([s[0]], 1, DecodeInto(s[1..], room - 1))
  }

  /** What is decoded into a limited destination, followed by the decoding of the rest, is the whole decoding; and
      a destination as large as the source takes it all. */
  lemma {:induction false} DecodeIntoIsDecode(s: seq<byte>, room: nat)
    ensures match DecodeInto(s, room)
            case Malformed => Decode(s).None?
            case Decoded(out, used) =>
              && used <= |s| && |out| <= room && (used < |s| ==> |out| == room)
              && Decode(s) == Prepend(out, Decode(s[used..]))
  {
    if s != [] && room > 0 {
      var k := if s[0] == ESCAPE then 2 else 1;
      if k <= |s| {
        DecodeIntoIsDecode(s[k..], room - 1);
        var d := DecodeInto(s[k..], room - 1);
        if d.Decoded? {
          var b := [if s[0] == ESCAPE then After(s[1]) else s[0]];
          assert s[k..][d.used..] == s[k + d.used..];
          PrependTwice(b, d.out, Decode(s[k + d.used..]));
        }
      }
    } else {
      assert s[0..] == s;
    }
  }

  method EeDecode(dst: array<byte>, dstLength: nat, src: seq<byte>) returns (code: int, ds: nat, ss: nat)
    requires dstLength <= dst.Length
    modifies dst
    ensures ds <= dst.Length
    ensures match DecodeInto(src, dstLength)
            case Malformed => code == ESCAPE_ERROR_ENCODING
            case Decoded(out, used) => code == 0 && ss == used && dst[..ds] == out && dst[ds..] == old(dst[ds..])
  {
    ds, ss := 0, 0;
    ghost var was := dst[..];
    while ss < |src| && ds < dstLength
      invariant ss <= |src| && ds <= dstLength && forall k | ds <= k < dst.Length :: dst[k] == was[k]
      invariant DecodeInto(src, dstLength) == Behind(dst[..ds], ss, DecodeInto(src[ss..], dstLength - ds))
      decreases |src| - ss
    {
      ghost var out, from := dst[..ds], src[ss..];
      if src[ss] == 0xFE {
        if ss + 1 >= |src| {
          return ESCAPE_ERROR_ENCODING, ds, ss;
        }
        assert from[2..] == src[ss + 2..];
        BehindTwice(out, ss, [After(from[1])], 2, DecodeInto(from[2..], dstLength - ds - 1));
        dst[ds] := After(src[ss + 1]);
        ss := ss + 2;
      } else {
        assert from[1..] == src[ss + 1..];
        BehindTwice(out, ss, [from[0]], 1, DecodeInto(from[1..], dstLength - ds - 1));
        dst[ds] := src[ss];
        ss := ss + 1;
      }
      ds := ds + 1;
      assert dst[..ds] == out + [dst[ds - 1]];
    }
    code := 0;
  }

  // ---- ee_decode_char_string_in_place ----

  /** Position of the first NUL. */
  function Terminator(s: seq<byte>): (n: nat)
    requires 0 in s
    ensures n < |s| && s[n] == 0 && 0 !in s[..n]
  {
    if s[0] == 0 then 0
    else
      assert s == [s[0]] + s[1..];
      var n := Terminator(s[1..]) + 1;
      assert s[..n] == [s[0]] + s[1..][..n - 1];
      n
  }

  /** Decoding a C string onto itself gives what decoding it elsewhere would: the write position never passes the
      read position, so every byte is read before it is overwritten. */
  method EeDecodeInPlace(buf: array<byte>) returns (code: int, length: nat)
    requires 0 in buf[..]
    modifies buf
    ensures var text := old(buf[..Terminator(buf[..])]);
            match Decode(text)
            case None => code == ESCAPE_ERROR_ENCODING
            case Some(out) => code == 0 && length == |out| <= |text| && buf[..] == out + old(buf[..])[|out|..]
  {
    hide Decode, Terminator, Prepend;
    ghost var was := buf[..];
    ghost var n := Terminator(was);
    ghost var text := was[..n];
    PrependNothing(Decode(text));
    assert text[0..] == text;
    var ss, ds := 0, 0;
    length := 0;
    while buf[ss] != 0
      invariant ds <= ss <= n
      invariant forall k | ds <= k < buf.Length :: buf[k] == was[k]
      invariant Decode(text) == Prepend(buf[..ds], Decode(text[ss..]))
      decreases n - ss
    {
      ghost var out, from := buf[..ds], text[ss..];
      assert ss < n && from[0] == buf[ss];
      DecodeFirst(from);
      if buf[ss] == 0xFE {
        assert |from| >= 2 <==> buf[ss + 1] != 0;
        if buf[ss + 1] == 0 {
          PrependNone(out);
          return ESCAPE_ERROR_ENCODING, 0;
        }
        PrependTwice(out, [After(from[1])], Decode(from[2..]));
        assert from[2..] == text[ss + 2..];
        buf[ds] := After(buf[ss + 1]);
        ss := ss + 2;
      } else {
        PrependTwice(out, [from[0]], Decode(from[1..]));
        assert from[1..] == text[ss + 1..];
        buf[ds] := buf[ss];
        ss := ss + 1;
      }
      ds := ds + 1;
      assert buf[..ds] == out + [buf[ds - 1]];
    }
    assert text[ss..] == [];
    DecodeNothing();
    PrependToEmpty(buf[..ds]);
    assert buf[..] == buf[..ds] + was[ds..];
    code, length := 0, ds;
  }

  lemma DecodeNothing()
    ensures Decode([]) == Some([])
  {
  }

  lemma PrependNothing(back: Option<seq<byte>>)
    ensures Prepend([], back) == back
  {
  }

  lemma PrependNone(front: seq<byte>)
    ensures Prepend(front, None) == None
  {
  }

  lemma PrependToEmpty(front: seq<byte>)
    ensures Prepend(front, Some([])) == Some(front)
  {
  }

  lemma DecodeFirst(s: seq<byte>)
    requires s != []
    ensures s[0] != ESCAPE ==> Decode(s) == Prepend([s[0]], Decode(s[1..]))
    ensures s[0] == ESCAPE && |s| >= 2 ==> Decode(s) == Prepend([After(s[1])], Decode(s[2..]))
    ensures s[0] == ESCAPE && |s| < 2 ==> Decode(s) == None
  {
  }

  // ---- From parent to child ----

  lemma TerminatorIsUnique(s: seq<byte>, n: nat)
    requires n < |s| && s[n] == 0 && 0 !in s[..n]
    ensures 0 in s && Terminator(s) == n
  {
    var m := Terminator(s);
    assert forall k | 0 <= k < n :: s[..n][k] != 0;
    assert forall k | 0 <= k < m :: s[..m][k] != 0;
  }

  /** What a program encodes into an argument for the VM it spawns, that VM decodes from it: any bytes, zeros
      included. */
  method ThroughArgument(src: seq<byte>) returns (code: int, received: seq<byte>)
    ensures code == 0 && received == src
  {
    var dst := new byte[2 * |src| + 1];
    EncodedIsCString(src);
    assert src[..|src|] == src;
    FittingIsUnique(src, 2 * |src|, |src|);
    var ds, ss := EeEncode(dst, 2 * |src|, src);
    assert ds == |Encode(src)|;
    dst[ds] := 0;
    assert dst[..ds] == Encode(src);
    TerminatorIsUnique(dst[..], ds);
    assert dst[..][..ds] == dst[..ds];
    RoundTrip(src);
    var length;
    code, length := EeDecodeInPlace(dst);
    received := dst[..length];
  }
}
