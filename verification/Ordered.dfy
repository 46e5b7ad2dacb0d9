/** Ordered views of finite sets of ids: the key order of a BTreeMap. */
module Ordered {

  ghost predicate IsLargest(s: set<nat>, m: nat) {
    m in s && forall x | x in s :: x <= m
  }

  ghost predicate IsSmallest(s: set<nat>, m: nat) {
    m in s && forall x | x in s :: m <= x
  }

  lemma {:induction false} ExtremesExist(s: set<nat>)
    requires s != {}
    ensures exists m: nat :: IsLargest(s, m)
    ensures exists m: nat :: IsSmallest(s, m)
    decreases |s|
  {
    var x: nat :| x in s;
    var rest := s - {x};
    assert forall y | y in s :: y == x || y in rest;
    if rest == {} {
      assert IsLargest(s, x) && IsSmallest(s, x);
    } else {
      ExtremesExist(rest);
      var hi: nat :| IsLargest(rest, hi);
      var lo: nat :| IsSmallest(rest, lo);
      assert IsLargest(s, if x < hi then hi else x);
      assert IsSmallest(s, if x < lo then x else lo);
    }
  }

  function Largest(s: set<nat>): (m: nat)
    requires s != {}
    ensures IsLargest(s, m)
  {
    ExtremesExist(s);
    assert exists m: nat :: m in s && forall x | x in s :: x <= m by {
      var m: nat :| IsLargest(s, m);
      assert m in s && forall x | x in s :: x <= m;
    }
    var m: nat :| m in s && forall x | x in s :: x <= m;
    m
  }

  function Smallest(s: set<nat>): (m: nat)
    requires s != {}
    ensures IsSmallest(s, m)
  {
    ExtremesExist(s);
    assert exists m: nat :: m in s && forall x | x in s :: m <= x by {
      var m: nat :| IsSmallest(s, m);
      assert m in s && forall x | x in s :: m <= x;
    }
    var m: nat :| m in s && forall x | x in s :: m <= x;
    m
  }

  ghost predicate Increasing(q: seq<nat>) {
    forall i, j | 0 <= i < j < |q| :: q[i] < q[j]
  }

  /** `q` lists the elements of `s`, smallest first. */
  ghost predicate Listing(q: seq<nat>, s: set<nat>) {
    Increasing(q) && forall x :: x in q <==> x in s
  }

  /** The elements of `s` in increasing order. */
  function Ascending(s: set<nat>): (q: seq<nat>)
    ensures Listing(q, s) && |q| == |s|
    decreases |s|
  {
    if s == {} then []
    else
      var m := Smallest(s);
      [m] + Ascending(s - {m})
  }

  /** There is only one such list. */
  lemma {:induction false} ListingIsUnique(q: seq<nat>, s: set<nat>)
    requires Listing(q, s)
    ensures q == Ascending(s)
    decreases |s|
  {
    if q == [] {
      assert s == {} by { assert forall x | x in s :: x in q; }
    } else {
      assert q[0] in s;
      var m := Smallest(s);
      assert m in q;
      assert q == [q[0]] + q[1..];
      forall x ensures x in q[1..] <==> x in s - {m} { assert x in q <==> x == q[0] || x in q[1..]; }
      ListingIsUnique(q[1..], s - {m});
    }
  }

  lemma SmallerBefore(keys: seq<nat>, s: set<nat>, n: nat)
    requires Listing(keys, s) && n < |keys|
    ensures forall x | x in PrefixSet(keys, n) :: x < keys[n]
  {
  }

  /** A list can be extended by what comes later in a listing. */
  lemma ExtendIncreasing(q: seq<nat>, keys: seq<nat>, s: set<nat>, n: nat)
    requires Increasing(q) && Listing(keys, s) && n < |keys|
    requires forall x | x in q :: x in PrefixSet(keys, n)
    ensures Increasing(q + [keys[n]])
  {
    SmallerBefore(keys, s, n);
    var q' := q + [keys[n]];
    forall i, j | 0 <= i < j < |q'| ensures q'[i] < q'[j] {
      assert q'[i] == q[i] && q[i] in q;
    }
  }

  /** The first `n` elements of `q`. */
  function PrefixSet(q: seq<nat>, n: nat): set<nat>
    requires n <= |q|
  {
    set k | 0 <= k < n :: q[k]
  }

  lemma PrefixEnds(q: seq<nat>, s: set<nat>)
    requires Listing(q, s)
    ensures PrefixSet(q, 0) == {} && PrefixSet(q, |q|) == s
  {
    forall x | x in s ensures x in PrefixSet(q, |q|) {
      assert x in q;
    }
    forall x | x in PrefixSet(q, |q|) ensures x in s {
      assert x in q;
    }
  }

  lemma PrefixStep(q: seq<nat>, s: set<nat>, n: nat)
    requires Listing(q, s) && n < |q|
    ensures q[n] in s && q[n] !in PrefixSet(q, n)
    ensures PrefixSet(q, n + 1) == PrefixSet(q, n) + {q[n]}
  {
    assert q[n] in q;
  }

  lemma LargestIsUnique(s: set<nat>, m: nat)
    requires IsLargest(s, m)
    ensures Largest(s) == m
  {
  }
}
