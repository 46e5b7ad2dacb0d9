/** Which machines are instantiated, as a function of the reference state: what each step of the scheduler evicts and
    resumes, and exactly when the unchecked access to the cache panics. */
module Caches {
  import opened Words
  import opened Types
  import opened Machine
  import opened Syscalls
  import opened Ordered
  import opened Flat
  import opened Invariants
  import opened IoSteps
  import opened Slicing
  import opened Turns
  import opened SchedulerFacts

  // ---- Filling the cache ----

  /** The first `n` of `q`, or all of it. */
  function Firsts(q: seq<VmId>, n: nat): seq<VmId> {
    if n <= |q| then q[..n] else q
  }

  /** The VMs evicted when `ids` are brought into the cache `keys`: as many as do not fit, smallest ids first, none of
      the requested ones. */
  function Evicted(keys: set<VmId>, ids: seq<VmId>): set<VmId> {
    var needed := |Absent(ids, keys)| + |keys|;
    Elements(Firsts(Ascending(keys - Elements(ids)),
                    if needed > MAX_INSTANTIATED_VMS then needed - MAX_INSTANTIATED_VMS else 0))
  }

  /** The cache after `ids` have been brought in. */
  function CacheWith(keys: set<VmId>, ids: seq<VmId>): set<VmId> {
    keys + Elements(ids) - Evicted(keys, ids)
  }

  /** What bringing `ids` into the cache amounts to: all of them are in it, nobody else has come in, those that had to
      leave have smaller ids than those that could stay, and nobody left while there was room. */
  ghost predicate BroughtIn(before: set<VmId>, after: set<VmId>, ids: seq<VmId>) {
    && (forall id | id in ids :: id in after)
    && (forall id | id in after :: id in before || id in ids)
    && (forall e, k | e in before && e !in after && k in after && k !in ids :: e < k)
    && |after| == Min(4, |before + Elements(ids)|)
  }

  /** The first ones of a set in order. */
  lemma FirstsAreSmallest(s: set<VmId>, n: nat)
    requires n <= |s|
    ensures var first := Elements(Firsts(Ascending(s), n));
            && first <= s && |first| == n
            && forall e, k | e in first && k in s && k !in first :: e < k
  {
    var q := Ascending(s);
    hide Ascending;
    var first := Elements(q[..n]);
    ElementsOf(q[..n]);
    forall i, j | 0 <= i < j < n ensures q[..n][i] != q[..n][j] { assert q[i] < q[j]; }
    DistinctCount(q[..n]);
    forall id | id in q[..n] ensures id in s { assert id in q; }
    forall e, k | e in first && k in s && k !in first ensures e < k {
      var i :| 0 <= i < n && q[..n][i] == e;
      assert k in q && q == q[..n] + q[n..];
      var j :| 0 <= j < |q| - n && q[n..][j] == k;
      assert q[i] == e && q[n + j] == k;
    }
  }

  /** How many have to leave: as many as do not fit. */
  lemma Needed(keys: set<VmId>, ids: seq<VmId>)
    requires Distinct(Absent(ids, keys)) && |ids| <= 4
    ensures |keys + Elements(ids)| == |keys| + |Absent(ids, keys)|
    ensures |keys + Elements(ids)| <= 4 + |keys - Elements(ids)|
  {
    var all, missing := Elements(ids), Absent(ids, keys);
    ElementsOf(ids);
    AbsentMeaning(ids, keys);
    SetOfSeq(ids, all);
    DistinctCount(missing);
    hide Absent;
    assert Elements(missing) == all - keys;
    assert keys + all == all + (keys - all) && keys + all == keys + (all - keys);
  }

  lemma CacheIsBroughtIn(keys: set<VmId>, ids: seq<VmId>)
    requires |keys| <= MAX_INSTANTIATED_VMS && |ids| <= MAX_INSTANTIATED_VMS && Distinct(Absent(ids, keys))
    ensures BroughtIn(keys, CacheWith(keys, ids), ids)
  {
    var all, rest := Elements(ids), keys - Elements(ids);
    var n := if |keys + all| > 4 then |keys + all| - 4 else 0;
    Needed(keys, ids);
    FirstsAreSmallest(rest, n);
    ElementsOf(ids);
    EvictedFirst(keys, ids, n);
    hide *;
    SortedOut(keys, CacheWith(keys, ids), ids, Evicted(keys, ids));
  }

  lemma EvictedFirst(keys: set<VmId>, ids: seq<VmId>, n: nat)
    requires n == if |keys| + |Absent(ids, keys)| > 4 then |keys| + |Absent(ids, keys)| - 4 else 0
    ensures Evicted(keys, ids) == Elements(Firsts(Ascending(keys - Elements(ids)), n))
    ensures CacheWith(keys, ids) == keys + Elements(ids) - Evicted(keys, ids)
  {
  }

  lemma SortedOut(keys: set<VmId>, after: set<VmId>, ids: seq<VmId>, gone: set<VmId>)
    requires after == keys + Elements(ids) - gone && gone <= keys - Elements(ids)
    requires |gone| == if |keys + Elements(ids)| > 4 then |keys + Elements(ids)| - 4 else 0
    requires forall e, k | e in gone && k in keys - Elements(ids) && k !in gone :: e < k
    ensures BroughtIn(keys, after, ids)
  {
    ElementsOf(ids);
    assert gone <= keys + Elements(ids);
    hide Elements;
  }

  lemma {:induction false} DistinctCount(q: seq<VmId>)
    requires Distinct(q)
    ensures |Elements(q)| == |q|
  {
    if q != [] {
      var n := |q| - 1;
      DistinctCount(q[..n]);
      assert Elements(q) == Elements(q[..n]) + {q[n]};
    }
  }

  /** A full cache has lost its smallest id, any other one nobody. */
  ghost predicate FirstLeft(before: set<VmId>, after: set<VmId>) {
    if |before| < 4 then after == before else exists m: VmId :: IsSmallest(before, m) && after == before - {m}
  }

  /** The cache after room has been made for one more machine. */
  function RoomIn(keys: set<VmId>): (r: set<VmId>)
    ensures FirstLeft(keys, r)
  {
    if |keys| < MAX_INSTANTIATED_VMS then keys else keys - {Smallest(keys)}
  }

  lemma EmptyRoom()
    ensures RoomIn({}) == {}
  {
  }

  lemma CacheHit(keys: set<VmId>, id: VmId)
    requires id in keys && |keys| <= MAX_INSTANTIATED_VMS
    ensures CacheWith(keys, [id]) == keys
  {
    hide Ascending;
    assert [id][1..] == [] && Absent([], keys) == [];
    assert Absent([id], keys) == [];
    ElementsOf([id]);
    ElementsOf([]);
  }

  lemma CacheHits(keys: set<VmId>, a: VmId, b: VmId)
    requires a in keys && b in keys && |keys| <= MAX_INSTANTIATED_VMS
    ensures CacheWith(keys, [a, b]) == keys
  {
    hide Ascending;
    assert [a, b][1..] == [b] && [b][1..] == [] && Absent([], keys) == [] && Absent([b], keys) == [];
    assert Absent([a, b], keys) == [];
    ElementsOf([a, b]);
    ElementsOf([]);
  }

  lemma OnlyAsked(keys: set<VmId>, ids: seq<VmId>, id: VmId)
    requires id in CacheWith(keys, ids)
    ensures id in keys || id in ids
  {
    hide Evicted;
    ElementsOf(ids);
  }

  /** The part of the cache that is not evicted, before and after the VMs that fit have been resumed. */
  lemma SameEvictable(before: set<VmId>, now: set<VmId>, ids: seq<VmId>)
    requires forall id | id in before :: id in now
    requires forall id | id in now :: id in before || id in ids
    ensures now - Elements(ids) == before - Elements(ids)
  {
    ElementsOf(ids);
  }

  /** What happens when VMs have to be evicted: `left` of the missing ones did not fit. */
  lemma CacheFilled(before: set<VmId>, now: set<VmId>, after: set<VmId>, ids: seq<VmId>, left: nat)
    requires var missing := Absent(ids, before);
             && left <= |missing| && left + MAX_INSTANTIATED_VMS == |missing| + |before|
             && (forall id :: id in now <==> id in before || id in missing[left..])
             && var suspendable := Ascending(now - Elements(ids));
             && left <= |suspendable|
             && forall id :: id in after <==> id in missing[..left] || (id in now && id !in suspendable[..left])
    ensures after == CacheWith(before, ids)
  {
    var missing, kept := Absent(ids, before), Ascending(now - Elements(ids));
    AbsentMeaning(ids, before);
    ElementsOf(ids);
    hide *;
    assert missing == missing[..left] + missing[left..];
    forall id ensures id in missing <==> id in missing[..left] || id in missing[left..] { }
    SameEvictable(before, now, ids);
    EvictedAre(before, ids, left);
    KeptMeaning(before, ids, kept, left);
    CacheMeaning(before, ids);
    forall id ensures id in after <==> id in CacheWith(before, ids) {
      assert id in missing <==> id in missing[..left] || id in missing[left..];
    }
  }

  lemma EvictedAre(keys: set<VmId>, ids: seq<VmId>, n: nat)
    requires n + MAX_INSTANTIATED_VMS == |Absent(ids, keys)| + |keys| && n <= |Ascending(keys - Elements(ids))|
    ensures forall id :: id in Evicted(keys, ids) <==> id in Ascending(keys - Elements(ids))[..n]
  {
    hide Ascending, Absent;
    ElementsOf(Ascending(keys - Elements(ids))[..n]);
  }

  lemma KeptMeaning(keys: set<VmId>, ids: seq<VmId>, kept: seq<VmId>, n: nat)
    requires kept == Ascending(keys - Elements(ids)) && n <= |kept|
    ensures forall id | id in kept[..n] :: id in keys && id !in ids
  {
    ElementsOf(ids);
    forall id | id in kept[..n] ensures id in keys && id !in ids { assert id in kept; }
  }

  lemma CacheMeaning(keys: set<VmId>, ids: seq<VmId>)
    ensures forall id :: id in CacheWith(keys, ids) <==> (id in keys || id in ids) && id !in Evicted(keys, ids)
  {
    hide Evicted;
    ElementsOf(ids);
  }

  lemma AbsentMeaning(ids: seq<VmId>, present: set<VmId>)
    ensures forall id :: id in Absent(ids, present) <==> id in ids && id !in present
  {
  }

  /** What happens when all missing VMs fit. */
  lemma CacheFits(before: set<VmId>, after: set<VmId>, ids: seq<VmId>)
    requires |Absent(ids, before)| + |before| <= MAX_INSTANTIATED_VMS
    requires forall id :: id in after <==> id in before || id in Absent(ids, before)
    ensures after == CacheWith(before, ids)
  {
    hide Absent, Ascending, Listing;
    AbsentMeaning(ids, before);
    ElementsOf(ids);
    ElementsOf([]);
  }

  // ---- Input and output ----

  ghost function ClosedReaders(f: Flat): set<VmId> {
    set id | id in f.states && ClosedReader(f, id)
  }

  ghost function ClosedWriters(f: Flat): set<VmId> {
    set id | id in f.states && ClosedWriter(f, id)
  }

  /** The order in which closed pipes are met: readers first, each group by id. */
  ghost function ClosedList(f: Flat): seq<VmId> {
    Ascending(ClosedReaders(f)) + Ascending(ClosedWriters(f))
  }

  lemma ClosedListed(f: Flat)
    ensures forall id :: id in ClosedList(f) <==> ClosedWaiter(f, id)
  {
    forall id ensures id in ClosedList(f) <==> ClosedWaiter(f, id) {
      assert id in ClosedReaders(f) <==> ClosedReader(f, id);
      assert id in ClosedWriters(f) <==> ClosedWriter(f, id);
    }
  }

  lemma ClosedOnes(f: Flat)
    ensures Distinct(ClosedList(f)) && forall id :: id in ClosedList(f) <==> ClosedWaiter(f, id)
  {
    ClosedListed(f);
    ClosedTogether(f, Ascending(ClosedReaders(f)), Ascending(ClosedWriters(f)));
  }

  lemma ClosedReadersListed(f: Flat, closed: seq<VmId>)
    requires Increasing(closed) && forall id :: id in closed <==> id in f.states.Keys && ClosedReader(f, id)
    ensures closed == Ascending(ClosedReaders(f))
  {
    ListingIsUnique(closed, ClosedReaders(f));
  }

  lemma ClosedWritersListed(f: Flat, closed: seq<VmId>)
    requires Increasing(closed) && forall id :: id in closed <==> id in f.states.Keys && ClosedWriter(f, id)
    ensures closed == Ascending(ClosedWriters(f))
  {
    ListingIsUnique(closed, ClosedWriters(f));
  }

  /** A VM whose pipe was closed is not instantiated, and no result before its turn faults. */
  ghost predicate MissedAt(f: Flat, keys: set<VmId>, q: seq<VmId>, i: nat)
    requires Shaped(f)
  {
    && i < |q| && q[i] !in keys
    && forall k | 0 <= k < i :: q[k] in f.states && IoVm(f, q[k]).Some?
  }

  lemma MissedHere(f: Flat, keys: set<VmId>, q: seq<VmId>, i: nat)
    requires Shaped(f) && i < |q| && q[i] !in keys && Served(f, Elements(q[..i]))
    ensures MissedAt(f, keys, q, i)
  {
    hide IoVm;
    ElementsOf(q[..i]);
    forall k | 0 <= k < i ensures q[k] in f.states && IoVm(f, q[k]).Some? {
      assert q[..i][k] == q[k];
      assert q[k] in Elements(q[..i]);
    }
  }

  lemma NotMissed(f: Flat, keys: set<VmId>, q: seq<VmId>, i: nat)
    requires Shaped(f) && i <= |q| && forall id | id in q[..i] :: id in keys
    requires i == |q| || (q[i] in keys && q[i] in f.states && IoVm(f, q[i]).None?)
    ensures forall j: nat :: !MissedAt(f, keys, q, j)
  {
    hide IoVm;
    forall j: nat | j < i ensures q[j] in keys { assert q[..i][j] == q[j]; }
  }

  /** Settling input and output panics. */
  ghost predicate IoPanics(f: Flat, keys: set<VmId>)
    requires Shaped(f)
  {
    exists i: nat :: MissedAt(f, keys, ClosedList(f), i)
  }

  /** Waiters on closed pipes are answered readers first, and each kind by id. */
  ghost predicate AnsweredBefore(f: Flat, j: VmId, id: VmId) {
    ClosedWaiter(f, j) && ClosedWaiter(f, id) &&
    if f.states[j].WaitForRead? then f.states[id].WaitForWrite? || j < id else f.states[id].WaitForWrite? && j < id
  }

  /** The results of all that are answered before `id` can be stored. */
  ghost predicate StoredUpTo(f: Flat, id: VmId)
    requires Shaped(f)
  {
    forall j | AnsweredBefore(f, j, id) :: IoVm(f, j).Some?
  }

  /** Settling panics exactly when a waiter on a closed pipe is not in the cache and the results of all those that are
      answered before it can be stored. */
  lemma IoPanicsMeaning(f: Flat, keys: set<VmId>)
    requires Shaped(f)
    ensures IoPanics(f, keys) <==>
            exists id :: ClosedWaiter(f, id) && id !in keys && StoredUpTo(f, id)
  {
    var q := ClosedList(f);
    ClosedListed(f);
    InOrder(f);
    hide IoVm, ClosedWaiter, AnsweredBefore, ClosedList;
    if i: nat :| MissedAt(f, keys, q, i) {
      assert q[i] in q;
      forall j | AnsweredBefore(f, j, q[i]) ensures j in f.states && IoVm(f, j).Some? {
        BothWait(f, j, q[i]);
        var k :| 0 <= k < |q| && q[k] == j;
      }
    }
    if id :| ClosedWaiter(f, id) && id !in keys && StoredUpTo(f, id) {
      var i :| 0 <= i < |q| && q[i] == id;
      forall k | 0 <= k < i ensures q[k] in f.states && IoVm(f, q[k]).Some? { BothWait(f, q[k], id); }
      assert MissedAt(f, keys, q, i);
    }
  }

  lemma BothWait(f: Flat, j: VmId, id: VmId)
    ensures AnsweredBefore(f, j, id) ==> ClosedWaiter(f, j) && ClosedWaiter(f, id) && j in f.states
  {
  }

  lemma InOrder(f: Flat)
    ensures forall k, i | 0 <= k < |ClosedList(f)| && 0 <= i < |ClosedList(f)| ::
              k < i <==> AnsweredBefore(f, ClosedList(f)[k], ClosedList(f)[i])
  {
    var a, b := Ascending(ClosedReaders(f)), Ascending(ClosedWriters(f));
    hide Ascending;
    forall k, i | 0 <= k < |a + b| && 0 <= i < |a + b|
      ensures k < i <==> AnsweredBefore(f, (a + b)[k], (a + b)[i])
    {
      if k < |a| { assert a[k] in ClosedReaders(f); } else { assert b[k - |a|] in ClosedWriters(f); }
      if i < |a| { assert a[i] in ClosedReaders(f); } else { assert b[i - |a|] in ClosedWriters(f); }
      if k != i { assert (a + b)[k] != (a + b)[i]; }
    }
  }

  /** The writers that are matched with a reader. */
  ghost function PairedWriters(f: Flat): set<VmId> {
    set w | w in f.states && ReaderOf(f, w).Some?
  }

  /** Who is served together with the writer `w`. */
  ghost function ServedWith(f: Flat, w: VmId): VmId {
    match ReaderOf(f, w)
    case Some(r) => r
    case None => w
  }

  lemma ServedIsMatched(f: Flat, w: VmId)
    requires w in PairedWriters(f)
    ensures Matched(f, ServedWith(f, w), w) && ServedWith(f, w) in f.states && f.states[ServedWith(f, w)].WaitForRead?
  {
  }

  lemma ReaderIsUnique(f: Flat, r: VmId, w: VmId)
    requires Live(f) && Matched(f, r, w)
    ensures w in PairedWriters(f) && ServedWith(f, w) == r
  {
    MatchedIsPeer(f, r, w);
    MatchedIsPeer(f, ServedWith(f, w), w);
  }

  /** The cache after the pairs of these writers have been served in turn. */
  ghost function PairsCache(f: Flat, keys: set<VmId>, writers: seq<VmId>): set<VmId> {
    if writers == [] then keys
    else
      var w := writers[|writers| - 1];
      CacheWith(PairsCache(f, keys, writers[..|writers| - 1]), [ServedWith(f, w), w])
  }

  lemma {:induction false} PairsOnly(f: Flat, keys: set<VmId>, writers: seq<VmId>, id: VmId)
    requires forall w | w in writers :: w in PairedWriters(f)
    requires id in PairsCache(f, keys, writers)
    ensures id in keys || InSomePair(f, id)
  {
    hide CacheWith;
    if writers != [] {
      var w := writers[|writers| - 1];
      assert w in writers;
      var front := writers[..|writers| - 1];
      OnlyAsked(PairsCache(f, keys, front), [ServedWith(f, w), w], id);
      if id in PairsCache(f, keys, front) { PairsOnly(f, keys, front, id); }
      else { assert Matched(f, ServedWith(f, w), w); }
    }
  }

  /** The collected pairs list the matched writers, each with its reader. */
  lemma PairsListed(f: Flat, pairs: seq<Pair>, writers: seq<VmId>)
    requires Live(f) && PairsOk(f, pairs) && Paired(f, f.states.Keys, pairs)
    requires |writers| == |pairs| && forall k | 0 <= k < |pairs| :: writers[k] == pairs[k].writer
    ensures writers == Ascending(PairedWriters(f))
    ensures forall k | 0 <= k < |pairs| ::
              writers[k] in PairedWriters(f) && ServedWith(f, writers[k]) == pairs[k].reader
  {
    hide Live, Matched, ServedWith, ReaderOf;
    forall k | 0 <= k < |pairs|
      ensures writers[k] in PairedWriters(f) && ServedWith(f, writers[k]) == pairs[k].reader
    {
      ReaderIsUnique(f, pairs[k].reader, pairs[k].writer);
    }
    forall w ensures w in writers <==> w in PairedWriters(f) {
      if w in PairedWriters(f) {
        ServedIsMatched(f, w);
        var r := ServedWith(f, w);
        assert HasPair(pairs, r, w);
        var k :| 0 <= k < |pairs| && pairs[k].reader == r && pairs[k].writer == w;
        assert writers[k] == w;
      }
    }
    ListingIsUnique(writers, PairedWriters(f));
  }

  lemma PairsNext(f: Flat, keys: set<VmId>, writers: seq<VmId>, i: nat)
    requires i < |writers|
    ensures PairsCache(f, keys, writers[..i + 1]) ==
            CacheWith(PairsCache(f, keys, writers[..i]), [ServedWith(f, writers[i]), writers[i]])
  {
    hide CacheWith;
    assert writers[..i + 1][..i] == writers[..i];
  }

  lemma PairsEnds(f: Flat, keys: set<VmId>, writers: seq<VmId>)
    requires writers == Ascending(PairedWriters(f))
    ensures PairsCache(f, keys, writers[..0]) == keys && PairsCache(f, keys, writers[..|writers|]) == IoCache(f, keys)
  {
    hide Ascending, CacheWith, PairedWriters;
    assert writers[..|writers|] == writers;
  }

  lemma PairAt(f: Flat, pairs: seq<Pair>, i: nat)
    requires PairsOk(f, pairs) && i < |pairs|
    ensures Matched(f, pairs[i].reader, pairs[i].writer)
    ensures pairs[i].readState == f.states[pairs[i].reader] && pairs[i].writeState == f.states[pairs[i].writer]
  {
  }

  /** The cache after all input and output has been settled. */
  ghost function IoCache(f: Flat, keys: set<VmId>): set<VmId> {
    PairsCache(f, keys, Ascending(PairedWriters(f)))
  }

  lemma {:induction false} PairsFit(f: Flat, keys: set<VmId>, writers: seq<VmId>)
    requires |keys| <= MAX_INSTANTIATED_VMS && forall w | w in writers :: w in PairedWriters(f)
    ensures |PairsCache(f, keys, writers)| <= MAX_INSTANTIATED_VMS
    ensures writers != [] ==>
              var w := writers[|writers| - 1];
              w in PairsCache(f, keys, writers) && ServedWith(f, w) in PairsCache(f, keys, writers)
  {
    hide CacheWith, PairedWriters, ServedWith, Matched;
    if writers != [] {
      var front, w := writers[..|writers| - 1], writers[|writers| - 1];
      PairsFit(f, keys, front);
      var before, r := PairsCache(f, keys, front), ServedWith(f, w);
      ServedIsMatched(f, w);
      AbsentPair(before, r, w);
      CacheIsBroughtIn(before, [r, w]);
      assert r in [r, w] && w in [r, w];
    }
  }

  lemma AbsentPair(keys: set<VmId>, r: VmId, w: VmId)
    requires r != w
    ensures Distinct(Absent([r, w], keys))
  {
    var one := [w];
    assert [r, w][1..] == one && one[1..] == [];
    assert Absent(one, keys) == if w in keys then [] else [w];
  }

  /** The pairs are served in the order of their writers: the last pair is in the cache afterwards, whoever is not. */
  lemma LastPairStays(f: Flat, keys: set<VmId>)
    requires |keys| <= MAX_INSTANTIATED_VMS && PairedWriters(f) != {}
    ensures exists r: VmId, w: VmId ::
              IsLargest(PairedWriters(f), w) && Matched(f, r, w) && r in IoCache(f, keys) && w in IoCache(f, keys)
  {
    var writers := Ascending(PairedWriters(f));
    hide PairedWriters, PairsCache, ServedWith, Matched, Ascending;
    PairsFit(f, keys, writers);
    var w := writers[|writers| - 1];
    assert w in writers;
    ServedIsMatched(f, w);
    assert IsLargest(PairedWriters(f), w);
    var r := ServedWith(f, w);
    assert r in IoCache(f, keys);
  }

  // ---- The rest of a turn ----

  ghost function JoinersCache(keys: set<VmId>, joiners: seq<VmId>): set<VmId> {
    if joiners == [] then keys
    else CacheWith(JoinersCache(keys, joiners[..|joiners| - 1]), [joiners[|joiners| - 1]])
  }

  lemma {:induction false} JoinersOnly(keys: set<VmId>, joiners: seq<VmId>, id: VmId)
    requires id in JoinersCache(keys, joiners)
    ensures id in keys || id in joiners
  {
    hide CacheWith;
    if joiners != [] {
      var front := joiners[..|joiners| - 1];
      OnlyAsked(JoinersCache(keys, front), [joiners[|joiners| - 1]], id);
      if id in JoinersCache(keys, front) { JoinersOnly(keys, front, id); }
    }
  }

  lemma JoinersNext(keys: set<VmId>, joiners: seq<VmId>, i: nat)
    requires i < |joiners|
    ensures JoinersCache(keys, joiners[..i + 1]) == CacheWith(JoinersCache(keys, joiners[..i]), [joiners[i]])
  {
    hide CacheWith;
    assert joiners[..i + 1][..i] == joiners[..i];
  }

  lemma JoinersEnds(keys: set<VmId>, joiners: seq<VmId>)
    ensures JoinersCache(keys, joiners[..0]) == keys && joiners[..|joiners|] == joiners
  {
  }

  lemma JoinersListed(f: Flat, id: VmId, joining: seq<(VmId, u64)>, joiners: seq<VmId>)
    requires JoinersOf(f, id, f.states.Keys, joining)
    requires |joiners| == |joining| && forall k | 0 <= k < |joining| :: joiners[k] == joining[k].0
    ensures joiners == Ascending(Joiners(f, id))
  {
    hide Joins;
    forall j ensures j in joiners <==> j in Joiners(f, id) {
      if j in f.states && Joins(f, j, id) {
        var k :| 0 <= k < |joining| && joining[k].0 == j;
        assert joiners[k] == j;
      }
    }
    ListingIsUnique(joiners, Joiners(f, id));
  }

  ghost function Joiners(f: Flat, id: VmId): set<VmId> {
    set j | j in f.states && Joins(f, j, id)
  }

  /** The cache after VM `id` has terminated: a terminated root stays alone. */
  ghost function EndCache(f: Flat, keys: set<VmId>, id: VmId): set<VmId> {
    if id == ROOT then {ROOT} else JoinersCache(keys, Ascending(Joiners(f, id))) - {id}
  }

  lemma {:induction false} JoinersFit(keys: set<VmId>, joiners: seq<VmId>)
    requires |keys| <= MAX_INSTANTIATED_VMS
    ensures |JoinersCache(keys, joiners)| <= MAX_INSTANTIATED_VMS
    ensures joiners != [] ==> joiners[|joiners| - 1] in JoinersCache(keys, joiners)
  {
    hide CacheWith;
    if joiners != [] {
      var front, last := joiners[..|joiners| - 1], joiners[|joiners| - 1];
      JoinersFit(keys, front);
      CacheIsBroughtIn(JoinersCache(keys, front), [last]);
      assert last in [last];
    }
  }

  /** The joining VMs are woken in the order of their ids: the last one is in the cache afterwards, whoever is not. */
  lemma LastJoinerStays(f: Flat, keys: set<VmId>, id: VmId)
    requires |keys| <= MAX_INSTANTIATED_VMS && id != ROOT && Joiners(f, id) != {} && !Joins(f, id, id)
    ensures exists j: VmId :: IsLargest(Joiners(f, id), j) && j in EndCache(f, keys, id)
  {
    hide Joins, JoinersCache;
    var joiners := Ascending(Joiners(f, id));
    JoinersFit(keys, joiners);
    var last := joiners[|joiners| - 1];
    assert last in joiners;
    assert IsLargest(Joiners(f, id), last);
  }

  /** The cache after a message of VM `id`: only a spawn changes it. The new machine may push out its spawner, who is
      then brought back for the result. */
  ghost function MessageCache(f: Flat, keys: set<VmId>, message: Message): set<VmId> {
    if message.Spawn? then CacheWith(RoomIn(keys) + {f.nextVmId}, [message.vm]) else keys
  }

  ghost function StopCache(g: Flat, keys: set<VmId>, id: VmId, stop: Stop): set<VmId> {
    match stop
    case Yield(message) => MessageCache(g, keys, message)
    case Exit(_) => EndCache(g, keys, id)
    case Stopped(_) => keys
  }

  /** Charging the cycles of a VM does not matter to the cache. */
  lemma ChargeKeepsStop(g: Flat, keys: set<VmId>, id: VmId, r: RunResult)
    ensures StopCache(Charge(g, id, r.vm), keys, id, r.stop) == StopCache(g, keys, id, r.stop)
    ensures r.stop.Stopped? ==> StopCache(g, keys, id, r.stop) == keys
  {
    hide CacheWith, JoinersCache, RoomIn, Joins;
    ChargeKeepsJoins(g, id, r.vm);
    assert Joiners(Charge(g, id, r.vm), id) == Joiners(g, id);
  }

  /** The cache after a turn that is not fatal. */
  ghost function TurnCache(env: Env, f: Flat, keys: set<VmId>, signal: Signal, limit: nat): set<VmId>
    requires Shaped(f)
  {
    match Io(f)
    case Err(_) => keys
    case Ok(g) =>
      match Select(g)
      case None => keys
      case Some(id) =>
        StopCache(g, CacheWith(IoCache(f, keys), [id]), id,
                  Run(env, id, g.machines[id], g.totalCycles, limit, signal).stop)
  }

  // ---- One call of `run` ----

  /** A turn panics: in settling input and output, or in a spawn call with too many arguments. */
  ghost predicate TurnPanics(env: Env, f: Flat, keys: set<VmId>, signal: Signal, limit: nat)
    requires Steppable(f)
  {
    IoPanics(f, keys) || Iterate(env, f, signal, limit) == Fatal(CapacityOverflow)
  }

  /** The result of `run` on a state that is booted panics. */
  ghost predicate RunPanics(env: Env, f: Flat, keys: set<VmId>, mode: RunMode)
    requires Inv(f)
  {
    if Ended(f) then ROOT !in keys
    else
      LiveShape(f);
      var first, later := FirstSlice(mode), LaterSlice(mode);
      var t := Iterate(env, f, first.signal, first.limit);
      || TurnPanics(env, f, keys, first.signal, first.limit)
      || (t.Turn? && Steppable(t.next) && !Ended(t.next) &&
          TurnPanics(env, t.next, TurnCache(env, f, keys, first.signal, first.limit), later.signal, later.limit))
  }

  /** The cache after a call of `run` that can be gone on from. */
  ghost function RunCache(env: Env, f: Flat, keys: set<VmId>, mode: RunMode): set<VmId>
    requires Live(f)
  {
    LiveShape(f);
    var first, later := FirstSlice(mode), LaterSlice(mode);
    var t := Iterate(env, f, first.signal, first.limit);
    var after := TurnCache(env, f, keys, first.signal, first.limit);
    if t.Turn? && Shaped(t.next) && !Ended(t.next) then TurnCache(env, t.next, after, later.signal, later.limit)
    else after
  }

  /** A call of `run` by its turns: the first one, and, after a turn of progress, the next. */
  lemma RunByTurns(env: Env, f: Flat, keys: set<VmId>, mode: RunMode)
    requires Inv(f)
    ensures Ended(f) ==> (RunPanics(env, f, keys, mode) <==> ROOT !in keys)
    ensures Live(f) ==>
              var slice, later := FirstSlice(mode), LaterSlice(mode);
              && Steppable(f) && !Ended(f)
              && var t := Iterate(env, f, slice.signal, slice.limit);
              && var after := TurnCache(env, f, keys, slice.signal, slice.limit);
              && var panics := TurnPanics(env, f, keys, slice.signal, slice.limit);
              && (panics ==> RunPanics(env, f, keys, mode))
              && (!panics && !t.Turn? ==>
                    !RunPanics(env, f, keys, mode) && RunCache(env, f, keys, mode) == after)
              && (!panics && t.Turn? ==>
                    && Inv(t.next)
                    && (Ended(t.next) ==> !RunPanics(env, f, keys, mode))
                    && (Live(t.next) ==>
                          && Steppable(t.next)
                          && (RunPanics(env, f, keys, mode) <==>
                              TurnPanics(env, t.next, after, later.signal, later.limit))
                          && RunCache(env, f, keys, mode) ==
                             TurnCache(env, t.next, after, later.signal, later.limit)))
  {
    hide Live, Ended, Iterate, TurnPanics, TurnCache, FirstSlice, LaterSlice;
    if Live(f) {
      var slice := FirstSlice(mode);
      LiveShape(f);
      LiveNotEnded(f);
      IterateKeepsInv(env, f, slice.signal, slice.limit);
      var t := Iterate(env, f, slice.signal, slice.limit);
      if t.Turn? && Live(t.next) {
        LiveShape(t.next);
        LiveNotEnded(t.next);
      }
    }
  }

  // ---- What keeps the panic away ----

  lemma NoFault(f: Flat, id: VmId)
    requires Shaped(f) && id in f.states && Io(f).Ok?
    ensures IoVm(f, id).Some?
  {
    hide IoVm, IoState;
  }

  /** As soon as a VM outside the cache waits on a closed pipe, the first access that matters is a panic, unless
      storing a result faults before it. */
  lemma MissingPanics(f: Flat, keys: set<VmId>, id: VmId)
    requires Live(f) && ClosedWaiter(f, id) && id !in keys && Io(f).Ok?
    ensures IoPanics(f, keys)
  {
    hide Live, IoVm, IoState;
    LiveShape(f);
    ClosedListed(f);
    var q := ClosedList(f);
    var i :| 0 <= i < |q| && q[i] == id;
    forall k | 0 <= k < i ensures q[k] in f.states && IoVm(f, q[k]).Some? {
      assert q[k] in q;
      NoFault(f, q[k]);
    }
    assert MissedAt(f, keys, q, i);
  }

  lemma PanicMeansMissing(f: Flat, keys: set<VmId>)
    requires Shaped(f) && IoPanics(f, keys)
    ensures exists id :: ClosedWaiter(f, id) && id !in keys
  {
    ClosedListed(f);
    var i: nat :| MissedAt(f, keys, ClosedList(f), i);
    assert ClosedList(f)[i] in ClosedList(f);
  }

  /** No pipe is closed on a waiting VM. */
  lemma NothingClosedNeverPanics(f: Flat, keys: set<VmId>)
    requires Shaped(f) && forall id :: !ClosedWaiter(f, id)
    ensures !IoPanics(f, keys)
  {
    if IoPanics(f, keys) { PanicMeansMissing(f, keys); }
  }

  /** Every live machine is in the cache. */
  ghost predicate AllCached(f: Flat, keys: set<VmId>) {
    keys == f.states.Keys && |keys| <= MAX_INSTANTIATED_VMS
  }

  lemma {:induction false} PairsHit(f: Flat, keys: set<VmId>, writers: seq<VmId>)
    requires AllCached(f, keys) && forall w | w in writers :: w in PairedWriters(f)
    ensures PairsCache(f, keys, writers) == keys
  {
    hide CacheWith;
    if writers != [] {
      var w := writers[|writers| - 1];
      assert w in writers;
      assert Matched(f, ServedWith(f, w), w);
      PairsHit(f, keys, writers[..|writers| - 1]);
      assert ServedWith(f, w) in keys && w in keys && |keys| <= MAX_INSTANTIATED_VMS;
      CacheHits(keys, ServedWith(f, w), w);
    }
  }

  lemma {:induction false} JoinersHit(keys: set<VmId>, joiners: seq<VmId>)
    requires |keys| <= MAX_INSTANTIATED_VMS && forall j | j in joiners :: j in keys
    ensures JoinersCache(keys, joiners) == keys
  {
    hide CacheWith;
    if joiners != [] {
      JoinersHit(keys, joiners[..|joiners| - 1]);
      CacheHit(keys, joiners[|joiners| - 1]);
    }
  }

  lemma DeliverStates(env: Env, f: Flat, message: Message)
    requires Live(f) && message.vm in f.states && message.vm in f.machines && message.vm < f.nextVmId
    requires Deliver(env, f, message).Ok?
    ensures Deliver(env, f, message).value.states.Keys ==
            f.states.Keys + if message.Spawn? then {f.nextVmId} else {}
  {
    hide BootMachine, Complete64, Complete8, Store64, Handover;
  }

  lemma SpawnHit(f: Flat, keys: set<VmId>, message: Message)
    requires AllCached(f, keys) && message.vm in keys && f.nextVmId !in keys
    requires message.Spawn? ==> |keys + {f.nextVmId}| <= MAX_INSTANTIATED_VMS
    ensures MessageCache(f, keys, message) == keys + if message.Spawn? then {f.nextVmId} else {}
  {
    hide CacheWith;
    if message.Spawn? {
      assert |keys + {f.nextVmId}| == |keys| + 1;
      CacheHit(keys + {f.nextVmId}, message.vm);
    }
  }

  lemma EndStates(f: Flat, id: VmId, code: int)
    requires Shaped(f) && ROOT in f.machines && End(f, id, code).Ok?
    ensures End(f, id, code).value.states.Keys == if id == ROOT then {ROOT} else f.states.Keys - {id}
  {
    hide Woken;
  }

  lemma StopHits(env: Env, g: Flat, keys: set<VmId>, id: VmId, r: RunResult)
    requires Live(g) && AllCached(g, keys) && Select(g) == Some(id) && id in g.machines && id < g.nextVmId
    requires r.stop.Yield? ==> r.stop.message.vm == id
    requires !Conclude(env, g, id, r).Fatal?
    requires |Conclude(env, g, id, r).next.states| <= MAX_INSTANTIATED_VMS
    ensures AllCached(Conclude(env, g, id, r).next, StopCache(g, keys, id, r.stop))
  {
    hide Live, Deliver, End, Joins, MessageCache, JoinersCache, Select;
    LiveShape(g);
    ChargeKeepsLive(g, id, r.vm);
    var charged := Charge(g, id, r.vm);
    assert charged.states.Keys == keys && charged.nextVmId == g.nextVmId;
    match r.stop
    case Yield(message) =>
      DeliverStates(env, charged, message);
      SpawnHit(g, keys, message);
    case Exit(code) =>
      EndStates(charged, id, code);
      if id != ROOT { JoinersHit(keys, Ascending(Joiners(g, id))); }
    case Stopped(_) =>
  }

  /** With no more than four VMs alive every machine stays in the cache, and only an oversized spawn call panics. */
  lemma FewVmsStayCached(env: Env, f: Flat, keys: set<VmId>, signal: Signal, limit: nat)
    requires Live(f) && AllCached(f, keys)
    ensures Steppable(f)
    ensures var t := Iterate(env, f, signal, limit);
            && (TurnPanics(env, f, keys, signal, limit) <==> t == Fatal(CapacityOverflow))
            && (!t.Fatal? && |t.next.states| <= MAX_INSTANTIATED_VMS ==>
                  AllCached(t.next, TurnCache(env, f, keys, signal, limit)))
  {
    LiveShape(f);
    if IoPanics(f, keys) { PanicMeansMissing(f, keys); }
    hide Live, IoPanics, ClosedWaiter, Iterate, Conclude, CacheWith, StopCache, PairsCache, TurnCache, IoCache, Select;
    if !Iterate(env, f, signal, limit).Fatal? && |Iterate(env, f, signal, limit).next.states| <= MAX_INSTANTIATED_VMS {
      var g, id, r := TurnCacheParts(env, f, keys, signal, limit);
      IoHit(f, keys);
      SelectedIsLive(g, id);
      CacheHit(keys, id);
      StopHits(env, g, keys, id, r);
    }
  }

  lemma IoHit(f: Flat, keys: set<VmId>)
    requires Live(f) && AllCached(f, keys)
    ensures IoCache(f, keys) == keys
    ensures Io(f).Ok? ==> Io(f).value.states.Keys == f.states.Keys
  {
    hide Live, IoVm, IoState, PairsCache;
    LiveShape(f);
    PairsHit(f, keys, Ascending(PairedWriters(f)));
  }

  /** The cache at the end of a turn, by its parts. */
  lemma TurnCacheParts(env: Env, f: Flat, keys: set<VmId>, signal: Signal, limit: nat)
    returns (g: Flat, id: VmId, r: RunResult)
    requires Live(f) && !Iterate(env, f, signal, limit).Fatal?
    ensures Io(f) == Ok(g) && Live(g) && Select(g) == Some(id) && id in g.machines && id < g.nextVmId
    ensures r == Run(env, id, g.machines[id], g.totalCycles, limit, signal)
    ensures r.stop.Yield? ==> WellFormedMessage(id, r.stop.message)
    ensures Iterate(env, f, signal, limit) == Conclude(env, g, id, r)
    ensures TurnCache(env, f, keys, signal, limit) == StopCache(g, CacheWith(IoCache(f, keys), [id]), id, r.stop)
  {
    hide Live, Conclude, Run, Io, Select, CacheWith, StopCache, IoCache;
    g, id, r := TurnParts(env, f, TimeSlice(signal, limit));
  }

  lemma LiveMeansNoRootExit(env: Env, g: Flat, id: VmId, r: RunResult)
    requires Live(g) && Select(g) == Some(id) && id in g.machines && id < g.nextVmId
    requires r.stop.Yield? ==> r.stop.message.vm == id
    requires Conclude(env, g, id, r).Turn? && Live(Conclude(env, g, id, r).next)
    ensures !(r.stop.Exit? && id == ROOT)
  {
    LiveShape(g);
    hide Live, Conclude, RootEnded;
    RootExitEnds(env, g, id, r);
    LiveRootRunsOrNot(Conclude(env, g, id, r).next);
  }

  /** A VM that waits on a pipe outside the cache is not brought in by a turn in which nothing happens to it. */
  lemma IdlersStayOut(env: Env, f: Flat, keys: set<VmId>, id: VmId, signal: Signal, limit: nat)
    requires Live(f) && Idles(f, id) && id !in keys
    requires Iterate(env, f, signal, limit).Turn? && Live(Iterate(env, f, signal, limit).next)
    ensures id !in TurnCache(env, f, keys, signal, limit)
  {
    hide Live, Idles, Iterate, Conclude, CacheWith, StopCache, PairsCache, TurnCache, Select, InSomePair;
    LiveShape(f);
    var g, ran, r := TurnCacheParts(env, f, keys, signal, limit);
    var served := IoCache(f, keys);
    var cached := CacheWith(served, [ran]);
    IdlersStay(f, g, ran);
    if id in served { PairsOnly(f, keys, Ascending(PairedWriters(f)), id); }
    if id in cached { OnlyAsked(served, [ran], id); }
    LiveMeansNoRootExit(env, g, ran, r);
    if id in StopCache(g, cached, ran, r.stop) {
      StopOnly(g, cached, ran, r.stop, id);
    }
  }

  lemma StopOnly(g: Flat, keys: set<VmId>, id: VmId, stop: Stop, j: VmId)
    requires !(stop.Exit? && id == ROOT) && j in StopCache(g, keys, id, stop)
    requires stop.Yield? ==> stop.message.vm == id
    ensures j in keys || j == id || j == g.nextVmId || Joins(g, j, id)
  {
    hide CacheWith, JoinersCache, Smallest;
    match stop
    case Yield(message) =>
      if message.Spawn? { OnlyAsked(RoomIn(keys) + {g.nextVmId}, [id], j); }
    case Exit(_) => JoinersOnly(keys, Ascending(Joiners(g, id)), j);
    case Stopped(_) =>
  }
}
