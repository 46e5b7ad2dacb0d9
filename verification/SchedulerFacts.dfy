/** Facts about id lists, the machine cache and the work collected by one pass of the scheduler. */
module SchedulerFacts {
  import opened Words
  import opened Types
  import opened Machine
  import opened Ordered
  import opened Flat
  import opened Invariants
  import opened IoSteps

  const MAX_INSTANTIATED_VMS: nat := 4

  /** The ids that still have to be resumed, in request order. */
  function Absent(ids: seq<VmId>, present: set<VmId>): (r: seq<VmId>)
    ensures forall id :: id in r <==> id in ids && id !in present
  {
    if ids == [] then []
    else if ids[0] in present then Absent(ids[1..], present)
    else [ids[0]] + Absent(ids[1..], present)
  }

  function Elements(q: seq<VmId>): set<VmId> {
    set id | id in q
  }

  /** The VMs `q` can be resumed one after the other. */
  ghost predicate Fetchable(q: seq<VmId>, snapshots: set<VmId>) {
    Distinct(q) && forall id | id in q :: id in snapshots
  }

  lemma FetchableHead(q: seq<VmId>, snapshots: set<VmId>)
    requires q != []
    ensures Fetchable(q, snapshots) <==> Fetchable(q[1..], snapshots) && q[0] in snapshots && q[0] !in q[1..]
  {
    assert q == [q[0]] + q[1..];
    if q[0] in q[1..] {
      var j :| 0 <= j < |q| - 1 && q[1..][j] == q[0];
      assert q[j + 1] == q[0];
    }
    if Fetchable(q, snapshots) {
      assert forall id | id in q[1..] :: id in q;
    }
  }

  lemma FetchableLast(q: seq<VmId>, i: nat, snapshots: set<VmId>)
    requires i < |q|
    ensures Fetchable(q[..i + 1], snapshots) <==> Fetchable(q[..i], snapshots) && q[i] in snapshots && q[i] !in q[..i]
    ensures Fetchable(q, snapshots) ==> Fetchable(q[..i + 1], snapshots)
  {
    assert q[..i + 1] == q[..i] + [q[i]];
    assert q[..i + 1][i] == q[i];
    if q[i] in q[..i] {
      var j :| 0 <= j < i && q[..i][j] == q[i];
      assert q[..i + 1][j] == q[..i + 1][i];
    }
    if Fetchable(q[..i + 1], snapshots) {
      assert forall id | id in q[..i] :: id in q[..i + 1];
    }
  }

  lemma {:induction false} SetOfSeq(q: seq<nat>, s: set<nat>)
    requires forall x | x in s :: x in q
    ensures |s| <= |q|
  {
    if q == [] {
      assert s == {};
    } else {
      SetOfSeq(q[1..], s - {q[0]});
    }
  }

  /** Of the `ids` that are there now, at most `|ids|` minus the number still missing. */
  lemma PresentAndAbsent(ids: seq<VmId>, present: set<VmId>, here: set<VmId>, k: nat)
    requires k <= |Absent(ids, present)|
    requires forall id | id in here :: id in ids && (id in present || id in Absent(ids, present)[k..])
    ensures |here| + k <= |ids|
  {
    var missing := Absent(ids, present);
    var kept := Kept(ids, present);
    KeptAndAbsent(ids, present);
    forall x | x in here ensures x in kept + missing[k..] {
      assert x in kept || x in missing[k..];
    }
    SetOfSeq(kept + missing[k..], here);
  }

  function Kept(ids: seq<VmId>, present: set<VmId>): (r: seq<VmId>)
    ensures forall id :: id in r <==> id in ids && id in present
  {
    if ids == [] then []
    else if ids[0] in present then [ids[0]] + Kept(ids[1..], present)
    else Kept(ids[1..], present)
  }

  lemma {:induction false} KeptAndAbsent(ids: seq<VmId>, present: set<VmId>)
    ensures |Kept(ids, present)| + |Absent(ids, present)| == |ids|
  {
    if ids != [] { KeptAndAbsent(ids[1..], present); }
  }

  lemma ElementsOf(q: seq<VmId>)
    ensures forall id :: id in Elements(q) <==> id in q
  {
  }

  /** `id` can move data right now. */
  ghost predicate InSomePair(f: Flat, id: VmId) {
    exists r, w :: Matched(f, r, w) && (id == r || id == w)
  }

  /** `id` waits on a pipe and its partner is not there yet, or never will be. */
  ghost predicate Idles(f: Flat, id: VmId) {
    id in f.states && Waits(f.states[id]) && !InSomePair(f, id) && !ClosedWaiter(f, id)
  }

  lemma IdlersStay(f: Flat, g: Flat, id: VmId)
    requires Live(f) && Io(f) == Ok(g) && Select(g) == Some(id)
    ensures forall j | Idles(f, j) :: j != id && j != g.nextVmId && !Joins(g, j, id) && !InSomePair(f, j)
  {
    forall j | Idles(f, j) ensures j != id && j != g.nextVmId && !Joins(g, j, id) {
      Idle(f, j);
      assert id in RunnableIds(g);
      assert g.states[j] == f.states[j];
    }
  }

  lemma PairSides(f: Flat, r: VmId, w: VmId)
    requires Matched(f, r, w)
    ensures InSomePair(f, r) && InSomePair(f, w)
  {
  }

  // ---- Facts about the collected work ----

  lemma MergeUpdate(a: map<VmId, Vm>, b: map<VmId, Vm>, id: VmId, vm: Vm)
    requires id !in b
    ensures a[id := vm] + b == (a + b)[id := vm]
  {
  }

  lemma FaultsMeansErr(f: Flat)
    requires Shaped(f) && IoFaults(f)
    ensures Io(f) == Err(MemOutOfBound)
  {
  }

  lemma ClosedTogether(f: Flat, a: seq<VmId>, b: seq<VmId>)
    requires Increasing(a) && Increasing(b)
    requires forall id :: id in a <==> ClosedReader(f, id)
    requires forall id :: id in b <==> ClosedWriter(f, id)
    ensures Distinct(a + b) && forall id :: id in a + b <==> ClosedWaiter(f, id)
  {
    forall i, j | 0 <= i < |a| && 0 <= j < |b| ensures a[i] != b[j] {
      assert ClosedReader(f, a[i]) && ClosedWriter(f, b[j]);
    }
  }

  /** `done` are the closed waiters and the VMs of the first `i` pairs. */
  ghost predicate DoneAfter(f: Flat, closed: seq<VmId>, pairs: seq<Pair>, i: nat, done: set<VmId>) {
    && i <= |pairs|
    && (forall id | id in closed :: id in done)
    && (forall k | 0 <= k < i :: pairs[k].reader in done && pairs[k].writer in done)
    && (forall id | id in done ::
          id in closed || exists k :: 0 <= k < i && (pairs[k].reader == id || pairs[k].writer == id))
  }

  lemma DoneStart(f: Flat, closed: seq<VmId>, pairs: seq<Pair>)
    ensures DoneAfter(f, closed, pairs, 0, Elements(closed))
  {
  }

  lemma PairFresh(f: Flat, closed: seq<VmId>, pairs: seq<Pair>, i: nat, done: set<VmId>)
    requires Live(f) && PairsOk(f, pairs) && i < |pairs| && DoneAfter(f, closed, pairs, i, done)
    requires forall id | id in closed :: ClosedWaiter(f, id)
    ensures pairs[i].reader !in done && pairs[i].writer !in done
  {
    hide Live;
    forall id | id in done ensures id != pairs[i].reader && id != pairs[i].writer {
      if id !in closed {
        var k :| 0 <= k < i && (pairs[k].reader == id || pairs[k].writer == id);
        PairsAreDisjoint(f, pairs[k].reader, pairs[k].writer, pairs[i].reader, pairs[i].writer);
      }
    }
  }

  lemma DoneStep(f: Flat, closed: seq<VmId>, pairs: seq<Pair>, i: nat, done: set<VmId>)
    requires i < |pairs| && DoneAfter(f, closed, pairs, i, done)
    ensures DoneAfter(f, closed, pairs, i + 1, done + {pairs[i].reader, pairs[i].writer})
  {
  }

  lemma AllDone(f: Flat, closed: seq<VmId>, pairs: seq<Pair>, done: set<VmId>)
    requires DoneAfter(f, closed, pairs, |pairs|, done) && Paired(f, f.states.Keys, pairs)
    requires forall id :: id in closed <==> ClosedWaiter(f, id)
    ensures forall id :: ClosedWaiter(f, id) ==> id in done
    ensures forall r, w :: Matched(f, r, w) ==> r in done && w in done
  {
    forall r, w | Matched(f, r, w) ensures r in done && w in done {
      assert HasPair(pairs, r, w);
    }
  }


  ghost predicate ClosedReader(f: Flat, id: VmId) {
    ClosedWaiter(f, id) && f.states[id].WaitForRead?
  }

  ghost predicate ClosedWriter(f: Flat, id: VmId) {
    ClosedWaiter(f, id) && f.states[id].WaitForWrite?
  }

  ghost predicate OpenReader(f: Flat, id: VmId) {
    id in f.states && f.states[id].WaitForRead? && OtherEndOpen(f, f.states[id].pipe)
  }

  /** `readers` records, under its pipe, every reader of `seen` that is still connected; no entry is overwritten. */
  ghost predicate ReadersOk(f: Flat, seen: set<VmId>, readers: map<PipeId, (VmId, VmState)>) {
    && (forall p | p in readers ::
          OpenReader(f, readers[p].0) && f.states[readers[p].0] == readers[p].1 && readers[p].1.pipe == p)
    && (forall id | id in seen && OpenReader(f, id) ::
          f.states[id].pipe in readers && readers[f.states[id].pipe].0 == id)
    && (forall p | p in readers :: readers[p].0 in seen)
  }

  lemma NoReaders(f: Flat)
    ensures ReadersOk(f, {}, map[]) && Increasing([])
  {
  }

  lemma ReadersStep(f: Flat, seen: set<VmId>, readers: map<PipeId, (VmId, VmState)>, id: VmId)
    requires Live(f) && ReadersOk(f, seen, readers) && OpenReader(f, id) && id !in seen
    ensures f.states[id].pipe !in readers
    ensures ReadersOk(f, seen + {id}, readers[f.states[id].pipe := (id, f.states[id])])
  {
    if f.states[id].pipe in readers { OneWaiterPerEnd(f, readers[f.states[id].pipe].0, id); }
  }

  lemma ReadersSkip(f: Flat, seen: set<VmId>, readers: map<PipeId, (VmId, VmState)>, id: VmId)
    requires ReadersOk(f, seen, readers) && !OpenReader(f, id)
    ensures ReadersOk(f, seen + {id}, readers)
  {
  }

  lemma ReadersFind(f: Flat, readers: map<PipeId, (VmId, VmState)>, w: VmId)
    requires Live(f) && ReadersOk(f, f.states.Keys, readers)
    requires w in f.states && f.states[w].WaitForWrite? && OtherEndOpen(f, f.states[w].pipe)
    ensures var q := OtherPipe(f.states[w].pipe);
            && (q in readers ==> Matched(f, readers[q].0, w) && readers[q].1 == f.states[readers[q].0])
            && (q !in readers ==> forall r :: !Matched(f, r, w))
  {
    assert StateOk(f, w);
    var q := OtherPipe(f.states[w].pipe);
    forall r | Matched(f, r, w) ensures q in readers {
      assert OpenReader(f, r) && f.states[r].pipe == q;
    }
  }

  ghost predicate HasPair(pairs: seq<Pair>, r: VmId, w: VmId) {
    exists k :: 0 <= k < |pairs| && pairs[k].reader == r && pairs[k].writer == w
  }

  /** Matched pairs with their current states, in the order of their writers, no VM in two of them. */
  ghost predicate PairsOk(f: Flat, pairs: seq<Pair>) {
    && (forall k | 0 <= k < |pairs| ::
          && Matched(f, pairs[k].reader, pairs[k].writer)
          && pairs[k].readState == f.states[pairs[k].reader]
          && pairs[k].writeState == f.states[pairs[k].writer])
    && (forall j, k | 0 <= j < k < |pairs| ::
          pairs[j].writer < pairs[k].writer && pairs[j].reader != pairs[k].reader)
  }

  /** `pairs` holds exactly the pairs with a writer in `seen`. */
  ghost predicate Paired(f: Flat, seen: set<VmId>, pairs: seq<Pair>) {
    && (forall k | 0 <= k < |pairs| :: pairs[k].writer in seen)
    && (forall r, w | Matched(f, r, w) && w in seen :: HasPair(pairs, r, w))
  }

  lemma NoPairs(f: Flat)
    ensures PairsOk(f, []) && Paired(f, {}, []) && Increasing([])
  {
  }

  lemma PairsStep(f: Flat, pairs: seq<Pair>, seen: set<VmId>, r: VmId, w: VmId)
    requires Live(f) && PairsOk(f, pairs) && Paired(f, seen, pairs) && Matched(f, r, w)
    requires forall x | x in seen :: x < w
    ensures var pairs' := pairs + [Pair(r, f.states[r], w, f.states[w])];
            PairsOk(f, pairs') && Paired(f, seen + {w}, pairs')
  {
    hide Live;
    var pairs' := pairs + [Pair(r, f.states[r], w, f.states[w])];
    forall k | 0 <= k < |pairs| ensures pairs[k].reader != r && pairs[k].writer != w {
      PairsAreDisjoint(f, pairs[k].reader, pairs[k].writer, r, w);
    }
    forall r', w' | Matched(f, r', w') && w' in seen + {w} ensures HasPair(pairs', r', w') {
      if w' == w {
        PairsAreDisjoint(f, r', w', r, w);
        assert pairs'[|pairs|].reader == r' && pairs'[|pairs|].writer == w';
      } else {
        var k :| 0 <= k < |pairs| && pairs[k].reader == r' && pairs[k].writer == w';
        assert pairs'[k] == pairs[k];
      }
    }
  }

  lemma PairsSkip(f: Flat, pairs: seq<Pair>, seen: set<VmId>, w: VmId)
    requires Paired(f, seen, pairs)
    requires w in f.states
    requires (f.states[w].WaitForWrite? && OtherEndOpen(f, f.states[w].pipe)) ==> forall r :: !Matched(f, r, w)
    ensures Paired(f, seen + {w}, pairs)
  {
  }

  lemma OneFetchable(id: VmId, present: set<VmId>, snapshots: set<VmId>)
    requires id in present || id in snapshots
    ensures Fetchable(Absent([id], present), snapshots)
  {
    assert Absent([], present) == [];
    assert [id][1..] == [];
  }

  lemma TwoFetchable(a: VmId, b: VmId, present: set<VmId>, snapshots: set<VmId>)
    requires a != b && a in present + snapshots && b in present + snapshots
    ensures Fetchable(Absent([a, b], present), snapshots)
  {
    assert [a, b][1..] == [b] && [b][1..] == [];
    assert Absent([b], present) == (if b in present then [] else [b]);
  }

  lemma EnoughToEvict(ids: seq<VmId>, before: set<VmId>, now: set<VmId>, suspendable: seq<VmId>, k: nat)
    requires |ids| <= |now| && |suspendable| == |now - Elements(ids)|
    requires k <= |Absent(ids, before)|
    requires forall id | id in now :: id in before || id in Absent(ids, before)[k..]
    ensures |suspendable| >= k
  {
    hide Absent;
    var here := now * Elements(ids);
    PresentAndAbsent(ids, before, here, k);
    assert |now - Elements(ids)| == |now| - |here|;
  }

  lemma FetchableEmpty(snapshots: set<VmId>)
    ensures Fetchable([], snapshots)
  {
  }

  lemma SplitAbsent(q: seq<VmId>, k: nat, snapshots: set<VmId>)
    requires k <= |q|
    ensures Fetchable(q, snapshots) <==>
            Fetchable(q[k..], snapshots) && Fetchable(q[..k], snapshots) && forall id | id in q[..k] :: id !in q[k..]
  {
    if Fetchable(q, snapshots) {
      forall id | id in q[..k] ensures id in snapshots && id !in q[k..] {
        assert id in q;
      }
    }
    if Fetchable(q[k..], snapshots) && Fetchable(q[..k], snapshots) && forall id | id in q[..k] :: id !in q[k..] {
      forall id | id in q ensures id in snapshots {
        assert id in q[..k] || id in q[k..];
      }
      forall i, j | 0 <= i < j < |q| ensures q[i] != q[j] {
        if j < k {
          assert q[..k][i] == q[i] && q[..k][j] == q[j];
        } else {
          assert q[k..][j - k] == q[j];
          if i >= k { assert q[k..][i - k] == q[i]; } else { assert q[..k][i] == q[i] && q[i] in q[..k]; }
        }
      }
    }
  }

  lemma FetchableFrom(q: seq<VmId>, others: seq<VmId>, before: set<VmId>, now: set<VmId>)
    requires forall id :: id in now <==> id in before && id !in others
    ensures Fetchable(q, now) <==> Fetchable(q, before) && forall id | id in q :: id !in others
  {
  }

  // ---- Joiners ----

  /** `joining` lists the VMs of `seen` that join `id`, each once and in order. */
  ghost predicate JoinersOf(f: Flat, id: VmId, seen: set<VmId>, joining: seq<(VmId, u64)>) {
    && (forall k | 0 <= k < |joining| ::
          joining[k].0 in seen && Joins(f, joining[k].0, id) && f.states[joining[k].0].exitCodeAddr == joining[k].1)
    && (forall j | j in seen && Joins(f, j, id) :: exists k :: 0 <= k < |joining| && joining[k].0 == j)
    && (forall k, l | 0 <= k < l < |joining| :: joining[k].0 < joining[l].0)
  }

  lemma NoJoiners(f: Flat, id: VmId)
    ensures JoinersOf(f, id, {}, [])
  {
  }

  lemma JoinersStep(f: Flat, id: VmId, seen: set<VmId>, joining: seq<(VmId, u64)>, j: VmId)
    requires JoinersOf(f, id, seen, joining) && (forall x | x in seen :: x < j) && j in f.states
    ensures JoinersOf(f, id, seen + {j}, if Joins(f, j, id) then joining + [(j, f.states[j].exitCodeAddr)] else joining)
  {
    if Joins(f, j, id) {
      var joining' := joining + [(j, f.states[j].exitCodeAddr)];
      assert joining'[|joining|].0 == j;
      forall i | i in seen + {j} && Joins(f, i, id) ensures exists k :: 0 <= k < |joining'| && joining'[k].0 == i {
        if i != j {
          var k :| 0 <= k < |joining| && joining[k].0 == i;
          assert joining'[k].0 == i;
        }
      }
    }
  }

  ghost function FirstIds(joining: seq<(VmId, u64)>, n: nat): set<VmId>
    requires n <= |joining|
  {
    set k | 0 <= k < n :: joining[k].0
  }

  lemma NoneWoken(f: Flat, id: VmId, code: int, joining: seq<(VmId, u64)>)
    requires Shaped(f)
    ensures FirstIds(joining, 0) == {} && WokenSome(f, id, code, {})
  {
  }

  lemma JoinerAt(f: Flat, id: VmId, code: int, joining: seq<(VmId, u64)>, i: nat)
    requires Shaped(f) && JoinersOf(f, id, f.states.Keys, joining) && i < |joining|
    ensures var j := joining[i].0;
            && Joins(f, j, id) && f.states[j].exitCodeAddr == joining[i].1 && j !in FirstIds(joining, i)
            && FirstIds(joining, i + 1) == FirstIds(joining, i) + {j}
            && (Woken(f, j, id, code).None? ==> EndOther(f, id, code) == Err(MemOutOfBound))
            && (Woken(f, j, id, code).Some? && WokenSome(f, id, code, FirstIds(joining, i)) ==>
                  WokenSome(f, id, code, FirstIds(joining, i + 1)))
  {
    hide Woken, EndOther;
    var j := joining[i].0;
    if Woken(f, j, id, code).None? { WakeFaults(f, id, code, j); }
    assert FirstIds(joining, i + 1) == FirstIds(joining, i) + {j};
  }

  lemma JoinersDone(f: Flat, id: VmId, joining: seq<(VmId, u64)>, done: set<VmId>)
    requires JoinersOf(f, id, f.states.Keys, joining) && done == FirstIds(joining, |joining|)
    ensures forall j :: j in done <==> Joins(f, j, id)
  {
  }

  lemma ChargeKeepsJoins(f: Flat, id: VmId, vm: Vm)
    ensures forall j :: Joins(Charge(f, id, vm), j, id) <==> Joins(f, j, id)
    ensures Charge(f, id, vm).nextVmId == f.nextVmId
  {
  }

  lemma WakeUntouched(f: Flat, id: VmId, code: int, done: set<VmId>, j: VmId)
    requires Shaped(f) && j in f.states && j !in done
    ensures var p := PartialWake(f, id, code, done); j in p.machines && p.machines[j] == f.machines[j]
  {
  }

  lemma MergeRemove(a: map<VmId, Vm>, b: map<VmId, Vm>, id: VmId)
    ensures (a - {id}) + (b - {id}) == (a + b) - {id}
  {
  }

  /** Dropping one machine from the cache and from the snapshots. */
  lemma DropOne(a: map<VmId, Vm>, b: map<VmId, Vm>, id: VmId)
    requires a.Keys !! b.Keys && |a| <= MAX_INSTANTIATED_VMS
    ensures (a - {id}).Keys !! (b - {id}).Keys && |a - {id}| <= MAX_INSTANTIATED_VMS
    ensures (a - {id}).Keys == a.Keys - {id} && (a - {id}) + (b - {id}) == (a + b) - {id}
  {
    MergeRemove(a, b, id);
    assert (a - {id}).Keys == a.Keys - {id};
    assert |(a - {id}).Keys| <= |a.Keys|;
  }

  lemma SelectsLast(f: Flat, keys: seq<VmId>, i: nat)
    requires Listing(keys, f.states.Keys) && i < |keys|
    requires forall k | i <= k < |keys| :: keys[k] in f.states
    requires f.states[keys[i]].Runnable? && forall k | i < k < |keys| :: !f.states[keys[k]].Runnable?
    ensures Select(f) == Some(keys[i])
  {
    forall id | id in RunnableIds(f) ensures id <= keys[i] {
      assert id in keys;
      var k :| 0 <= k < |keys| && keys[k] == id;
    }
    assert keys[i] in RunnableIds(f);
    LargestIsUnique(RunnableIds(f), keys[i]);
  }

  lemma SelectsNone(f: Flat, keys: seq<VmId>)
    requires Listing(keys, f.states.Keys)
    requires forall k | 0 <= k < |keys| :: keys[k] in f.states && !f.states[keys[k]].Runnable?
    ensures Select(f) == None
  {
    forall id | id in f.states ensures id !in RunnableIds(f) {
      assert id in keys;
    }
  }

  lemma EndRootFields(f: Flat, code: int)
    requires ROOT in f.machines
    ensures EndRoot(f, code) ==
            Flat(f.totalCycles, f.nextVmId, f.nextPipeSlot, map[ROOT := Terminated], f.pipes,
                 map[ROOT := f.machines[ROOT]], f.terminated[ROOT := code])
  {
  }

  /** Putting one more machine into a cache with room. */
  lemma AddOne(a: map<VmId, Vm>, b: map<VmId, Vm>, id: VmId, vm: Vm)
    requires a.Keys !! b.Keys && |a| < MAX_INSTANTIATED_VMS && id !in a && id !in b
    ensures a[id := vm].Keys == a.Keys + {id} && a[id := vm].Keys !! b.Keys
    ensures |a[id := vm]| <= MAX_INSTANTIATED_VMS && a[id := vm] + b == (a + b)[id := vm]
  {
    MergeUpdate(a, b, id, vm);
    assert a[id := vm].Keys == a.Keys + {id};
    assert |a[id := vm]| == |a[id := vm].Keys|;
  }

  /** Replacing a machine of the cache. */
  lemma PutOne(a: map<VmId, Vm>, b: map<VmId, Vm>, id: VmId, vm: Vm)
    requires a.Keys !! b.Keys && |a| <= MAX_INSTANTIATED_VMS && id in a
    ensures a[id := vm].Keys == a.Keys && |a[id := vm]| <= MAX_INSTANTIATED_VMS
    ensures a[id := vm] + b == (a + b)[id := vm]
  {
    MergeUpdate(a, b, id, vm);
    assert a[id := vm].Keys == a.Keys;
    assert |a[id := vm]| == |a[id := vm].Keys| == |a.Keys| == |a|;
  }

  lemma BootCases(env: Env, piece: DataPieceId, offset: u64, length: u64, argv: seq<seq<byte>>)
    ensures BootMachine(env, piece, offset, length, argv) ==
            match env.Piece(piece)
            case Missing => Err(IndexOutOfBound)
            case Unloadable => Err(BootFailure)
            case Found(data) =>
              var booted := env.boot(Slice(data, offset, length).0, argv);
              if booted.None? then Err(BootFailure)
              else Ok(Vm(booted.value.core, TransferredByteCycles(booted.value.bytesLoaded), 0))
  {
  }
}
