/** The scheduler of src/lib.rs: at most four machines are instantiated, the others are snapshots. Snapshotting
    and resuming a machine is the identity on its value. */
module Schedulers {
  import opened Words
  import opened Types
  import opened Machine
  import opened Syscalls
  import opened Ordered
  import opened Flat
  import F = Flat
  import opened Invariants
  import opened IoSteps
  import opened Slicing
  import opened Turns
  import opened SchedulerFacts
  import opened Suspension
  import opened Caches

  class Scheduler {
    const env: Env
    var totalCycles: nat
    var nextVmId: VmId
    var nextPipeSlot: PipeId
    var states: map<VmId, VmState>
    var pipes: map<PipeId, VmId>
    var instantiated: map<VmId, Vm>
    var suspended: map<VmId, Vm>
    var terminatedVms: map<VmId, int>
    var messageBox: seq<Message>

    /** The reference state this scheduler stands for: which machines are in the cache is forgotten. */
    ghost function Abs(): Flat
      reads `totalCycles, `nextVmId, `nextPipeSlot, `states, `pipes, `instantiated, `suspended, `terminatedVms
    {
      Flat(totalCycles, nextVmId, nextPipeSlot, states, pipes, instantiated + suspended, terminatedVms)
    }

    ghost predicate Disjoint()
      reads `instantiated, `suspended
    {
      instantiated.Keys !! suspended.Keys
    }

    ghost predicate Cache()
      reads `instantiated, `suspended
    {
      Disjoint() && |instantiated| <= MAX_INSTANTIATED_VMS
    }

    // ---- The machine cache ----

    method ResumeVm(id: VmId) returns (r: Result<()>)
      requires Disjoint()
      modifies this`instantiated, this`suspended
      ensures Disjoint() && Abs() == old(Abs())
      ensures id !in old(suspended) ==>
                r == Err(NotSuspended) && instantiated == old(instantiated) && suspended == old(suspended)
      ensures id in old(suspended) ==>
                && r == Ok(())
                && instantiated == old(instantiated)[id := old(suspended)[id]]
                && suspended == old(suspended) - {id}
    {
      if id !in suspended { return Err(NotSuspended); }
      var snapshot := suspended[id];
      instantiated := instantiated[id := snapshot];
      suspended := suspended - {id};
      return Ok(());
    }

    method SuspendVm(id: VmId) returns (r: Result<()>)
      requires Disjoint()
      modifies this`instantiated, this`suspended
      ensures Disjoint() && Abs() == old(Abs())
      ensures id !in old(instantiated) ==>
                r == Err(NotInstantiated) && instantiated == old(instantiated) && suspended == old(suspended)
      ensures id in old(instantiated) ==>
                && r == Ok(())
                && instantiated == old(instantiated) - {id}
                && suspended == old(suspended)[id := old(instantiated)[id]]
    {
      if id !in instantiated { return Err(NotInstantiated); }
      var snapshot := instantiated[id];
      suspended := suspended[id := snapshot];
      instantiated := instantiated - {id};
      return Ok(());
    }

    /** Resumes from the end of `missing` while there is room; `left` is what is still missing then. */
    method ResumeWhileRoom(missing: seq<VmId>) returns (r: Result<()>, left: nat)
      requires Cache() && forall id | id in missing :: id !in instantiated
      modifies this`instantiated, this`suspended
      ensures Cache() && Abs() == old(Abs()) && left <= |missing|
      ensures r.Ok? <==> Fetchable(missing[left..], old(suspended).Keys)
      ensures !r.Panic? && (r.Ok? && left > 0 ==> |instantiated| == MAX_INSTANTIATED_VMS)
      ensures r.Ok? ==> |instantiated| + left == |old(instantiated)| + |missing|
      ensures r.Ok? ==> forall id :: id in instantiated <==> id in old(instantiated) || id in missing[left..]
      ensures r.Ok? ==> forall id :: id in suspended <==> id in old(suspended) && id !in missing[left..]
    {
      hide Abs, Fetchable;
      ghost var resumable := old(suspended).Keys;
      assert missing[|missing|..] == [] && Fetchable([], suspended.Keys) by { FetchableEmpty(suspended.Keys); }
      left := |missing|;
      while left > 0 && |instantiated| < MAX_INSTANTIATED_VMS
        invariant left <= |missing| && |instantiated| + left == |old(instantiated)| + |missing|
        invariant Cache() && Abs() == old(Abs())
        invariant forall id :: id in instantiated <==> id in old(instantiated) || id in missing[left..]
        invariant forall id :: id in suspended <==> id in old(suspended) && id !in missing[left..]
        invariant Fetchable(missing[left..], resumable)
      {
        left := left - 1;
        var id := missing[left];
        assert missing[left..][1..] == missing[left + 1..] && missing[left..] == [id] + missing[left + 1..];
        FetchableHead(missing[left..], resumable);
        r := ResumeVm(id);
        if !r.Ok? { return; }
      }
      r := Ok(());
    }

    /** Suspends one VM of `suspendable` for each VM of `missing` it resumes. */
    method EvictAndResume(suspendable: seq<VmId>, missing: seq<VmId>) returns (r: Result<()>)
      requires Disjoint() && |missing| <= |suspendable|
      requires Distinct(suspendable) && forall id | id in suspendable :: id in instantiated
      requires forall id | id in missing :: id !in suspendable
      modifies this`instantiated, this`suspended
      ensures Disjoint() && Abs() == old(Abs()) && |instantiated| <= |old(instantiated)|
      ensures !r.Panic?
      ensures r.Ok? <==> Fetchable(missing, old(suspended).Keys)
      ensures r.Ok? ==> forall id :: id in instantiated <==>
                          id in missing || (id in old(instantiated) && id !in suspendable[..|missing|])
    {
      hide Abs, Fetchable;
      assert missing[..0] == [] && Fetchable([], suspended.Keys) by { FetchableEmpty(suspended.Keys); }
      for i := 0 to |missing|
        invariant Disjoint() && |instantiated| <= |old(instantiated)| && Abs() == old(Abs())
        invariant forall id :: id in instantiated <==>
                    id in missing[..i] || (id in old(instantiated) && id !in suspendable[..i])
        invariant forall id :: id in suspended <==>
                    id !in missing[..i] && (id in old(suspended) || id in suspendable[..i])
        invariant Fetchable(missing[..i], old(suspended).Keys)
      {
        assert suspendable[..i + 1] == suspendable[..i] + [suspendable[i]];
        assert missing[..i + 1] == missing[..i] + [missing[i]];
        assert suspendable[i] in suspendable && missing[i] in missing;
        r := SuspendVm(suspendable[i]);
        FetchableLast(missing, i, old(suspended).Keys);
        r := ResumeVm(missing[i]);
        if !r.Ok? { return; }
      }
      assert missing[..|missing|] == missing;
      r := Ok(());
    }

    lemma BringsIn(ids: seq<VmId>)
      requires Cache() && |ids| <= MAX_INSTANTIATED_VMS
      ensures Fetchable(Absent(ids, instantiated.Keys), suspended.Keys) ==>
                BroughtIn(instantiated.Keys, CacheWith(instantiated.Keys, ids), ids)
    {
      hide Abs, Absent, CacheWith, BroughtIn;
      assert |instantiated.Keys| == |instantiated|;
      if Fetchable(Absent(ids, instantiated.Keys), suspended.Keys) { CacheIsBroughtIn(instantiated.Keys, ids); }
    }

    /** Brings all of `ids` into the cache. It succeeds exactly when no more than four are asked for and the
        missing ones are distinct snapshots; it never evicts a requested VM and never runs out of VMs to evict. */
    method EnsureVmsInstantiated(ids: seq<VmId>) returns (r: Result<()>)
      requires Cache()
      modifies this`instantiated, this`suspended
      ensures Cache() && Abs() == old(Abs())
      ensures |ids| > MAX_INSTANTIATED_VMS ==>
                r == Err(TooManyRequested) && instantiated == old(instantiated) && suspended == old(suspended)
      ensures !r.Panic?
      ensures |ids| <= MAX_INSTANTIATED_VMS ==>
                (r.Ok? <==> Fetchable(Absent(ids, old(instantiated).Keys), old(suspended).Keys))
      ensures r.Ok? ==> forall id | id in ids :: id in instantiated
      ensures r.Ok? ==> instantiated.Keys == CacheWith(old(instantiated).Keys, ids)
      ensures r.Ok? ==> BroughtIn(old(instantiated).Keys, instantiated.Keys, ids)
    {
      hide Abs, Absent, Elements, Fetchable, CacheWith, BroughtIn;
      if |ids| > MAX_INSTANTIATED_VMS { return Err(TooManyRequested); }
      ghost var before, snapshots := instantiated.Keys, suspended.Keys;
      BringsIn(ids);
      var missing := Absent(ids, instantiated.Keys);
      var left;
      r, left := ResumeWhileRoom(missing);
      SplitAbsent(missing, left, snapshots);
      if r.Ok? && left > 0 {
        var suspendable := Evictable(ids);
        ghost var now := instantiated.Keys;
        EnoughToEvict(ids, before, now, suspendable, left);
        if |suspendable| < left { return Panic; }
        forall id | id in missing[..left] ensures id !in suspendable { assert id in missing; }
        FetchableFrom(missing[..left], missing[left..], snapshots, suspended.Keys);
        r := EvictAndResume(suspendable, missing[..left]);
        if r.Ok? { CacheFilled(before, now, instantiated.Keys, ids, left); }
      } else if r.Ok? {
        assert missing[..left] == [] && missing[left..] == missing;
        CacheFits(before, instantiated.Keys, ids);
      }
      ElementsOf(ids);
      forall id | r.Ok? && id in ids ensures id in instantiated {
        assert id in before || id in missing;
        assert id in missing ==> id in missing[..left] || id in missing[left..];
      }
    }

    /** The instantiated VMs that may be evicted, in key order. */
    method Evictable(ids: seq<VmId>) returns (r: seq<VmId>)
      ensures r == Ascending(instantiated.Keys - Elements(ids))
      ensures Distinct(r) && |r| == |instantiated.Keys - Elements(ids)|
      ensures forall id :: id in r <==> id in instantiated && id !in ids
    {
      r := Ascending(instantiated.Keys - Elements(ids));
    }

    /** Brings one live VM into the cache. */
    method Instantiate(id: VmId)
      requires Cache() && (id in instantiated || id in suspended)
      modifies this`instantiated, this`suspended
      ensures Cache() && Abs() == old(Abs())
      ensures id in instantiated && instantiated[id] == Abs().machines[id]
      ensures instantiated.Keys == CacheWith(old(instantiated).Keys, [id])
    {
      OneFetchable(id, instantiated.Keys, suspended.Keys);
      var r := EnsureVmsInstantiated([id]);
      assert id in [id];
    }

    /** `instantiated.get_mut(&id)` followed by changes to the machine. */
    method PutVm(id: VmId, vm: Vm)
      requires Cache() && id in instantiated
      modifies this`instantiated
      ensures Cache() && instantiated == old(instantiated)[id := vm] && instantiated.Keys == old(instantiated).Keys
      ensures Abs() == old(Abs()).(machines := old(Abs()).machines[id := vm])
    {
      PutOne(instantiated, suspended, id, vm);
      instantiated := instantiated[id := vm];
    }

    // ---- Pipe input and output ----

    /** First pass of `process_io`: who waits for data, and whose writer is gone. */
    static method CollectReaders(states: map<VmId, VmState>, pipes: map<PipeId, VmId>, ghost f: Flat)
      returns (closed: seq<VmId>, readers: map<PipeId, (VmId, VmState)>)
      requires Live(f) && f.states == states && f.pipes == pipes
      ensures ReadersOk(f, states.Keys, readers)
      ensures closed == Ascending(ClosedReaders(f))
    {
      hide Live, ReadersOk, Increasing, Listing, PrefixSet;
      var keys := Ascending(states.Keys);
      ghost var seen := {};
      readers, closed := map[], [];
      NoReaders(f);
      PrefixEnds(keys, states.Keys);
      for i := 0 to |keys|
        invariant ReadersOk(f, seen, readers)
        invariant seen == PrefixSet(keys, i)
        invariant forall id :: id in closed <==> id in seen && ClosedReader(f, id)
        invariant Increasing(closed)
      {
        var id := keys[i];
        PrefixStep(keys, states.Keys, i);
        match states[id] {
          case WaitForRead(pipe, _, _, _) =>
            if OtherPipe(pipe) in pipes {
              ReadersStep(f, seen, readers, id);
              readers := readers[pipe := (id, states[id])];
            } else {
              ReadersSkip(f, seen, readers, id);
              ExtendIncreasing(closed, keys, states.Keys, i);
              closed := closed + [id];
            }
          case _ =>
            ReadersSkip(f, seen, readers, id);
        }
        seen := seen + {id};
      }
      ClosedReadersListed(f, closed);
    }

    /** Second pass: the writers, matched with the readers found before. */
    static method CollectWriters(states: map<VmId, VmState>, pipes: map<PipeId, VmId>,
                                 readers: map<PipeId, (VmId, VmState)>, ghost f: Flat)
      returns (closed: seq<VmId>, pairs: seq<Pair>)
      requires Live(f) && f.states == states && f.pipes == pipes && ReadersOk(f, states.Keys, readers)
      ensures closed == Ascending(ClosedWriters(f))
      ensures PairsOk(f, pairs) && Paired(f, states.Keys, pairs)
    {
      hide Live, ReadersOk, PairsOk, Paired, Increasing, Matched, HasPair, Listing, PrefixSet;
      var keys := Ascending(states.Keys);
      ghost var seen := {};
      closed, pairs := [], [];
      NoPairs(f);
      PrefixEnds(keys, states.Keys);
      for i := 0 to |keys|
        invariant seen == PrefixSet(keys, i)
        invariant forall id :: id in closed <==> id in seen && ClosedWriter(f, id)
        invariant Increasing(closed)
        invariant PairsOk(f, pairs) && Paired(f, seen, pairs)
      {
        var id := keys[i];
        PrefixStep(keys, states.Keys, i);
        SmallerBefore(keys, states.Keys, i);
        match states[id] {
          case WaitForWrite(pipe, _, _, _, _) =>
            if OtherPipe(pipe) in pipes {
              ReadersFind(f, readers, id);
              if OtherPipe(pipe) in readers {
                var (reader, readState) := readers[OtherPipe(pipe)];
                PairsStep(f, pairs, seen, reader, id);
                pairs := pairs + [Pair(reader, readState, id, states[id])];
              } else {
                PairsSkip(f, pairs, seen, id);
              }
            } else {
              PairsSkip(f, pairs, seen, id);
              ExtendIncreasing(closed, keys, states.Keys, i);
              closed := closed + [id];
            }
          case _ =>
            PairsSkip(f, pairs, seen, id);
        }
        seen := seen + {id};
      }
      ClosedWritersListed(f, closed);
    }

    method PutState(id: VmId, state: VmState)
      requires Cache()
      modifies this`states
      ensures Cache() && Abs() == old(Abs()).(states := old(Abs()).states[id := state])
      ensures states == old(states)[id := state]
    {
      states := states[id := state];
    }

    lemma Cached(id: VmId)
      requires Disjoint() && id in instantiated
      ensures Abs().states == states && id in Abs().machines && Abs().machines[id] == instantiated[id]
    {
    }

    /** One step of finishing I/O: VM `id` gets its machine `vm` and its state `state`. */
    method FinishOne(id: VmId, vm: Vm, state: VmState, ghost f: Flat, ghost done: set<VmId>)
      requires Cache() && Shaped(f) && Abs() == Partial(f, done)
      requires id in f.states && id !in done && id in instantiated
      requires IoVm(f, id) == Some(vm) && IoState(f, id) == state
      modifies this`instantiated, this`states
      ensures Cache() && Abs() == Partial(f, done + {id})
      ensures instantiated.Keys == old(instantiated).Keys
    {
      hide IoVm, IoState, Partial, Abs;
      PartialStep(f, done, id);
      PutVm(id, vm);
      PutState(id, state);
    }

    /** Finishes the calls whose other end is closed. It touches the cache without filling it first. */
    method FinishClosed(closed: seq<VmId>, ghost f: Flat) returns (r: Result<()>)
      requires Cache() && Abs() == f && Live(f)
      requires Distinct(closed) && forall id | id in closed :: ClosedWaiter(f, id)
      modifies this`instantiated, this`states
      ensures Cache()
      ensures r.Ok? ==> Abs() == Partial(f, Elements(closed)) && Served(f, Elements(closed))
      ensures r.Err? ==> r.error == MemOutOfBound && IoFaults(f)
      ensures r.Panic? <==> exists i: nat :: MissedAt(f, old(instantiated).Keys, closed, i)
      ensures instantiated.Keys == old(instantiated).Keys
    {
      hide Live, Abs, Partial, IoVm, IoState, IoFaults, Served, MissedAt;
      ghost var done: set<VmId> := {};
      LiveShape(f);
      PartialStart(f);
      for i := 0 to |closed|
        invariant Cache() && Abs() == Partial(f, done)
        invariant instantiated.Keys == old(instantiated).Keys
        invariant done == Elements(closed[..i]) && Served(f, done)
        invariant forall id | id in closed[..i] :: id in old(instantiated)
      {
        var id := closed[i];
        assert closed[..i + 1] == closed[..i] + [id];
        assert id in closed && id !in closed[..i];
        ClosedStep(f, id);
        PartialAt(f, done, id);
        if id !in instantiated {
          MissedHere(f, instantiated.Keys, closed, i);
          return Panic;
        }
        Cached(id);
        var vm := match states[id] {
          case WaitForRead(_, _, _, lengthAddr) => Complete64(instantiated[id], lengthAddr, 0)
          case WaitForWrite(_, consumed, _, _, lengthAddr) => Complete64(instantiated[id], lengthAddr, consumed)
          case _ => None
        };
        if vm.None? {
          OneFaults(f, id);
          NotMissed(f, instantiated.Keys, closed, i);
          return Err(MemOutOfBound);
        }
        FinishOne(id, vm.value, Runnable, f, done);
        ServedStep(f, done, id);
        done := done + {id};
      }
      assert closed[..|closed|] == closed;
      NotMissed(f, instantiated.Keys, closed, |closed|);
      r := Ok(());
    }

    /** Moves the data of one matched pair. */
    method Transfer(pair: Pair, ghost f: Flat, ghost done: set<VmId>) returns (r: Result<()>)
      requires Cache() && Live(f) && Abs() == Partial(f, done) && Served(f, done)
      requires Matched(f, pair.reader, pair.writer)
      requires pair.readState == f.states[pair.reader] && pair.writeState == f.states[pair.writer]
      requires pair.reader !in done && pair.writer !in done
      modifies this`instantiated, this`suspended, this`states
      ensures Cache() && !r.Panic?
      ensures r.Ok? ==> Abs() == Partial(f, done + {pair.reader, pair.writer}) &&
                        Served(f, done + {pair.reader, pair.writer})
      ensures r.Err? ==> r.error == MemOutOfBound && IoFaults(f)
      ensures r.Ok? ==> instantiated.Keys == CacheWith(old(instantiated).Keys, [pair.reader, pair.writer])
    {
      hide Live, Abs, Partial, IoVm, IoState, IoFaults, Served, Absent, Fetchable, CacheWith;
      var reader, writer := pair.reader, pair.writer;
      LiveShape(f);
      PairApart(f, reader, writer);
      PartialAt(f, done, reader);
      PartialAt(f, done, writer);
      InCache(reader);
      InCache(writer);
      TwoFetchable(reader, writer, instantiated.Keys, suspended.Keys);
      r := EnsureVmsInstantiated([reader, writer]);
      assert reader in [reader, writer] && writer in [reader, writer];
      r := MoveData(pair, f, done);
    }

    /** The part of a transfer that both machines take part in. */
    method MoveData(pair: Pair, ghost f: Flat, ghost done: set<VmId>) returns (r: Result<()>)
      requires Cache() && Live(f) && Abs() == Partial(f, done) && Served(f, done)
      requires Matched(f, pair.reader, pair.writer)
      requires pair.readState == f.states[pair.reader] && pair.writeState == f.states[pair.writer]
      requires pair.reader !in done && pair.writer !in done
      requires pair.reader in instantiated && pair.writer in instantiated
      modifies this`instantiated, this`states
      ensures Cache() && !r.Panic? && instantiated.Keys == old(instantiated).Keys
      ensures r.Ok? ==> Abs() == Partial(f, done + {pair.reader, pair.writer}) &&
                        Served(f, done + {pair.reader, pair.writer})
      ensures r.Err? ==> r.error == MemOutOfBound && IoFaults(f)
    {
      hide Live, Abs, Partial, IoVm, IoState, IoFaults, Served, Absent, Fetchable;
      var reader, readState, writer, writeState := pair.reader, pair.readState, pair.writer, pair.writeState;
      LiveShape(f);
      PairStep(f, reader, writer);
      PartialAt(f, done, reader);
      PartialAt(f, done, writer);
      Cached(reader);
      Cached(writer);
      var copiable := Min(readState.length, writeState.length - writeState.consumed);
      var data := Load(instantiated[writer].core.mem,
                       WrappingAdd(writeState.bufferAddr, writeState.consumed), copiable);
      if data.None? {
        OneFaults(f, reader);
        return Err(MemOutOfBound);
      }
      // The read call ends as soon as some data has been moved.
      var readVm := ReaderDone(instantiated[reader], readState, data.value);
      if readVm.None? {
        OneFaults(f, reader);
        return Err(MemOutOfBound);
      }
      FinishOne(reader, readVm.value, Runnable, f, done);
      ServedStep(f, done, reader);
      ghost var half := done + {reader};
      r := FinishWrite(writer, writeState, copiable, f, half);
      assert half + {writer} == done + {reader, writer};
    }

    /** The write call ends only when everything has been written. */
    method FinishWrite(writer: VmId, writeState: VmState, copiable: nat, ghost f: Flat, ghost done: set<VmId>)
      returns (r: Result<()>)
      requires Cache() && Shaped(f) && Abs() == Partial(f, done) && Served(f, done)
      requires writer in f.states && writer !in done && writer in instantiated
      requires writeState.WaitForWrite? && writeState.consumed + copiable <= writeState.length
      requires var consumed := writeState.consumed + copiable;
               if consumed == writeState.length then
                 IoVm(f, writer) == Complete64(f.machines[writer], writeState.lengthAddr, writeState.length) &&
                 IoState(f, writer) == Runnable
               else
                 IoVm(f, writer) == Some(f.machines[writer]) && IoState(f, writer) == writeState.(consumed := consumed)
      modifies this`instantiated, this`states
      ensures Cache() && !r.Panic?
      ensures r.Ok? ==> Abs() == Partial(f, done + {writer}) && Served(f, done + {writer})
      ensures r.Err? ==> r.error == MemOutOfBound && IoFaults(f)
      ensures instantiated.Keys == old(instantiated).Keys
    {
      hide Live, Abs, Partial, IoVm, IoState, IoFaults, Served;
      PartialAt(f, done, writer);
      Cached(writer);
      var consumed := writeState.consumed + copiable;
      if consumed == writeState.length {
        var writeVm := Complete64(instantiated[writer], writeState.lengthAddr, writeState.length);
        if writeVm.None? {
          OneFaults(f, writer);
          return Err(MemOutOfBound);
        }
        FinishOne(writer, writeVm.value, Runnable, f, done);
      } else {
        FinishOne(writer, instantiated[writer], writeState.(consumed := consumed), f, done);
      }
      ServedStep(f, done, writer);
      r := Ok(());
    }

    lemma InCache(id: VmId)
      requires id in Abs().machines
      ensures id in instantiated || id in suspended
    {
    }

    /** Settles all pending input and output. With every machine that has a closed pipe in the cache this is
        exactly `Flat.Io`; a closed pipe of a machine that is not in the cache makes it panic. */
    method ProcessIo() returns (r: Result<()>)
      requires Cache() && Live(Abs())
      modifies this`instantiated, this`suspended, this`states
      ensures Cache()
      ensures r.Ok? ==> Io(old(Abs())) == Ok(Abs())
      ensures r.Err? ==> Io(old(Abs())) == Err(r.error)
      ensures Shaped(old(Abs())) && (r.Panic? <==> IoPanics(old(Abs()), old(instantiated).Keys))
      ensures r.Ok? ==> instantiated.Keys == IoCache(old(Abs()), old(instantiated).Keys)
    {
      hide Live, Abs, Partial, IoVm, IoState, IoFaults, Served, Fetchable, Io, Paired, MissedAt, IoCache, ClosedWaiter;
      ghost var f := Abs();
      LiveShape(f);
      AbsFields();
      var closedReaders, readers := CollectReaders(states, pipes, f);
      var closedWriters, pairs := CollectWriters(states, pipes, readers, f);
      var closed := closedReaders + closedWriters;
      ClosedOnes(f);
      r := FinishClosed(closed, f);
      if r.Err? { FaultsMeansErr(f); }
      if !r.Ok? { return; }
      r := TransferAll(closed, pairs, f);
    }

    method TransferAll(closed: seq<VmId>, pairs: seq<Pair>, ghost f: Flat) returns (r: Result<()>)
      requires Cache() && Live(f) && Abs() == Partial(f, Elements(closed)) && Served(f, Elements(closed))
      requires forall id :: id in closed <==> ClosedWaiter(f, id)
      requires PairsOk(f, pairs) && Paired(f, f.states.Keys, pairs)
      modifies this`instantiated, this`suspended, this`states
      ensures Cache() && !r.Panic?
      ensures r.Ok? ==> Io(f) == Ok(Abs())
      ensures r.Err? ==> Io(f) == Err(r.error)
      ensures r.Ok? ==> instantiated.Keys == IoCache(f, old(instantiated).Keys)
    {
      hide *;
      ghost var keys, writers := instantiated.Keys, seq(|pairs|, k requires 0 <= k < |pairs| => pairs[k].writer);
      PairsListed(f, pairs, writers);
      PairsEnds(f, keys, writers);
      LiveShape(f);
      ghost var done := Elements(closed);
      DoneStart(f, closed, pairs);
      for i := 0 to |pairs|
        invariant Cache() && Abs() == Partial(f, done) && Served(f, done)
        invariant DoneAfter(f, closed, pairs, i, done)
        invariant instantiated.Keys == PairsCache(f, keys, writers[..i])
      {
        PairFresh(f, closed, pairs, i, done);
        PairAt(f, pairs, i);
        r := Transfer(pairs[i], f, done);
        if r.Err? { FaultsMeansErr(f); }
        if !r.Ok? { return; }
        DoneStep(f, closed, pairs, i, done);
        PairsNext(f, keys, writers, i);
        done := done + {pairs[i].reader, pairs[i].writer};
      }
      AllDone(f, closed, pairs, done);
      PartialEnd(f, done);
      r := Ok(());
    }

    lemma AbsFields()
      ensures Abs().states == states && Abs().pipes == pipes && Abs().terminated == terminatedVms
      ensures Abs().nextVmId == nextVmId && Abs().nextPipeSlot == nextPipeSlot && Abs().totalCycles == totalCycles
    {
    }

    // ---- Booting and messages ----

    /** `r` and the state now are what the reference step `spec` says. */
    ghost predicate Follows(r: Result<()>, spec: Result<Flat>)
      reads this
    {
      match spec
      case Ok(f) => r == Ok(()) && Cache() && Abs() == f
      case Err(e) => r == Err(e)
      case Panic => r.Panic?
    }

    /** Suspends VMs, smallest id first, until there is room for one more. */
    method MakeRoom()
      requires Cache()
      modifies this`instantiated, this`suspended
      ensures Cache() && Abs() == old(Abs()) && |instantiated| < MAX_INSTANTIATED_VMS
      ensures instantiated.Keys == RoomIn(old(instantiated).Keys)
      ensures FirstLeft(old(instantiated).Keys, instantiated.Keys)
    {
      hide Smallest, Abs;
      ghost var keys := instantiated.Keys;
      assert |instantiated| == |keys|;
      while |instantiated| >= MAX_INSTANTIATED_VMS
        invariant Cache() && Abs() == old(Abs())
        invariant instantiated == old(instantiated) ||
                  (|instantiated| < MAX_INSTANTIATED_VMS && instantiated.Keys == RoomIn(keys))
        decreases |instantiated|
      {
        var id := FirstInstantiated();
        var s := SuspendVm(id);
      }
    }

    /** A VM that is in the cache is not brought in again. */
    lemma Hit(id: VmId)
      requires Cache() && id in instantiated
      ensures CacheWith(instantiated.Keys, [id]) == instantiated.Keys
    {
      hide CacheWith;
      assert |instantiated.Keys| == |instantiated|;
      CacheHit(instantiated.Keys, id);
    }

    lemma NotInMachines(id: VmId)
      requires id !in Abs().machines
      ensures id !in instantiated && id !in suspended
    {
    }

    /** Boots a VM; the one with the smallest id makes room when the cache is full. */
    method BootVm(piece: DataPieceId, offset: u64, length: u64, argv: seq<seq<byte>>) returns (r: Result<VmId>)
      requires Cache() && nextVmId !in Abs().machines
      modifies this`instantiated, this`suspended, this`states, this`nextVmId
      ensures Cache() && (r.Ok? ==> instantiated.Keys == RoomIn(old(instantiated).Keys) + {old(nextVmId)})
      ensures r.Ok? ==> old(nextVmId) in instantiated && old(nextVmId) !in old(instantiated)
      ensures r.Ok? ==> FirstLeft(old(instantiated).Keys, instantiated.Keys - {old(nextVmId)})
      ensures var booted := BootMachine(env, piece, offset, length, argv);
              && (booted.Ok? ==> r == Ok(old(nextVmId)) && Abs() == Add(old(Abs()), booted.value))
              && (booted.Err? ==> r == Err(booted.error))
              && !booted.Panic?
    {
      hide Slice, Abs, BootMachine, Disjoint, TransferredByteCycles, RoomIn, FirstLeft;
      BootCases(env, piece, offset, length, argv);
      NotInMachines(nextVmId);
      AbsFields();
      MakeRoom();
      NotInMachines(nextVmId);
      var id := TakeId();
      var program := env.Piece(piece);
      match program {
        case Missing => return Err(IndexOutOfBound);
        case Unloadable => return Err(BootFailure);
        case Found(data) =>
          var booted := env.boot(Slice(data, offset, length).0, argv);
          if booted.None? { return Err(BootFailure); }
          AddVm(id, Vm(booted.value.core, TransferredByteCycles(booted.value.bytesLoaded), 0));
          r := Ok(id);
      }
    }

    /** The first key of the cache. */
    method FirstInstantiated() returns (id: VmId)
      requires instantiated != map[]
      ensures instantiated.Keys != {} && id in instantiated && id == Smallest(instantiated.Keys)
    {
      id := Smallest(instantiated.Keys);
    }

    method AddVm(id: VmId, vm: Vm)
      requires Disjoint() && |instantiated| < MAX_INSTANTIATED_VMS
      requires id !in instantiated && id !in suspended
      modifies this`instantiated, this`states
      ensures Cache() && instantiated.Keys == old(instantiated).Keys + {id}
      ensures Abs() == old(Abs()).(states := old(Abs()).states[id := Runnable],
                                   machines := old(Abs()).machines[id := vm])
    {
      AddOne(instantiated, suspended, id, vm);
      instantiated := instantiated[id := vm];
      states := states[id := Runnable];
    }

    method TakeId() returns (id: VmId)
      modifies this`nextVmId
      ensures id == old(nextVmId) && nextVmId == id + 1
      ensures Abs() == old(Abs()).(nextVmId := id + 1)
    {
      id := nextVmId;
      nextVmId := nextVmId + 1;
    }

    method HandleSpawn(id: VmId, args: SpawnArgs) returns (r: Result<()>)
      requires Cache() && Live(Abs()) && id in states
      modifies this`instantiated, this`suspended, this`states, this`nextVmId, this`pipes
      ensures id in old(Abs()).machines && id < old(Abs()).nextVmId
      ensures r.Ok? ==>
                instantiated.Keys == CacheWith(RoomIn(old(instantiated).Keys) + {old(nextVmId)}, [id])
      ensures Follows(r, DeliverSpawn(env, old(Abs()), id, args))
    {
      hide Live, BootMachine, Abs, Complete64, Handover, Finish, RoomIn, CacheWith;
      LiveShape(Abs());
      AbsFields();
      for i := 0 to |args.pipes|
        invariant forall k | 0 <= k < i :: Owns(Abs(), id, args.pipes[k])
      {
        if !(args.pipes[i] in pipes && pipes[args.pipes[i]] == id) {
          assert !Owns(Abs(), id, args.pipes[i]);
          return Err(NotPipeOwner);
        }
      }
      var booted := BootVm(args.dataPieceId, args.offset, args.length, args.argv);
      if booted.Err? { return Err(booted.error); }
      var spawned := booted.value;
      MovePipes(args.pipes, spawned);
      r := CompleteCall(id, args.instanceIdAddr, spawned);
    }

    method MovePipes(passed: seq<PipeId>, to: VmId)
      requires forall i | 0 <= i < |passed| :: passed[i] in pipes
      modifies this`pipes
      ensures pipes == Handover(old(pipes), passed, to)
      ensures Abs() == old(Abs()).(pipes := Handover(old(Abs()).pipes, passed, to))
    {
      for i := 0 to |passed|
        invariant pipes == Handover(old(pipes), passed[..i], to)
      {
        assert passed[..i + 1] == passed[..i] + [passed[i]];
        pipes := pipes[passed[i] := to];
      }
      assert passed[..|passed|] == passed;
    }

    /** Brings `id` into the cache, stores a 64-bit result and the success code. */
    method CompleteCall(id: VmId, addr: u64, v: nat) returns (r: Result<()>)
      requires Cache() && id in Abs().machines
      modifies this`instantiated, this`suspended
      ensures r.Ok? ==> instantiated.Keys == CacheWith(old(instantiated).Keys, [id])
      ensures Follows(r, Finish(old(Abs()), id, Complete64(old(Abs()).machines[id], addr, v)))
    {
      InCache(id);
      hide CacheWith, Abs, Complete64;
      Instantiate(id);
      var vm := Complete64(instantiated[id], addr, v);
      if vm.None? { return Err(MemOutOfBound); }
      PutVm(id, vm.value);
      r := Ok(());
    }

    method RefuseCall(id: VmId, code: u64) returns (r: Result<()>)
      requires Cache() && id in Abs().machines
      modifies this`instantiated, this`suspended
      ensures r.Ok? ==> instantiated.Keys == CacheWith(old(instantiated).Keys, [id])
      ensures Follows(r, Refuse(old(Abs()), id, code))
    {
      InCache(id);
      hide CacheWith, Abs;
      Instantiate(id);
      PutVm(id, instantiated[id].SetA0(code));
      r := Ok(());
    }

    method HandleJoin(id: VmId, target: VmId, exitCodeAddr: u64) returns (r: Result<()>)
      requires Cache() && id in Abs().machines
      modifies this`instantiated, this`suspended, this`states
      ensures r.Ok? && id in old(instantiated) ==> instantiated.Keys == old(instantiated).Keys
      ensures Follows(r, DeliverJoin(old(Abs()), id, target, exitCodeAddr))
    {
      AbsFields();
      hide CacheWith, Abs, Complete8;
      if id in instantiated { Hit(id); }
      if target in terminatedVms {
        r := AnswerJoin(id, exitCodeAddr, terminatedVms[target]);
        return;
      }
      if target !in states {
        r := RefuseCall(id, JOIN_FAILURE);
        return;
      }
      // The result is stored when the joined VM exits.
      PutState(id, Join(target, exitCodeAddr));
      r := Ok(());
    }

    /** The joined VM has terminated before. */
    method AnswerJoin(id: VmId, exitCodeAddr: u64, code: int) returns (r: Result<()>)
      requires Cache() && id in Abs().machines
      modifies this`instantiated, this`suspended, this`states
      ensures r.Ok? && id in old(instantiated) ==> instantiated.Keys == old(instantiated).Keys
      ensures Follows(r, Finish(old(Abs()).(states := old(Abs()).states[id := Runnable]), id,
                                Complete8(old(Abs()).machines[id], exitCodeAddr, code)))
    {
      hide CacheWith, Abs, Complete8;
      if id in instantiated { Hit(id); }
      r := StoreCode(id, exitCodeAddr, code);
      if r.Ok? { PutState(id, Runnable); }
    }

    method StoreCode(id: VmId, exitCodeAddr: u64, code: int) returns (r: Result<()>)
      requires Cache() && id in Abs().machines
      modifies this`instantiated, this`suspended
      ensures r.Ok? ==> instantiated.Keys == CacheWith(old(instantiated).Keys, [id])
      ensures Follows(r, Finish(old(Abs()), id, Complete8(old(Abs()).machines[id], exitCodeAddr, code)))
    {
      InCache(id);
      hide CacheWith, Abs, Complete8;
      Instantiate(id);
      var vm := Complete8(instantiated[id], exitCodeAddr, code);
      if vm.None? { return Err(MemOutOfBound); }
      PutVm(id, vm.value);
      r := Ok(());
    }

    method HandlePipe(id: VmId, addr1: u64, addr2: u64) returns (r: Result<()>)
      requires Cache() && id in Abs().machines
      modifies this`instantiated, this`suspended, this`nextPipeSlot, this`pipes
      ensures r.Ok? && id in old(instantiated) ==> instantiated.Keys == old(instantiated).Keys
      ensures Follows(r, DeliverPipe(old(Abs()), id, addr1, addr2))
    {
      hide CacheWith, Abs, Store64, Complete64, Disjoint;
      InCache(id);
      AbsFields();
      if id in instantiated { Hit(id); }
      var p1, p2 := TakePipe(id);
      Instantiate(id);
      var vm := Store64(instantiated[id], addr1, p1);
      if vm.None? { return Err(MemOutOfBound); }
      var vm' := Complete64(vm.value, addr2, p2);
      if vm'.None? { return Err(MemOutOfBound); }
      PutVm(id, vm'.value);
      r := Ok(());
    }

    method TakePipe(id: VmId) returns (p1: PipeId, p2: PipeId)
      modifies this`nextPipeSlot, this`pipes
      ensures var (q1, q2, slot) := CreatePipe(old(Abs()).nextPipeSlot);
              && p1 == q1 && p2 == q2
              && Abs() == old(Abs()).(nextPipeSlot := slot, pipes := old(Abs()).pipes[p1 := id][p2 := id])
    {
      var (q1, q2, slot) := CreatePipe(nextPipeSlot);
      nextPipeSlot := slot;
      pipes := pipes[q1 := id];
      pipes := pipes[q2 := id];
      p1, p2 := q1, q2;
    }

    method HandleIo(id: VmId, pipe: PipeId, wait: VmState) returns (r: Result<()>)
      requires Cache() && id in Abs().machines
      modifies this`instantiated, this`suspended, this`states
      ensures r.Ok? && id in old(instantiated) ==> instantiated.Keys == old(instantiated).Keys
      ensures Follows(r, DeliverIo(old(Abs()), id, pipe, wait))
    {
      AbsFields();
      hide CacheWith, Abs;
      if id in instantiated { Hit(id); }
      if !(pipe in pipes && pipes[pipe] == id) {
        r := RefuseCall(id, INVALID_PIPE);
        return;
      }
      if OtherPipe(pipe) !in pipes {
        r := RefuseCall(id, OTHER_END_CLOSED);
        return;
      }
      // The result is stored when the transfer is done.
      PutState(id, wait);
      r := Ok(());
    }

    method HandleMessage(message: Message) returns (r: Result<()>)
      requires Cache() && Live(Abs()) && message.vm in states
      modifies this`instantiated, this`suspended, this`states, this`nextVmId, this`nextPipeSlot, this`pipes
      ensures message.vm in old(Abs()).machines && message.vm < old(Abs()).nextVmId
      ensures r.Ok? && message.vm in old(instantiated) ==>
                instantiated.Keys == MessageCache(old(Abs()), old(instantiated).Keys, message)
      ensures Follows(r, Deliver(env, old(Abs()), message))
    {
      hide Live, Abs, DeliverSpawn, DeliverJoin, DeliverPipe, DeliverIo;
      LiveShape(Abs());
      AbsFields();
      match message {
        case Spawn(id, args) => r := HandleSpawn(id, args);
        case JoinVm(id, target, exitCodeAddr) => r := HandleJoin(id, target, exitCodeAddr);
        case OpenPipe(id, addr1, addr2) => r := HandlePipe(id, addr1, addr2);
        case PipeRead(id, io) =>
          r := HandleIo(id, io.pipe, WaitForRead(io.pipe, io.length, io.bufferAddr, io.lengthAddr));
        case PipeWrite(id, io) =>
          r := HandleIo(id, io.pipe, WaitForWrite(io.pipe, 0, io.length, io.bufferAddr, io.lengthAddr));
      }
    }

    /** Drains the message box. A VM leaves at most one message in it, because leaving one makes it yield. */
    method ProcessMessageBox() returns (r: Result<()>)
      requires Cache() && Live(Abs()) && |messageBox| <= 1
      requires forall i | 0 <= i < |messageBox| :: messageBox[i].vm in states
      modifies this`instantiated, this`suspended, this`states, this`nextVmId, this`nextPipeSlot, this`pipes
      modifies this`messageBox
      ensures messageBox == []
      ensures old(messageBox) == [] ==> instantiated == old(instantiated)
      ensures r.Ok? && |old(messageBox)| == 1 && old(messageBox)[0].vm in old(instantiated) ==>
                instantiated.Keys == MessageCache(old(Abs()), old(instantiated).Keys, old(messageBox)[0])
      ensures old(messageBox) == [] ==> r == Ok(()) && Cache() && Abs() == old(Abs())
      ensures |old(messageBox)| == 1 ==>
                var message := old(messageBox)[0];
                && message.vm in old(Abs()).machines && message.vm < old(Abs()).nextVmId
                && Follows(r, Deliver(env, old(Abs()), message))
    {
      hide Live, Deliver;
      var messages := messageBox;
      messageBox := [];
      r := Ok(());
      for i := 0 to |messages|
        invariant messageBox == [] && (i == 0 ==> Cache() && Abs() == old(Abs()) && states == old(states))
        invariant r == Ok(()) && (i == 0 ==> instantiated == old(instantiated) && nextVmId == old(nextVmId))
        invariant i == 1 && messages[0].vm in old(instantiated) ==>
                    instantiated.Keys == MessageCache(old(Abs()), old(instantiated).Keys, messages[0])
        invariant i == 1 ==> && messages[0].vm in old(Abs()).machines && messages[0].vm < old(Abs()).nextVmId
                             && Follows(r, Deliver(env, old(Abs()), messages[0]))
      {
        r := HandleMessage(messages[i]);
        if !r.Ok? { return; }
      }
    }

    // ---- Termination ----

    /** When the root terminates, everything else is dropped. */
    method EndRootVm(code: int)
      requires Cache() && Live(Abs())
      modifies this`instantiated, this`suspended, this`states, this`terminatedVms
      ensures ROOT in old(Abs()).machines && Cache() && Abs() == EndRoot(old(Abs()), code)
      ensures instantiated.Keys == {ROOT}
    {
      LiveShape(Abs());
      InCache(ROOT);
      hide Live, Abs, EndRoot;
      Instantiate(ROOT);
      KeepRoot(code);
    }

    method KeepRoot(code: int)
      requires Cache() && ROOT in instantiated
      modifies this`instantiated, this`suspended, this`states, this`terminatedVms
      ensures ROOT in old(Abs()).machines && Cache() && Abs() == EndRoot(old(Abs()), code)
      ensures instantiated.Keys == {ROOT}
    {
      hide EndRoot;
      Cached(ROOT);
      EndRootFields(Abs(), code);
      terminatedVms := terminatedVms[ROOT := code];
      instantiated := map[ROOT := instantiated[ROOT]];
      suspended := map[];
      states := map[ROOT := Terminated];
      assert instantiated + suspended == instantiated;
    }

    /** Hands the exit code to the VM `j` that joined `id` and makes it runnable. */
    method WakeOne(j: VmId, exitCodeAddr: u64, id: VmId, code: int, ghost f: Flat, ghost done: set<VmId>)
      returns (r: Result<()>)
      requires Cache() && Shaped(f) && Abs() == PartialWake(f, id, code, done)
      requires Joins(f, j, id) && f.states[j].exitCodeAddr == exitCodeAddr && j !in done
      modifies this`instantiated, this`suspended, this`states
      ensures r.Ok? ==> instantiated.Keys == CacheWith(old(instantiated).Keys, [j])
      ensures Woken(f, j, id, code).None? ==> r == Err(MemOutOfBound)
      ensures Woken(f, j, id, code).Some? ==>
                r == Ok(()) && Cache() && Abs() == PartialWake(f, id, code, done + {j})
    {
      hide Abs, Complete8, PartialWake;
      WakeUntouched(f, id, code, done, j);
      InCache(j);
      if Woken(f, j, id, code).Some? { WakeStep(f, id, code, done, j); }
      Instantiate(j);
      var vm := Complete8(instantiated[j], exitCodeAddr, code);
      if vm.None? { return Err(MemOutOfBound); }
      PutVm(j, vm.value);
      PutState(j, Runnable);
      r := Ok(());
    }

    static method CollectJoiners(states: map<VmId, VmState>, id: VmId, ghost f: Flat)
      returns (joining: seq<(VmId, u64)>)
      requires states == f.states
      ensures JoinersOf(f, id, f.states.Keys, joining)
    {
      hide JoinersOf, Listing, PrefixSet;
      var keys := Ascending(states.Keys);
      ghost var seen := {};
      joining := [];
      NoJoiners(f, id);
      PrefixEnds(keys, states.Keys);
      for i := 0 to |keys|
        invariant seen == PrefixSet(keys, i)
        invariant JoinersOf(f, id, seen, joining)
      {
        var j := keys[i];
        PrefixStep(keys, states.Keys, i);
        SmallerBefore(keys, states.Keys, i);
        JoinersStep(f, id, seen, joining, j);
        if states[j].Join? && states[j].target == id {
          joining := joining + [(j, states[j].exitCodeAddr)];
        }
        seen := seen + {j};
      }
    }

    /** When another VM terminates, its joiners wake up with its exit code, its pipe ends close, and it is gone. */
    method EndOtherVm(id: VmId, code: int) returns (r: Result<()>)
      requires Cache() && Shaped(Abs()) && !Joins(Abs(), id, id)
      modifies this`instantiated, this`suspended, this`states, this`pipes, this`terminatedVms
      ensures Follows(r, EndOther(old(Abs()), id, code))
      ensures r.Ok? ==>
                instantiated.Keys == JoinersCache(old(instantiated).Keys, Ascending(Joiners(old(Abs()), id))) - {id}
    {
      hide Abs, PartialWake, Woken, EndOther, Purge, JoinersOf, WokenSome, FirstIds, Joins, CacheWith, JoinersCache;
      hide Disjoint, Joiners, Ascending, Listing;
      ghost var f := Abs();
      ghost var keys := instantiated.Keys;
      ghost var done: set<VmId> := {};
      WakeStart(f, id, code);
      AbsFields();
      var joining := CollectJoiners(states, id, f);
      NoneWoken(f, id, code, joining);
      ghost var joiners := seq(|joining|, k requires 0 <= k < |joining| => joining[k].0);
      JoinersListed(f, id, joining, joiners);
      JoinersEnds(keys, joiners);
      for i := 0 to |joining|
        invariant Cache() && Abs() == PartialWake(f, id, code, done)
        invariant done == FirstIds(joining, i) && WokenSome(f, id, code, done)
        invariant instantiated.Keys == JoinersCache(keys, joiners[..i])
      {
        JoinerAt(f, id, code, joining, i);
        JoinersNext(keys, joiners, i);
        r := WakeOne(joining[i].0, joining[i].1, id, code, f, done);
        if !r.Ok? { return; }
        done := done + {joining[i].0};
      }
      JoinersDone(f, id, joining, done);
      WakeEnd(f, id, code, done);
      Remove(id, code);
      r := Ok(());
    }

    method Remove(id: VmId, code: int)
      requires Cache()
      modifies this`instantiated, this`suspended, this`states, this`pipes, this`terminatedVms
      ensures instantiated.Keys == old(instantiated).Keys - {id}
      ensures Cache() && Abs() == Purge(old(Abs()), id, code)
    {
      hide Abs, Disowned;
      DropMachine(id);
      DropRecords(id, code);
    }

    method DropRecords(id: VmId, code: int)
      modifies this`states, this`pipes, this`terminatedVms
      ensures Abs() == old(Abs()).(states := old(Abs()).states - {id}, pipes := Disowned(old(Abs()).pipes, id),
                                   terminated := old(Abs()).terminated[id := code])
    {
      hide Disowned;
      pipes := Disowned(pipes, id);
      states := states - {id};
      terminatedVms := terminatedVms[id := code];
    }

    method DropMachine(id: VmId)
      requires Cache()
      modifies this`instantiated, this`suspended
      ensures instantiated.Keys == old(instantiated).Keys - {id}
      ensures Cache() && Abs() == old(Abs()).(machines := old(Abs()).machines - {id})
    {
      DropOne(instantiated, suspended, id);
      instantiated := instantiated - {id};
      suspended := suspended - {id};
    }

    // ---- One turn ----

    /** The runnable VM with the largest id. */
    method SelectVm() returns (r: Option<VmId>)
      ensures r == Select(Abs())
    {
      AbsFields();
      hide Abs, Select, RunnableIds, Increasing;
      var keys := Ascending(states.Keys);
      var i := |keys|;
      forall k | 0 <= k < |keys| ensures keys[k] in states { assert keys[k] in keys; }
      while i > 0
        invariant 0 <= i <= |keys|
        invariant forall k | i <= k < |keys| :: !states[keys[k]].Runnable?
      {
        i := i - 1;
        if states[keys[i]].Runnable? {
          SelectsLast(Abs(), keys, i);
          return Some(keys[i]);
        }
      }
      SelectsNone(Abs(), keys);
      r := None;
    }

    /** `r` and the state now are what the reference turn `t` says. */
    ghost predicate FollowsTurn(r: Result<nat>, t: Turned)
      reads this
    {
      match t
      case Turn(next, consumed) =>
        && r == Ok(consumed) && Cache() && messageBox == [] && Abs() == next
        && (RootEnded(next) ==> ROOT in instantiated)
      case Cut(next, e) => r == Err(e) && Cache() && messageBox == [] && Abs() == next
      case Fatal(e) => r == Err(e)
    }

    /** Charges the cycles a VM has used; this is the only place where the total changes. */
    method ChargeVm(id: VmId, vm: Vm)
      requires Cache() && id in instantiated
      modifies this`instantiated, this`totalCycles
      ensures instantiated.Keys == old(instantiated).Keys && nextVmId == old(nextVmId)
      ensures Cache() && Abs() == Charge(old(Abs()), id, vm)
    {
      hide Abs;
      AbsFields();
      PutVm(id, vm.(cycles := 0));
      AddCycles(vm.cycles);
    }

    method AddCycles(cycles: nat)
      modifies this`totalCycles
      ensures Abs() == old(Abs()).(totalCycles := old(Abs()).totalCycles + cycles)
    {
      totalCycles := totalCycles + cycles;
    }

    method EndVm(id: VmId, code: int) returns (r: Result<()>)
      requires Cache() && Live(Abs()) && Settled(Abs()) && Select(Abs()) == Some(id)
      modifies this`instantiated, this`suspended, this`states, this`pipes, this`terminatedVms
      ensures Steppable(old(Abs())) && (id == ROOT ==> ROOT in old(Abs()).machines)
      ensures Follows(r, End(old(Abs()), id, code))
      ensures r.Ok? && RootEnded(Abs()) ==> ROOT in instantiated
      ensures r.Ok? ==> instantiated.Keys == EndCache(old(Abs()), old(instantiated).Keys, id)
    {
      hide Live, Abs, EndRoot, EndOther, Disjoint, JoinersCache, Settled, Select;
      ghost var f := Abs();
      LiveShape(f);
      SelectedIsLive(f, id);
      if id == ROOT {
        EndRootVm(code);
        r := Ok(());
      } else {
        r := EndOtherVm(id, code);
        if r.Ok? {
          EndOtherKeepsLive(f, id, code);
          LiveRootRuns(Abs());
        }
      }
    }

    /** A message or an exit, after the VM has been charged. */
    method FinishTurn(id: VmId, stop: Stop) returns (r: Result<()>)
      requires Cache() && Live(Abs()) && Settled(Abs()) && Select(Abs()) == Some(id) && messageBox == []
      requires !stop.Stopped? && (stop.Yield? ==> WellFormedMessage(id, stop.message)) && id in instantiated
      modifies this
      ensures Steppable(old(Abs())) && id in old(Abs()).machines && id < old(Abs()).nextVmId
      ensures Follows(r, Outcome(env, old(Abs()), id, stop))
      ensures r.Ok? ==> instantiated.Keys == StopCache(old(Abs()), old(instantiated).Keys, id, stop)
      ensures r.Ok? ==> messageBox == [] && (RootEnded(Abs()) ==> ROOT in instantiated)
    {
      hide Live, Abs, Deliver, End, Settled, Select, MessageCache, EndCache;
      ghost var f := Abs();
      LiveShape(f);
      SelectedIsLive(f, id);
      AbsFields();
      match stop {
        case Yield(message) =>
          messageBox := [message];
          r := ProcessMessageBox();
          if r.Ok? {
            DeliverKeepsLive(env, f, message);
            LiveRootRuns(Abs());
          }
        case Exit(code) =>
          r := EndVm(id, code);
      }
    }

    /** What follows once VM `id` has stopped running. */
    method ConcludeTurn(id: VmId, run: RunResult) returns (r: Result<nat>)
      requires Cache() && Live(Abs()) && messageBox == [] && id in instantiated
      requires Select(Abs()) == Some(id)
      requires run.stop.Yield? ==> WellFormedMessage(id, run.stop.message)
      requires run.stop != Stopped(CapacityOverflow)
      modifies this
      ensures Steppable(old(Abs())) && id in old(Abs()).machines && id < old(Abs()).nextVmId
      ensures !Conclude(env, old(Abs()), id, run).Fatal? ==>
                instantiated.Keys == StopCache(old(Abs()), old(instantiated).Keys, id, run.stop)
      ensures FollowsTurn(r, Conclude(env, old(Abs()), id, run))
    {
      hide Live, Abs, Charge, Outcome, Conclude, Settled, Select, StopCache;
      ghost var f := Abs();
      LiveShape(f);
      SelectedIsLive(f, id);
      AbsFields();
      ChargeKeepsLive(f, id, run.vm);
      ChargedSelects(f, id, run.vm);
      ConcludeCases(env, f, id, run);
      ChargeKeepsStop(f, instantiated.Keys, id, run);
      if totalCycles + run.vm.cycles >= TWO64 { return Err(CyclesOverflow); }
      ChargeVm(id, run.vm);
      match run.stop {
        case Stopped(error) =>
          r := Err(error);
        case _ =>
          var finished := FinishTurn(id, run.stop);
          if finished.Err? { return Err(finished.error); }
          r := Ok(run.vm.cycles);
      }
    }

    /** `iterate`. It panics exactly when a VM with a closed pipe is not in the cache and no earlier result faults, or
        when the machine it runs comes to an oversized spawn call; otherwise this is the reference turn, no matter which
        machines were evicted. */
    method Iterate(signal: Signal, limit: nat) returns (r: Result<nat>)
      requires Cache() && Live(Abs()) && messageBox == []
      modifies this
      ensures Steppable(old(Abs()))
      ensures !r.Panic? ==> FollowsTurn(r, F.Iterate(env, old(Abs()), signal, limit))
      ensures r.Panic? <==> TurnPanics(env, old(Abs()), old(instantiated).Keys, signal, limit)
      ensures !r.Panic? && !F.Iterate(env, old(Abs()), signal, limit).Fatal? ==>
                instantiated.Keys == TurnCache(env, old(Abs()), old(instantiated).Keys, signal, limit)
    {
      hide Live, Abs, Io, F.Run, Conclude, Select, RootEnded, IoPanics, CacheWith, StopCache, IoCache;
      ghost var f := Abs();
      LiveShape(f);
      IoErrors(f);
      var io := ProcessIo();
      if io.Panic? { return Panic; }
      if io.Err? { return Err(io.error); }
      IoKeepsLive(f);
      LiveShape(Abs());
      var selected := SelectVm();
      if selected.None? { return Err(Deadlock); }
      var id := selected.value;
      SelectedIsLive(Abs(), id);
      InCache(id);
      AbsFields();
      Instantiate(id);
      RunYieldsWellFormed(env, id, instantiated[id], totalCycles, limit, signal);
      var run := F.Run(env, id, instantiated[id], totalCycles, limit, signal);
      ConcludeOvercommits(env, Abs(), id, run);
      if run.stop == Stopped(CapacityOverflow) { return Panic; }
      r := ConcludeTurn(id, run);
    }

    // ---- Whole runs ----

    /** Between two calls of `run`. */
    ghost predicate Valid()
      reads this
    {
      Cache() && messageBox == [] && (Abs() == EMPTY || Inv(Abs()))
    }

    /** The cache `run` starts its turns with. */
    ghost function BootedKeys(): set<VmId>
      reads this
    {
      if states == map[] then {ROOT} else instantiated.Keys
    }

    /** The state `run` starts its turns from: a fresh scheduler boots the root first. */
    ghost function Booted(): Result<Flat>
      reads this
    {
      if states == map[] then BootRoot(env, Abs()) else Ok(Abs())
    }

    /** `r` and the state now are where driving the reference scheduler came to. */
    ghost predicate FollowsDrive(r: Result<(int, nat)>, d: Driven, mode: RunMode)
      reads this
    {
      match d
      case Completed(f) =>
        Valid() && Abs() == f && ROOT in f.terminated && r == Ok((f.terminated[ROOT], f.totalCycles))
      case Unfinished(f) =>
        Valid() && Abs() == f && r.Err? && (r.error.CyclesExceeded? || (r.error.Pause? && !mode.LimitCycles?))
      case Aborted(e) => r == Err(e)
    }

    method BootIfNeeded() returns (r: Result<()>)
      requires Valid()
      modifies this`instantiated, this`suspended, this`states, this`nextVmId
      ensures !old(Booted()).Panic? && !r.Panic?
      ensures old(Booted()).Err? ==> r == Err(old(Booted()).error)
      ensures old(Booted()).Ok? ==>
                && r == Ok(()) && Cache() && Inv(Abs()) && Abs() == old(Booted()).value && ROOT in states
                && instantiated.Keys == old(BootedKeys())
    {
      hide Live;
      EmptyRoom();
      AbsFields();
      KnownStates(Abs());
      BootedRootIsLive(env);
      if states == map[] {
        var booted := BootVm(Program, 0, TWO64 - 1, []);
        if booted.Err? { return Err(booted.error); }
      }
      AbsFields();
      KnownStates(Abs());
      r := Ok(());
    }

    /** One call of `run` on a booted scheduler. It panics exactly when one of its turns does, or when the root has
        terminated before and is not in the cache. */
    method RunTurns(mode: RunMode) returns (r: Result<(int, nat)>)
      requires Cache() && messageBox == [] && Inv(Abs()) && ROOT in states
      modifies this
      ensures !r.Panic? ==> FollowsDrive(r, RunDrive(env, old(Abs()), mode), mode)
      ensures r.Panic? <==> RunPanics(env, old(Abs()), old(instantiated).Keys, mode)
      ensures !r.Panic? && Live(old(Abs())) && RunDrive(env, old(Abs()), mode).Unfinished? ==>
                instantiated.Keys == RunCache(env, old(Abs()), old(instantiated).Keys, mode)
      ensures !r.Panic? && Live(old(Abs())) && RunDrive(env, old(Abs()), mode).Unfinished? ==>
                r == Err(RunError(env, old(Abs()), mode))
    {
      hide Live, Abs, Ended, F.Iterate, Drive, RunSlices, RunDrive, Io, RunPanics, RunCache, TurnPanics, TurnCache;
      ghost var f, keys := Abs(), instantiated.Keys;
      RunByTurns(env, f, keys, mode);
      KnownStates(f);
      AbsFields();
      var slice := FirstSlice(mode);
      var first := true;
      if Live(f) { RunMakesOneTurn(env, f, mode); }
      RunEnded(env, f, mode);
      while states[ROOT] != Terminated
        invariant Cache() && messageBox == [] && Inv(Abs()) && ROOT in states && states == Abs().states
        invariant first ==> Abs() == f && slice == FirstSlice(mode) && instantiated.Keys == keys
        invariant !first ==>
                    && Live(f) && Steppable(f) && slice == LaterSlice(mode)
                    && (Ended(Abs()) ==> ROOT in instantiated)
                    && !TurnPanics(env, f, keys, FirstSlice(mode).signal, FirstSlice(mode).limit)
                    && instantiated.Keys == TurnCache(env, f, keys, FirstSlice(mode).signal, FirstSlice(mode).limit)
                    && F.Iterate(env, f, FirstSlice(mode).signal, FirstSlice(mode).limit).Turn?
                    && F.Iterate(env, f, FirstSlice(mode).signal, FirstSlice(mode).limit).next == Abs()
        decreases first
      {
        KnownStates(Abs());
        LiveShape(Abs());
        LaterLimit(mode);
        ghost var now := Abs();
        if !first { ZeroLimitNeverTurns(env, now, slice.signal); }
        var consumed := Iterate(slice.signal, slice.limit);
        if consumed.Panic? { return Panic; }
        IterateKeepsInv(env, now, slice.signal, slice.limit);
        CutErrors(env, now, slice.signal, slice.limit);
        if consumed.Err? {
          return Err(consumed.error);
        }
        slice := LaterSlice(mode);
        first := false;
        AbsFields();
        KnownStates(Abs());
      }
      KnownStates(Abs());
      if ROOT !in instantiated { return Panic; }
      EndedCode(Abs());
      Cached(ROOT);
      AbsFields();
      r := Ok((instantiated[ROOT].exitCode, totalCycles));
    }

    /** `run`: boots the root of a fresh scheduler, then takes turns. */
    method Run(mode: RunMode) returns (r: Result<(int, nat)>)
      requires Valid()
      modifies this
      ensures !old(Booted()).Panic?
      ensures old(Booted()).Err? ==> r == Err(old(Booted()).error)
      ensures old(Booted()).Ok? ==> Inv(old(Booted()).value)
      ensures old(Booted()).Ok? && !r.Panic? ==> FollowsDrive(r, RunDrive(env, old(Booted()).value, mode), mode)
      ensures old(Booted()).Ok? ==> (r.Panic? <==> RunPanics(env, old(Booted()).value, old(BootedKeys()), mode))
      ensures old(Booted()).Ok? && !r.Panic? && Live(old(Booted()).value) &&
              RunDrive(env, old(Booted()).value, mode).Unfinished? ==>
                instantiated.Keys == RunCache(env, old(Booted()).value, old(BootedKeys()), mode)
      ensures old(Booted()).Ok? && !r.Panic? && Live(old(Booted()).value) &&
              RunDrive(env, old(Booted()).value, mode).Unfinished? ==>
                r == Err(RunError(env, old(Booted()).value, mode))
    {
      hide Live, Abs, Ended, F.Iterate, RunDrive, Io, Booted, BootedKeys, FollowsDrive, RunPanics, RunCache;
      var booted := BootIfNeeded();
      if booted.Err? { return Err(booted.error); }
      r := RunTurns(mode);
    }

    // ---- Creation, suspension and resumption ----

    constructor (env: Env)
      ensures Valid() && Abs() == EMPTY && this.env == env
    {
      this.env := env;
      totalCycles, nextVmId, nextPipeSlot := 0, ROOT, FIRST_PIPE_SLOT;
      states, pipes, instantiated, suspended, terminatedVms := map[], map[], map[], map[], map[];
      messageBox := [];
    }

    /** A resumed scheduler has everything suspended: its cache is empty. */
    constructor Resume(env: Env, full: FullSuspendedState)
      ensures Cache() && messageBox == [] && Abs() == FromFull(full) && this.env == env && instantiated == map[]
    {
      this.env := env;
      totalCycles, nextVmId, nextPipeSlot := full.totalCycles, full.nextVmId, full.nextPipeSlot;
      states, pipes := StatesOf(full.vms), full.pipes;
      instantiated, suspended := map[], MachinesOf(full.vms);
      terminatedVms, messageBox := full.terminatedVms, [];
      new;
      assert instantiated + suspended == suspended;
    }

    method SuspendAll()
      requires Cache()
      modifies this`instantiated, this`suspended
      ensures Cache() && Abs() == old(Abs()) && instantiated == map[]
    {
      hide Abs, Listing, PrefixSet;
      var ids := Ascending(instantiated.Keys);
      ghost var all := instantiated.Keys;
      PrefixEnds(ids, all);
      for i := 0 to |ids|
        invariant Cache() && Abs() == old(Abs())
        invariant forall id :: id in instantiated <==> id in all - PrefixSet(ids, i)
      {
        PrefixStep(ids, all, i);
        var s := SuspendVm(ids[i]);
      }
      assert instantiated.Keys == {};
    }

    /** Takes the snapshot of every VM out of `snapshots`. */
    static method TakeRecords(states: map<VmId, VmState>, snapshots: map<VmId, Vm>, ghost f: Flat)
      returns (r: Result<seq<(VmId, VmState, Vm)>>)
      requires Shaped(f) && states == f.states && snapshots == f.machines
      ensures r == Ok(Records(Ascending(f.states.Keys), f))
    {
      hide Ascending, Records;
      var ids := Ascending(states.Keys);
      var suspended := snapshots;
      RecordsShape(ids, f);
      var vms: seq<(VmId, VmState, Vm)> := [];
      for i := 0 to |ids|
        invariant vms == Records(ids, f)[..i]
        invariant forall k | i <= k < |ids| :: ids[k] in suspended && suspended[ids[k]] == f.machines[ids[k]]
      {
        assert ids[i] in ids;
        if ids[i] !in suspended { return Panic; }
        vms := vms + [(ids[i], states[ids[i]], suspended[ids[i]])];
        suspended := suspended - {ids[i]};
      }
      assert Records(ids, f)[..|ids|] == Records(ids, f);
      r := Ok(vms);
    }

    /** Consumes the scheduler and leaves one record for every VM. */
    method Suspend() returns (r: Result<FullSuspendedState>)
      requires Valid()
      modifies this`instantiated, this`suspended
      ensures Shaped(old(Abs())) && r == Ok(ToFull(old(Abs())))
    {
      ValidIsShaped();
      SuspendAll();
      AbsFields();
      SuspendedOnly();
      var vms := TakeRecords(states, suspended, Abs());
      if !vms.Ok? { return Panic; }
      r := Ok(FullSuspendedState(totalCycles, nextVmId, nextPipeSlot, vms.value, pipes, terminatedVms));
    }

    lemma ValidIsShaped()
      requires Valid()
      ensures Shaped(Abs())
    {
    }

    lemma SuspendedOnly()
      requires instantiated == map[]
      ensures Abs().machines == suspended
    {
    }
  }

  /** Suspending and resuming gives a scheduler that stands for the same state, with an empty cache. */
  method SuspendAndResume(s: Scheduler) returns (t: Scheduler)
    requires s.Valid()
    modifies s
    ensures fresh(t) && t.Valid() && t.env == s.env && t.Abs() == old(s.Abs()) && t.instantiated == map[]
  {
    ghost var f := s.Abs();
    var full := s.Suspend();
    FullRoundTrip(f);
    t := new Scheduler.Resume(s.env, full.value);
  }

  /** A VM that waits on a pipe outside the cache makes the scheduler panic once its partner has terminated,
      where the reference scheduler would have woken it up. After a suspension this holds for every VM that
      was blocked on a pipe. */
  method PartnerExitPanics(s: Scheduler, id: VmId, signal: Signal, limit: nat, signal': Signal, limit': nat)
    returns (first: Result<nat>, second: Result<nat>)
    requires s.Cache() && Live(s.Abs()) && s.messageBox == []
    requires Idles(s.Abs(), id) && id !in s.instantiated
    modifies s
    ensures Steppable(old(s.Abs()))
    ensures var t := F.Iterate(s.env, old(s.Abs()), signal, limit);
            first.Panic? ==> t == Fatal(CapacityOverflow) || exists j :: ClosedWaiter(old(s.Abs()), j)
    ensures var t := F.Iterate(s.env, old(s.Abs()), signal, limit);
            !first.Panic? && t.Turn? ==>
              && first == Ok(t.consumed)
              && (Live(t.next) && ClosedWaiter(t.next, id) && Io(t.next).Ok? ==> second.Panic?)
  {
    ghost var f, keys := s.Abs(), s.instantiated.Keys;
    LiveShape(f);
    hide Live, F.Iterate, Io, Idles, Ended, ClosedWaiter, IoPanics, TurnCache;
    if IoPanics(f, keys) { PanicMeansMissing(f, keys); }
    IterateKeepsInv(s.env, f, signal, limit);
    second := Err(Deadlock);
    first := s.Iterate(signal, limit);
    if !first.Ok? { return; }
    s.AbsFields();
    hide s.Abs;
    ghost var next, keys' := s.Abs(), s.instantiated.Keys;
    KnownStates(next);
    LiveRootRunsOrNot(next);
    if ROOT !in s.states || s.states[ROOT] == Terminated { return; }
    IdlersStayOut(s.env, f, keys, id, signal, limit);
    if ClosedWaiter(next, id) && Io(next).Ok? { MissingPanics(next, keys', id); }
    second := s.Iterate(signal', limit');
  }
}
