/** Doing pending input and output one VM at a time reaches the simultaneous update of `Flat.Io`. */
module IoSteps {
  import opened Words
  import opened Types
  import opened Machine
  import opened Flat
  import opened Invariants

  datatype Pair = Pair(reader: VmId, readState: VmState, writer: VmId, writeState: VmState)

  /** The state in which exactly the VMs of `done` have had their input and output completed. */
  function Partial(f: Flat, done: set<VmId>): Flat
    requires Shaped(f)
  {
    f.(states := map id | id in f.states :: if id in done then IoState(f, id) else f.states[id],
       machines := map id | id in f.states ::
                     if id in done && IoVm(f, id).Some? then IoVm(f, id).value else f.machines[id])
  }

  /** No memory access of the VMs in `done` faults. */
  ghost predicate Served(f: Flat, done: set<VmId>)
    requires Shaped(f)
  {
    forall id | id in done :: id in f.states && IoVm(f, id).Some?
  }

  lemma PartialStart(f: Flat)
    requires Shaped(f)
    ensures Partial(f, {}) == f && Served(f, {})
  {
    assert Partial(f, {}).states == f.states;
    assert Partial(f, {}).machines == f.machines;
  }

  lemma PartialStep(f: Flat, done: set<VmId>, id: VmId)
    requires Shaped(f) && id in f.states && IoVm(f, id).Some?
    ensures var p := Partial(f, done);
            Partial(f, done + {id}) ==
            p.(states := p.states[id := IoState(f, id)], machines := p.machines[id := IoVm(f, id).value])
  {
    hide IoState, IoVm;
    var p := Partial(f, done);
    assert Partial(f, done + {id}).states == p.states[id := IoState(f, id)];
    assert Partial(f, done + {id}).machines == p.machines[id := IoVm(f, id).value];
  }

  lemma ServedStep(f: Flat, done: set<VmId>, id: VmId)
    requires Shaped(f) && Served(f, done) && id in f.states && IoVm(f, id).Some?
    ensures Served(f, done + {id})
  {
  }

  lemma PartialAt(f: Flat, done: set<VmId>, id: VmId)
    requires Shaped(f) && id in f.states && id !in done
    ensures var p := Partial(f, done);
            && id in p.states && p.states[id] == f.states[id]
            && id in p.machines && p.machines[id] == f.machines[id]
  {
  }

  lemma OneFaults(f: Flat, id: VmId)
    requires Shaped(f) && id in f.states && IoVm(f, id).None?
    ensures IoFaults(f) && Io(f) == Err(MemOutOfBound)
  {
  }

  lemma PartialEnd(f: Flat, done: set<VmId>)
    requires Live(f)
    requires forall id :: ClosedWaiter(f, id) ==> id in done
    requires forall r, w :: Matched(f, r, w) ==> r in done && w in done
    requires Served(f, done)
    ensures Io(f) == Ok(Partial(f, done))
  {
    forall id | id in f.states && id !in done
      ensures IoVm(f, id) == Some(f.machines[id]) && IoState(f, id) == f.states[id]
    {
      Idle(f, id);
    }
    assert Io(f).value.states == Partial(f, done).states;
    assert Io(f).value.machines == Partial(f, done).machines;
  }

  lemma Idle(f: Flat, id: VmId)
    requires Live(f) && id in f.states
    requires !ClosedWaiter(f, id) && forall r, w | Matched(f, r, w) :: id != r && id != w
    ensures IoVm(f, id) == Some(f.machines[id]) && IoState(f, id) == f.states[id]
  {
    var s := f.states[id];
    if Waits(s) && PeerOf(f, id).Some? {
      var peer := PeerOf(f, id).value;
      assert !Matched(f, id, peer) && !Matched(f, peer, id);
    }
  }

  /** What happens to a waiter whose other end is gone. */
  lemma ClosedStep(f: Flat, id: VmId)
    requires Live(f) && ClosedWaiter(f, id)
    ensures IoState(f, id) == Runnable
    ensures IoVm(f, id) == Complete64(f.machines[id], f.states[id].lengthAddr,
                                      if f.states[id].WaitForRead? then 0 else f.states[id].consumed)
  {
  }

  /** What happens to the two sides of a matched pair. */
  lemma PairStep(f: Flat, r: VmId, w: VmId)
    requires Live(f) && Matched(f, r, w)
    ensures r != w && IoState(f, r) == Runnable
    ensures var rs, ws := f.states[r], f.states[w];
            var consumed := ws.consumed + Copiable(rs, ws);
            && ws.consumed <= consumed <= ws.length
            && Copiable(rs, ws) == Min(rs.length, ws.length - ws.consumed)
            && (Chunk(f, r, w).None? ==> IoVm(f, r).None?)
            && (Chunk(f, r, w).Some? ==>
                  && |Chunk(f, r, w).value| == Copiable(rs, ws)
                  && IoVm(f, r) == ReaderDone(f.machines[r], rs, Chunk(f, r, w).value)
                  && IoVm(f, w) == (if consumed == ws.length then Complete64(f.machines[w], ws.lengthAddr, ws.length)
                                    else Some(f.machines[w])))
            && IoState(f, w) == (if consumed == ws.length then Runnable else ws.(consumed := consumed))
  {
    MatchedIsPeer(f, r, w);
    assert StateOk(f, w);
  }

  // ---- When settling fails ----

  /** `n` bytes from `addr` on are not all within the memory. */
  predicate Beyond(vm: Vm, addr: nat, n: nat) {
    n > 0 && addr + n > |vm.core.mem|
  }

  /** The bytes that a matched pair moves are not there, do not fit, or cannot be reported to a side that is done. */
  ghost predicate PairLeaves(f: Flat, r: VmId, w: VmId)
    requires Live(f) && Matched(f, r, w)
  {
    var rs, ws := f.states[r], f.states[w];
    assert StateOk(f, w);
    var n := Min(rs.length, ws.length - ws.consumed);
    || Beyond(f.machines[w], (ws.bufferAddr + ws.consumed) % TWO64, n)
    || Beyond(f.machines[r], rs.bufferAddr, n)
    || Beyond(f.machines[r], rs.lengthAddr, 8)
    || (ws.consumed + n == ws.length && Beyond(f.machines[w], ws.lengthAddr, 8))
  }

  lemma CellIsBeyond(vm: Vm, addr: nat, v: nat)
    ensures Complete64(vm, addr, v).None? <==> Beyond(vm, addr, 8)
  {
    hide ToLE;
  }

  lemma PairFaults(f: Flat, r: VmId, w: VmId)
    requires Live(f) && Matched(f, r, w)
    ensures r in f.states && w in f.states
    ensures IoVm(f, r).None? || IoVm(f, w).None? <==> PairLeaves(f, r, w)
  {
    PairStep(f, r, w);
    MatchedIsPeer(f, r, w);
    assert StateOk(f, w);
    var rs, ws := f.states[r], f.states[w];
    CellIsBeyond(f.machines[w], ws.lengthAddr, ws.length);
    hide Live, Complete64, IoState;
    if Chunk(f, r, w).Some? {
      var chunk := Chunk(f, r, w).value;
      if StoreVm(f.machines[r], rs.bufferAddr, chunk).Some? {
        CellIsBeyond(StoreVm(f.machines[r], rs.bufferAddr, chunk).value, rs.lengthAddr, |chunk|);
      }
    }
  }

  /** Settling input and output fails exactly when one of the accesses it makes leaves the memory. */
  lemma IoFails(f: Flat)
    requires Live(f)
    ensures Io(f).Err? <==>
            || (exists id :: ClosedWaiter(f, id) && Beyond(f.machines[id], f.states[id].lengthAddr, 8))
            || (exists r, w :: Matched(f, r, w) && PairLeaves(f, r, w))
  {
    hide IoState, PairLeaves, Matched;
    if id :| ClosedWaiter(f, id) && Beyond(f.machines[id], f.states[id].lengthAddr, 8) {
      ClosedFaults(f, id);
    }
    if r, w :| Matched(f, r, w) && PairLeaves(f, r, w) { PairFaults(f, r, w); }
    if id :| id in f.states && IoVm(f, id).None? {
      hide Live, IoVm;
      if ClosedWaiter(f, id) {
        ClosedFaults(f, id);
      } else {
        if forall r, w | Matched(f, r, w) :: id != r && id != w { Idle(f, id); }
        var r, w :| Matched(f, r, w) && (id == r || id == w);
        PairFaults(f, r, w);
      }
    }
  }

  lemma ClosedFaults(f: Flat, id: VmId)
    requires Live(f) && ClosedWaiter(f, id)
    ensures IoVm(f, id).None? <==> Beyond(f.machines[id], f.states[id].lengthAddr, 8)
  {
    ClosedStep(f, id);
    CellIsBeyond(f.machines[id], f.states[id].lengthAddr,
                 if f.states[id].WaitForRead? then 0 else f.states[id].consumed);
    hide Live, Complete64;
  }

  /** The end of a VM other than the root fails exactly when a cell for its code lies beyond the memory. */
  lemma EndFails(f: Flat, id: VmId, code: int)
    requires Shaped(f)
    ensures EndOther(f, id, code).Err? <==>
            exists j :: Joins(f, j, id) && Beyond(f.machines[j], f.states[j].exitCodeAddr, 1)
  {
    forall j | j in f.states
      ensures Woken(f, j, id, code).None? <==> Joins(f, j, id) && Beyond(f.machines[j], f.states[j].exitCodeAddr, 1)
    {
    }
  }

  lemma PairApart(f: Flat, r: VmId, w: VmId)
    requires Live(f) && Matched(f, r, w)
    ensures r != w && r in f.states && w in f.states
  {
  }

  // ---- Waking the VMs that join a terminated one ----

  /** The state in which exactly the VMs of `done` have been told that `id` ended with `code`. */
  function PartialWake(f: Flat, id: VmId, code: int, done: set<VmId>): Flat
    requires Shaped(f)
  {
    f.(states := map j | j in f.states :: if j in done then Runnable else f.states[j],
       machines := map j | j in f.states ::
                     if j in done && Woken(f, j, id, code).Some? then Woken(f, j, id, code).value else f.machines[j])
  }

  ghost predicate WokenSome(f: Flat, id: VmId, code: int, done: set<VmId>)
    requires Shaped(f)
  {
    forall j | j in done :: j in f.states && Woken(f, j, id, code).Some?
  }

  lemma WakeStart(f: Flat, id: VmId, code: int)
    requires Shaped(f)
    ensures PartialWake(f, id, code, {}) == f
  {
    assert PartialWake(f, id, code, {}).states == f.states;
    assert PartialWake(f, id, code, {}).machines == f.machines;
  }

  lemma WakeStep(f: Flat, id: VmId, code: int, done: set<VmId>, j: VmId)
    requires Shaped(f) && j in f.states && j !in done && Woken(f, j, id, code).Some?
    ensures var p := PartialWake(f, id, code, done);
            && p.machines[j] == f.machines[j]
            && PartialWake(f, id, code, done + {j}) ==
               p.(states := p.states[j := Runnable], machines := p.machines[j := Woken(f, j, id, code).value])
  {
    hide Woken;
    var p := PartialWake(f, id, code, done);
    assert PartialWake(f, id, code, done + {j}).states == p.states[j := Runnable];
    assert PartialWake(f, id, code, done + {j}).machines == p.machines[j := Woken(f, j, id, code).value];
  }

  lemma WakeFaults(f: Flat, id: VmId, code: int, j: VmId)
    requires Shaped(f) && j in f.states && Woken(f, j, id, code).None?
    ensures EndOther(f, id, code) == Err(MemOutOfBound)
  {
  }

  /** Removes the terminated VM after everybody who joined it has been woken. */
  function Purge(p: Flat, id: VmId, code: int): Flat {
    p.(states := p.states - {id}, machines := p.machines - {id},
       pipes := Disowned(p.pipes, id),
       terminated := p.terminated[id := code])
  }

  lemma WakeEnd(f: Flat, id: VmId, code: int, done: set<VmId>)
    requires Shaped(f) && (forall j :: j in done <==> Joins(f, j, id)) && !Joins(f, id, id)
    requires WokenSome(f, id, code, done)
    ensures EndOther(f, id, code) == Ok(Purge(PartialWake(f, id, code, done), id, code))
  {
    forall j | j in f.states ensures Woken(f, j, id, code).Some? { }
    var e := EndOther(f, id, code).value;
    var p := Purge(PartialWake(f, id, code, done), id, code);
    assert e.states == p.states;
    assert e.machines == p.machines;
  }
}
