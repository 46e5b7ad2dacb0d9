/** Byte-stream integrity: a write that is served piece by piece over many turns hands over exactly its buffer. */
module Streams {
  import opened Words
  import opened Types
  import opened Machine
  import opened Flat
  import opened Invariants
  import opened IoSteps
  import opened Slicing
  import opened Turns
  import opened Traces

  ghost predicate Writing(f: Flat, w: VmId) {
    w in f.states && f.states[w].WaitForWrite? && w in f.machines
  }

  /** The bytes that the writer `w` hands over when input and output is next dealt with. */
  ghost function Sent(f: Flat, w: VmId): seq<byte> {
    if !(Shaped(f) && Writing(f, w)) then []
    else match ReaderOf(f, w)
    case None => []
    case Some(r) => if Chunk(f, r, w).Some? then Chunk(f, r, w).value else []
  }

  /** The first `n` bytes of the buffer of the write that `w` waits on. */
  ghost function BufferPrefix(f: Flat, w: VmId, n: nat): Option<seq<byte>>
    requires Writing(f, w)
  {
    Load(f.machines[w].core.mem, f.states[w].bufferAddr, n)
  }

  /** Reading on where an earlier read ended; with at most `MAX_MEMORY` bytes of memory no address wraps. */
  lemma LoadAppends(mem: Memory, addr: u64, m: u64, n: nat)
    requires Load(mem, addr, m).Some? && Load(mem, WrappingAdd(addr, m), n).Some?
    ensures Load(mem, addr, m + n) ==
            Some(Load(mem, addr, m).value + Load(mem, WrappingAdd(addr, m), n).value)
  {
    if n == 0 {
      assert Load(mem, addr, m).value + [] == Load(mem, addr, m).value;
    } else if m == 0 {
      assert [] + Load(mem, addr, n).value == Load(mem, addr, n).value;
    } else {
      assert WrappingAdd(addr, m) == addr + m;
      assert mem[addr..addr + m + n] == mem[addr..addr + m] + mem[addr + m..addr + m + n];
    }
  }

  /** What one round of input and output does to a blocked write. */
  lemma PieceStep(f: Flat, w: VmId)
    requires Live(f) && Io(f).Ok? && Writing(f, w)
    requires BufferPrefix(f, w, f.states[w].consumed).Some?
    ensures var s := f.states[w];
            var sent := Sent(f, w);
            && s.consumed + |sent| <= Max(s.consumed, s.length)
            && BufferPrefix(f, w, s.consumed + |sent|) == Some(BufferPrefix(f, w, s.consumed).value + sent)
            && (ReaderOf(f, w).Some? ==>
                  var r := ReaderOf(f, w).value;
                  && s.consumed <= s.length && |sent| == Min(f.states[r].length, s.length - s.consumed)
                  && IoVm(f, r) == ReaderDone(f.machines[r], f.states[r], sent)
                  && IoState(f, r) == Runnable)
            && (if IoState(f, w).WaitForWrite? then
                  IoState(f, w) == s.(consumed := s.consumed + |sent|) && IoVm(f, w) == Some(f.machines[w])
                else
                  && IoState(f, w) == Runnable
                  && (ClosedWaiter(f, w) <==> s.consumed + |sent| != s.length || ReaderOf(f, w).None?)
                  && IoVm(f, w) == Complete64(f.machines[w], s.lengthAddr, s.consumed + |sent|))
  {
    hide Complete64, ReaderDone, Load, PipesOk, PendingOk;
    var s := f.states[w];
    assert StateOk(f, w);
    LoadNothing(f.machines[w].core.mem, s.bufferAddr);
    if ReaderOf(f, w).Some? {
      var r := ReaderOf(f, w).value;
      PairStep(f, r, w);
      SomeIo(f, r);
      LoadLength(f.machines[w].core.mem, WrappingAdd(s.bufferAddr, s.consumed), Copiable(f.states[r], s));
      LoadAppends(f.machines[w].core.mem, s.bufferAddr, s.consumed, Copiable(f.states[r], s));
    } else {
      assert BufferPrefix(f, w, s.consumed).value + [] == BufferPrefix(f, w, s.consumed).value;
      if ClosedWaiter(f, w) {
        ClosedStep(f, w);
      } else {
        NoReader(f, w);
      }
    }
  }

  function Max(x: nat, y: nat): nat {
    if x < y then y else x
  }

  lemma LoadNothing(mem: Memory, addr: nat)
    ensures Load(mem, addr, 0) == Some([])
  {
  }

  lemma LoadLength(mem: Memory, addr: nat, n: nat)
    ensures Load(mem, addr, n).Some? ==> |Load(mem, addr, n).value| == n
  {
  }

  lemma SomeIo(f: Flat, id: VmId)
    requires Shaped(f) && Io(f).Ok? && id in f.states
    ensures IoVm(f, id).Some?
  {
  }

  lemma NoReader(f: Flat, w: VmId)
    requires Live(f) && Writing(f, w) && !ClosedWaiter(f, w) && ReaderOf(f, w).None?
    ensures IoVm(f, w) == Some(f.machines[w]) && IoState(f, w) == f.states[w]
  {
  }

  // ---- From the syscall to its completion ----

  /** Everything `w` hands over in the rounds of input and output that the states of `tr` go through. */
  ghost function Stream(tr: seq<Flat>, w: VmId): seq<byte> {
    if tr == [] then [] else Stream(tr[..|tr| - 1], w) + Sent(tr[|tr| - 1], w)
  }

  /** In each of the first `n` turns the write of `w` was left unfinished. */
  ghost predicate StaysBlocked(tr: seq<Flat>, w: VmId, n: nat)
    requires n <= |tr|
  {
    forall k | 0 <= k < n :: Writing(tr[k], w) && IoState(tr[k], w).WaitForWrite?
  }

  /** The same write, `n` bytes further. */
  ghost predicate SameWrite(f: Flat, next: Flat, w: VmId, sent: seq<byte>) {
    && Writing(f, w) && Writing(next, w)
    && next.machines[w] == f.machines[w]
    && next.states[w].consumed == |sent| <= f.states[w].length
    && next.states[w] == f.states[w].(consumed := next.states[w].consumed)
    && BufferPrefix(f, w, |sent|) == Some(sent)
  }

  lemma TurnLeavesWriter(env: Env, f: Flat, slice: TimeSlice, next: Flat, w: VmId)
    requires StepsTo(env, f, slice, next) && Live(next) && Writing(f, w) && IoState(f, w).WaitForWrite?
    ensures Io(f).Ok? && w in next.states && w in next.machines
    ensures next.states[w] == IoState(f, w) && Some(next.machines[w]) == IoVm(f, w)
  {
    hide Run, Execute, PipesOk, PendingOk, Conclude, StateOk;
    var g, id, r := TurnParts(env, f, slice);
    assert w in g.states && g.states[w] == IoState(f, w) && Some(g.machines[w]) == IoVm(f, w) by {
      hide IoState, IoVm;
      SomeIo(f, w);
    }
    hide IoState, IoVm;
    SelectedIsLive(g, id);
    RootGoesLast(env, g, id, r);
    ConclusionLeavesOthers(env, g, id, r, w);
  }

  lemma OnePiece(env: Env, f: Flat, slice: TimeSlice, next: Flat, w: VmId, first: Flat, sent: seq<byte>)
    requires StepsTo(env, f, slice, next) && Live(next) && Live(f)
    requires SameWrite(first, f, w, sent) && IoState(f, w).WaitForWrite?
    ensures SameWrite(first, next, w, sent + Sent(f, w))
  {
    hide StepsTo, Complete64, ReaderDone, Load, IoState, IoVm, Live, Sent, Io;
    TurnLeavesWriter(env, f, slice, next, w);
    PieceStep(f, w);
  }

  /** While a write is blocked its VM is frozen, and the pieces that readers have been handed so far, put
      together, are the first `consumed` bytes of its buffer. */
  lemma {:induction false} StreamSoFar(env: Env, tr: seq<Flat>, slices: seq<TimeSlice>, w: VmId, n: nat)
    requires LiveTrace(env, tr, slices) && n <= |slices|
    requires Writing(tr[0], w) && tr[0].states[w].consumed == 0 && StaysBlocked(tr, w, n)
    ensures SameWrite(tr[0], tr[n], w, Stream(tr[..n], w))
  {
    hide StepsTo, Live, IoState, SameWrite, Sent;
    if n == 0 {
      StreamStarts(tr[0], w);
    } else {
      StreamSoFar(env, tr, slices, w, n - 1);
      TraceIsLive(env, tr, slices, n - 1);
      TraceIsLive(env, tr, slices, n);
      assert StepsTo(env, tr[n - 1], slices[n - 1], tr[n]);
      OnePiece(env, tr[n - 1], slices[n - 1], tr[n], w, tr[0], Stream(tr[..n - 1], w));
      assert tr[..n][..n - 1] == tr[..n - 1] && tr[..n][n - 1] == tr[n - 1];
    }
  }

  lemma StreamStarts(f: Flat, w: VmId)
    requires Writing(f, w) && f.states[w].consumed == 0
    ensures SameWrite(f, f, w, [])
  {
    LoadNothing(f.machines[w].core.mem, f.states[w].bufferAddr);
  }

  /** A write that is done after `n` more turns has handed over exactly the first bytes of its buffer as it was
      at the syscall, reports their number, and has left out none unless the other end was closed. */
  lemma WriteDeliversItsBuffer(env: Env, tr: seq<Flat>, slices: seq<TimeSlice>, w: VmId)
    requires LiveTrace(env, tr, slices) && Writing(tr[0], w) && tr[0].states[w].consumed == 0
    requires StaysBlocked(tr, w, |slices|)
    ensures Writing(tr[|slices|], w)
    ensures var last := tr[|slices|];
            var total := Stream(tr, w);
            Io(last).Ok? && !IoState(last, w).WaitForWrite? ==>
              && IoState(last, w) == Runnable
              && BufferPrefix(tr[0], w, |total|) == Some(total)
              && IoVm(last, w) == Complete64(tr[0].machines[w], tr[0].states[w].lengthAddr, |total|)
              && (|total| == tr[0].states[w].length || ClosedWaiter(last, w))
  {
    hide StepsTo, Complete64, ReaderDone, Load, Sent, IoState, IoVm;
    var n := |slices|;
    StreamSoFar(env, tr, slices, w, n);
    assert tr[..n] == tr[..|tr| - 1];
    if Io(tr[n]).Ok? {
      PieceStep(tr[n], w);
    }
  }
}
