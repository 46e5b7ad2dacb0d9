/** What a program finds in its memory and registers when a blocking syscall of the scheduler returns. */
module Results {
  import opened Words
  import opened Types
  import opened Machine
  import opened Flat
  import opened Invariants
  import opened Streams

  /** Same program state but for A0 and the bytes from `addr` on. */
  ghost predicate OnlyCell(before: Vm, after: Vm, addr: nat, size: nat) {
    && after.cycles == before.cycles && after.exitCode == before.exitCode
    && after.core.pc == before.core.pc && after.core.reservation == before.core.reservation
    && after.core.regs == before.core.regs[A0 := SUCCESS]
    && |after.core.mem| == |before.core.mem|
    && forall i | 0 <= i < |before.core.mem| && !(addr <= i < addr + size) :: after.core.mem[i] == before.core.mem[i]
  }

  lemma StoreFrames(mem: Memory, addr: nat, data: seq<byte>)
    requires Store(mem, addr, data).Some?
    ensures var after := Store(mem, addr, data).value;
            && |after| == |mem|
            && Load(after, addr, |data|) == Some(data)
            && forall i | 0 <= i < |mem| && !(addr <= i < addr + |data|) :: after[i] == mem[i]
  {
    StoreThenLoad(mem, addr, data);
  }

  lemma Load64OfStored(mem: Memory, addr: nat, v: nat)
    requires v < TWO64 && Load(mem, addr, 8) == Some(ToLE(8, v))
    ensures Load64(mem, addr) == Some(v)
  {
    hide Pow256, ToLE, FromLE;
    Pow256Values();
    FromToLE(8, v);
  }

  /** A finished call reports success in A0 and its result in the cell, and touches nothing else. */
  lemma ResultIsStored(vm: Vm, addr: nat, v: nat)
    requires v < TWO64 && Complete64(vm, addr, v).Some?
    ensures var after := Complete64(vm, addr, v).value;
            && Load64(after.core.mem, addr) == Some(v) && after.core.Reg(A0) == SUCCESS
            && OnlyCell(vm, after, addr, 8)
  {
    hide ToLE, FromLE;
    StoreFrames(vm.core.mem, addr, ToLE(8, v));
    Load64OfStored(Store(vm.core.mem, addr, ToLE(8, v)).value, addr, v);
  }

  lemma CodeIsStored(vm: Vm, addr: nat, code: int)
    requires Complete8(vm, addr, code).Some?
    ensures var after := Complete8(vm, addr, code).value;
            && Load(after.core.mem, addr, 1) == Some([code % 256]) && after.core.Reg(A0) == SUCCESS
            && OnlyCell(vm, after, addr, 1)
  {
    StoreFrames(vm.core.mem, addr, [code % 256]);
  }

  // ---- spawn ----

  /** The parent learns the child's id; the child starts from the named part of the cell with the given arguments
      and holds exactly the pipes that were passed; nobody else notices. */
  lemma SpawnResult(env: Env, f: Flat, id: VmId, args: SpawnArgs)
    requires Live(f) && Settled(f) && id in f.states && f.states[id].Runnable? && f.nextVmId < TWO64
    requires id in f.machines && id < f.nextVmId && DeliverSpawn(env, f, id, args).Ok?
    ensures var next := DeliverSpawn(env, f, id, args).value;
            var child := f.nextVmId;
            && child !in f.states && child !in f.terminated && next.nextVmId == child + 1
            && child in next.machines && id in next.machines
            && next.states == f.states[child := Runnable]
            && BootMachine(env, args.dataPieceId, args.offset, args.length, args.argv) == Ok(next.machines[child])
            && Load64(next.machines[id].core.mem, args.instanceIdAddr) == Some(child)
            && OnlyCell(f.machines[id], next.machines[id], args.instanceIdAddr, 8)
            && next.pipes.Keys == f.pipes.Keys
            && (forall p | p in f.pipes :: next.pipes[p] == child <==> p in args.pipes)
            && (forall p | p in f.pipes && p !in args.pipes :: next.pipes[p] == f.pipes[p])
            && (forall p | p in args.pipes :: Owns(f, id, p))
            && (forall j | j in f.machines && j != id :: j in next.machines && next.machines[j] == f.machines[j])
  {
    hide BootMachine, Complete64, OnlyCell, Load64, StateOk, PendingOk, Settled;
    LiveShape(f);
    assert PipesOk(f) && IdsOk(f);
    var next := DeliverSpawn(env, f, id, args).value;
    ResultIsStored(f.machines[id], args.instanceIdAddr, f.nextVmId);
    forall p | p in args.pipes ensures Owns(f, id, p) {
      var i :| 0 <= i < |args.pipes| && args.pipes[i] == p;
    }
  }

  // ---- pipe ----

  /** The read end is stored first, the write end behind it; both are new and belong to the caller. */
  lemma PipeResult(f: Flat, id: VmId, addr: u64)
    requires Live(f) && id in f.machines && f.nextPipeSlot + 1 < TWO64
    requires DeliverPipe(f, id, addr, WrappingAdd(addr, 8)).Ok?
    ensures var next := DeliverPipe(f, id, addr, WrappingAdd(addr, 8)).value;
            var p := f.nextPipeSlot;
            && p !in f.pipes && p + 1 !in f.pipes && IsRead(p) && IsWrite(p + 1) && OtherPipe(p) == p + 1
            && next.pipes == f.pipes[p := id][p + 1 := id] && next.nextPipeSlot == p + 2
            && id in next.machines
            && Load64(next.machines[id].core.mem, addr) == Some(p)
            && Load64(next.machines[id].core.mem, addr + 8) == Some(p + 1)
            && OnlyCell(f.machines[id], next.machines[id], addr, 16)
            && next.states == f.states
  {
    hide Live, IsRead, IsWrite, Complete64, Store64, Load64, OnlyCell;
    FreshEnds(f);
    hide DeliverPipe;
    var vm := PipeShape(f, id, addr, WrappingAdd(addr, 8));
    TwoCells(f.machines[id], addr, f.nextPipeSlot);
  }

  lemma FreshEnds(f: Flat)
    requires Live(f)
    ensures var p := f.nextPipeSlot;
            p !in f.pipes && p + 1 !in f.pipes && IsRead(p) && IsWrite(p + 1) && OtherPipe(p) == p + 1
  {
    assert PipesOk(f);
  }

  lemma TwoCells(vm: Vm, addr: u64, p: nat)
    requires p + 1 < TWO64 && Store64(vm, addr, p).Some?
    requires Complete64(Store64(vm, addr, p).value, WrappingAdd(addr, 8), p + 1).Some?
    ensures var after := Complete64(Store64(vm, addr, p).value, WrappingAdd(addr, 8), p + 1).value;
            && Load64(after.core.mem, addr) == Some(p) && Load64(after.core.mem, addr + 8) == Some(p + 1)
            && OnlyCell(vm, after, addr, 16)
  {
    hide ToLE, FromLE, Load64;
    StoreFrames(vm.core.mem, addr, ToLE(8, p));
    assert WrappingAdd(addr, 8) == addr + 8;
    var half := Store64(vm, addr, p).value;
    ResultIsStored(half, addr + 8, p + 1);
    var after := Complete64(half, addr + 8, p + 1).value;
    assert after.core.mem[addr..addr + 8] == half.core.mem[addr..addr + 8];
    Load64OfStored(after.core.mem, addr, p);
  }

  // ---- join ----

  /** A woken VM finds the low byte of the exit code in its cell. */
  lemma JoinResult(f: Flat, j: VmId, target: VmId, code: int)
    requires j in f.machines && Joins(f, j, target) && Woken(f, j, target, code).Some?
    ensures var after := Woken(f, j, target, code).value;
            && Load(after.core.mem, f.states[j].exitCodeAddr, 1) == Some([code % 256])
            && after.core.Reg(A0) == SUCCESS
            && OnlyCell(f.machines[j], after, f.states[j].exitCodeAddr, 1)
  {
    CodeIsStored(f.machines[j], f.states[j].exitCodeAddr, code);
  }

  // ---- read and write ----

  /** A served reader finds their number in the length cell and, unless that cell lies in the buffer, the bytes that
      the writer handed over at the start of its buffer. */
  lemma ReadResult(f: Flat, w: VmId)
    requires Live(f) && Io(f).Ok? && Writing(f, w) && ReaderOf(f, w).Some?
    requires BufferPrefix(f, w, f.states[w].consumed).Some?
    ensures var r := ReaderOf(f, w).value;
            var s, sent := f.states[r], Sent(f, w);
            && IoVm(f, r).Some?
            && var after := IoVm(f, r).value;
            && Load64(after.core.mem, s.lengthAddr) == Some(|sent|) && after.core.Reg(A0) == SUCCESS
            && (s.lengthAddr + 8 <= s.bufferAddr || s.bufferAddr + |sent| <= s.lengthAddr ==>
                  Load(after.core.mem, s.bufferAddr, |sent|) == Some(sent))
  {
    PieceStep(f, w);
    var r := ReaderOf(f, w).value;
    SomeIo(f, r);
    var s, sent := f.states[r], Sent(f, w);
    hide Live, IoVm, IoState, Sent, ToLE, FromLE, Load64, Io, ReaderOf;
    StoredRead(f.machines[r], s, sent);
  }

  lemma StoredRead(vm: Vm, s: VmState, chunk: seq<byte>)
    requires s.WaitForRead? && |chunk| < TWO64 && ReaderDone(vm, s, chunk).Some?
    ensures var after := ReaderDone(vm, s, chunk).value;
            && Load64(after.core.mem, s.lengthAddr) == Some(|chunk|) && after.core.Reg(A0) == SUCCESS
            && (s.lengthAddr + 8 <= s.bufferAddr || s.bufferAddr + |chunk| <= s.lengthAddr ==>
                  Load(after.core.mem, s.bufferAddr, |chunk|) == Some(chunk))
  {
    hide ToLE, FromLE, Load64;
    StoreFrames(vm.core.mem, s.bufferAddr, chunk);
    var half := StoreVm(vm, s.bufferAddr, chunk).value;
    ResultIsStored(half, s.lengthAddr, |chunk|);
    var after := ReaderDone(vm, s, chunk).value;
    if chunk != [] && (s.lengthAddr + 8 <= s.bufferAddr || s.bufferAddr + |chunk| <= s.lengthAddr) {
      var end := s.bufferAddr + |chunk|;
      assert after.core.mem[s.bufferAddr..end] == half.core.mem[s.bufferAddr..end];
    }
  }
}
