/** What every reachable state of the scheduler satisfies, and that each step keeps it. */
module Invariants {
  import opened Words
  import opened Types
  import opened Machine
  import opened Syscalls
  import opened Ordered
  import opened Flat

  // ---- The invariant ----

  /** A join waits for a live VM; a VM that waits on a pipe owns that end of it, reads from read ends, writes
      to write ends, and has bytes left to write unless it asked for none. */
  predicate StateOk(f: Flat, id: VmId)
    requires id in f.states
  {
    match f.states[id]
    case Runnable => true
    case Terminated => false
    case Join(target, _) => target in f.states
    case WaitForRead(p, _, _, _) => Owns(f, id, p) && IsRead(p)
    case WaitForWrite(p, consumed, length, _, _) =>
      Owns(f, id, p) && IsWrite(p) && (consumed == 0 || consumed < length)
  }

  /** Pipe ids come from the slots handed out so far and every open end has a live owner. */
  ghost predicate PipesOk(f: Flat) {
    && 2 <= f.nextPipeSlot && f.nextPipeSlot % 2 == 0
    && forall p | p in f.pipes :: 2 <= p < f.nextPipeSlot && f.pipes[p] in f.states
  }

  /** Ids are never reused: each one below `nextVmId` is live or terminated, not both. */
  ghost predicate IdsOk(f: Flat) {
    && ROOT in f.states
    && (forall id :: id in f.states ==> id < f.nextVmId)
    && (forall id :: id in f.terminated ==> id < f.nextVmId)
    && (forall id | 0 <= id < f.nextVmId :: id in f.states <==> id !in f.terminated)
  }

  /** Cycles that are not yet in the total belong to the runnable VM with the largest id of all. */
  ghost predicate PendingOk(f: Flat)
    requires Shaped(f)
  {
    forall id | id in f.machines && f.machines[id].cycles > 0 ::
      f.states[id].Runnable? && IsLargest(f.states.Keys, id)
  }

  ghost predicate Settled(f: Flat) {
    forall id | id in f.machines :: f.machines[id].cycles == 0
  }

  ghost predicate Live(f: Flat) {
    && Shaped(f)
    && IdsOk(f)
    && PipesOk(f)
    && (forall id {:trigger StateOk(f, id)} | id in f.states :: StateOk(f, id))
    && PendingOk(f)
  }

  /** The state a terminated root leaves behind. Its pipes are not purged. */
  ghost predicate Ended(f: Flat) {
    && f.states == map[ROOT := Terminated]
    && f.machines.Keys == {ROOT}
    && Settled(f)
    && 0 < f.nextVmId
    && ROOT in f.terminated && f.terminated[ROOT] == f.machines[ROOT].exitCode
  }

  ghost predicate Inv(f: Flat) {
    Live(f) || Ended(f)
  }

  lemma LiveShape(f: Flat)
    requires Live(f)
    ensures Shaped(f) && ROOT in f.states && forall id | id in f.states :: id < f.nextVmId
  {
  }

  lemma KnownStates(f: Flat)
    ensures Inv(f) ==> ROOT in f.states && ROOT in f.machines && (f.states[ROOT].Terminated? <==> Ended(f))
    ensures f == EMPTY ==> f.states == map[] && ROOT !in f.machines
  {
    if Live(f) { assert StateOk(f, ROOT); }
  }

  lemma SelectedIsLive(f: Flat, id: VmId)
    requires Live(f) && Select(f) == Some(id)
    ensures id in f.states && f.states[id].Runnable? && id in f.machines && id < f.nextVmId
  {
    assert id in RunnableIds(f);
  }

  // ---- Waiting on a pipe ----

  /** At most one VM waits on a pipe end, namely its owner. */
  lemma OneWaiterPerEnd(f: Flat, a: VmId, b: VmId)
    requires Live(f)
    requires a in f.states && Waits(f.states[a]) && b in f.states && Waits(f.states[b])
    requires f.states[a].pipe == f.states[b].pipe
    ensures a == b
  {
    assert StateOk(f, a) && StateOk(f, b);
  }

  /** So the partner of a waiting VM can only be the owner of the other end, and pairs are disjoint. */
  lemma MatchedIsPeer(f: Flat, r: VmId, w: VmId)
    requires Live(f) && Matched(f, r, w)
    ensures PeerOf(f, r) == Some(w) && PeerOf(f, w) == Some(r) && r != w
  {
    assert StateOk(f, r) && StateOk(f, w);
  }

  lemma PairsAreDisjoint(f: Flat, r1: VmId, w1: VmId, r2: VmId, w2: VmId)
    requires Live(f) && Matched(f, r1, w1) && Matched(f, r2, w2)
    ensures r1 == r2 <==> w1 == w2
    ensures r1 != w2 && w1 != r2
  {
    MatchedIsPeer(f, r1, w1);
    MatchedIsPeer(f, r2, w2);
  }

  lemma BootedRootIsLive(env: Env)
    ensures BootRoot(env, EMPTY).Ok? ==> Live(BootRoot(env, EMPTY).value)
  {
  }

  // ---- Input and output ----

  lemma IoVmCycles(f: Flat, id: VmId)
    requires Shaped(f) && id in f.states && IoVm(f, id).Some?
    ensures IoVm(f, id).value.cycles == f.machines[id].cycles
    ensures IoVm(f, id).value.exitCode == f.machines[id].exitCode
    ensures !Waits(f.states[id]) ==> IoVm(f, id).value == f.machines[id] && IoState(f, id) == f.states[id]
  {
  }

  lemma IoStateOk(f: Flat, id: VmId)
    requires Live(f) && id in f.states
    ensures IoState(f, id) == f.states[id] || IoState(f, id).Runnable? ||
            (f.states[id].WaitForWrite? && IoState(f, id).WaitForWrite? &&
             IoState(f, id) == f.states[id].(consumed := IoState(f, id).consumed) &&
             f.states[id].consumed <= IoState(f, id).consumed < f.states[id].length)
  {
    assert StateOk(f, id);
    var s := f.states[id];
    if s.WaitForWrite? && PeerOf(f, id).Some? && Matched(f, PeerOf(f, id).value, id) {
      var c := s.consumed + Copiable(f.states[PeerOf(f, id).value], s);
      assert c <= s.length;
      if c < s.length {
        assert IoState(f, id) == s.(consumed := c);
      }
    }
  }

  lemma IoKeepsLive(f: Flat)
    requires Live(f) && Io(f).Ok?
    ensures Live(Io(f).value)
  {
    var g := Io(f).value;
    forall id | id in g.states
      ensures StateOk(g, id)
      ensures g.machines[id].cycles > 0 ==> g.states[id].Runnable? && IsLargest(g.states.Keys, id)
    {
      assert StateOk(f, id);
      IoStateOk(f, id);
      IoVmCycles(f, id);
    }
  }

  // ---- Running ----

  lemma PendingIsSelected(f: Flat)
    requires Live(f)
    ensures Select(f).Some? ==>
              forall id | id in f.machines && id != Select(f).value :: f.machines[id].cycles == 0
  {
    if Select(f).Some? {
      forall id | id in f.machines && f.machines[id].cycles > 0 ensures id == Select(f).value {
        assert id in RunnableIds(f);
      }
    }
  }

  lemma ChargeKeepsLive(f: Flat, id: VmId, vm: Vm)
    requires Live(f) && Select(f) == Some(id)
    ensures Live(Charge(f, id, vm)) && Settled(Charge(f, id, vm))
  {
    PendingIsSelected(f);
    var g := Charge(f, id, vm);
    forall j | j in g.states ensures StateOk(g, j) {
      assert StateOk(f, j);
    }
  }

  // ---- Messages ----

  lemma SetStateKeepsLive(f: Flat, id: VmId, s: VmState)
    requires Live(f) && Settled(f) && id in f.states && f.states[id].Runnable?
    requires StateOk(f.(states := f.states[id := s]), id)
    ensures Live(f.(states := f.states[id := s]))
  {
    var g := f.(states := f.states[id := s]);
    assert g.states.Keys == f.states.Keys;
    forall j | j in g.states ensures StateOk(g, j) {
      if j != id { assert StateOk(f, j); }
    }
  }

  lemma SetMachineKeepsLive(f: Flat, id: VmId, vm: Vm)
    requires Live(f) && id in f.states && vm.cycles == f.machines[id].cycles
    ensures Live(f.(machines := f.machines[id := vm]))
    ensures Settled(f) ==> Settled(f.(machines := f.machines[id := vm]))
  {
    var g := f.(machines := f.machines[id := vm]);
    forall j | j in g.states ensures StateOk(g, j) {
      assert StateOk(f, j);
    }
  }

  lemma HandoverKeepsWaiters(f: Flat, id: VmId, passed: seq<PipeId>, to: VmId, j: VmId)
    requires Live(f) && id in f.states && f.states[id].Runnable?
    requires forall i | 0 <= i < |passed| :: Owns(f, id, passed[i])
    requires j in f.states && Waits(f.states[j])
    ensures Handover(f.pipes, passed, to).Keys == f.pipes.Keys
    ensures f.states[j].pipe in f.pipes && Handover(f.pipes, passed, to)[f.states[j].pipe] == j
  {
    assert StateOk(f, j);
    var p := f.states[j].pipe;
    assert forall i | 0 <= i < |passed| :: passed[i] != p;
  }

  lemma AddKeepsStates(f: Flat, id: VmId, passed: seq<PipeId>, vm: Vm, j: VmId)
    requires Live(f) && id in f.states && f.states[id].Runnable?
    requires forall i | 0 <= i < |passed| :: Owns(f, id, passed[i])
    requires j in f.states || j == f.nextVmId
    ensures StateOk(Add(f, vm).(pipes := Handover(f.pipes, passed, f.nextVmId)), j)
  {
    assert f.nextVmId !in f.states;
    if j in f.states {
      assert StateOk(f, j);
      if Waits(f.states[j]) {
        HandoverKeepsWaiters(f, id, passed, f.nextVmId, j);
      }
    }
  }

  lemma AddKeepsLive(f: Flat, id: VmId, passed: seq<PipeId>, vm: Vm)
    requires Live(f) && Settled(f) && id in f.states && f.states[id].Runnable?
    requires forall i | 0 <= i < |passed| :: Owns(f, id, passed[i])
    ensures Live(Add(f, vm).(pipes := Handover(f.pipes, passed, f.nextVmId)))
  {
    var g := Add(f, vm).(pipes := Handover(f.pipes, passed, f.nextVmId));
    assert g.states.Keys == f.states.Keys + {f.nextVmId};
    forall j | j in g.states ensures StateOk(g, j) {
      AddKeepsStates(f, id, passed, vm, j);
    }
  }

  lemma OpenKeepsStates(f: Flat, id: VmId, j: VmId)
    requires Live(f) && id in f.states && j in f.states
    ensures StateOk(Opened(f, id), j)
  {
    assert StateOk(f, j);
    if Waits(f.states[j]) {
      assert f.states[j].pipe in f.pipes;
      assert f.states[j].pipe < f.nextPipeSlot;
    }
  }

  /** The state after VM `id` opened a pipe. */
  function Opened(f: Flat, id: VmId): Flat {
    f.(nextPipeSlot := f.nextPipeSlot + 2, pipes := f.pipes[f.nextPipeSlot := id][f.nextPipeSlot + 1 := id])
  }

  lemma OpenKeepsPipes(f: Flat, id: VmId)
    requires PipesOk(f) && id in f.states
    ensures PipesOk(Opened(f, id))
  {
    var g := Opened(f, id);
    forall p | p in g.pipes ensures 2 <= p < g.nextPipeSlot && g.pipes[p] in g.states {
      assert p in f.pipes || p == f.nextPipeSlot || p == f.nextPipeSlot + 1;
    }
  }

  lemma OpenKeepsLive(f: Flat, id: VmId)
    requires Live(f) && id in f.states
    ensures Live(Opened(f, id))
  {
    OpenKeepsPipes(f, id);
    forall j | j in f.states ensures StateOk(Opened(f, id), j) {
      OpenKeepsStates(f, id, j);
    }
  }

  lemma DeliverKeepsLive(env: Env, f: Flat, message: Message)
    requires Live(f) && Settled(f)
    requires message.vm in f.states && f.states[message.vm].Runnable?
    requires WellFormedMessage(message.vm, message)
    requires Deliver(env, f, message).Ok?
    ensures Live(Deliver(env, f, message).value)
  {
    hide Live, DeliverSpawn, DeliverJoin, DeliverPipe, DeliverIo, Settled;
    LiveShape(f);
    match message
    case Spawn(id, args) => SpawnKeepsLive(env, f, id, args);
    case JoinVm(id, target, addr) => JoinKeepsLive(f, id, target, addr);
    case OpenPipe(id, addr1, addr2) => PipeKeepsLive(f, id, addr1, addr2);
    case PipeRead(id, io) =>
      DeliverIoKeepsLive(f, id, io.pipe, WaitForRead(io.pipe, io.length, io.bufferAddr, io.lengthAddr));
    case PipeWrite(id, io) =>
      DeliverIoKeepsLive(f, id, io.pipe, WaitForWrite(io.pipe, 0, io.length, io.bufferAddr, io.lengthAddr));
  }

  lemma CompleteCycles(vm: Vm, addr: nat, v: nat)
    ensures Complete64(vm, addr, v).Some? ==> Complete64(vm, addr, v).value.cycles == vm.cycles
  {
  }

  lemma SpawnKeepsLive(env: Env, f: Flat, id: VmId, args: SpawnArgs)
    requires Live(f) && Settled(f) && id in f.states && f.states[id].Runnable? && id < f.nextVmId
    requires DeliverSpawn(env, f, id, args).Ok?
    ensures Live(DeliverSpawn(env, f, id, args).value)
  {
    LiveShape(f);
    hide Live, BootMachine, Complete64, Handover, Settled;
    var r := DeliverSpawn(env, f, id, args).value;
    var vm := BootMachine(env, args.dataPieceId, args.offset, args.length, args.argv).value;
    AddKeepsLive(f, id, args.pipes, vm);
    CompleteCycles(f.machines[id], args.instanceIdAddr, f.nextVmId);
    var f' := Add(f, vm).(pipes := Handover(f.pipes, args.pipes, f.nextVmId));
    SetMachineKeepsLive(f', id, r.machines[id]);
  }

  lemma JoinKeepsLive(f: Flat, id: VmId, target: VmId, addr: u64)
    requires Live(f) && Settled(f) && id in f.states && f.states[id].Runnable?
    requires id in f.machines && DeliverJoin(f, id, target, addr).Ok?
    ensures Live(DeliverJoin(f, id, target, addr).value)
  {
    var r := DeliverJoin(f, id, target, addr).value;
    if target in f.terminated {
      WakeIsOk(f, id);
      var code := f.terminated[target];
      hide Live, Complete8, Settled;
      CompleteCode(f.machines[id], addr, code);
      SetMachineKeepsLive(f.(states := f.states[id := Runnable]), id, r.machines[id]);
    } else if target !in f.states {
      SetMachineKeepsLive(f, id, r.machines[id]);
    } else {
      SetStateKeepsLive(f, id, Join(target, addr));
    }
  }

  lemma CompleteCode(vm: Vm, addr: nat, code: int)
    ensures Complete8(vm, addr, code).Some? ==> Complete8(vm, addr, code).value.cycles == vm.cycles
  {
  }

  lemma WakeIsOk(f: Flat, id: VmId)
    requires Live(f) && id in f.states && f.states[id].Runnable?
    ensures Live(f.(states := f.states[id := Runnable]))
  {
    assert f.states[id := Runnable] == f.states;
  }

  lemma PipeKeepsLive(f: Flat, id: VmId, addr1: u64, addr2: u64)
    requires Live(f) && id in f.states && id in f.machines && DeliverPipe(f, id, addr1, addr2).Ok?
    ensures Live(DeliverPipe(f, id, addr1, addr2).value)
  {
    hide Live, DeliverPipe, Opened;
    var vm := PipeShape(f, id, addr1, addr2);
    OpenKeepsLive(f, id);
    OpenedMachines(f, id);
    SetMachineKeepsLive(Opened(f, id), id, vm);
  }

  lemma OpenedMachines(f: Flat, id: VmId)
    ensures Opened(f, id).machines == f.machines && Opened(f, id).states == f.states
  {
  }

  lemma PipeShape(f: Flat, id: VmId, addr1: u64, addr2: u64) returns (vm: Vm)
    requires id in f.machines && DeliverPipe(f, id, addr1, addr2).Ok?
    ensures vm.cycles == f.machines[id].cycles
    ensures Store64(f.machines[id], addr1, f.nextPipeSlot).Some?
    ensures Complete64(Store64(f.machines[id], addr1, f.nextPipeSlot).value, addr2, f.nextPipeSlot + 1) == Some(vm)
    ensures DeliverPipe(f, id, addr1, addr2).value == Opened(f, id).(machines := f.machines[id := vm])
  {
    hide Store, ToLE;
    vm := DeliverPipe(f, id, addr1, addr2).value.machines[id];
  }

  lemma DeliverIoKeepsLive(f: Flat, id: VmId, p: PipeId, wait: VmState)
    requires Live(f) && Settled(f) && id in f.states && f.states[id].Runnable?
    requires (wait.WaitForRead? && wait.pipe == p && IsRead(p)) ||
             (wait.WaitForWrite? && wait.pipe == p && IsWrite(p) && wait.consumed == 0)
    requires DeliverIo(f, id, p, wait).Ok?
    ensures Live(DeliverIo(f, id, p, wait).value)
  {
    if Owns(f, id, p) && OtherEndOpen(f, p) {
      SetStateKeepsLive(f, id, wait);
    } else {
      SetMachineKeepsLive(f, id, DeliverIo(f, id, p, wait).value.machines[id]);
    }
  }

  // ---- Termination ----

  lemma EndOtherKeepsLive(f: Flat, id: VmId, code: int)
    requires Live(f) && Settled(f) && id in f.states && id != ROOT && f.states[id].Runnable?
    requires EndOther(f, id, code).Ok?
    ensures Live(EndOther(f, id, code).value)
  {
    var g := EndOther(f, id, code).value;
    assert g.states.Keys == f.states.Keys - {id};
    forall j | j in g.states ensures StateOk(g, j) && g.machines[j].cycles == 0 {
      assert StateOk(f, j);
    }
    assert IdsOk(g);
  }

  // ---- One turn ----

  lemma RootEnds(f: Flat, vm: Vm, code: int)
    requires Live(f) && vm.exitCode == code
    ensures Ended(EndRoot(Charge(f, ROOT, vm), code))
  {
  }

  lemma ConcludeKeepsInv(env: Env, f: Flat, id: VmId, r: RunResult)
    requires Live(f) && Select(f) == Some(id)
    requires r.stop.Yield? ==> WellFormedMessage(id, r.stop.message)
    requires r.stop.Exit? ==> r.vm.exitCode == r.stop.code
    ensures var t := Conclude(env, f, id, r);
            && (t.Turn? ==> Inv(t.next))
            && (t.Cut? ==> Live(t.next))
            && (t.Turn? && r.stop.Exit? && id == ROOT ==> Ended(t.next))
            && (t.Turn? && !(r.stop.Exit? && id == ROOT) ==> Live(t.next))
  {
    var charged := Charge(f, id, r.vm);
    ChargeKeepsLive(f, id, r.vm);
    SelectedIsLive(f, id);
    match r.stop
    case Yield(message) =>
      hide Live, Deliver, Settled, Select;
      if Deliver(env, charged, message).Ok? { DeliverKeepsLive(env, charged, message); }
    case Exit(code) =>
      if id == ROOT {
        RootEnds(f, r.vm, code);
      } else {
        hide Live, EndOther, Settled, Select;
        if EndOther(charged, id, code).Ok? { EndOtherKeepsLive(charged, id, code); }
      }
    case Stopped(error) =>
      hide Live, Settled, Select;
  }

  lemma {:induction false} RunExitCode(env: Env, id: VmId, vm: Vm, base: nat, limit: nat, signal: Signal)
    ensures var r := Run(env, id, vm, base, limit, signal); r.stop.Exit? ==> r.vm.exitCode == r.stop.code
    decreases if vm.cycles <= limit then limit - vm.cycles + 1 else 0
  {
    if signal != After(0) && !Exceeds(env, vm, limit) {
      match Execute(env, id, vm.core, base + vm.cycles)
      case Advanced(core, spent) =>
        RunExitCode(env, id, vm.(core := core, cycles := vm.cycles + spent), base, limit, Tick(signal));
      case _ =>
    }
  }

  /** Every turn keeps the invariant, and only the root's own exit leaves the live states. */
  lemma IterateKeepsInv(env: Env, f: Flat, signal: Signal, limit: nat)
    requires Live(f)
    ensures var t := Iterate(env, f, signal, limit);
            && (t.Turn? ==> Inv(t.next))
            && (t.Cut? ==> Live(t.next))
  {
    if Io(f).Ok? {
      IoKeepsLive(f);
      var g := Io(f).value;
      if Select(g).Some? {
        var id := Select(g).value;
        RunYieldsWellFormed(env, id, g.machines[id], g.totalCycles, limit, signal);
        RunExitCode(env, id, g.machines[id], g.totalCycles, limit, signal);
        ConcludeKeepsInv(env, g, id, Run(env, id, g.machines[id], g.totalCycles, limit, signal));
      }
    }
  }
}
