/** What one turn of the scheduler leaves alone: every VM but the one that ran, every exit code, every pipe end
    that is not passed on, created or closed in this turn. */
module Turns {
  import opened Words
  import opened Types
  import opened Machine
  import opened Syscalls
  import opened Ordered
  import opened Flat
  import opened Invariants
  import opened Slicing

  // ---- The parts of a turn ----

  /** Once input and output is settled and a VM selected, the turn is that VM's run and what follows from it. */
  lemma TurnFrom(env: Env, f: Flat, signal: Signal, limit: nat, g: Flat, id: VmId)
    requires Live(f) && Io(f) == Ok(g) && Select(g) == Some(id)
    ensures Steppable(f) && Live(g) && id in g.machines && id < g.nextVmId
    ensures var r := Run(env, id, g.machines[id], g.totalCycles, limit, signal);
            && (r.stop.Yield? ==> WellFormedMessage(id, r.stop.message))
            && (r.stop.Exit? ==> r.vm.exitCode == r.stop.code)
            && Iterate(env, f, signal, limit) == Conclude(env, g, id, r)
  {
    hide Live, Io, Select, Run, Conclude;
    LiveShape(f);
    IoKeepsLive(f);
    SelectedIsLive(g, id);
    RunYieldsWellFormed(env, id, g.machines[id], g.totalCycles, limit, signal);
    RunExitCode(env, id, g.machines[id], g.totalCycles, limit, signal);
  }

  /** A turn that is not fatal consists of these: pending input and output, the VM selected, and its run. */
  lemma TurnParts(env: Env, f: Flat, slice: TimeSlice) returns (g: Flat, id: VmId, r: RunResult)
    requires Live(f)
    requires !Iterate(env, f, slice.signal, slice.limit).Fatal?
    ensures Io(f) == Ok(g) && Live(g) && Select(g) == Some(id)
    ensures id in g.machines && id < g.nextVmId
    ensures r.stop.Yield? ==> WellFormedMessage(id, r.stop.message)
    ensures r.stop.Exit? ==> r.vm.exitCode == r.stop.code
    ensures r == Run(env, id, g.machines[id], g.totalCycles, slice.limit, slice.signal)
    ensures Iterate(env, f, slice.signal, slice.limit) == Conclude(env, g, id, r)
  {
    hide Conclude, Run, IoVm, IoState, IsLargest;
    g := Io(f).value;
    id := Select(g).value;
    TurnFrom(env, f, slice.signal, slice.limit, g, id);
    r := Run(env, id, g.machines[id], g.totalCycles, slice.limit, slice.signal);
  }

  // ---- Where a turn panics ----

  /** The instruction at `core` is a spawn call with more arguments than a vector can hold. */
  predicate CallsHuge(env: Env, core: Core) {
    env.decode(core).Ecall? && HugeSpawn(env.decode(core).at)
  }

  /** A run panics exactly when such a call is the next instruction and neither the limit nor the pause signal stops the
      machine in front of it. */
  lemma {:induction false} RunOvercommits(env: Env, id: VmId, vm: Vm, base: nat, limit: nat, signal: Signal)
    ensures var r := Run(env, id, vm, base, limit, signal);
            r.stop == Stopped(CapacityOverflow) <==>
            && r.stop.Stopped? && !r.stop.error.CyclesExceeded? && !r.stop.error.Pause?
            && CallsHuge(env, r.vm.core)
    decreases if vm.cycles <= limit then limit - vm.cycles + 1 else 0
  {
    hide Execute;
    ExecuteSpends(env, id, vm.core, base + vm.cycles);
    ExecuteOvercommits(env, id, vm.core, base + vm.cycles);
    if signal != After(0) && !Exceeds(env, vm, limit) {
      match Execute(env, id, vm.core, base + vm.cycles)
      case Advanced(core, spent) =>
        RunOvercommits(env, id, vm.(core := core, cycles := vm.cycles + spent), base, limit, Tick(signal));
      case _ =>
    }
  }

  lemma ExecuteOvercommits(env: Env, id: VmId, core: Core, now: nat)
    ensures Execute(env, id, core, now) == Broken(CapacityOverflow) <==> CallsHuge(env, core)
  {
    hide Handle, HugeSpawn;
    var instr := env.decode(core);
    if instr.Ecall? { HugeSpawnPanics(env, id, instr.at, now + instr.cost); }
  }

  /** The VM that a turn selects comes to an oversized spawn call, and nothing stops it in front of it. */
  ghost predicate ComesToHugeSpawn(env: Env, f: Flat, signal: Signal, limit: nat)
    requires Shaped(f)
  {
    && Io(f).Ok? && Shaped(Io(f).value) && Select(Io(f).value).Some?
    && var g, id := Io(f).value, Select(Io(f).value).value;
    && var r := Run(env, id, g.machines[id], g.totalCycles, limit, signal);
    && r.stop.Stopped? && !r.stop.error.CyclesExceeded? && !r.stop.error.Pause?
    && CallsHuge(env, r.vm.core)
  }

  /** Such a turn panics, and no other one does in a spawn call. */
  lemma TurnOvercommits(env: Env, f: Flat, signal: Signal, limit: nat)
    requires Live(f)
    ensures Steppable(f)
    ensures Iterate(env, f, signal, limit) == Fatal(CapacityOverflow) <==> ComesToHugeSpawn(env, f, signal, limit)
  {
    hide Live, Run, Conclude, IoVm, IoState, IoFaults, CallsHuge;
    LiveShape(f);
    IoErrors(f);
    if Io(f).Ok? {
      var g := Io(f).value;
      if Select(g).Some? {
        var id := Select(g).value;
        TurnFrom(env, f, signal, limit, g, id);
        RunOvercommits(env, id, g.machines[id], g.totalCycles, limit, signal);
        ConcludeOvercommits(env, g, id, Run(env, id, g.machines[id], g.totalCycles, limit, signal));
      }
    }
  }

  lemma ConcludeOvercommits(env: Env, g: Flat, id: VmId, r: RunResult)
    requires Shaped(g) && id in g.machines && id < g.nextVmId
    requires r.stop.Yield? ==> r.stop.message.vm == id
    ensures Conclude(env, g, id, r) == Fatal(CapacityOverflow) <==> r.stop == Stopped(CapacityOverflow)
  {
    hide Conclude, Deliver, EndOther;
    ConcludeCases(env, g, id, r);
    var charged := Charge(g, id, r.vm);
    EndErrors(charged, id, if r.stop.Exit? then r.stop.code else 0);
    if r.stop.Yield? && Deliver(env, charged, r.stop.message).Err? {
      DeliverErrors(env, charged, r.stop.message);
    }
  }

  /** What can go wrong with an access to memory and in booting a program. */
  predicate BadAccess(e: Error) {
    e.MemOutOfBound? || e.IndexOutOfBound? || e.BootFailure?
  }

  lemma BootErrors(env: Env, piece: DataPieceId, offset: u64, length: u64, argv: seq<seq<byte>>)
    ensures var r := BootMachine(env, piece, offset, length, argv);
            && !r.Panic?
            && (r.Err? ==> BadAccess(r.error))
  {
  }

  lemma DeliverErrors(env: Env, f: Flat, message: Message)
    requires message.vm in f.machines && message.vm < f.nextVmId && Deliver(env, f, message).Err?
    ensures BadAccess(Deliver(env, f, message).error) || Deliver(env, f, message).error.NotPipeOwner?
  {
    hide Complete64, Complete8, Store64, Handover, BootMachine;
    if message.Spawn? {
      var args := message.spawnArgs;
      BootErrors(env, args.dataPieceId, args.offset, args.length, args.argv);
    }
  }

  lemma IoErrors(f: Flat)
    requires Shaped(f)
    ensures Io(f).Err? ==> Io(f).error == MemOutOfBound
  {
    hide IoFaults, IoVm, IoState;
  }

  lemma EndErrors(f: Flat, id: VmId, code: int)
    requires Shaped(f)
    ensures EndOther(f, id, code).Err? ==> EndOther(f, id, code).error == MemOutOfBound
  {
    hide Woken;
  }

  // ---- The VMs that did not run ----

  ghost predicate Untouched(g: Flat, next: Flat, j: VmId) {
    && j in g.states && j in next.states && next.states[j] == g.states[j]
    && j in g.machines && j in next.machines && next.machines[j] == g.machines[j]
  }

  /** `j`, who joined `id`, has been told that it ended with `code`. */
  ghost predicate Told(g: Flat, next: Flat, j: VmId, id: VmId, code: int) {
    && Joins(g, j, id) && j in g.machines && j in next.states && j in next.machines
    && next.states[j] == Runnable
    && Some(next.machines[j]) == Complete8(g.machines[j], g.states[j].exitCodeAddr, code)
  }

  lemma DeliverLeavesOthers(env: Env, g: Flat, message: Message, j: VmId)
    requires Live(g) && message.vm in g.states && j in g.states && j != message.vm
    requires Deliver(env, g, message).Ok?
    ensures Untouched(g, Deliver(env, g, message).value, j)
  {
    hide BootMachine, Complete64, Complete8, Store64, Handover;
  }

  lemma EndLeavesOthers(g: Flat, id: VmId, code: int, j: VmId)
    requires Live(g) && id in g.states && id != ROOT && j in g.states && j != id
    requires EndOther(g, id, code).Ok?
    ensures var next := EndOther(g, id, code).value;
            if Joins(g, j, id) then Told(g, next, j, id, code) else Untouched(g, next, j)
  {
    hide Complete8;
  }

  lemma ConclusionLeavesOthers(env: Env, g: Flat, id: VmId, r: RunResult, j: VmId)
    requires Live(g) && Select(g) == Some(id) && j in g.states && j != id
    requires id in g.machines && id < g.nextVmId
    requires r.stop.Yield? ==> r.stop.message.vm == id
    requires !Conclude(env, g, id, r).Fatal?
    requires !(r.stop.Exit? && id == ROOT)
    ensures var next := Conclude(env, g, id, r).next;
            if r.stop.Exit? && Joins(g, j, id) then Told(g, next, j, id, r.stop.code) else Untouched(g, next, j)
  {
    hide Deliver, EndOther;
    ChargeKeepsLive(g, id, r.vm);
    var charged := Charge(g, id, r.vm);
    match r.stop
    case Yield(message) => DeliverLeavesOthers(env, charged, message, j);
    case Exit(code) => EndLeavesOthers(charged, id, code, j);
    case Stopped(_) =>
  }
}
