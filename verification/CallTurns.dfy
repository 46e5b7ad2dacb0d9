/** A machine that runs, instruction by instruction, and what the scheduler makes of the call it stops with. */
module CallTurns {
  import opened Words
  import opened Types
  import opened Machine
  import opened Syscalls
  import opened Calls
  import opened Flat
  import opened Invariants
  import opened Slicing
  import opened Turns
  import opened Results

  // ---- Instructions ----

  /** What an instruction does: it computes, or makes a call that is answered, passed on, or ends the VM. */
  lemma ExecuteMeaning(env: Env, id: VmId, core: Core, now: nat)
    ensures var x := Execute(env, id, core, now);
            match env.decode(core)
            case Trap(error) => x == Broken(Fault(error))
            case Compute(cost, next) => x == Advanced(next, cost)
            case Ecall(cost, at) =>
              match Handle(env, id, at, now + cost)
              case Done(next, charge) => x == Advanced(next, cost + charge)
              case Yielded(next, message) => x == YieldedAt(next, cost, message)
              case Exited(next, code) => x == ExitedAt(next, cost, code)
              case Failed(error) => x == Broken(error)
  {
  }

  /** The machine after `k` instructions that neither stop nor fail. */
  function Ahead(env: Env, id: VmId, vm: Vm, base: nat, k: nat): Option<Vm>
    decreases k
  {
    if k == 0 then Some(vm)
    else match Execute(env, id, vm.core, base + vm.cycles)
      case Advanced(core, spent) => Ahead(env, id, vm.(core := core, cycles := vm.cycles + spent), base, k - 1)
      case _ => None
  }

  /** A run is one instruction after the other. It goes on exactly as long as the pause signal is not due, the next
      instruction fits under the limit, and it is not one that stops. */
  lemma {:induction false} RunMeaning(env: Env, id: VmId, vm: Vm, base: nat, limit: nat, signal: Signal)
    returns (k: nat, last: Vm)
    ensures Ahead(env, id, vm, base, k) == Some(last) && (signal.After? ==> k <= signal.n)
    ensures forall j | 0 <= j < k ::
              Ahead(env, id, vm, base, j).Some? && !Exceeds(env, Ahead(env, id, vm, base, j).value, limit)
    ensures var r := Run(env, id, vm, base, limit, signal);
            if signal == After(k) then r == RunResult(last, Stopped(Pause))
            else if Exceeds(env, last, limit) then r == RunResult(last, Stopped(CyclesExceeded))
            else
              match Execute(env, id, last.core, base + last.cycles)
              case Advanced(_, _) => false
              case YieldedAt(core, spent, message) =>
                r == RunResult(Vm(core, last.cycles + spent, last.exitCode), Yield(message))
              case ExitedAt(core, spent, code) => r == RunResult(Vm(core, last.cycles + spent, code), Exit(code))
              case Broken(error) => r == RunResult(last, Stopped(error))
    decreases if vm.cycles <= limit then limit - vm.cycles + 1 else 0
  {
    hide Execute;
    ExecuteSpends(env, id, vm.core, base + vm.cycles);
    k, last := 0, vm;
    if signal != After(0) && !Exceeds(env, vm, limit) {
      var x := Execute(env, id, vm.core, base + vm.cycles);
      if x.Advanced? {
        var next := vm.(core := x.core, cycles := vm.cycles + x.spent);
        k, last := RunMeaning(env, id, next, base, limit, Tick(signal));
        k := k + 1;
        forall j | 0 <= j < k
          ensures Ahead(env, id, vm, base, j).Some? && !Exceeds(env, Ahead(env, id, vm, base, j).value, limit)
        {
          if j > 0 { assert Ahead(env, id, vm, base, j) == Ahead(env, id, next, base, j - 1); }
        }
      }
    }
  }

  // ---- What the scheduler makes of a call ----

  /** Nothing but VM `id` has changed. */
  ghost predicate OthersStay(f: Flat, next: Flat, id: VmId) {
    && next.terminated == f.terminated && next.totalCycles == f.totalCycles && next.nextVmId == f.nextVmId
    && next.states.Keys == f.states.Keys && next.machines.Keys == f.machines.Keys
    && (forall j | j in f.states && j != id :: next.states[j] == f.states[j])
    && forall j | j in f.machines && j != id :: next.machines[j] == f.machines[j]
  }

  /** VM `id` goes on at once, with `code` in A0 and nothing else changed. */
  ghost predicate Answered(f: Flat, next: Flat, id: VmId, code: u64) {
    && id in f.machines && id in next.machines && next.machines[id] == f.machines[id].SetA0(code)
    && next.states == f.states && next.pipes == f.pipes && next.nextPipeSlot == f.nextPipeSlot
  }

  /** A join of the VM that A0 names: the low byte of the recorded code goes where A1 points, or the VM waits, or it is
      told with code 5 that there never was such a VM. */
  lemma JoinReturns(env: Env, f: Flat, id: VmId, now: nat)
    requires Shaped(f) && id in f.states && id < f.nextVmId && f.states[id].Runnable?
    requires f.machines[id].core.Reg(A7) == 2602
    ensures var core := f.machines[id].core;
            var r := Handle(env, id, core, now);
            && r.Yielded? && r.message.vm == id
            && var target, cell := core.Reg(A0), core.Reg(A1);
            match Deliver(env, f, r.message)
            case Ok(next) =>
              && OthersStay(f, next, id) && next.pipes == f.pipes
              && (target in f.terminated ==>
                    && next.states[id].Runnable?
                    && Load(next.machines[id].core.mem, cell, 1) == Some([f.terminated[target] % 256])
                    && OnlyCell(f.machines[id], next.machines[id], cell, 1))
              && (target !in f.terminated && target in f.states ==>
                    next.states[id] == Join(target, cell) && next.machines == f.machines)
              && (target !in f.terminated && target !in f.states ==> Answered(f, next, id, 5))
            case Err(e) => e.MemOutOfBound? && target in f.terminated && cell >= |core.mem|
            case Panic => false
  {
    var core := f.machines[id].core;
    JoinAsks(env, id, core, now);
    var target, cell := core.Reg(A0), core.Reg(A1);
    if target in f.terminated && Complete8(f.machines[id], cell, f.terminated[target]).Some? {
      CodeIsStored(f.machines[id], cell, f.terminated[target]);
    }
    hide Handle, OnlyCell;
  }

  lemma PipeFits(f: Flat, id: VmId, addr: u64)
    requires id in f.machines
    ensures var r := DeliverPipe(f, id, addr, WrappingAdd(addr, 8));
            r.Ok? || (r == Err(MemOutOfBound) && addr + 16 > |f.machines[id].core.mem|)
  {
    hide ToLE;
  }

  /** A new pipe belongs to the caller, who finds the read end where A0 points and the write end behind it. */
  lemma PipeReturns(env: Env, f: Flat, id: VmId, now: nat)
    requires Live(f) && id in f.states && id in f.machines && id < f.nextVmId && f.nextPipeSlot + 1 < TWO64
    requires f.machines[id].core.Reg(A7) == 2604
    ensures var core := f.machines[id].core;
            var r := Handle(env, id, core, now);
            && r.Yielded? && r.message.vm == id
            && (Deliver(env, f, r.message).Ok? ||
                (Deliver(env, f, r.message) == Err(MemOutOfBound) && core.Reg(A0) + 16 > |core.mem|))
            && (Deliver(env, f, r.message).Ok? ==>
                  var next, p, cell := Deliver(env, f, r.message).value, f.nextPipeSlot, core.Reg(A0);
                  && id in next.machines && p !in f.pipes && p + 1 !in f.pipes
                  && Load64(next.machines[id].core.mem, cell) == Some(p)
                  && Load64(next.machines[id].core.mem, cell + 8) == Some(p + 1)
                  && OnlyCell(f.machines[id], next.machines[id], cell, 16)
                  && next.pipes == f.pipes[p := id][p + 1 := id] && next.states == f.states)
  {
    hide Live, Handle, DeliverPipe, OnlyCell, Load64;
    var core := f.machines[id].core;
    PipeAsks(env, id, core, now);
    PipeFits(f, id, core.Reg(A0));
    if DeliverPipe(f, id, core.Reg(A0), WrappingAdd(core.Reg(A0), 8)).Ok? { PipeResult(f, id, core.Reg(A0)); }
  }

  /** A transfer on a pipe end that does not belong to the caller is answered with code 6, one on a pipe whose other end
      is closed with code 7. Otherwise the caller waits in state `wait`. */
  ghost predicate TransferTaken(f: Flat, next: Flat, id: VmId, p: PipeId, wait: VmState) {
    && OthersStay(f, next, id) && next.pipes == f.pipes && id in next.states
    && if !(p in f.pipes && f.pipes[p] == id) then Answered(f, next, id, 6)
       else if OtherPipe(p) !in f.pipes then Answered(f, next, id, 7)
       else next.states[id] == wait && next.machines == f.machines
  }

  /** A read call leads into the wait it stands for: on the pipe in A2, for as many bytes as the cell at A1 says, into
      the buffer at A0. */
  lemma ReadReturns(env: Env, f: Flat, id: VmId, now: nat)
    requires Shaped(f) && id in f.states && id < f.nextVmId
    requires f.machines[id].core.Reg(A7) == 2606 && Handle(env, id, f.machines[id].core, now).Yielded?
    ensures var core := f.machines[id].core;
            var m := Handle(env, id, core, now).message;
            && m.vm == id && Load64(core.mem, core.Reg(A1)).Some? && Deliver(env, f, m).Ok?
            && TransferTaken(f, Deliver(env, f, m).value, id, core.Reg(A2),
                             WaitForRead(core.Reg(A2), Load64(core.mem, core.Reg(A1)).value, core.Reg(A0),
                                         core.Reg(A1)))
  {
    hide Handle, Load64;
    ReadAsks(env, id, f.machines[id].core, now);
  }

  /** A write call, with nothing consumed so far. */
  lemma WriteReturns(env: Env, f: Flat, id: VmId, now: nat)
    requires Shaped(f) && id in f.states && id < f.nextVmId
    requires f.machines[id].core.Reg(A7) == 2605 && Handle(env, id, f.machines[id].core, now).Yielded?
    ensures var core := f.machines[id].core;
            var m := Handle(env, id, core, now).message;
            && m.vm == id && Load64(core.mem, core.Reg(A1)).Some? && Deliver(env, f, m).Ok?
            && TransferTaken(f, Deliver(env, f, m).value, id, core.Reg(A2),
                             WaitForWrite(core.Reg(A2), 0, Load64(core.mem, core.Reg(A1)).value, core.Reg(A0),
                                          core.Reg(A1)))
  {
    hide Handle, Load64;
    WriteAsks(env, id, f.machines[id].core, now);
  }

  // ---- Booting ----

  /** A machine that has been booted starts where the program does, and has been charged a cycle for every four bytes
      that were loaded, rounded up. */
  lemma BootMeaning(env: Env, piece: DataPieceId, offset: u64, length: u64, argv: seq<seq<byte>>)
    ensures match BootMachine(env, piece, offset, length, argv)
            case Ok(vm) =>
              && env.Piece(piece).Found?
              && var booted := env.boot(Slice(env.Piece(piece).data, offset, length).0, argv);
              && booted.Some? && vm.core == booted.value.core && vm.exitCode == 0
              && 4 * vm.cycles - 3 <= booted.value.bytesLoaded <= 4 * vm.cycles
            case Err(e) =>
              if env.Piece(piece).Missing? then e == IndexOutOfBound
              else e == BootFailure &&
                   (env.Piece(piece).Found? ==>
                      env.boot(Slice(env.Piece(piece).data, offset, length).0, argv).None?)
            case Panic => false
  {
  }

  /** A run starts with the whole program as VM 0, without arguments and alone; the next VM will be 1 and the next pipe
      have the ends 2 and 3. */
  lemma RootBoots(env: Env)
    requires |env.program| < 0x1_0000_0000_0000_0000
    ensures var r := BootRoot(env, EMPTY);
            match env.boot(env.program, [])
            case None => r == Err(BootFailure)
            case Some(booted) =>
              && r.Ok?
              && var f := r.value;
              && f.machines.Keys == {0} && f.machines[0].core == booted.core && f.machines[0].exitCode == 0
              && 4 * f.machines[0].cycles - 3 <= booted.bytesLoaded <= 4 * f.machines[0].cycles
              && f == Flat(0, 1, 2, map[0 := Runnable], map[], map[0 := f.machines[0]], map[])
  {
    assert Slice(env.program, 0, TWO64 - 1).0 == env.program;
  }

  /** What comes of a spawn, in the order in which it can fail: an end is passed on that does not belong to the
      caller, the program cannot be booted, the new id cannot be stored. */
  lemma SpawnOutcome(env: Env, f: Flat, id: VmId, args: SpawnArgs)
    requires id in f.machines && id < f.nextVmId
    ensures var booted := BootMachine(env, args.dataPieceId, args.offset, args.length, args.argv);
            var r := DeliverSpawn(env, f, id, args);
            if exists p :: p in args.pipes && !(p in f.pipes && f.pipes[p] == id) then r == Err(NotPipeOwner)
            else if booted.Err? then r == Err(booted.error)
            else if args.instanceIdAddr + 8 > |f.machines[id].core.mem| then r == Err(MemOutOfBound)
            else r.Ok?
  {
    BootErrors(env, args.dataPieceId, args.offset, args.length, args.argv);
    hide BootMachine, ToLE, Handover;
    if p :| p in args.pipes && !(p in f.pipes && f.pipes[p] == id) {
      var i :| 0 <= i < |args.pipes| && args.pipes[i] == p;
      assert !Owns(f, id, args.pipes[i]);
    } else {
      forall i | 0 <= i < |args.pipes| ensures Owns(f, id, args.pipes[i]) { assert args.pipes[i] in args.pipes; }
    }
  }

  // ---- A whole turn ----

  /** A turn of progress in which the machine that runs comes to a call `at` of the scheduler that is passed on: the
      turn is the delivery of the message that this call stands for. */
  lemma CallOfTurn(env: Env, f: Flat, slice: TimeSlice) returns (g: Flat, id: VmId, k: nat, last: Vm, vm: Vm)
    requires Live(f) && Steppable(f) && Iterate(env, f, slice.signal, slice.limit).Turn?
    ensures Io(f) == Ok(g) && Live(g) && Select(g) == Some(id) && id in g.machines && id < g.nextVmId
    ensures Ahead(env, id, g.machines[id], g.totalCycles, k) == Some(last)
    ensures var instr := env.decode(last.core);
            instr.Ecall? && Handle(env, id, instr.at, g.totalCycles + last.cycles + instr.cost).Yielded? ==>
              && var r := Handle(env, id, instr.at, g.totalCycles + last.cycles + instr.cost);
              && vm.core == r.core && r.message.vm == id
              && Deliver(env, Charge(g, id, vm), r.message) == Ok(Iterate(env, f, slice.signal, slice.limit).next)
  {
    hide Live, Io, Select, Iterate, Conclude, Run, Handle, Execute, Deliver, EndOther, Ahead, Charge;
    var r;
    g, id, r := TurnParts(env, f, slice);
    LiveShape(g);
    vm := r.vm;
    k, last := RunMeaning(env, id, g.machines[id], g.totalCycles, slice.limit, slice.signal);
    ExecuteMeaning(env, id, last.core, g.totalCycles + last.cycles);
    ConcludeCases(env, g, id, r);
  }

  /** A turn in which a program joins. If the VM it names has ended, the byte at A1 is then the low byte of the code
      that was recorded for it. */
  lemma JoinTurn(env: Env, f: Flat, slice: TimeSlice) returns (g: Flat, id: VmId, k: nat, last: Vm)
    requires Live(f) && Steppable(f) && Iterate(env, f, slice.signal, slice.limit).Turn?
    ensures Io(f) == Ok(g) && Select(g) == Some(id) && id in g.machines
    ensures Ahead(env, id, g.machines[id], g.totalCycles, k) == Some(last)
    ensures var instr := env.decode(last.core);
            instr.Ecall? && instr.at.Reg(A7) == 2602 ==>
              var target, cell := instr.at.Reg(A0), instr.at.Reg(A1);
              var next := Iterate(env, f, slice.signal, slice.limit).next;
              && id in next.states && id in next.machines
              && var after := next.machines[id].core;
              && (target in f.terminated ==>
                    && next.states[id].Runnable? && after.Reg(A0) == 0
                    && Load(after.mem, cell, 1) == Some([f.terminated[target] % 256]))
              && (target in f.states ==> next.states[id] == Join(target, cell) && after == instr.at)
              && (target !in f.terminated && target !in f.states ==>
                    next.states[id].Runnable? && after == instr.at.SetA0(5))
  {
    var vm;
    LiveShape(f);
    IoKeepsIds(f);
    g, id, k, last, vm := CallOfTurn(env, f, slice);
    SelectedIsLive(g, id);
    ChargeKeepsLive(g, id, vm);
    var instr := env.decode(last.core);
    if instr.Ecall? && instr.at.Reg(A7) == 2602 {
      var charged, now := Charge(g, id, vm), g.totalCycles + last.cycles + instr.cost;
      JoinAsks(env, id, instr.at, now);
      SameCall(g, charged, id, vm);
      LiveShape(charged);
      DisjointIds(charged);
      hide Live, Io, Select, Iterate, Handle, Deliver, Ahead, Charge;
      JoinReturns(env, charged, id, now);
    }
  }

  lemma DisjointIds(f: Flat)
    requires Live(f)
    ensures forall j | j in f.states :: j !in f.terminated
  {
    assert IdsOk(f);
  }

  lemma SameCall(g: Flat, charged: Flat, id: VmId, vm: Vm)
    requires charged == Charge(g, id, vm) && id in g.machines
    ensures id in charged.machines && charged.machines[id].core == vm.core && charged.states == g.states
    ensures charged.terminated == g.terminated && charged.nextVmId == g.nextVmId
  {
  }

  lemma IoKeepsIds(f: Flat)
    requires Shaped(f)
    ensures Io(f).Ok? ==> Io(f).value.terminated == f.terminated && Io(f).value.states.Keys == f.states.Keys
  {
    hide IoFaults, IoVm, IoState;
  }

  /** Why a turn is cut: the pause signal was due after the `k` instructions that were executed, or the next one does
      not fit under the limit. */
  lemma CutReason(env: Env, f: Flat, slice: TimeSlice) returns (g: Flat, id: VmId, k: nat, last: Vm)
    requires Live(f) && Steppable(f) && Iterate(env, f, slice.signal, slice.limit).Cut?
    ensures Io(f) == Ok(g) && Select(g) == Some(id) && id in g.machines
    ensures Ahead(env, id, g.machines[id], g.totalCycles, k) == Some(last)
    ensures var t := Iterate(env, f, slice.signal, slice.limit);
            if slice.signal == After(k) then t.error == Pause
            else
              && t.error == CyclesExceeded && !env.decode(last.core).Trap?
              && last.cycles + env.decode(last.core).cost > slice.limit
    ensures k > 0 ==> slice.limit > 0
  {
    hide Live, Io, Select, Iterate, Conclude, Run, Ahead, Charge, Outcome;
    var r;
    g, id, r := TurnParts(env, f, slice);
    LiveShape(g);
    ConcludeCases(env, g, id, r);
    k, last := CutOfRun(env, id, g.machines[id], g.totalCycles, slice);
  }

  lemma CutOfRun(env: Env, id: VmId, vm: Vm, base: nat, slice: TimeSlice) returns (k: nat, last: Vm)
    requires var stop := Run(env, id, vm, base, slice.limit, slice.signal).stop;
             stop == Stopped(Pause) || stop == Stopped(CyclesExceeded)
    ensures Ahead(env, id, vm, base, k) == Some(last)
    ensures var stop := Run(env, id, vm, base, slice.limit, slice.signal).stop;
            if slice.signal == After(k) then stop == Stopped(Pause)
            else
              && stop == Stopped(CyclesExceeded) && !env.decode(last.core).Trap?
              && last.cycles + env.decode(last.core).cost > slice.limit
    ensures k > 0 ==> slice.limit > 0
  {
    k, last := RunMeaning(env, id, vm, base, slice.limit, slice.signal);
    ExecuteErrors(env, id, last.core, base + last.cycles);
    if k > 0 {
      assert Ahead(env, id, vm, base, 0) == Some(vm);
      NotTrapped(env, id, vm, base, k);
    }
    hide Run, Execute, Ahead;
  }

  lemma NotTrapped(env: Env, id: VmId, vm: Vm, base: nat, k: nat)
    requires k > 0 && Ahead(env, id, vm, base, k).Some?
    ensures !env.decode(vm.core).Trap?
  {
  }

  /** With which error a call of `run` returns that can be gone on from, and why. */
  lemma RunErrorMeaning(env: Env, f: Flat, mode: RunMode)
    requires Live(f) && RunDrive(env, f, mode).Unfinished?
    ensures mode.LimitCycles? ==> RunError(env, f, mode) == CyclesExceeded
    ensures mode.PauseSignal? && Steppable(f) && Iterate(env, f, After(mode.first), 0xFFFF_FFFF_FFFF_FFFF).Turn? ==>
              RunError(env, f, mode) == if mode.second == 0 then Pause else CyclesExceeded
    ensures mode.PauseSignal? && Steppable(f) && Iterate(env, f, After(mode.first), 0xFFFF_FFFF_FFFF_FFFF).Cut? ==>
              RunError(env, f, mode) == Iterate(env, f, After(mode.first), 0xFFFF_FFFF_FFFF_FFFF).error
  {
    hide Live, Ended, Iterate, RunDrive, Settled, Inv;
    var first, later := FirstSlice(mode), LaterSlice(mode);
    RunMakesOneTurn(env, f, mode);
    var t := Iterate(env, f, first.signal, first.limit);
    if t.Turn? {
      EitherInv(t.next);
      var g, id, k, last := CutReason(env, t.next, later);
    } else {
      var g, id, k, last := CutReason(env, f, first);
    }
  }
}
