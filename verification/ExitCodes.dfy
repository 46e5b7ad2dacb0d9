/** With which code a VM ends: the one that the host gave it, on the way to the joiners and out of `run`. */
module ExitCodes {
  import opened Words
  import opened Types
  import opened Machine
  import opened Syscalls
  import opened Calls
  import opened Flat
  import opened Invariants
  import opened Slicing
  import opened Turns
  import opened CallTurns
  import opened Cycles
  import opened VerifyTx

  /** The next instruction is a call that the scheduler does not answer, and the host ends the VM for it with `code`. */
  ghost predicate HostEnds(env: Env, core: Core, code: int) {
    && env.decode(core).Ecall?
    && var at := env.decode(core).at;
    && !Own(at.Reg(A7)) && env.host(at).HostExit? && env.host(at).code == code
  }

  lemma OwnNeverExits(env: Env, id: VmId, core: Core, now: nat)
    ensures Handle(env, id, core, now).Exited? <==> !Own(core.Reg(A7)) && env.host(core).HostExit?
  {
    if Own(core.Reg(A7)) { OwnAnswersAreFree(env, id, core, now); } else { HostAnswers(env, id, core, now); }
    hide Handle;
  }

  /** An instruction ends its VM if and only if the host does, and with that code. */
  lemma ExecuteExits(env: Env, id: VmId, core: Core, now: nat, code: int)
    ensures var x := Execute(env, id, core, now); x.ExitedAt? && x.code == code <==> HostEnds(env, core, code)
  {
    ExecuteMeaning(env, id, core, now);
    var instr := env.decode(core);
    if instr.Ecall? {
      OwnNeverExits(env, id, instr.at, now + instr.cost);
      if !Own(instr.at.Reg(A7)) { HostAnswers(env, id, instr.at, now + instr.cost); }
    }
    hide Handle, Execute;
  }

  /** A machine whose next instruction the host ends stops with that code, if it may still take the instruction. */
  lemma HostExitStops(env: Env, id: VmId, vm: Vm, base: nat, limit: nat, signal: Signal, code: int)
    requires HostEnds(env, vm.core, code) && signal != After(0) && vm.cycles + env.decode(vm.core).cost <= limit
    ensures var r := Run(env, id, vm, base, limit, signal);
            && r.stop == Exit(code) && r.vm.exitCode == code
            && r.vm.cycles == vm.cycles + env.decode(vm.core).cost
  {
    ExecuteExits(env, id, vm.core, base + vm.cycles, code);
    SpentIsCharged(env, id, vm.core, base + vm.cycles);
    hide Execute;
  }

  /** The other way round, a run that stops with a code has come to such an instruction. */
  lemma StopIsHosts(env: Env, id: VmId, vm: Vm, base: nat, limit: nat, signal: Signal) returns (k: nat, last: Vm)
    requires Run(env, id, vm, base, limit, signal).stop.Exit?
    ensures Ahead(env, id, vm, base, k) == Some(last)
    ensures HostEnds(env, last.core, Run(env, id, vm, base, limit, signal).stop.code)
  {
    k, last := RunMeaning(env, id, vm, base, limit, signal);
    ExecuteExits(env, id, last.core, base + last.cycles, Run(env, id, vm, base, limit, signal).stop.code);
    hide Execute, Run, Ahead;
  }

  lemma ConclusionRecords(env: Env, g: Flat, id: VmId, r: RunResult, j: VmId)
    requires Shaped(g) && id in g.machines && id < g.nextVmId && (r.stop.Yield? ==> r.stop.message.vm == id)
    requires Conclude(env, g, id, r).Turn? && j in Conclude(env, g, id, r).next.terminated && j !in g.terminated
    ensures j == id && r.stop == Exit(Conclude(env, g, id, r).next.terminated[j])
  {
    hide Complete64, Complete8, Store64, Handover, BootMachine, Woken;
  }

  /** The code that a turn records for a VM, for all joins of it to come, is the one the host ended it with. */
  lemma RecordedCode(env: Env, f: Flat, slice: TimeSlice, id: VmId) returns (g: Flat, k: nat, last: Vm)
    requires Live(f) && Steppable(f) && Iterate(env, f, slice.signal, slice.limit).Turn?
    requires id in Iterate(env, f, slice.signal, slice.limit).next.terminated && id !in f.terminated
    ensures Io(f) == Ok(g) && Select(g) == Some(id) && id in g.machines
    ensures Ahead(env, id, g.machines[id], g.totalCycles, k) == Some(last)
    ensures HostEnds(env, last.core, Iterate(env, f, slice.signal, slice.limit).next.terminated[id])
  {
    hide Live, Io, Select, Iterate, Conclude, Run, HostEnds;
    var ran, r;
    g, ran, r := TurnParts(env, f, slice);
    LiveShape(g);
    IoKeepsIds(f);
    ConclusionRecords(env, g, ran, r, id);
    k, last := StopIsHosts(env, id, g.machines[id], g.totalCycles, slice.limit, slice.signal);
  }

  // ---- The code that `run` returns ----

  lemma {:induction false} LastStep(env: Env, s: Status, m: nat) returns (n: nat)
    requires Good(s) && s.Running? && Micros(env, s, m).Finished?
    ensures n < m && Micros(env, s, n).Running? && MicroStep(env, Micros(env, s, n)) == Micros(env, s, m)
    decreases m
  {
    hide MicroStep, Live, Settled, Ended;
    SteppableRun(s);
    MicroStepIsGood(env, s);
    var next := MicroStep(env, s);
    n := 0;
    if next.Running? {
      n := LastStep(env, next, m - 1);
      n := n + 1;
    } else {
      TerminalIsAbsorbing(env, next, m - 1);
    }
  }

  lemma OutcomeGoesOn(env: Env, f: Flat, id: VmId, vm: Vm, stop: Stop)
    requires Live(f) && Settled(f) && Select(f) == Some(id) && !stop.Stopped?
    requires stop.Yield? ==> WellFormedMessage(id, stop.message)
    requires stop.Exit? ==> vm.exitCode == stop.code
    requires Shaped(Charge(f, id, vm)) && id in f.machines && id < f.nextVmId
    requires !(stop.Exit? && id == ROOT)
    ensures var r := Outcome(env, Charge(f, id, vm), id, stop);
            !r.Panic? && (r.Ok? ==> Shaped(r.value)) && !SettleResult(r).Finished?
  {
    var charged := Charge(f, id, vm);
    ChargeKeepsLive(f, id, vm);
    SelectedIsLive(f, id);
    OutcomeIsShaped(env, charged, id, stop);
    OutcomeKeepsInv(env, f, id, vm, stop);
    var r := Outcome(env, charged, id, stop);
    hide Live, Settled, Select, Deliver, EndOther, Io, Settle;
    if r.Ok? {
      if stop.Yield? { DeliverKeepsLive(env, charged, stop.message); }
      else { EndOtherKeepsLive(charged, id, stop.code); }
      LiveGoesOn(r.value);
    }
  }

  /** The last step of a run: the host ends the root, and the code is the one it gives. */
  lemma FinishingStep(env: Env, g: Flat, e: Flat)
    requires Good(Running(g)) && MicroStep(env, Running(g)) == Finished(e)
    ensures Select(g) == Some(ROOT) && ROOT in g.machines && ROOT in e.terminated && ROOT in e.machines
    ensures HostEnds(env, g.machines[ROOT].core, e.terminated[ROOT])
    ensures e.totalCycles == g.totalCycles + env.decode(g.machines[ROOT].core).cost
    ensures e.machines.Keys == {ROOT} && e.pipes == g.pipes && e.nextVmId == g.nextVmId
    ensures e.terminated == g.terminated[ROOT := e.terminated[ROOT]]
  {
    hide Execute, Live, Settled, Ended, Deliver, EndOther, HostEnds, Handle;
    var id := Select(g).value;
    LiveShape(g);
    SelectedIsLive(g, id);
    var vm := g.machines[id];
    var x := Execute(env, id, vm.core, g.totalCycles);
    SpentIsCharged(env, id, vm.core, g.totalCycles);
    ExecuteYieldsOwn(env, id, vm.core, g.totalCycles);
    match x {
      case YieldedAt(core, spent, message) =>
        OutcomeGoesOn(env, g, id, vm.(core := core, cycles := spent), Yield(message));
      case ExitedAt(core, spent, code) =>
        ExecuteExits(env, id, vm.core, g.totalCycles, code);
        if id != ROOT { OutcomeGoesOn(env, g, id, vm.(core := core, cycles := spent, exitCode := code), Exit(code)); }
        else { EndCharge(env, vm.core, code); }
      case _ =>
    }
  }

  lemma EndCharge(env: Env, core: Core, code: int)
    requires HostEnds(env, core, code)
    ensures OwnCharge(env, core) == env.decode(core).cost
  {
  }

  /** However it is sliced, a completed run has gone through a state in which the root was up next with an instruction
      that the host ended with exactly the code that `run` returns, and that instruction was its last. */
  lemma CompletedByHost(env: Env, f: Flat, slices: seq<TimeSlice>) returns (n: nat, g: Flat)
    requires Live(f) && Drive(env, f, slices).Completed?
    ensures Good(Settle(f)) && Micros(env, Settle(f), n) == Running(g)
    ensures Select(g) == Some(ROOT) && ROOT in g.machines
    ensures var e := Drive(env, f, slices).f;
            && ROOT in e.terminated && HostEnds(env, g.machines[ROOT].core, e.terminated[ROOT])
            && e.totalCycles == g.totalCycles + env.decode(g.machines[ROOT].core).cost
            && e.machines.Keys == {ROOT} && e.pipes == g.pipes && e.nextVmId == g.nextVmId
            && e.terminated == g.terminated[ROOT := e.terminated[ROOT]]
  {
    hide Drive, Settle, Live, Ended, Settled, MicroStep, Select, HostEnds;
    SettleEnded(f);
    var m := DriveFollows(env, f, slices);
    NotCrashedAtStart(env, Settle(f), m);
    LiveGoesOn(f);
    n := LastStep(env, Settle(f), m);
    g := Micros(env, Settle(f), n).f;
    FinishingStep(env, g, Drive(env, f, slices).f);
  }

  /** So does a script group that exits. */
  lemma VerdictIsHosts(env: Env, slices: seq<TimeSlice>, code: int, cycles: nat) returns (n: nat, g: Flat)
    requires Exits(env, slices, code, cycles)
    ensures var boot := BootRoot(env, EMPTY).value;
            && Good(Settle(boot)) && Micros(env, Settle(boot), n) == Running(g) && Select(g) == Some(ROOT)
            && ROOT in g.machines && HostEnds(env, g.machines[ROOT].core, code)
            && cycles == g.totalCycles + env.decode(g.machines[ROOT].core).cost
  {
    hide Drive, BootRoot, Live, Ended, Settle, Select, HostEnds, MicroStep;
    BootIsInv(env);
    n, g := CompletedByHost(env, BootRoot(env, EMPTY).value, slices);
  }
}
