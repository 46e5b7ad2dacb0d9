/** Cycle accounting: no cycle is lost or counted twice, and the clock that programs can read only moves on. */
module Cycles {
  import opened Words
  import opened Types
  import opened Machine
  import opened Syscalls
  import opened Calls
  import opened CallTurns
  import opened Ordered
  import opened Flat
  import opened Invariants
  import opened Slicing

  /** Cycles that are spent but not yet in the total: those of the VM with the largest id. */
  function Pending(f: Flat): nat {
    if f.states.Keys == {} then 0
    else
      var top := Largest(f.states.Keys);
      if top in f.machines then f.machines[top].cycles else 0
  }

  /** Nobody else has pending cycles. */
  lemma PendingIsAll(f: Flat, id: VmId)
    requires Live(f) && id in f.machines && f.machines[id].cycles > 0
    ensures id == Largest(f.states.Keys) && f.machines[id].cycles == Pending(f) && Select(f) == Some(id)
  {
    assert IsLargest(f.states.Keys, id);
    assert id in RunnableIds(f);
    assert IsLargest(RunnableIds(f), id);
  }

  /** Settling input and output and moving the pending cycles of the VM up next adds exactly those. */
  lemma NormalTotal(f: Flat)
    requires Live(f) && Io(f).Ok?
    ensures Normal(Io(f).value).totalCycles == f.totalCycles + Pending(f)
  {
    hide IoState, IoVm;
    var g := Io(f).value;
    IoKeepsLive(f);
    assert g.states.Keys == f.states.Keys;
    var top := Largest(f.states.Keys);
    assert IoVm(f, top).Some?;
    IoVmCycles(f, top);
    assert Pending(g) == Pending(f);
    if Pending(g) > 0 {
      PendingIsAll(g, top);
    } else if Select(g).Some? {
      var id := Select(g).value;
      SelectedIsLive(g, id);
      if g.machines[id].cycles > 0 { PendingIsAll(g, id); }
    }
  }

  // ---- What one instruction costs ----

  /** The bytes that are loaded when the VM of this spawn is booted. */
  function BytesLoaded(env: Env, args: SpawnArgs): nat {
    match env.Piece(args.dataPieceId)
    case Found(data) =>
      var booted := env.boot(Slice(data, args.offset, args.length).0, args.argv);
      if booted.Some? then booted.value.bytesLoaded else 0
    case _ => 0
  }

  /** The cycles that booting charges the spawned VM: one for every four bytes, rounded up. */
  function BootCharge(env: Env, args: SpawnArgs): (cycles: nat)
    ensures 4 * cycles - 3 <= BytesLoaded(env, args) <= 4 * cycles
  {
    TransferredByteCycles(BytesLoaded(env, args))
  }

  lemma BootIsCharged(env: Env, args: SpawnArgs)
    ensures var r := BootMachine(env, args.dataPieceId, args.offset, args.length, args.argv);
            r.Ok? ==> r.value.cycles == BootCharge(env, args)
  {
    hide TransferredByteCycles, Slice;
  }

  /** The cost of the instruction itself, and what the host charges for the call it makes. */
  function OwnCharge(env: Env, core: Core): nat {
    match env.decode(core)
    case Trap(_) => 0
    case Compute(cost, _) => cost
    case Ecall(cost, at) =>
      cost + if !Own(at.Reg(A7)) && env.host(at).HostDone? then env.host(at).charge else 0
  }

  lemma SpentIsCharged(env: Env, id: VmId, core: Core, now: nat)
    ensures var x := Execute(env, id, core, now); x.Broken? || x.spent == OwnCharge(env, core)
  {
    ExecuteMeaning(env, id, core, now);
    var instr := env.decode(core);
    if instr.Ecall? {
      if Own(instr.at.Reg(A7)) { OwnAnswersAreFree(env, id, instr.at, now + instr.cost); }
      else { HostAnswers(env, id, instr.at, now + instr.cost); }
    }
    hide Handle, Execute;
  }

  /** Everything that one step of the unsliced run is charged for: the instruction and what it does at once,
      and the loading of the program it spawns. */
  ghost function StepCharge(env: Env, s: Status): nat
    requires s.Running? ==> Steppable(s.f)
  {
    if !s.Running? || Select(s.f).None? then 0
    else
      var id := Select(s.f).value;
      match Execute(env, id, s.f.machines[id].core, s.f.totalCycles)
      case YieldedAt(_, _, message) =>
        OwnCharge(env, s.f.machines[id].core) + if message.Spawn? then BootCharge(env, message.spawnArgs) else 0
      case Broken(_) => 0
      case _ => OwnCharge(env, s.f.machines[id].core)
  }

  function Total(s: Status): nat {
    if s.Crashed? then 0 else s.f.totalCycles
  }

  lemma SettleTotal(f: Flat)
    requires Inv(f)
    ensures !Settle(f).Crashed? ==> Total(Settle(f)) == f.totalCycles + if Ended(f) then 0 else Pending(f)
  {
    hide Io;
    SettleEnded(f);
    if Live(f) {
      LiveRootRuns(f);
      LiveNotEnded(f);
      if Io(f).Ok? { NormalTotal(f); }
    }
  }

  lemma SettledHasNonePending(f: Flat)
    requires Settled(f)
    ensures Pending(f) == 0
  {
  }

  lemma DeliverPending(env: Env, f: Flat, message: Message)
    requires Live(f) && Settled(f) && message.vm in f.states && Deliver(env, f, message).Ok?
    ensures var next := Deliver(env, f, message).value;
            && next.totalCycles == f.totalCycles
            && Pending(next) == if message.Spawn? then BootCharge(env, message.spawnArgs) else 0
  {
    hide PipesOk, PendingOk, StateOk, BootMachine, BootCharge, Handover, Store64, Complete8;
    var next := Deliver(env, f, message).value;
    if message.Spawn? {
      BootIsCharged(env, message.spawnArgs);
      CompleteCycles(f.machines[message.vm], message.spawnArgs.instanceIdAddr, f.nextVmId);
      assert IsLargest(next.states.Keys, f.nextVmId);
    } else {
      hide Complete64;
      assert Settled(next) by { DeliverSettles(env, f, message); }
      SettledHasNonePending(next);
    }
  }

  lemma DeliverSettles(env: Env, f: Flat, message: Message)
    requires Live(f) && Settled(f) && message.vm in f.states && Deliver(env, f, message).Ok?
    requires !message.Spawn?
    ensures Settled(Deliver(env, f, message).value)
  {
    hide PipesOk, PendingOk, StateOk;
  }

  lemma EndSettles(f: Flat, id: VmId, code: int)
    requires Live(f) && Settled(f) && id in f.states && EndOther(f, id, code).Ok?
    ensures Settled(EndOther(f, id, code).value) && EndOther(f, id, code).value.totalCycles == f.totalCycles
  {
    hide PipesOk, PendingOk, StateOk;
  }

  lemma OutcomeTotal(env: Env, f: Flat, id: VmId, vm: Vm, stop: Stop)
    requires Live(f) && Settled(f) && Select(f) == Some(id) && !stop.Stopped?
    requires stop.Yield? ==> WellFormedMessage(id, stop.message)
    requires stop.Exit? ==> vm.exitCode == stop.code
    ensures id in f.machines && Shaped(Charge(f, id, vm)) && id < f.nextVmId
    ensures var r := Outcome(env, Charge(f, id, vm), id, stop);
            && !r.Panic? && (r.Ok? ==> Shaped(r.value))
            && (!SettleResult(r).Crashed? ==>
                  Total(SettleResult(r)) == f.totalCycles + vm.cycles +
                    if stop.Yield? && stop.message.Spawn? then BootCharge(env, stop.message.spawnArgs) else 0)
  {
    hide Deliver, EndOther, Settle, BootCharge, Pending, StateOk, PipesOk, PendingOk;
    SelectedIsLive(f, id);
    ChargeKeepsLive(f, id, vm);
    var charged := Charge(f, id, vm);
    OutcomeIsShaped(env, charged, id, stop);
    OutcomeKeepsInv(env, f, id, vm, stop);
    var r := Outcome(env, charged, id, stop);
    if r.Ok? {
      SettleTotal(r.value);
      match stop
      case Yield(message) =>
        DeliverPending(env, charged, message);
        DeliverRootLives(env, charged, message);
      case Exit(code) =>
        if id != ROOT {
          EndSettles(charged, id, code);
          SettledHasNonePending(r.value);
        }
    }
  }

  lemma DeliverRootLives(env: Env, f: Flat, message: Message)
    requires Live(f) && Settled(f) && message.vm in f.states && f.states[message.vm].Runnable?
    requires WellFormedMessage(message.vm, message) && Deliver(env, f, message).Ok?
    ensures !Ended(Deliver(env, f, message).value)
  {
    hide Deliver;
    DeliverKeepsLive(env, f, message);
    LiveNotEnded(Deliver(env, f, message).value);
  }

  /** Each step moves the clock on by exactly its charge, which is never zero. */
  lemma ClockAdvances(env: Env, s: Status)
    requires Good(s) && s.Running? && !MicroStep(env, s).Crashed?
    ensures Total(MicroStep(env, s)) == s.f.totalCycles + StepCharge(env, s)
    ensures StepCharge(env, s) > 0
  {
    hide Outcome, SettleResult, BootCharge, OwnCharge, StateOk, PipesOk, PendingOk, Execute;
    if Select(s.f).Some? {
      var id := Select(s.f).value;
      var vm := s.f.machines[id];
      SpendsSomething(env, id, vm.core, s.f.totalCycles);
      SpentIsCharged(env, id, vm.core, s.f.totalCycles);
      match Execute(env, id, vm.core, s.f.totalCycles)
      case Advanced(core, spent) =>
      case YieldedAt(core, spent, message) =>
        ExecuteYieldsOwn(env, id, vm.core, s.f.totalCycles);
        OutcomeTotal(env, s.f, id, vm.(core := core, cycles := spent), Yield(message));
      case ExitedAt(core, spent, code) =>
        OutcomeTotal(env, s.f, id, vm.(core := core, cycles := spent, exitCode := code), Exit(code));
      case Broken(_) =>
    }
  }

  lemma SpendsSomething(env: Env, id: VmId, core: Core, now: nat)
    ensures var x := Execute(env, id, core, now); x.Broken? || x.spent > 0
  {
  }

  // ---- Conservation over a whole run ----

  ghost function Charges(env: Env, s: Status, n: nat): nat
    requires Good(s)
    decreases n
  {
    if n == 0 then 0
    else
      MicroStepIsGood(env, s);
      StepCharge(env, s) + Charges(env, MicroStep(env, s), n - 1)
  }

  lemma {:induction false} CrashIsFinal(env: Env, s: Status, n: nat)
    requires Good(s) && s.Crashed?
    ensures Micros(env, s, n) == s
  {
    if n > 0 { CrashIsFinal(env, s, n - 1); }
  }

  lemma NotRunningIsFree(env: Env, s: Status)
    requires Good(s) && !s.Running?
    ensures MicroStep(env, s) == s && StepCharge(env, s) == 0
  {
  }

  lemma SteppableRun(s: Status)
    requires Good(s)
    ensures s.Running? ==> Steppable(s.f)
  {
  }

  lemma {:induction false} ChargesAddUp(env: Env, s: Status, n: nat)
    requires Good(s) && !Micros(env, s, n).Crashed?
    ensures Total(Micros(env, s, n)) == Total(s) + Charges(env, s, n)
    decreases n
  {
    hide MicroStep, Live, Settled, Ended, StepCharge;
    SteppableRun(s);
    if n > 0 {
      MicroStepIsGood(env, s);
      var next := MicroStep(env, s);
      if next.Crashed? { CrashIsFinal(env, next, n - 1); }
      if s.Running? { ClockAdvances(env, s); } else { NotRunningIsFree(env, s); }
      ChargesAddUp(env, next, n - 1);
    }
  }

  /** However a run is sliced, the total it ends with is what it started with plus the charges of the
      instructions executed and of the programs loaded. */
  lemma CyclesAreConserved(env: Env, f: Flat, slices: seq<TimeSlice>) returns (n: nat)
    requires Live(f) && Drive(env, f, slices).Completed?
    ensures Good(Settle(f))
    ensures Micros(env, Settle(f), n) == Finished(Drive(env, f, slices).f)
    ensures Drive(env, f, slices).f.totalCycles == f.totalCycles + Pending(f) + Charges(env, Settle(f), n)
  {
    hide Drive, Settle, Live, Ended, Charges, Pending;
    SettleEnded(f);
    n := DriveFollows(env, f, slices);
    ChargesAddUp(env, Settle(f), n);
    SettleTotal(f);
    LiveNotEnded(f);
    NotCrashedAtStart(env, Settle(f), n);
  }

  lemma NotCrashedAtStart(env: Env, s: Status, n: nat)
    requires Good(s) && !Micros(env, s, n).Crashed?
    ensures !s.Crashed?
  {
    if s.Crashed? { CrashIsFinal(env, s, n); }
  }

  // ---- What programs can observe ----

  /** In state `s` the VM up next asks for the current cycles and is answered `v`. */
  ghost predicate Observes(env: Env, s: Status, v: u64)
    requires Good(s)
  {
    && s.Running? && Select(s.f).Some?
    && var id := Select(s.f).value;
    && var instr := env.decode(s.f.machines[id].core);
    && instr.Ecall? && instr.at.Reg(A7) == 2042
    && var x := Execute(env, id, s.f.machines[id].core, s.f.totalCycles);
    && x.Advanced? && x.core.Reg(A0) == v
  }

  lemma ObservationIsNow(env: Env, s: Status, v: u64)
    requires Good(s) && Observes(env, s, v)
    ensures s.Running? && s.f.totalCycles < v == Total(MicroStep(env, s)) && !MicroStep(env, s).Crashed?
  {
    hide StateOk, PipesOk, PendingOk;
  }

  lemma TotalGrows(env: Env, s: Status, n: nat)
    requires Good(s) && !Micros(env, s, n).Crashed?
    ensures Total(s) <= Total(Micros(env, s, n))
  {
    ChargesAddUp(env, s, n);
  }

  /** Whichever VMs ask, and however the run is sliced, a later answer is a larger one. */
  lemma ObservedCyclesIncrease(env: Env, s: Status, m: nat, n: nat, u: u64, v: u64)
    requires Good(s) && m < n
    requires Observes(env, Micros(env, s, m), u) && Observes(env, Micros(env, s, n), v)
    ensures u < v
  {
    hide Observes, MicroStep, Live, Settled, Ended;
    var a := Micros(env, s, m);
    SteppableRun(a);
    ObservationIsNow(env, a, u);
    ObservationIsNow(env, Micros(env, s, n), v);
    MicrosAdd(env, s, m, 1);
    OneStep(env, a);
    MicrosAdd(env, s, m + 1, n - m - 1);
    MicroStepIsGood(env, a);
    TotalGrows(env, MicroStep(env, a), n - m - 1);
  }
}
