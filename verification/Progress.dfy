/** Slices get somewhere: which runs come to an end, how many slices that takes, and when `verify_tx` never stops. */
module Progress {
  import opened Words
  import opened Types
  import opened Machine
  import opened Flat
  import opened Invariants
  import opened Cycles
  import opened Deadlocks
  import opened Slicing
  import opened Turns
  import opened VerifyTx

  // ---- One slice ----

  /** The VM up next has nothing pending, and its next instruction alone costs more than the limit. */
  ghost predicate Stalled(env: Env, f: Flat, limit: nat)
    requires Shaped(f)
  {
    && Io(f).Ok? && Shaped(Io(f).value) && Select(Io(f).value).Some?
    && var vm := Io(f).value.machines[Select(Io(f).value).value];
    && vm.cycles == 0 && Exceeds(env, vm, limit)
  }

  /** No instruction costs more than the limit. */
  ghost predicate Roomy(env: Env, limit: nat) {
    forall core :: env.decode(core).Trap? || env.decode(core).cost <= limit
  }

  lemma RoomyNeverStalls(env: Env, f: Flat, limit: nat)
    requires Roomy(env, limit) && Shaped(f)
    ensures !Stalled(env, f, limit)
  {
    hide Io;
  }

  /** A run that is not paused at once spends something, or fails, or is stopped at its first instruction. */
  lemma RunSpends(env: Env, id: VmId, vm: Vm, base: nat, limit: nat, signal: Signal)
    requires signal != After(0)
    ensures var r := Run(env, id, vm, base, limit, signal);
            || r.vm.cycles > 0
            || (r.stop.Stopped? && !r.stop.error.CyclesExceeded? && !r.stop.error.Pause?)
            || (vm.cycles == 0 && Exceeds(env, vm, limit) && r == RunResult(vm, Stopped(CyclesExceeded)))
  {
    hide Execute;
    ExecuteSpends(env, id, vm.core, base + vm.cycles);
    ExecuteErrors(env, id, vm.core, base + vm.cycles);
    SpendsSomething(env, id, vm.core, base + vm.cycles);
    if !Exceeds(env, vm, limit) {
      match Execute(env, id, vm.core, base + vm.cycles)
      case Advanced(core, spent) =>
        RunGrows(env, id, vm.(core := core, cycles := vm.cycles + spent), base, limit, Tick(signal));
      case _ =>
    }
  }

  lemma ConcludeTotal(env: Env, g: Flat, id: VmId, r: RunResult)
    requires Shaped(g) && id in g.machines && id < g.nextVmId && (r.stop.Yield? ==> r.stop.message.vm == id)
    ensures var t := Conclude(env, g, id, r);
            !t.Fatal? ==>
              && t.next.totalCycles == g.totalCycles + r.vm.cycles
              && (t.Turn? ==> t.consumed == r.vm.cycles)
              && (r.stop.Stopped? ==> r.stop.error.CyclesExceeded? || r.stop.error.Pause?)
  {
    hide Deliver, Woken;
    if r.stop.Yield? { DeliverKeepsTotal(env, Charge(g, id, r.vm), r.stop.message); }
  }

  /** A turn that does not fail moves the total on, unless it is paused at once or the instruction up next is too
      expensive for the slice. */
  lemma TurnSpends(env: Env, f: Flat, slice: TimeSlice)
    requires Live(f) && slice.signal != After(0) && !Iterate(env, f, slice.signal, slice.limit).Fatal?
    ensures Shaped(f)
    ensures Iterate(env, f, slice.signal, slice.limit).next.totalCycles > f.totalCycles || Stalled(env, f, slice.limit)
  {
    LiveShape(f);
    var g, id, r := TurnParts(env, f, slice);
    IoTotal(f);
    LiveShape(g);
    hide Iterate, Conclude, Run, Live, Io, Select, Exceeds;
    RunSpends(env, id, g.machines[id], g.totalCycles, slice.limit, slice.signal);
    ConcludeTotal(env, g, id, r);
  }

  /** A turn of progress reports the cycles by which the total has grown. */
  lemma TurnConsumes(env: Env, f: Flat, slice: TimeSlice)
    requires Live(f) && Steppable(f) && Iterate(env, f, slice.signal, slice.limit).Turn?
    ensures var t := Iterate(env, f, slice.signal, slice.limit); t.next.totalCycles == f.totalCycles + t.consumed
  {
    var g, id, r := TurnParts(env, f, slice);
    IoTotal(f);
    LiveShape(g);
    hide Iterate, Conclude, Run, Live, Io, Select;
    ConcludeTotal(env, g, id, r);
  }

  lemma IoTotal(f: Flat)
    requires Shaped(f)
    ensures Io(f).Ok? ==> Io(f).value.totalCycles == f.totalCycles
  {
    hide IoFaults, IoVm, IoState;
  }

  // ---- Whole runs ----

  /** None of the slices is paused at once, and each has room for any single instruction. */
  ghost predicate AllRoomy(env: Env, slices: seq<TimeSlice>) {
    forall slice | slice in slices :: slice.signal != After(0) && Roomy(env, slice.limit)
  }

  /** As long as a run does not end, each slice with room adds to the total. */
  lemma {:induction false} DriveSpends(env: Env, f: Flat, slices: seq<TimeSlice>)
    requires Inv(f) && AllRoomy(env, slices) && Drive(env, f, slices).Unfinished?
    ensures Drive(env, f, slices).f.totalCycles >= f.totalCycles + |slices|
    decreases |slices|
  {
    hide Live, Iterate, Ended, Roomy, Stalled;
    if slices != [] {
      EitherInv(f);
      SettleEnded(f);
      assert slices[0] in slices;
      RoomyNeverStalls(env, f, slices[0].limit);
      TurnSpends(env, f, slices[0]);
      IterateKeepsInv(env, f, slices[0].signal, slices[0].limit);
      DriveSpends(env, Iterate(env, f, slices[0].signal, slices[0].limit).next, slices[1..]);
    }
  }

  lemma TurnTotal(env: Env, f: Flat, slice: TimeSlice)
    requires Live(f) && !Iterate(env, f, slice.signal, slice.limit).Fatal?
    ensures Iterate(env, f, slice.signal, slice.limit).next.totalCycles < TWO64
  {
    hide Iterate, Run, Live, Io, Select, Deliver, Woken;
    var g, id, r := TurnParts(env, f, slice);
    LiveShape(g);
    ConcludeTotal(env, g, id, r);
  }

  lemma {:induction false} DriveTotal(env: Env, f: Flat, slices: seq<TimeSlice>)
    requires Inv(f) && slices != [] && Drive(env, f, slices).Unfinished?
    ensures Drive(env, f, slices).f.totalCycles < TWO64
    decreases |slices|
  {
    hide Live, Iterate, Ended;
    EitherInv(f);
    SettleEnded(f);
    TurnTotal(env, f, slices[0]);
    IterateKeepsInv(env, f, slices[0].signal, slices[0].limit);
    if slices[1..] != [] {
      DriveTotal(env, Iterate(env, f, slices[0].signal, slices[0].limit).next, slices[1..]);
    }
  }

  /** In slices with room every run comes to an end, if only by exhausting the 64-bit total. */
  lemma EveryRunEnds(env: Env, f: Flat, slices: seq<TimeSlice>)
    requires Inv(f) && AllRoomy(env, slices) && slices != [] && f.totalCycles + |slices| >= TWO64
    ensures !Drive(env, f, slices).Unfinished?
  {
    hide Live, Drive, Ended, AllRoomy;
    if Drive(env, f, slices).Unfinished? {
      DriveSpends(env, f, slices);
      DriveTotal(env, f, slices);
    }
  }

  /** If the unsliced run ends well with a total of T, then more slices with room than there are cycles left to T
      complete it, with the same result. */
  lemma EnoughSlicesComplete(env: Env, f: Flat, slices: seq<TimeSlice>, n: nat, e: Flat)
    requires Inv(f) && AllRoomy(env, slices)
    requires Good(Settle(f)) && Micros(env, Settle(f), n) == Finished(e)
    requires f.totalCycles + |slices| > e.totalCycles
    ensures Drive(env, f, slices) == Completed(e)
  {
    hide Live, Drive, Ended, AllRoomy, Settle, MicroStep, Pending;
    SettleEnded(f);
    var m := DriveFollows(env, f, slices);
    var d := Drive(env, f, slices);
    if d.Unfinished? {
      DriveSpends(env, f, slices);
      LiveGoesOn(d.f);
      SettleTotal(d.f);
      LaterTotal(env, Settle(f), m, n);
    } else {
      EndIsUnique(env, Settle(f), m, n);
    }
  }

  // ---- The loop of `verify_tx` ----

  /** A stalled scheduler stays as it is. */
  lemma StalledTurn(env: Env, f: Flat, limit: nat)
    requires Live(f) && Shaped(f) && Stalled(env, f, limit) && f.totalCycles < TWO64
    ensures Steppable(f)
    ensures var next := Io(f).value;
            && Iterate(env, f, Never, limit) == Cut(next, CyclesExceeded)
            && Live(next) && Shaped(next) && Stalled(env, next, limit) && next.totalCycles == f.totalCycles
  {
    hide Live, Io, Select, Iterate;
    var g := Io(f).value;
    var id := Select(g).value;
    LiveShape(f);
    IoKeepsLive(f);
    IoIdempotent(f);
    IoTotal(f);
    TurnFrom(env, f, Never, limit, g, id);
    var vm := g.machines[id];
    assert vm.(cycles := 0) == vm;
    assert Charge(g, id, vm) == g;
  }

  lemma StalledRun(env: Env, f: Flat, limit: u64)
    requires Live(f) && Shaped(f) && Stalled(env, f, limit) && f.totalCycles < TWO64
    ensures Io(f).Ok?
    ensures RunDrive(env, f, LimitCycles(limit)) == Unfinished(Io(f).value)
    ensures var next := Io(f).value;
            Live(next) && Shaped(next) && Stalled(env, next, limit) && next.totalCycles == f.totalCycles
  {
    StalledTurn(env, f, limit);
    RunMakesOneTurn(env, f, LimitCycles(limit));
    hide *;
    LimitSlice(limit);
  }

  lemma LimitSlice(limit: u64)
    ensures FirstSlice(LimitCycles(limit)) == TimeSlice(Never, limit)
  {
  }

  /** A call of `run` that can be gone on from moves the total on, unless the scheduler is stalled. */
  lemma RoundSpends(env: Env, f: Flat, limit: u64)
    requires Live(f) && RunDrive(env, f, LimitCycles(limit)).Unfinished?
    ensures Shaped(f)
    ensures RunDrive(env, f, LimitCycles(limit)).f.totalCycles > f.totalCycles || Stalled(env, f, limit)
  {
    hide Live, Ended, Iterate, RunDrive, Stalled, FirstSlice, LaterSlice;
    var mode := LimitCycles(limit);
    LiveShape(f);
    RunMakesOneTurn(env, f, mode);
    LimitSlice(limit);
    TurnSpends(env, f, FirstSlice(mode));
    var t := Iterate(env, f, FirstSlice(mode).signal, FirstSlice(mode).limit);
    if t.Turn? {
      EitherInv(t.next);
      TurnGrowsTotal(env, t.next, TimeSlice(LaterSlice(mode).signal, 0));
    }
  }

  /** So does one that is paused, if the signal is not noticed at once. */
  lemma PausedRunSpends(env: Env, f: Flat, first: nat, second: nat)
    requires Live(f) && first > 0 && Roomy(env, 0xFFFF_FFFF_FFFF_FFFF)
    requires RunDrive(env, f, PauseSignal(first, second)).Unfinished?
    ensures RunDrive(env, f, PauseSignal(first, second)).f.totalCycles > f.totalCycles
  {
    hide Live, Ended, Iterate, RunDrive, Stalled, Roomy, FirstSlice, LaterSlice;
    var mode := PauseSignal(first, second);
    LiveShape(f);
    RunMakesOneTurn(env, f, mode);
    RoomyNeverStalls(env, f, 0xFFFF_FFFF_FFFF_FFFF);
    PausedSlice(first, second);
    TurnSpends(env, f, FirstSlice(mode));
    var t := Iterate(env, f, FirstSlice(mode).signal, FirstSlice(mode).limit);
    if t.Turn? {
      EitherInv(t.next);
      TurnGrowsTotal(env, t.next, TimeSlice(LaterSlice(mode).signal, 0));
    }
  }

  lemma PausedSlice(first: nat, second: nat)
    ensures FirstSlice(PauseSignal(first, second)) == TimeSlice(After(first), 0xFFFF_FFFF_FFFF_FFFF)
  {
  }

  /** On its way from `f` the loop comes to a state that is stalled under its slice length. */
  ghost predicate Stalls(env: Env, f: Flat, maxCycles: u64, perIterate: u64, rounds: nat)
    requires f == EMPTY || Live(f)
    decreases rounds
  {
    && rounds > 0 && f.totalCycles <= maxCycles && (f != EMPTY || BootRoot(env, EMPTY).Ok?)
    && (StartsLive(env, f);
        var d := RunDrive(env, Start(env, f), LimitCycles(perIterate));
        || Stalled(env, Start(env, f), perIterate)
        || (d.Unfinished? &&
            (DriveIsLive(env, Start(env, f), LimitCycles(perIterate));
             Stalls(env, d.f, maxCycles, perIterate, rounds - 1))))
  }

  lemma StartTotal(env: Env, f: Flat)
    requires f == EMPTY || Live(f)
    requires f == EMPTY ==> BootRoot(env, EMPTY).Ok?
    ensures Start(env, f).totalCycles == f.totalCycles
  {
    BootTotal(env);
  }

  lemma {:induction false} StalledForever(env: Env, f: Flat, maxCycles: u64, perIterate: u64, rounds: nat)
    requires Live(f) && Shaped(f) && Stalled(env, f, perIterate) && f.totalCycles <= maxCycles
    ensures Group(env, f, maxCycles, perIterate, rounds) == StillRunning
    decreases rounds
  {
    hide Live, RunDrive, Stalled, Io, BootRoot;
    if rounds > 0 {
      LiveIsNotEmpty(f);
      StalledRun(env, f, perIterate);
      StalledForever(env, Io(f).value, maxCycles, perIterate, rounds - 1);
    }
  }

  /** Once the loop has come to such a state it goes on forever. */
  lemma {:induction false} StallsForever(env: Env, f: Flat, maxCycles: u64, perIterate: u64, rounds: nat, more: nat)
    requires (f == EMPTY || Live(f)) && Stalls(env, f, maxCycles, perIterate, rounds)
    ensures Group(env, f, maxCycles, perIterate, more) == StillRunning
    decreases rounds
  {
    hide Live, RunDrive, Stalled, BootRoot, Start, Group;
    if more == 0 {
      GroupEnd(env, f, maxCycles, perIterate);
    } else {
      GroupStep(env, f, maxCycles, perIterate, more);
      StartsLive(env, f);
      StartTotal(env, f);
      var start := Start(env, f);
      if Stalled(env, start, perIterate) {
        StalledForever(env, start, maxCycles, perIterate, more);
        GroupFromStart(env, f, maxCycles, perIterate, more);
      } else {
        DriveIsLive(env, start, LimitCycles(perIterate));
        var next := RunDrive(env, start, LimitCycles(perIterate)).f;
        StallsForever(env, next, maxCycles, perIterate, rounds - 1, more - 1);
      }
    }
  }

  lemma GroupFromStart(env: Env, f: Flat, maxCycles: u64, perIterate: u64, rounds: nat)
    requires f == EMPTY || Live(f)
    requires f == EMPTY ==> BootRoot(env, EMPTY).Ok?
    ensures Live(Start(env, f))
    ensures Group(env, f, maxCycles, perIterate, rounds) == Group(env, Start(env, f), maxCycles, perIterate, rounds)
  {
    hide Live, RunDrive, BootRoot, Ended;
    StartsLive(env, f);
    StartTotal(env, f);
    LiveIsNotEmpty(Start(env, f));
    StartIsBooted(env, f);
    StartIsBooted(env, Start(env, f));
    if rounds > 0 {
      GroupStep(env, f, maxCycles, perIterate, rounds);
      GroupStep(env, Start(env, f), maxCycles, perIterate, rounds);
    }
  }

  /** In a number of rounds that is two more than the maximum of cycles the loop either comes to a verdict or to a state
      from which it never will. */
  lemma {:induction false} StillRunningIffStalls(env: Env, f: Flat, maxCycles: u64, perIterate: u64, rounds: nat)
    requires (f == EMPTY || Live(f)) && rounds > 0 && f.totalCycles + rounds >= maxCycles + 2
    ensures Group(env, f, maxCycles, perIterate, rounds) == StillRunning <==>
            Stalls(env, f, maxCycles, perIterate, rounds)
    decreases rounds
  {
    hide Live, RunDrive, Stalled, BootRoot, Start, Group;
    BootIsInv(env);
    if Stalls(env, f, maxCycles, perIterate, rounds) {
      StallsForever(env, f, maxCycles, perIterate, rounds, rounds);
    } else {
      GroupStep(env, f, maxCycles, perIterate, rounds);
      if f.totalCycles <= maxCycles && (f != EMPTY || BootRoot(env, EMPTY).Ok?) {
        StartsLive(env, f);
        StartTotal(env, f);
        var start := Start(env, f);
        var d := RunDrive(env, start, LimitCycles(perIterate));
        if d.Unfinished? {
          DriveIsLive(env, start, LimitCycles(perIterate));
          RoundSpends(env, start, perIterate);
          StillRunningIffStalls(env, d.f, maxCycles, perIterate, rounds - 1);
        }
      }
    }
  }

  lemma {:induction false} RoomyNeverStallsLoop(env: Env, f: Flat, maxCycles: u64, perIterate: u64, rounds: nat)
    requires (f == EMPTY || Live(f)) && Roomy(env, perIterate)
    ensures !Stalls(env, f, maxCycles, perIterate, rounds)
    decreases rounds
  {
    hide Live, RunDrive, Stalled, BootRoot, Start, Roomy;
    if rounds > 0 && f.totalCycles <= maxCycles && (f != EMPTY || BootRoot(env, EMPTY).Ok?) {
      StartsLive(env, f);
      var start := Start(env, f);
      LiveShape(start);
      RoomyNeverStalls(env, start, perIterate);
      if RunDrive(env, start, LimitCycles(perIterate)).Unfinished? {
        DriveIsLive(env, start, LimitCycles(perIterate));
        RoomyNeverStallsLoop(env, RunDrive(env, start, LimitCycles(perIterate)).f, maxCycles, perIterate, rounds - 1);
      }
    }
  }

  lemma RoomyEnds(env: Env, maxCycles: u64, perIterate: u64, rounds: nat)
    requires Roomy(env, perIterate) && rounds >= maxCycles + 2
    ensures Group(env, EMPTY, maxCycles, perIterate, rounds) != StillRunning
  {
    hide Group, Stalls, Roomy;
    RoomyNeverStallsLoop(env, EMPTY, maxCycles, perIterate, rounds);
    StillRunningIffStalls(env, EMPTY, maxCycles, perIterate, rounds);
  }

  /** A verdict stays the same in more rounds. */
  lemma {:induction false} VerdictIsFinal(env: Env, f: Flat, maxCycles: u64, perIterate: u64, rounds: nat, more: nat)
    requires (f == EMPTY || Live(f)) && rounds <= more
    requires Group(env, f, maxCycles, perIterate, rounds) != StillRunning
    ensures Group(env, f, maxCycles, perIterate, more) == Group(env, f, maxCycles, perIterate, rounds)
    decreases rounds
  {
    hide Live, RunDrive, BootRoot, Start, Group;
    BootIsInv(env);
    if rounds == 0 {
      GroupEnd(env, f, maxCycles, perIterate);
    } else {
      GroupStep(env, f, maxCycles, perIterate, rounds);
      GroupStep(env, f, maxCycles, perIterate, more);
      if f.totalCycles <= maxCycles && (f != EMPTY || BootRoot(env, EMPTY).Ok?) {
        var d := RunDrive(env, Start(env, f), LimitCycles(perIterate));
        if d.Unfinished? {
          DriveIsLive(env, Start(env, f), LimitCycles(perIterate));
          VerdictIsFinal(env, d.f, maxCycles, perIterate, rounds - 1, more - 1);
        }
      }
    }
  }

  /** So nothing more comes of more rounds than the maximum of cycles plus two. */
  lemma RoundsSuffice(env: Env, maxCycles: u64, perIterate: u64, more: nat)
    requires more >= maxCycles + 2
    ensures Group(env, EMPTY, maxCycles, perIterate, more) == Group(env, EMPTY, maxCycles, perIterate, maxCycles + 2)
  {
    hide Group, Stalls;
    if Group(env, EMPTY, maxCycles, perIterate, maxCycles + 2) == StillRunning {
      StillRunningIffStalls(env, EMPTY, maxCycles, perIterate, maxCycles + 2);
      StallsForever(env, EMPTY, maxCycles, perIterate, maxCycles + 2, more);
    } else {
      VerdictIsFinal(env, EMPTY, maxCycles, perIterate, maxCycles + 2, more);
    }
  }

  /** `verify_tx` without a bound on its rounds: with a slice length that has room for every instruction it always comes
      to a verdict, in no more rounds than its maximum of cycles plus two. */
  method VerifyToTheEnd(env: Env, maxCycles: u64, perIterate: u64, perSuspend: u64) returns (r: Verdict)
    ensures r.StillRunning? <==>
            && !GroupPanics(env, EMPTY, {}, 0, maxCycles, perIterate, perSuspend, maxCycles + 2)
            && Stalls(env, EMPTY, maxCycles, perIterate, maxCycles + 2)
    ensures Roomy(env, perIterate) ==> !r.StillRunning?
  {
    hide *;
    StillRunningIffStalls(env, EMPTY, maxCycles, perIterate, maxCycles + 2);
    if Roomy(env, perIterate) { RoomyEnds(env, maxCycles, perIterate, maxCycles + 2); }
    r := VerifyGroup(env, maxCycles, perIterate, perSuspend, maxCycles + 2);
  }
}
