/** The loop that drives one script group (`verify_tx` in src/dev_utils/mod.rs): run a slice, and now and then suspend
    the whole scheduler and carry on with the resumed one. */
module VerifyTx {
  import opened Words
  import opened Types
  import opened Machine
  import opened Flat
  import opened Invariants
  import opened Slicing
  import opened Turns
  import opened Cycles
  import opened SchedulerFacts
  import opened Caches
  import opened Schedulers

  /** `StillRunning` when the given number of rounds is used up: the loop itself has no bound. */
  datatype Verdict =
    | Exited(code: int, cycles: nat)
    | OutOfCycles(consumed: nat)
    | FailedWith(error: Error)
    | Panicked
    | StillRunning

  // ---- Which errors can end a run ----

  /** A fatal turn never reports the errors that mean "go on later". */
  lemma FatalErrors(env: Env, f: Flat, signal: Signal, limit: nat)
    requires Live(f) && Iterate(env, f, signal, limit).Fatal?
    ensures !Iterate(env, f, signal, limit).error.CyclesExceeded? && !Iterate(env, f, signal, limit).error.Pause?
  {
    hide Run, Deliver, EndOther, IoVm, IoState;
    if Io(f).Ok? && Select(Io(f).value).Some? {
      var g := Io(f).value;
      IoKeepsLive(f);
      var id := Select(g).value;
      SelectedIsLive(g, id);
      RunYieldsWellFormed(env, id, g.machines[id], g.totalCycles, limit, signal);
      ConcludeErrors(env, g, id, Run(env, id, g.machines[id], g.totalCycles, limit, signal));
    }
  }

  lemma ConcludeErrors(env: Env, g: Flat, id: VmId, r: RunResult)
    requires Shaped(g) && id in g.machines && id < g.nextVmId
    requires r.stop.Yield? ==> r.stop.message.vm == id
    requires Conclude(env, g, id, r).Fatal?
    ensures !Conclude(env, g, id, r).error.CyclesExceeded? && !Conclude(env, g, id, r).error.Pause?
  {
    hide Conclude, Deliver, EndOther;
    ConcludeCases(env, g, id, r);
    var charged := Charge(g, id, r.vm);
    EndErrors(charged, id, if r.stop.Exit? then r.stop.code else 0);
    if r.stop.Yield? && Deliver(env, charged, r.stop.message).Err? {
      DeliverErrors(env, charged, r.stop.message);
    }
  }

  lemma {:induction false} AbortErrors(env: Env, f: Flat, slices: seq<TimeSlice>)
    requires Inv(f) && Drive(env, f, slices).Aborted?
    ensures !Drive(env, f, slices).error.CyclesExceeded? && !Drive(env, f, slices).error.Pause?
    decreases |slices|
  {
    hide Live, Iterate, Ended;
    SettleEnded(f);
    IterateKeepsInv(env, f, slices[0].signal, slices[0].limit);
    var t := Iterate(env, f, slices[0].signal, slices[0].limit);
    if t.Fatal? { FatalErrors(env, f, slices[0].signal, slices[0].limit); }
    else { AbortErrors(env, t.next, slices[1..]); }
  }

  // ---- The total only grows ----

  lemma DeliverKeepsTotal(env: Env, f: Flat, message: Message)
    requires message.vm in f.machines && message.vm < f.nextVmId
    ensures Deliver(env, f, message).Ok? ==> Deliver(env, f, message).value.totalCycles == f.totalCycles
  {
    hide Complete64, Complete8, Store64, Handover, BootMachine;
  }

  /** The total moves by what the selected VM has spent, and a turn that takes it beyond 64 bits fails. Nothing else
      does, except that a program asks for its cycles when they are beyond 64 bits. */
  lemma TurnOverflows(env: Env, f: Flat, slice: TimeSlice, g: Flat, id: VmId)
    requires Live(f) && Io(f) == Ok(g) && Select(g) == Some(id)
    ensures id in g.machines && Steppable(f)
    ensures var r := Run(env, id, g.machines[id], g.totalCycles, slice.limit, slice.signal);
            var t := Iterate(env, f, slice.signal, slice.limit);
            var fits := f.totalCycles + r.vm.cycles <= 0xFFFF_FFFF_FFFF_FFFF;
            && (!t.Fatal? ==> fits && t.next.totalCycles == f.totalCycles + r.vm.cycles)
            && (t == Fatal(CyclesOverflow) <==>
                r.stop != Stopped(CapacityOverflow) && (!fits || r.stop == Stopped(CyclesOverflow)))
  {
    hide Run, Conclude, Deliver, EndOther, IoVm, IoState;
    TurnFrom(env, f, slice.signal, slice.limit, g, id);
    var r := Run(env, id, g.machines[id], g.totalCycles, slice.limit, slice.signal);
    ConcludeCases(env, g, id, r);
    hide Live, Io, Iterate, Select;
    var charged := Charge(g, id, r.vm);
    if r.stop.Exit? { EndErrors(charged, id, r.stop.code); }
    if r.stop.Yield? {
      DeliverKeepsTotal(env, charged, r.stop.message);
      if Deliver(env, charged, r.stop.message).Err? { DeliverErrors(env, charged, r.stop.message); }
    }
    EndKeepsTotal(charged, id, if r.stop.Exit? then r.stop.code else 0);
  }

  lemma EndKeepsTotal(f: Flat, id: VmId, code: int)
    requires Shaped(f) && (id == ROOT ==> ROOT in f.machines)
    ensures End(f, id, code).Ok? ==> End(f, id, code).value.totalCycles == f.totalCycles
  {
    hide Woken;
  }

  lemma TurnGrowsTotal(env: Env, f: Flat, slice: TimeSlice)
    requires Live(f)
    ensures var t := Iterate(env, f, slice.signal, slice.limit); !t.Fatal? ==> t.next.totalCycles >= f.totalCycles
  {
    hide Run, Deliver, Woken, IoVm, IoState;
    if !Iterate(env, f, slice.signal, slice.limit).Fatal? {
      var g, id, r := TurnParts(env, f, slice);
      if r.stop.Yield? { DeliverKeepsTotal(env, Charge(g, id, r.vm), r.stop.message); }
    }
  }

  lemma {:induction false} DriveGrowsTotal(env: Env, f: Flat, slices: seq<TimeSlice>)
    requires Inv(f) && Drive(env, f, slices).Unfinished?
    ensures Drive(env, f, slices).f.totalCycles >= f.totalCycles
    decreases |slices|
  {
    hide Live, Iterate, Ended;
    if slices != [] {
      SettleEnded(f);
      IterateKeepsInv(env, f, slices[0].signal, slices[0].limit);
      TurnGrowsTotal(env, f, slices[0]);
      DriveGrowsTotal(env, Iterate(env, f, slices[0].signal, slices[0].limit).next, slices[1..]);
    }
  }

  // ---- The loop ----

  /** `f` is where the slices lead from the booted root; before the first one, nothing is booted. */
  ghost predicate Reaches(env: Env, slices: seq<TimeSlice>, f: Flat) {
    if f == EMPTY then slices == []
    else
      && BootRoot(env, EMPTY).Ok? && Inv(BootRoot(env, EMPTY).value)
      && Drive(env, BootRoot(env, EMPTY).value, slices) == Unfinished(f)
  }

  /** The root exits with `code`, after `cycles` cycles, under these slices. */
  ghost predicate Exits(env: Env, slices: seq<TimeSlice>, code: int, cycles: nat) {
    && BootRoot(env, EMPTY).Ok? && Inv(BootRoot(env, EMPTY).value)
    && var d := Drive(env, BootRoot(env, EMPTY).value, slices);
    && d.Completed? && ROOT in d.f.terminated && d.f.terminated[ROOT] == code && d.f.totalCycles == cycles
  }

  /** The root terminates with error `e` under these slices, or cannot even be booted. */
  ghost predicate Fails(env: Env, slices: seq<TimeSlice>, e: Error) {
    if BootRoot(env, EMPTY).Ok? then
      Inv(BootRoot(env, EMPTY).value) && Drive(env, BootRoot(env, EMPTY).value, slices) == Aborted(e)
    else BootRoot(env, EMPTY) == Err(e)
  }

  lemma BootIsInv(env: Env)
    ensures var r := BootRoot(env, EMPTY);
            !r.Panic? && (r.Ok? ==> Live(r.value) && Inv(r.value)) &&
            (r.Err? ==> !r.error.CyclesExceeded? && !r.error.CapacityOverflow?)
  {
    BootErrors(env, Program, 0, TWO64 - 1, []);
    BootedRootIsLive(env);
  }

  /** The state that a call of `run` takes its turns from. */
  ghost function Start(env: Env, f: Flat): Flat {
    if f == EMPTY && BootRoot(env, EMPTY).Ok? then BootRoot(env, EMPTY).value else f
  }

  /** What the loop comes to on the reference scheduler, from state `f`. Suspensions do not occur in it. */
  ghost function Group(env: Env, f: Flat, maxCycles: u64, perIterate: u64, rounds: nat): Verdict
    requires f == EMPTY || Live(f)
    decreases rounds
  {
    if rounds == 0 then StillRunning
    else if f.totalCycles > maxCycles then OutOfCycles(f.totalCycles)
    else if f == EMPTY && !BootRoot(env, EMPTY).Ok? then
      BootIsInv(env);
      FailedWith(BootRoot(env, EMPTY).error)
    else
      BootIsInv(env);
      var d := RunDrive(env, Start(env, f), LimitCycles(perIterate));
      if d.Aborted? then FailedWith(d.error)
      else if d.Unfinished? then Group(env, d.f, maxCycles, perIterate, rounds - 1)
      else if d.f.terminated[ROOT] == 0 && d.f.totalCycles > maxCycles then OutOfCycles(d.f.totalCycles)
      else Exited(d.f.terminated[ROOT], d.f.totalCycles)
  }

  /** The cache that a call of `run` starts its turns with: a fresh scheduler has just booted the root. */
  function StartKeys(f: Flat, keys: set<VmId>): set<VmId> {
    if f == EMPTY then {ROOT} else keys
  }

  /** Enough cycles have been spent since `last` to suspend. */
  predicate Due(f: Flat, last: nat, perSuspend: u64) {
    f.totalCycles - last >= perSuspend
  }

  /** The loop panics on its way from state `f`, with `keys` in the cache and the last suspension at `last` cycles. */
  ghost predicate GroupPanics(env: Env, f: Flat, keys: set<VmId>, last: nat, maxCycles: u64, perIterate: u64,
                              perSuspend: u64, rounds: nat)
    requires f == EMPTY || Live(f)
    decreases rounds
  {
    && rounds > 0 && f.totalCycles <= maxCycles && (f != EMPTY || BootRoot(env, EMPTY).Ok?)
    && (StartsLive(env, f);
        var mode := LimitCycles(perIterate);
        var cached := StartKeys(f, if Due(f, last, perSuspend) then {} else keys);
        var d := RunDrive(env, Start(env, f), mode);
        || RunPanics(env, Start(env, f), cached, mode)
        || (d.Unfinished? &&
            (DriveIsLive(env, Start(env, f), mode);
             GroupPanics(env, d.f, RunCache(env, Start(env, f), cached, mode),
                         if Due(f, last, perSuspend) then f.totalCycles else last,
                         maxCycles, perIterate, perSuspend, rounds - 1))))
  }

  /** The loop comes to what it comes to on the reference scheduler, whenever it suspends, unless it panics: which it
      does exactly when a turn meets a closed pipe of a VM that the cache does not hold at that moment, or comes to an
      oversized spawn call. */
  method VerifyGroup(env: Env, maxCycles: u64, perIterate: u64, perSuspend: u64, rounds: nat)
    returns (r: Verdict)
    ensures r == if GroupPanics(env, EMPTY, {}, 0, maxCycles, perIterate, perSuspend, rounds) then Panicked
                 else Group(env, EMPTY, maxCycles, perIterate, rounds)
  {
    hide *;
    var scheduler := new Scheduler(env);
    var lastSuspended: nat := 0;
    ghost var slices: seq<TimeSlice> := [];
    ReachesNothing(env);
    BootedStart(scheduler);
    EmptyKeys(scheduler);
    for round := 0 to rounds
      invariant fresh(scheduler) && scheduler.Valid() && scheduler.env == env
      invariant lastSuspended <= scheduler.totalCycles && scheduler.Abs().totalCycles == scheduler.totalCycles
      invariant Reaches(env, slices, scheduler.Abs()) && (scheduler.Abs() == EMPTY || Live(scheduler.Abs()))
      invariant Group(env, EMPTY, maxCycles, perIterate, rounds) ==
                Group(env, scheduler.Abs(), maxCycles, perIterate, rounds - round)
      invariant GroupPanics(env, EMPTY, {}, 0, maxCycles, perIterate, perSuspend, rounds) <==>
                GroupPanics(env, scheduler.Abs(), scheduler.instantiated.Keys, lastSuspended,
                            maxCycles, perIterate, perSuspend, rounds - round)
    {
      if scheduler.totalCycles > maxCycles {
        GroupExhausted(env, scheduler.Abs(), maxCycles, perIterate, rounds - round);
        PanicsExhausted(env, scheduler.Abs(), scheduler.instantiated.Keys, lastSuspended,
                        maxCycles, perIterate, perSuspend, rounds - round);
        return OutOfCycles(scheduler.totalCycles);
      }
      PanicsStep(env, scheduler.Abs(), scheduler.instantiated.Keys, lastSuspended,
                 maxCycles, perIterate, perSuspend, rounds - round);
      scheduler, lastSuspended := SuspendIfDue(scheduler, lastSuspended, perSuspend);
      var done, more := Round(scheduler, maxCycles, perIterate, rounds - round, slices);
      if done.Some? { return done.value; }
      slices := more;
    }
    GroupEnd(env, scheduler.Abs(), maxCycles, perIterate);
    PanicsEnd(env, scheduler.Abs(), scheduler.instantiated.Keys, lastSuspended, maxCycles, perIterate, perSuspend);
    r := StillRunning;
  }

  lemma EmptyKeys(scheduler: Scheduler)
    requires scheduler.Abs() == EMPTY
    ensures scheduler.instantiated.Keys == {}
  {
    assert scheduler.instantiated.Keys <= scheduler.Abs().machines.Keys;
  }

  lemma PanicsExhausted(env: Env, f: Flat, keys: set<VmId>, last: nat, maxCycles: u64, perIterate: u64,
                        perSuspend: u64, rounds: nat)
    requires (f == EMPTY || Live(f)) && f.totalCycles > maxCycles
    ensures !GroupPanics(env, f, keys, last, maxCycles, perIterate, perSuspend, rounds)
  {
    hide Live, RunDrive, BootRoot, RunPanics, RunCache, Start;
  }

  lemma PanicsEnd(env: Env, f: Flat, keys: set<VmId>, last: nat, maxCycles: u64, perIterate: u64, perSuspend: u64)
    requires f == EMPTY || Live(f)
    ensures !GroupPanics(env, f, keys, last, maxCycles, perIterate, perSuspend, 0)
  {
    hide Live;
  }

  lemma PanicsStep(env: Env, f: Flat, keys: set<VmId>, last: nat, maxCycles: u64, perIterate: u64,
                   perSuspend: u64, rounds: nat)
    requires (f == EMPTY || Live(f)) && f.totalCycles <= maxCycles && rounds > 0
    ensures f == EMPTY && !BootRoot(env, EMPTY).Ok? ==>
              !GroupPanics(env, f, keys, last, maxCycles, perIterate, perSuspend, rounds)
    ensures f != EMPTY || BootRoot(env, EMPTY).Ok? ==>
              var mode := LimitCycles(perIterate);
              var cached := StartKeys(f, if Due(f, last, perSuspend) then {} else keys);
              && Live(Start(env, f))
              && var d := RunDrive(env, Start(env, f), mode);
              && (RunPanics(env, Start(env, f), cached, mode) ==>
                    GroupPanics(env, f, keys, last, maxCycles, perIterate, perSuspend, rounds))
              && (!RunPanics(env, Start(env, f), cached, mode) && !d.Unfinished? ==>
                    !GroupPanics(env, f, keys, last, maxCycles, perIterate, perSuspend, rounds))
              && (!RunPanics(env, Start(env, f), cached, mode) && d.Unfinished? ==>
                    && Live(d.f)
                    && (GroupPanics(env, f, keys, last, maxCycles, perIterate, perSuspend, rounds) <==>
                        GroupPanics(env, d.f, RunCache(env, Start(env, f), cached, mode),
                                    if Due(f, last, perSuspend) then f.totalCycles else last,
                                    maxCycles, perIterate, perSuspend, rounds - 1)))
  {
    hide Live, RunDrive, BootRoot, RunPanics, RunCache, Start, StartKeys, Due;
    if f != EMPTY || BootRoot(env, EMPTY).Ok? {
      StartsLive(env, f);
      if RunDrive(env, Start(env, f), LimitCycles(perIterate)).Unfinished? {
        DriveIsLive(env, Start(env, f), LimitCycles(perIterate));
      }
    }
  }

  /** Suspends and resumes once enough cycles have been spent since the last time. */
  method SuspendIfDue(scheduler: Scheduler, lastSuspended: nat, perSuspend: u64)
    returns (s: Scheduler, last: nat)
    requires scheduler.Valid() && lastSuspended <= scheduler.totalCycles
    modifies scheduler
    ensures s.Valid() && s.env == scheduler.env && s.Abs() == old(scheduler.Abs())
    ensures (s == scheduler || fresh(s)) && s.totalCycles == s.Abs().totalCycles && last <= s.totalCycles
    ensures s.totalCycles == old(scheduler.totalCycles)
    ensures Due(s.Abs(), lastSuspended, perSuspend) <==> s.totalCycles - lastSuspended >= perSuspend
    ensures var due := s.totalCycles - lastSuspended >= perSuspend;
            && s.instantiated.Keys == (if due then {} else old(scheduler.instantiated.Keys))
            && last == if due then s.totalCycles else lastSuspended
  {
    hide scheduler.Valid;
    s, last := scheduler, lastSuspended;
    if scheduler.totalCycles - lastSuspended >= perSuspend {
      s := SuspendAndResume(scheduler);
      last := s.totalCycles;
    }
  }

  lemma GroupExhausted(env: Env, f: Flat, maxCycles: u64, perIterate: u64, rounds: nat)
    requires (f == EMPTY || Live(f)) && rounds > 0 && f.totalCycles > maxCycles
    ensures Group(env, f, maxCycles, perIterate, rounds) == OutOfCycles(f.totalCycles)
  {
    hide Live, RunDrive, BootRoot;
  }

  lemma GroupEnd(env: Env, f: Flat, maxCycles: u64, perIterate: u64)
    requires f == EMPTY || Live(f)
    ensures Group(env, f, maxCycles, perIterate, 0) == StillRunning
  {
  }

  /** One call of `run`, and whether the loop ends with it. */
  method Round(scheduler: Scheduler, maxCycles: u64, perIterate: u64, ghost left: nat, ghost slices: seq<TimeSlice>)
    returns (done: Option<Verdict>, ghost more: seq<TimeSlice>)
    requires scheduler.Valid() && Reaches(scheduler.env, slices, scheduler.Abs()) && left > 0
    requires scheduler.Abs() == EMPTY || Live(scheduler.Abs())
    requires scheduler.Abs().totalCycles <= maxCycles
    modifies scheduler
    ensures old(scheduler.Abs()) == EMPTY && !BootRoot(scheduler.env, EMPTY).Ok? ==> done.Some? && !done.value.Panicked?
    ensures old(scheduler.Abs()) != EMPTY || BootRoot(scheduler.env, EMPTY).Ok? ==>
              var start, mode := Start(scheduler.env, old(scheduler.Abs())), LimitCycles(perIterate);
              var keys := StartKeys(old(scheduler.Abs()), old(scheduler.instantiated.Keys));
              && Live(start)
              && (done == Some(Panicked) <==> RunPanics(scheduler.env, start, keys, mode))
              && (done.None? ==> RunDrive(scheduler.env, start, mode) == Unfinished(scheduler.Abs()) &&
                                 scheduler.instantiated.Keys == RunCache(scheduler.env, start, keys, mode))
              && (done.Some? && !done.value.Panicked? ==> !RunDrive(scheduler.env, start, mode).Unfinished?)
    ensures done.Some? && !done.value.Panicked? ==>
              done.value == Group(scheduler.env, old(scheduler.Abs()), maxCycles, perIterate, left)
    ensures done.None? ==>
              && scheduler.Valid() && Live(scheduler.Abs()) && Reaches(scheduler.env, more, scheduler.Abs())
              && old(scheduler.totalCycles) <= scheduler.totalCycles == scheduler.Abs().totalCycles
              && Group(scheduler.env, old(scheduler.Abs()), maxCycles, perIterate, left) ==
                 Group(scheduler.env, scheduler.Abs(), maxCycles, perIterate, left - 1)
  {
    hide Live, BootRoot, Reaches, Group, Start, RunDrive, RunPanics, RunCache, StartKeys;
    hide scheduler.Valid, scheduler.Abs;
    ghost var env, f := scheduler.env, scheduler.Abs();
    GroupStep(env, f, maxCycles, perIterate, left);
    BootIsInv(env);
    StartsLive(env, f);
    var ran;
    ran, more := RunSlice(scheduler, perIterate, slices);
    match ran {
      case Ok((code, cycles)) =>
        if code == 0 && cycles > maxCycles { return Some(OutOfCycles(cycles)), more; }
        return Some(Exited(code, cycles)), more;
      case Panic => return Some(Panicked), more;
      case Err(e) =>
        if !e.CyclesExceeded? { return Some(FailedWith(e)), more; }
        BootedStart(scheduler);
        return None, more;
    }
  }

  lemma StartsLive(env: Env, f: Flat)
    requires f == EMPTY || Live(f)
    ensures f != EMPTY || BootRoot(env, EMPTY).Ok? ==> Live(Start(env, f)) && !Ended(Start(env, f))
  {
    BootIsInv(env);
    if f != EMPTY || BootRoot(env, EMPTY).Ok? { LiveNotEnded(Start(env, f)); }
  }

  lemma GroupStep(env: Env, f: Flat, maxCycles: u64, perIterate: u64, rounds: nat)
    requires (f == EMPTY || Live(f)) && rounds > 0
    ensures f.totalCycles > maxCycles ==>
              Group(env, f, maxCycles, perIterate, rounds) == OutOfCycles(f.totalCycles)
    ensures f.totalCycles <= maxCycles && f == EMPTY && BootRoot(env, EMPTY).Err? ==>
              Group(env, f, maxCycles, perIterate, rounds) == FailedWith(BootRoot(env, EMPTY).error)
    ensures f.totalCycles <= maxCycles && !(f == EMPTY && !BootRoot(env, EMPTY).Ok?) ==>
              && Inv(Start(env, f))
              && var d := RunDrive(env, Start(env, f), LimitCycles(perIterate));
              && (d.Completed? ==> ROOT in d.f.terminated)
              && Group(env, f, maxCycles, perIterate, rounds) ==
                 if d.Aborted? then FailedWith(d.error)
                 else if d.Unfinished? then Group(env, d.f, maxCycles, perIterate, rounds - 1)
                 else if d.f.terminated[ROOT] == 0 && d.f.totalCycles > maxCycles then OutOfCycles(d.f.totalCycles)
                 else Exited(d.f.terminated[ROOT], d.f.totalCycles)
  {
    hide RunDrive, BootRoot, Live, Ended;
    BootIsInv(env);
    StartsLive(env, f);
    if f != EMPTY || BootRoot(env, EMPTY).Ok? {
      var d := RunDrive(env, Start(env, f), LimitCycles(perIterate));
      if d.Completed? { CompletedCode(env, Start(env, f), LimitCycles(perIterate)); }
    }
  }

  lemma CompletedCode(env: Env, f: Flat, mode: RunMode)
    requires Inv(f) && RunDrive(env, f, mode).Completed?
    ensures ROOT in RunDrive(env, f, mode).f.terminated
  {
    hide Live, Drive;
  }

  lemma ReachesNothing(env: Env)
    ensures Reaches(env, [], EMPTY)
  {
  }

  /** One call of `run` adds its slices to those that led to where it started. */
  lemma RunExtends(env: Env, slices: seq<TimeSlice>, f: Flat, mode: RunMode) returns (more: seq<TimeSlice>)
    requires Reaches(env, slices, f) && (f == EMPTY || Inv(f))
    requires f == EMPTY ==> BootRoot(env, EMPTY).Ok? && Inv(BootRoot(env, EMPTY).value)
    ensures BootRoot(env, EMPTY).Ok? && Inv(BootRoot(env, EMPTY).value)
    ensures var start := if f == EMPTY then BootRoot(env, EMPTY).value else f;
            Drive(env, BootRoot(env, EMPTY).value, more) == RunDrive(env, start, mode)
  {
    hide Live, Ended, Drive, RunSlices, BootRoot;
    if f == EMPTY {
      more := RunSlices(env, BootRoot(env, EMPTY).value, mode);
    } else {
      DriveResumes(env, BootRoot(env, EMPTY).value, slices, RunSlices(env, f, mode));
      more := slices + RunSlices(env, f, mode);
    }
  }

  lemma BootTotal(env: Env)
    ensures BootRoot(env, EMPTY).Ok? ==>
              BootRoot(env, EMPTY).value.totalCycles == 0 && BootRoot(env, EMPTY).value != EMPTY
    ensures EMPTY.totalCycles == 0
  {
  }

  lemma BootedStart(scheduler: Scheduler)
    requires scheduler.Valid()
    ensures scheduler.Booted() ==
            if scheduler.Abs() == EMPTY then BootRoot(scheduler.env, EMPTY) else Ok(scheduler.Abs())
    ensures scheduler.BootedKeys() == StartKeys(scheduler.Abs(), scheduler.instantiated.Keys)
    ensures scheduler.Abs() == EMPTY || Inv(scheduler.Abs())
    ensures scheduler.Abs().totalCycles == scheduler.totalCycles
  {
    hide Live, BootRoot;
    KnownStates(scheduler.Abs());
  }

  /** `ran`, the scheduler now and the slices so far are what the drive `d` says; the total was `before`. */
  ghost predicate RanTo(scheduler: Scheduler, ran: Result<(int, nat)>, d: Driven, more: seq<TimeSlice>, before: nat)
    reads scheduler
  {
    match d
    case Completed(f) => ROOT in f.terminated && ran == Ok((f.terminated[ROOT], f.totalCycles))
    case Aborted(e) => ran == Err(e) && !e.CyclesExceeded?
    case Unfinished(f) =>
      && ran == Err(CyclesExceeded) && scheduler.Valid() && scheduler.Abs() == f && Live(f)
      && Reaches(scheduler.env, more, f) && before <= scheduler.totalCycles
  }

  lemma RunOutcome(scheduler: Scheduler, ran: Result<(int, nat)>, env: Env, start: Flat, more: seq<TimeSlice>,
                   limit: u64)
    requires scheduler.env == env && Inv(start)
    requires scheduler.FollowsDrive(ran, RunDrive(env, start, LimitCycles(limit)), LimitCycles(limit))
    requires BootRoot(env, EMPTY).Ok? && Inv(BootRoot(env, EMPTY).value)
    requires Drive(env, BootRoot(env, EMPTY).value, more) == RunDrive(env, start, LimitCycles(limit))
    ensures RanTo(scheduler, ran, RunDrive(env, start, LimitCycles(limit)), more, start.totalCycles)
  {
    hide Live, Ended, Drive, RunSlices, BootRoot, scheduler.Valid;
    var d := RunDrive(env, start, LimitCycles(limit));
    match d
    case Completed(_) =>
    case Unfinished(f) =>
      DriveGrowsTotal(env, start, RunSlices(env, start, LimitCycles(limit)));
      LiveIsNotEmpty(f);
    case Aborted(_) =>
      AbortErrors(env, BootRoot(env, EMPTY).value, more);
  }

  lemma LiveIsNotEmpty(f: Flat)
    ensures Live(f) ==> f != EMPTY
  {
  }

  /** One call of `run`, as more slices of the same drive. */
  method RunSlice(scheduler: Scheduler, limit: u64, ghost slices: seq<TimeSlice>)
    returns (ran: Result<(int, nat)>, ghost more: seq<TimeSlice>)
    requires scheduler.Valid() && Reaches(scheduler.env, slices, scheduler.Abs())
    requires scheduler.Abs() == EMPTY || Live(scheduler.Abs())
    modifies scheduler
    ensures old(scheduler.Abs()) != EMPTY || BootRoot(scheduler.env, EMPTY).Ok? ==>
              var start, mode := Start(scheduler.env, old(scheduler.Abs())), LimitCycles(limit);
              var keys := StartKeys(old(scheduler.Abs()), old(scheduler.instantiated.Keys));
              && Live(start)
              && (ran.Panic? <==> RunPanics(scheduler.env, start, keys, mode))
              && (!ran.Panic? && RunDrive(scheduler.env, start, mode).Unfinished? ==>
                    scheduler.instantiated.Keys == RunCache(scheduler.env, start, keys, mode))
    ensures old(scheduler.Abs()) == EMPTY && !BootRoot(scheduler.env, EMPTY).Ok? ==>
              BootRoot(scheduler.env, EMPTY).Err? && ran == Err(BootRoot(scheduler.env, EMPTY).error) &&
              !ran.error.CyclesExceeded?
    ensures !ran.Panic? && !(old(scheduler.Abs()) == EMPTY && !BootRoot(scheduler.env, EMPTY).Ok?) ==>
              var start := Start(scheduler.env, old(scheduler.Abs()));
              && Inv(start)
              && RanTo(scheduler, ran, RunDrive(scheduler.env, start, LimitCycles(limit)), more,
                       old(scheduler.totalCycles))
  {
    hide Live, Ended, Drive, RunDrive, BootRoot, Reaches, scheduler.Valid, scheduler.Booted, scheduler.Abs,
         RunPanics, RunCache, StartKeys, scheduler.BootedKeys,
         scheduler.FollowsDrive;
    var mode := LimitCycles(limit);
    ghost var env, f := scheduler.env, scheduler.Abs();
    ghost var booted := scheduler.Booted();
    BootedStart(scheduler);
    BootIsInv(env);
    BootTotal(env);
    StartsLive(env, f);
    ran := scheduler.Run(mode);
    more := slices;
    if booted.Ok? && !ran.Panic? {
      more := RunExtends(env, slices, f, mode);
      RunOutcome(scheduler, ran, env, booted.value, more, limit);
    }
  }

  // ---- What the verdicts mean ----

  /** Every verdict of the loop is a fact about the run of the booted root: it exits like this, it fails like this, it
      has used this many cycles, or it is still on its way. */
  lemma {:induction false} GroupMeans(env: Env, f: Flat, slices: seq<TimeSlice>, maxCycles: u64, perIterate: u64,
                                      rounds: nat)
    returns (more: seq<TimeSlice>, g: Flat)
    requires Reaches(env, slices, f) && (f == EMPTY || Live(f))
    ensures match Group(env, f, maxCycles, perIterate, rounds)
            case Exited(code, cycles) => Exits(env, more, code, cycles) && (code == 0 ==> cycles <= maxCycles)
            case FailedWith(e) => Fails(env, more, e)
            case OutOfCycles(consumed) => consumed > maxCycles && Spends(env, more, g, consumed)
            case StillRunning => Reaches(env, more, g)
            case Panicked => false
    decreases rounds
  {
    hide Live, BootRoot, RunDrive, Drive, RunSlices, Ended, Start;
    more, g := slices, f;
    BootIsInv(env);
    BootTotal(env);
    if rounds == 0 {
      GroupEnd(env, f, maxCycles, perIterate);
    } else {
      GroupStep(env, f, maxCycles, perIterate, rounds);
      hide Group;
      if f.totalCycles <= maxCycles && !(f == EMPTY && !BootRoot(env, EMPTY).Ok?) {
        more := RunExtends(env, slices, f, LimitCycles(perIterate));
        StartIsBooted(env, f);
        var d := RunDrive(env, Start(env, f), LimitCycles(perIterate));
        if d.Unfinished? {
          DriveIsLive(env, Start(env, f), LimitCycles(perIterate));
          LiveIsNotEmpty(d.f);
          more, g := GroupMeans(env, d.f, more, maxCycles, perIterate, rounds - 1);
        }
      }
    }
  }

  lemma StartIsBooted(env: Env, f: Flat)
    requires f == EMPTY ==> BootRoot(env, EMPTY).Ok?
    ensures Start(env, f) == if f == EMPTY then BootRoot(env, EMPTY).value else f
  {
  }

  lemma DriveIsLive(env: Env, f: Flat, mode: RunMode)
    requires Inv(f) && RunDrive(env, f, mode).Unfinished?
    ensures Live(RunDrive(env, f, mode).f)
  {
    hide Live;
  }

  /** The run has used `consumed` cycles, in a state it goes through or when it exits with code 0. */
  ghost predicate Spends(env: Env, slices: seq<TimeSlice>, f: Flat, consumed: nat) {
    || (Reaches(env, slices, f) && Live(f) && f.totalCycles == consumed)
    || Exits(env, slices, 0, consumed)
  }

  // ---- When the loop panics ----

  lemma StartReached(env: Env, slices: seq<TimeSlice>, f: Flat) returns (more: seq<TimeSlice>)
    requires Reaches(env, slices, f) && (f == EMPTY || Live(f)) && (f == EMPTY ==> BootRoot(env, EMPTY).Ok?)
    ensures Live(Start(env, f)) && Reaches(env, more, Start(env, f))
  {
    hide Live, BootRoot, Ended;
    more := slices;
    StartsLive(env, f);
    BootIsInv(env);
    LiveIsNotEmpty(Start(env, f));
  }

  /** The state after a turn that can be gone on from is reached with one more slice. */
  lemma TurnReached(env: Env, slices: seq<TimeSlice>, f: Flat, slice: TimeSlice) returns (more: seq<TimeSlice>)
    requires Reaches(env, slices, f) && Live(f)
    requires Steppable(f) && !Iterate(env, f, slice.signal, slice.limit).Fatal?
    requires Live(Iterate(env, f, slice.signal, slice.limit).next)
    ensures Reaches(env, more, Iterate(env, f, slice.signal, slice.limit).next)
  {
    hide Live, BootRoot, Ended, Iterate;
    LiveIsNotEmpty(f);
    var next := Iterate(env, f, slice.signal, slice.limit).next;
    LiveIsNotEmpty(next);
    LiveNotEnded(next);
    DriveOne(env, f, slice);
    DriveResumes(env, BootRoot(env, EMPTY).value, slices, [slice]);
    more := slices + [slice];
  }

  /** A turn that fails ends the run with its error. */
  lemma TurnFails(env: Env, slices: seq<TimeSlice>, f: Flat, slice: TimeSlice)
    requires Reaches(env, slices, f) && Live(f) && Steppable(f) && Iterate(env, f, slice.signal, slice.limit).Fatal?
    ensures Fails(env, slices + [slice], Iterate(env, f, slice.signal, slice.limit).error)
  {
    hide Live, BootRoot, Ended, Iterate;
    LiveIsNotEmpty(f);
    DriveOne(env, f, slice);
    DriveResumes(env, BootRoot(env, EMPTY).value, slices, [slice]);
  }

  /** What is behind a panic: VM `id` waits on a closed pipe in a state `g` that the run goes through, or the run comes
      to an oversized spawn call. */
  ghost predicate PanicCause(env: Env, slices: seq<TimeSlice>, g: Flat, id: VmId) {
    (Reaches(env, slices, g) && ClosedWaiter(g, id)) || Fails(env, slices, CapacityOverflow)
  }

  lemma CauseOnDrive(env: Env, slices: seq<TimeSlice>, g: Flat, id: VmId)
    requires PanicCause(env, slices, g, id)
    ensures BootRoot(env, EMPTY).Ok? && Inv(BootRoot(env, EMPTY).value)
    ensures var d := Drive(env, BootRoot(env, EMPTY).value, slices);
            d == Aborted(CapacityOverflow) || (d == Unfinished(g) && ClosedWaiter(g, id))
  {
    hide Drive, Inv, BootRoot;
    BootIsInv(env);
    assert EMPTY.states == map[];
  }

  lemma TurnPanicMeaning(env: Env, slices: seq<TimeSlice>, f: Flat, keys: set<VmId>, slice: TimeSlice)
    returns (more: seq<TimeSlice>, g: Flat, id: VmId)
    requires Reaches(env, slices, f) && Live(f) && Steppable(f)
    requires TurnPanics(env, f, keys, slice.signal, slice.limit)
    ensures PanicCause(env, more, g, id)
  {
    hide Live, IoPanics, Iterate, Reaches, ClosedWaiter, Fails;
    more, g, id := slices, f, ROOT;
    if IoPanics(f, keys) {
      PanicMeansMissing(f, keys);
      id :| ClosedWaiter(f, id);
    } else {
      TurnFails(env, slices, f, slice);
      more := slices + [slice];
    }
  }

  lemma RunPanicMeaning(env: Env, slices: seq<TimeSlice>, f: Flat, keys: set<VmId>, mode: RunMode)
    returns (more: seq<TimeSlice>, g: Flat, id: VmId)
    requires Reaches(env, slices, f) && Live(f) && RunPanics(env, f, keys, mode)
    ensures PanicCause(env, more, g, id)
  {
    var slice := FirstSlice(mode);
    RunByTurns(env, f, keys, mode);
    hide *;
    if TurnPanics(env, f, keys, slice.signal, slice.limit) {
      more, g, id := TurnPanicMeaning(env, slices, f, keys, slice);
    } else {
      var next := Iterate(env, f, slice.signal, slice.limit).next;
      EitherInv(next);
      more := TurnReached(env, slices, f, slice);
      var after := TurnCache(env, f, keys, slice.signal, slice.limit);
      more, g, id := TurnPanicMeaning(env, more, next, after, LaterSlice(mode));
    }
  }

  /** If the loop panics, its run goes through a state in which a VM waits on a pipe whose other end is closed, or comes
      to an oversized spawn call. */
  lemma {:induction false} PanicMeaning(env: Env, f: Flat, keys: set<VmId>, last: nat, maxCycles: u64, perIterate: u64,
                                        perSuspend: u64, rounds: nat, slices: seq<TimeSlice>)
    returns (more: seq<TimeSlice>, g: Flat, id: VmId)
    requires Reaches(env, slices, f) && (f == EMPTY || Live(f))
    requires GroupPanics(env, f, keys, last, maxCycles, perIterate, perSuspend, rounds)
    ensures PanicCause(env, more, g, id)
    decreases rounds
  {
    var mode := LimitCycles(perIterate);
    hide Live, BootRoot, Start, RunDrive, RunPanics, RunCache, Reaches, PanicCause;
    more := StartReached(env, slices, f);
    var start := Start(env, f);
    var cached := StartKeys(f, if Due(f, last, perSuspend) then {} else keys);
    if RunPanics(env, start, cached, mode) {
      more, g, id := RunPanicMeaning(env, more, start, cached, mode);
    } else {
      DriveIsLive(env, start, mode);
      var next := RunDrive(env, start, mode).f;
      LiveIsNotEmpty(next);
      more := RunReaches(env, slices, f, mode);
      more, g, id := PanicMeaning(env, next, RunCache(env, start, cached, mode),
                                  if Due(f, last, perSuspend) then f.totalCycles else last,
                                  maxCycles, perIterate, perSuspend, rounds - 1, more);
    }
  }

  lemma RunReaches(env: Env, slices: seq<TimeSlice>, f: Flat, mode: RunMode) returns (more: seq<TimeSlice>)
    requires Reaches(env, slices, f) && (f == EMPTY || Live(f)) && (f == EMPTY ==> BootRoot(env, EMPTY).Ok?)
    requires Live(Start(env, f)) && RunDrive(env, Start(env, f), mode).Unfinished?
    ensures Reaches(env, more, RunDrive(env, Start(env, f), mode).f)
  {
    hide Live, BootRoot, RunDrive, Drive;
    BootIsInv(env);
    more := RunExtends(env, slices, f, mode);
    StartIsBooted(env, f);
    DriveIsLive(env, Start(env, f), mode);
    LiveIsNotEmpty(RunDrive(env, Start(env, f), mode).f);
  }

  /** The run never has more than four VMs alive. */
  ghost predicate FewVms(env: Env) {
    forall slices, f | Reaches(env, slices, f) :: |f.states| <= MAX_INSTANTIATED_VMS
  }

  lemma FewVmsRun(env: Env, slices: seq<TimeSlice>, f: Flat, keys: set<VmId>, mode: RunMode)
    requires FewVms(env) && Reaches(env, slices, f) && Live(f) && AllCached(f, keys)
    ensures RunPanics(env, f, keys, mode) <==> RunDrive(env, f, mode) == Aborted(CapacityOverflow)
    ensures RunDrive(env, f, mode).Unfinished? ==>
              AllCached(RunDrive(env, f, mode).f, RunCache(env, f, keys, mode))
  {
    hide Live, Ended, Reaches, AllCached, Iterate, TurnPanics, TurnCache, RunCache, RunPanics, RunDrive, FirstSlice,
         LaterSlice, BootRoot;
    var first, later := FirstSlice(mode), LaterSlice(mode);
    RunByTurns(env, f, keys, mode);
    RunMakesOneTurn(env, f, mode);
    LaterLimit(mode);
    FewVmsStayCached(env, f, keys, first.signal, first.limit);
    IterateKeepsInv(env, f, first.signal, first.limit);
    var t := Iterate(env, f, first.signal, first.limit);
    var after := TurnCache(env, f, keys, first.signal, first.limit);
    if !t.Fatal? && Live(t.next) {
      var more := TurnReached(env, slices, f, first);
      if t.Turn? {
        FewVmsStayCached(env, t.next, after, later.signal, later.limit);
        IterateKeepsInv(env, t.next, later.signal, later.limit);
        if Iterate(env, t.next, later.signal, later.limit).Cut? {
          more := TurnReached(env, more, t.next, later);
        }
      }
    }
  }

  /** A run that comes to an oversized spawn call panics, whatever the cache holds. */
  lemma RunOvercommitPanics(env: Env, f: Flat, keys: set<VmId>, mode: RunMode)
    requires Live(f) && RunDrive(env, f, mode) == Aborted(CapacityOverflow)
    ensures RunPanics(env, f, keys, mode)
  {
    hide Live, Ended, Iterate, IoPanics, TurnCache, RunCache, RunPanics, RunDrive, FirstSlice, LaterSlice;
    RunByTurns(env, f, keys, mode);
    RunMakesOneTurn(env, f, mode);
    LaterLimit(mode);
  }

  /** The loop never reports that error: it has panicked. */
  lemma {:induction false} OvercommitPanics(env: Env, f: Flat, keys: set<VmId>, last: nat, maxCycles: u64,
                                            perIterate: u64, perSuspend: u64, rounds: nat)
    requires f == EMPTY || Live(f)
    requires Group(env, f, maxCycles, perIterate, rounds) == FailedWith(CapacityOverflow)
    ensures GroupPanics(env, f, keys, last, maxCycles, perIterate, perSuspend, rounds)
    decreases rounds
  {
    hide Live, BootRoot, Start, RunDrive, RunPanics, RunCache, GroupPanics, StartKeys, Due;
    BootIsInv(env);
    if rounds == 0 {
      GroupEnd(env, f, maxCycles, perIterate);
    } else {
      GroupStep(env, f, maxCycles, perIterate, rounds);
      if f.totalCycles <= maxCycles { PanicsStep(env, f, keys, last, maxCycles, perIterate, perSuspend, rounds); }
      hide Group;
      if f.totalCycles <= maxCycles && (f != EMPTY || BootRoot(env, EMPTY).Ok?) {
        var mode, start := LimitCycles(perIterate), Start(env, f);
        var cached := StartKeys(f, if Due(f, last, perSuspend) then {} else keys);
        var d := RunDrive(env, start, mode);
        if d == Aborted(CapacityOverflow) {
          RunOvercommitPanics(env, start, cached, mode);
        } else if d.Unfinished? {
          DriveIsLive(env, start, mode);
          OvercommitPanics(env, d.f, RunCache(env, start, cached, mode),
                           if Due(f, last, perSuspend) then f.totalCycles else last,
                           maxCycles, perIterate, perSuspend, rounds - 1);
        }
      }
    }
  }

  /** So its verdict is never that error. */
  lemma NeverOvercommitted(env: Env, maxCycles: u64, perIterate: u64, perSuspend: u64, rounds: nat)
    ensures GroupPanics(env, EMPTY, {}, 0, maxCycles, perIterate, perSuspend, rounds) ||
            Group(env, EMPTY, maxCycles, perIterate, rounds) != FailedWith(CapacityOverflow)
  {
    hide Group, GroupPanics;
    if Group(env, EMPTY, maxCycles, perIterate, rounds) == FailedWith(CapacityOverflow) {
      OvercommitPanics(env, EMPTY, {}, 0, maxCycles, perIterate, perSuspend, rounds);
    }
  }

  /** With at most four VMs alive at any time, and no suspension, the loop panics exactly when its run comes to an
      oversized spawn call. */
  lemma {:induction false} FewVmsPanics(env: Env, f: Flat, keys: set<VmId>, maxCycles: u64, perIterate: u64,
                                        perSuspend: u64, rounds: nat, slices: seq<TimeSlice>)
    requires FewVms(env) && maxCycles < perSuspend
    requires Reaches(env, slices, f) && (f == EMPTY || (Live(f) && AllCached(f, keys)))
    ensures GroupPanics(env, f, keys, 0, maxCycles, perIterate, perSuspend, rounds) <==>
            Group(env, f, maxCycles, perIterate, rounds) == FailedWith(CapacityOverflow)
    decreases rounds
  {
    hide Live, BootRoot, Start, RunDrive, RunPanics, RunCache, Reaches, FewVms, GroupPanics, AllCached;
    BootIsInv(env);
    if rounds == 0 {
      PanicsEnd(env, f, keys, 0, maxCycles, perIterate, perSuspend);
      GroupEnd(env, f, maxCycles, perIterate);
    } else if f.totalCycles > maxCycles {
      PanicsExhausted(env, f, keys, 0, maxCycles, perIterate, perSuspend, rounds);
      GroupExhausted(env, f, maxCycles, perIterate, rounds);
    } else {
      GroupStep(env, f, maxCycles, perIterate, rounds);
      hide Group;
      PanicsStep(env, f, keys, 0, maxCycles, perIterate, perSuspend, rounds);
      if f != EMPTY || BootRoot(env, EMPTY).Ok? {
        var mode, start := LimitCycles(perIterate), Start(env, f);
        var more := StartReached(env, slices, f);
        BootedCache(env, f, keys);
        FewVmsRun(env, more, start, StartKeys(f, keys), mode);
        if RunDrive(env, start, mode).Unfinished? {
          more := RunReaches(env, slices, f, mode);
          FewVmsPanics(env, RunDrive(env, start, mode).f, RunCache(env, start, StartKeys(f, keys), mode),
                       maxCycles, perIterate, perSuspend, rounds - 1, more);
        }
      }
    }
  }

  /** A drive that fails does so in the turn after one of the states it goes through. */
  lemma {:induction false} AbortedIn(env: Env, f: Flat, slices: seq<TimeSlice>) returns (n: nat, g: Flat)
    requires Inv(f) && Drive(env, f, slices).Aborted?
    ensures n < |slices| && Drive(env, f, slices[..n]) == Unfinished(g) && Live(g) && Steppable(g)
    ensures Iterate(env, g, slices[n].signal, slices[n].limit) == Fatal(Drive(env, f, slices).error)
    decreases |slices|
  {
    hide Live, Iterate, Ended;
    SettleEnded(f);
    EitherInv(f);
    IterateKeepsInv(env, f, slices[0].signal, slices[0].limit);
    var t := Iterate(env, f, slices[0].signal, slices[0].limit);
    n, g := 0, f;
    if !t.Fatal? {
      n, g := AbortedIn(env, t.next, slices[1..]);
      assert slices[..n + 1][1..] == slices[1..][..n];
      n := n + 1;
    }
  }

  /** A run that fails in this way has come to such a call. */
  lemma HugeSpawnMet(env: Env, slices: seq<TimeSlice>) returns (n: nat, g: Flat)
    requires Fails(env, slices, CapacityOverflow)
    ensures n < |slices| && Reaches(env, slices[..n], g) && Shaped(g)
    ensures ComesToHugeSpawn(env, g, slices[n].signal, slices[n].limit)
  {
    hide BootRoot, Drive, Live, Iterate, ComesToHugeSpawn;
    BootIsInv(env);
    n, g := AbortedIn(env, BootRoot(env, EMPTY).value, slices);
    TurnOvercommits(env, g, slices[n].signal, slices[n].limit);
    LiveIsNotEmpty(g);
  }

  /** No turn of the run comes to an oversized spawn call. */
  ghost predicate NoHugeSpawn(env: Env) {
    forall slices, f, slice: TimeSlice | Reaches(env, slices, f) && Shaped(f) ::
      !ComesToHugeSpawn(env, f, slice.signal, slice.limit)
  }

  /** Hence with few VMs, no suspension and no such call the loop never panics. */
  lemma FewVmsNeverPanic(env: Env, maxCycles: u64, perIterate: u64, perSuspend: u64, rounds: nat)
    requires FewVms(env) && NoHugeSpawn(env) && maxCycles < perSuspend
    ensures !GroupPanics(env, EMPTY, {}, 0, maxCycles, perIterate, perSuspend, rounds)
  {
    hide Group, GroupPanics, BootRoot, Drive, Live, Iterate, ComesToHugeSpawn, Fails, Reaches;
    ReachesNothing(env);
    BootIsInv(env);
    FewVmsPanics(env, EMPTY, {}, maxCycles, perIterate, perSuspend, rounds, []);
    var more, g := GroupMeans(env, EMPTY, [], maxCycles, perIterate, rounds);
    if Group(env, EMPTY, maxCycles, perIterate, rounds) == FailedWith(CapacityOverflow) {
      var n, h := HugeSpawnMet(env, more);
      assert false;
    }
  }

  lemma BootedCache(env: Env, f: Flat, keys: set<VmId>)
    requires f == EMPTY ==> BootRoot(env, EMPTY).Ok?
    requires f != EMPTY ==> AllCached(f, keys)
    ensures AllCached(Start(env, f), StartKeys(f, keys))
  {
    hide BootMachine;
  }

  // ---- Verdicts of different configurations agree ----

  lemma ExitsAgree(env: Env, s: seq<TimeSlice>, code: int, cycles: nat, t: seq<TimeSlice>, code': int, cycles': nat)
    requires Exits(env, s, code, cycles) && Exits(env, t, code', cycles')
    ensures code == code' && cycles == cycles'
  {
    hide Live, Drive, BootRoot;
    var _ := SlicingIsTransparent(env, BootRoot(env, EMPTY).value, s, t);
  }

  lemma FailuresAgree(env: Env, s: seq<TimeSlice>, e: Error, t: seq<TimeSlice>, e': Error)
    requires Fails(env, s, e) && Fails(env, t, e')
    ensures e == e' <==> (e == CapacityOverflow <==> e' == CapacityOverflow)
  {
    hide Live, Drive, BootRoot;
    BootIsInv(env);
    if BootRoot(env, EMPTY).Ok? { var _ := SlicingIsTransparent(env, BootRoot(env, EMPTY).value, s, t); }
  }

  lemma ExitExcludesFailure(env: Env, s: seq<TimeSlice>, code: int, cycles: nat, t: seq<TimeSlice>, e: Error)
    requires Exits(env, s, code, cycles)
    ensures !Fails(env, t, e)
  {
    hide Live, Drive, BootRoot;
    if Fails(env, t, e) { var _ := SlicingIsTransparent(env, BootRoot(env, EMPTY).value, s, t); }
  }

  /** No state on the way has used more cycles than the exit reports. */
  lemma SpentBeforeExit(env: Env, s: seq<TimeSlice>, f: Flat, consumed: nat, t: seq<TimeSlice>, code: int, cycles: nat)
    requires Spends(env, s, f, consumed) && Exits(env, t, code, cycles)
    ensures consumed <= cycles
  {
    hide Live, Drive, BootRoot, Ended, Settle, MicroStep, Pending;
    var boot := BootRoot(env, EMPTY).value;
    LiveIsNotEmpty(f);
    if Exits(env, s, 0, consumed) {
      ExitsAgree(env, s, 0, consumed, t, code, cycles);
    } else {
      SettleEnded(boot);
      SettleEnded(f);
      var m := DriveFollows(env, boot, s);
      var n := DriveFollows(env, boot, t);
      LiveGoesOn(f);
      LaterTotal(env, Settle(boot), m, n);
      SettleTotal(f);
    }
  }

  lemma LiveGoesOn(f: Flat)
    requires Live(f)
    ensures Shaped(f) && !Settle(f).Finished? && !Ended(f)
  {
    LiveRootRuns(f);
    LiveNotEnded(f);
  }

  lemma LaterTotal(env: Env, s: Status, m: nat, n: nat)
    requires Good(s) && Micros(env, s, n).Finished? && !Micros(env, s, m).Finished?
    ensures m < n && !Micros(env, s, m).Crashed? && Total(Micros(env, s, m)) <= Total(Micros(env, s, n))
  {
    hide MicroStep, Live, Settled, Ended;
    if n <= m {
      MicrosAdd(env, s, n, m - n);
      TerminalIsAbsorbing(env, Micros(env, s, n), m - n);
    } else {
      MicrosAdd(env, s, m, n - m);
      if Micros(env, s, m).Crashed? { CrashIsFinal(env, Micros(env, s, m), n - m); }
      TotalGrows(env, Micros(env, s, m), n - m);
    }
  }

  /** However the run is sliced and however often it is suspended, it comes to the same end. Two calls that both exit
      agree on code and cycles, and two that both fail agree on the error; one cannot exit where the other fails; and
      one can run out of cycles where the other exits only if its maximum is below what the exit reports. */
  method VerifyTwice(env: Env, maxCycles: u64, perIterate: u64, perSuspend: u64, rounds: nat,
                     maxCycles': u64, perIterate': u64, perSuspend': u64, rounds': nat)
    returns (a: Verdict, b: Verdict)
    ensures a.Exited? && b.Exited? ==> a == b
    ensures a.FailedWith? && b.FailedWith? ==> a == b
    ensures !(a.Exited? && b.FailedWith?) && !(a.FailedWith? && b.Exited?)
    ensures a.Exited? && b.OutOfCycles? ==> maxCycles' < b.consumed <= a.cycles
    ensures a.OutOfCycles? && b.Exited? ==> maxCycles < a.consumed <= b.cycles
  {
    hide Live, Drive, BootRoot, Group, Exits, Fails, Spends, Reaches;
    ReachesNothing(env);
    ghost var s, f := GroupMeans(env, EMPTY, [], maxCycles, perIterate, rounds);
    ghost var t, g := GroupMeans(env, EMPTY, [], maxCycles', perIterate', rounds');
    NeverOvercommitted(env, maxCycles, perIterate, perSuspend, rounds);
    NeverOvercommitted(env, maxCycles', perIterate', perSuspend', rounds');
    a := VerifyGroup(env, maxCycles, perIterate, perSuspend, rounds);
    b := VerifyGroup(env, maxCycles', perIterate', perSuspend', rounds');
    match (a, b) {
      case (Exited(code, cycles), Exited(code', cycles')) => ExitsAgree(env, s, code, cycles, t, code', cycles');
      case (FailedWith(e), FailedWith(e')) => FailuresAgree(env, s, e, t, e');
      case (Exited(code, cycles), FailedWith(e)) => ExitExcludesFailure(env, s, code, cycles, t, e);
      case (FailedWith(e), Exited(code, cycles)) => ExitExcludesFailure(env, t, code, cycles, s, e);
      case (Exited(code, cycles), OutOfCycles(consumed)) => SpentBeforeExit(env, t, g, consumed, s, code, cycles);
      case (OutOfCycles(consumed), Exited(code, cycles)) => SpentBeforeExit(env, s, f, consumed, t, code, cycles);
      case _ =>
    }
  }
}
