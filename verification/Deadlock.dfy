/** What pending input and output leaves behind, and exactly when a turn reports a deadlock. */
module Deadlocks {
  import opened Words
  import opened Types
  import opened Machine
  import opened Ordered
  import opened Flat
  import opened Invariants
  import opened IoSteps

  // ---- After process_io nothing is left to do ----

  lemma IoLeavesNoClosedWaiter(f: Flat, id: VmId)
    requires Live(f) && Io(f).Ok?
    ensures !ClosedWaiter(Io(f).value, id)
  {
    var g := Io(f).value;
    if id in f.states && Waits(f.states[id]) {
      IoStateOk(f, id);
    }
  }

  lemma IoLeavesNoPair(f: Flat, r: VmId, w: VmId)
    requires Live(f) && Io(f).Ok?
    ensures !Matched(Io(f).value, r, w)
  {
    var g := Io(f).value;
    if Matched(g, r, w) {
      IoStateOk(f, r);
      IoStateOk(f, w);
      assert Matched(f, r, w);
      MatchedIsPeer(f, r, w);
    }
  }

  lemma QuietIo(f: Flat)
    requires Live(f)
    requires forall id :: !ClosedWaiter(f, id)
    requires forall r, w :: !Matched(f, r, w)
    ensures Io(f) == Ok(f)
  {
    forall id | id in f.states
      ensures IoVm(f, id) == Some(f.machines[id]) && IoState(f, id) == f.states[id]
    {
      Idle(f, id);
    }
    assert Io(f).value.states == f.states;
    assert Io(f).value.machines == f.machines;
  }

  /** Pending input and output is settled in one go: doing it again changes nothing, so a VM stopped by the
      cycle limit is the one selected on re-entry. */
  lemma IoIdempotent(f: Flat)
    requires Live(f) && Io(f).Ok?
    ensures Io(Io(f).value) == Io(f)
  {
    var g := Io(f).value;
    IoKeepsLive(f);
    forall id ensures !ClosedWaiter(g, id) { IoLeavesNoClosedWaiter(f, id); }
    forall r, w ensures !Matched(g, r, w) { IoLeavesNoPair(f, r, w); }
    QuietIo(g);
  }

  lemma StableIsQuiet(f: Flat)
    requires Live(f) && Io(f) == Ok(f)
    ensures forall id :: !ClosedWaiter(f, id)
    ensures forall r, w :: !Matched(f, r, w)
  {
    forall id ensures !ClosedWaiter(f, id) { IoLeavesNoClosedWaiter(f, id); }
    forall r, w ensures !Matched(f, r, w) { IoLeavesNoPair(f, r, w); }
  }

  lemma ChargedIoIsStable(f: Flat, id: VmId, vm: Vm)
    requires Live(f) && Io(f) == Ok(f) && Select(f) == Some(id)
    ensures Io(Charge(f, id, vm)) == Ok(Charge(f, id, vm))
    ensures Select(Charge(f, id, vm)) == Some(id)
  {
    var g := Charge(f, id, vm);
    ChargeKeepsLive(f, id, vm);
    assert RunnableIds(g) == RunnableIds(f);
    StableIsQuiet(f);
    forall j ensures !ClosedWaiter(g, j) { assert !ClosedWaiter(f, j); }
    forall r, w ensures !Matched(g, r, w) { assert !Matched(f, r, w); }
    QuietIo(g);
  }

  /** `next` is a quiet state in which the same VM as in `g` is up for running. */
  ghost predicate ResumesAs(g: Flat, next: Flat) {
    Shaped(next) && Io(next) == Ok(next) && Select(next) == Select(g) && Settled(next)
  }

  lemma CutConclusionResumes(env: Env, g: Flat, id: VmId, r: RunResult)
    requires Live(g) && Io(g) == Ok(g) && Select(g) == Some(id)
    requires r.stop.Yield? ==> r.stop.message.vm == id
    requires Conclude(env, g, id, r).Cut?
    ensures ResumesAs(g, Conclude(env, g, id, r).next)
  {
    ChargedIoIsStable(g, id, r.vm);
    ChargeKeepsLive(g, id, r.vm);
  }

  /** The VM stopped by the limit or the pause signal runs again next, from where it stopped. */
  lemma CutIsResumed(env: Env, f: Flat, signal: Signal, limit: nat)
    requires Live(f) && Iterate(env, f, signal, limit).Cut?
    ensures Io(f).Ok? && ResumesAs(Io(f).value, Iterate(env, f, signal, limit).next)
  {
    var g := Io(f).value;
    IoKeepsLive(f);
    IoIdempotent(f);
    var id := Select(g).value;
    RunYieldsWellFormed(env, id, g.machines[id], g.totalCycles, limit, signal);
    CutConclusionResumes(env, g, id, Run(env, id, g.machines[id], g.totalCycles, limit, signal));
  }

  // ---- Deadlock ----

  /** The VM that `id` waits for: the one it joins, or the owner of the other end of its pipe. */
  function Blocker(f: Flat, id: VmId): VmId {
    if id !in f.states then id
    else if f.states[id].Join? then f.states[id].target
    else if Waits(f.states[id]) && PeerOf(f, id).Some? then PeerOf(f, id).value
    else id
  }

  /** `id` waits for a live VM that is not, in turn, ready to serve it. */
  predicate Stuck(f: Flat, id: VmId)
    requires id in f.states
  {
    var s := f.states[id];
    || s.Join?
    || (Waits(s) && !ClosedWaiter(f, id) &&
        !Matched(f, id, Blocker(f, id)) && !Matched(f, Blocker(f, id), id))
  }

  lemma StuckStaysBlocked(f: Flat, id: VmId)
    requires Live(f) && id in f.states
    ensures Stuck(f, id) ==> IoState(f, id) == f.states[id] && IoVm(f, id) == Some(f.machines[id])
    ensures Stuck(f, id) ==> Blocker(f, id) in f.states
  {
    assert StateOk(f, id);
  }

  lemma AllStuckSelectsNone(f: Flat)
    requires Live(f) && forall id | id in f.states :: Stuck(f, id)
    ensures Io(f).Ok? && Select(Io(f).value).None?
  {
    forall id | id in f.states ensures IoVm(f, id).Some? && !IoState(f, id).Runnable? {
      StuckStaysBlocked(f, id);
      assert StateOk(f, id);
    }
    assert RunnableIds(Io(f).value) == {};
  }

  lemma NoneSelectedIsStuck(f: Flat, id: VmId)
    requires Live(f) && Io(f).Ok? && Select(Io(f).value).None? && id in f.states
    ensures Stuck(f, id)
  {
    var g := Io(f).value;
    assert StateOk(f, id);
    assert forall j | j in f.states :: j !in RunnableIds(g);
    assert !IoState(f, id).Runnable?;
    if Waits(f.states[id]) {
      var peer := PeerOf(f, id).value;
      if Matched(f, peer, id) {
        MatchedIsPeer(f, peer, id);
      }
    }
  }

  lemma ExecuteNeverDeadlocks(env: Env, id: VmId, vm: Vm, base: nat, limit: nat)
    ensures var x := Execute(env, id, vm.core, base + vm.cycles);
            && x != Broken(Deadlock)
            && (x.Advanced? && !Exceeds(env, vm, limit) ==> x.spent >= 1 && vm.cycles < limit)
  {
  }

  lemma {:induction false} RunNeverDeadlocks(env: Env, id: VmId, vm: Vm, base: nat, limit: nat, signal: Signal)
    ensures Run(env, id, vm, base, limit, signal).stop != Stopped(Deadlock)
    decreases if vm.cycles <= limit then limit - vm.cycles + 1 else 0
  {
    hide Execute, Exceeds;
    ExecuteNeverDeadlocks(env, id, vm, base, limit);
    if signal != After(0) && !Exceeds(env, vm, limit) {
      match Execute(env, id, vm.core, base + vm.cycles)
      case Advanced(core, spent) =>
        RunNeverDeadlocks(env, id, vm.(core := core, cycles := vm.cycles + spent), base, limit, Tick(signal));
      case _ =>
    }
  }

  lemma ConcludeNeverDeadlocks(env: Env, f: Flat, id: VmId, r: RunResult)
    requires Shaped(f) && id in f.machines && id < f.nextVmId
    requires r.stop.Yield? ==> r.stop.message.vm == id
    requires r.stop != Stopped(Deadlock)
    ensures Conclude(env, f, id, r) != Fatal(Deadlock)
  {
  }

  lemma DeadlockIffNoneSelected(env: Env, f: Flat, signal: Signal, limit: nat)
    requires Live(f)
    ensures Iterate(env, f, signal, limit) == Fatal(Deadlock) <==> Io(f).Ok? && Select(Io(f).value).None?
  {
    if Io(f).Ok? && Select(Io(f).value).Some? {
      var g := Io(f).value;
      var id := Select(g).value;
      RunNeverDeadlocks(env, id, g.machines[id], g.totalCycles, limit, signal);
      RunYieldsWellFormed(env, id, g.machines[id], g.totalCycles, limit, signal);
      ConcludeNeverDeadlocks(env, g, id, Run(env, id, g.machines[id], g.totalCycles, limit, signal));
    }
  }

  /** A turn reports a deadlock exactly when every VM is stuck. */
  lemma DeadlockIffAllStuck(env: Env, f: Flat, signal: Signal, limit: nat)
    requires Live(f)
    ensures Iterate(env, f, signal, limit) == Fatal(Deadlock) <==> forall id | id in f.states :: Stuck(f, id)
  {
    DeadlockIffNoneSelected(env, f, signal, limit);
    if forall id | id in f.states :: Stuck(f, id) {
      AllStuckSelectsNone(f);
    } else if Io(f).Ok? && Select(Io(f).value).None? {
      forall id | id in f.states ensures Stuck(f, id) { NoneSelectedIsStuck(f, id); }
    }
  }

  // ---- The wait-for graph ----

  ghost function Follow(f: Flat, id: VmId, n: nat): VmId {
    if n == 0 then id else Blocker(f, Follow(f, id, n - 1))
  }

  lemma {:induction false} FollowAdds(f: Flat, id: VmId, m: nat, n: nat)
    ensures Follow(f, Follow(f, id, m), n) == Follow(f, id, m + n)
  {
    if n > 0 { FollowAdds(f, id, m, n - 1); }
  }

  lemma {:induction false} FollowStaysLive(f: Flat, id: VmId, n: nat)
    requires Live(f) && id in f.states && forall j | j in f.states :: Stuck(f, j)
    ensures Follow(f, id, n) in f.states
  {
    if n > 0 {
      FollowStaysLive(f, id, n - 1);
      StuckStaysBlocked(f, Follow(f, id, n - 1));
    }
  }

  /** A sequence longer than the set it draws from repeats an element. */
  lemma {:induction false} Pigeonhole(q: seq<nat>, s: set<nat>)
    requires |q| > |s| && forall i | 0 <= i < |q| :: q[i] in s
    ensures exists i, j | 0 <= i < j < |q| :: q[i] == q[j]
  {
    var last := q[|q| - 1];
    var front := q[..|q| - 1];
    if i: int :| 0 <= i < |front| && front[i] == last {
      assert q[i] == q[|q| - 1];
    } else {
      Pigeonhole(front, s - {last});
      var i, j :| 0 <= i < j < |front| && front[i] == front[j];
      assert q[i] == q[j];
    }
  }

  lemma StuckHasCycle(f: Flat) returns (id: VmId, n: nat)
    requires Live(f) && forall j | j in f.states :: Stuck(f, j)
    ensures 0 < n <= |f.states| && id in f.states && Follow(f, id, n) == id
  {
    hide Live, Stuck, Blocker, Follow;
    LiveShape(f);
    var q: seq<nat> := seq(|f.states| + 1, k requires 0 <= k => Follow(f, ROOT, k));
    forall k | 0 <= k < |q| ensures q[k] in f.states.Keys {
      FollowStaysLive(f, ROOT, k);
    }
    assert |f.states.Keys| == |f.states|;
    Pigeonhole(q, f.states.Keys);
    var i, j :| 0 <= i < j < |q| && q[i] == q[j];
    id, n := q[i], j - i;
    FollowAdds(f, ROOT, i, n);
  }

  /** A reported deadlock is a real one: some VM waits, through other live VMs, for itself. */
  lemma DeadlockHasCycle(env: Env, f: Flat, signal: Signal, limit: nat) returns (id: VmId, n: nat)
    requires Live(f) && Iterate(env, f, signal, limit) == Fatal(Deadlock)
    ensures 0 < n <= |f.states| && id in f.states && Follow(f, id, n) == id
    ensures forall k: nat :: Follow(f, id, k) in f.states && Stuck(f, Follow(f, id, k))
  {
    DeadlockIffAllStuck(env, f, signal, limit);
    id, n := StuckHasCycle(f);
    forall k: nat ensures Follow(f, id, k) in f.states && Stuck(f, Follow(f, id, k)) {
      FollowStaysLive(f, id, k);
    }
  }

  lemma LeastRanked(ids: set<VmId>, rank: VmId -> nat) returns (id: VmId)
    requires ids != {}
    ensures id in ids && forall j | j in ids :: rank(id) <= rank(j)
  {
    var ranks := set j | j in ids :: rank(j);
    var any :| any in ids;
    assert rank(any) in ranks;
    var least := Smallest(ranks);
    assert IsSmallest(ranks, least);
    id :| id in ids && rank(id) == least;
    forall j | j in ids ensures least <= rank(j) { assert rank(j) in ranks; }
  }

  /** Where every stuck VM waits for a live VM of smaller rank, no deadlock is ever reported. */
  lemma RankedWaitsNeverDeadlock(env: Env, f: Flat, signal: Signal, limit: nat, rank: VmId -> nat)
    requires Live(f)
    requires forall id | id in f.states && Stuck(f, id) :: rank(Blocker(f, id)) < rank(id)
    ensures Iterate(env, f, signal, limit) != Fatal(Deadlock)
  {
    DeadlockIffAllStuck(env, f, signal, limit);
    var id := LeastRanked(f.states.Keys, rank);
    StuckStaysBlocked(f, id);
  }
}
