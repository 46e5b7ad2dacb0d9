/** A planned workload never makes the scheduler itself report a deadlock. */
module PlanOnScheduler {
  import opened Words
  import T = Types
  import M = Machine
  import F = Flat
  import I = Invariants
  import D = Deadlocks
  import C = Caches
  import opened Trees
  import opened Planner
  import opened PlanFacts
  import opened Guests
  import opened GuestInv
  import opened GuestSteps
  import opened GuestRuns

  /** How much of its current operation a VM still has to read or write: that is what it asks for. */
  function Remaining(d: Data, s: World, v: nat): int
    requires v < |s.guests| && s.guests[v].phase.Moving? && s.guests[v].phase.next < |d.writes|
  {
    |d.writes[s.guests[v].phase.next].data| - s.guests[v].phase.done
  }

  /** The state of one VM in the scheduler fits where its program stands. A program that is to read, write or
      join may not have made the syscall yet. */
  ghost predicate ShowsVm(p: Plan, s: World, f: F.Flat, vmOf: map<T.VmId, nat>, id: T.VmId)
    requires id in f.states && id in vmOf
  {
    var v := vmOf[id];
    && Born(s, v) && !Gone(s, v)
    && match f.states[id]
       case Runnable => true
       case Terminated => false
       case Join(target, _) =>
         var g := s.guests[v];
         && g.phase.Joining? && g.phase.joined < |g.spawned|
         && target in vmOf && vmOf[target] == g.spawned[|g.spawned| - 1 - g.phase.joined]
       case WaitForRead(q, length, _, _) => WaitsOn(p.d, s, v, false, q) && length == Remaining(p.d, s, v)
       case WaitForWrite(q, consumed, length, _, _) =>
         WaitsOn(p.d, s, v, true, q) && consumed == 0 && length == Remaining(p.d, s, v)
  }

  /** `vmOf` gives each VM there has been its own index in the plan; the root has index 0. */
  ghost predicate Names(f: F.Flat, vmOf: map<T.VmId, nat>) {
    && vmOf.Keys == f.states.Keys + f.terminated.Keys
    && T.ROOT in vmOf && vmOf[T.ROOT] == 0
    && forall i, j | i in vmOf && j in vmOf && i != j :: vmOf[i] != vmOf[j]
  }

  /** The same pipe ends are open and belong to the same VMs. */
  ghost predicate ShowsPipes(s: World, f: F.Flat, vmOf: map<T.VmId, nat>) {
    && f.nextPipeSlot == s.nextSlot
    && (forall q :: q in f.pipes <==> q in s.owner)
    && (forall q | q in f.pipes :: f.pipes[q] in vmOf && vmOf[f.pipes[q]] == s.owner[q])
  }

  /** The VMs that have terminated did so by exiting with code 0. */
  ghost predicate ShowsEnds(s: World, f: F.Flat, vmOf: map<T.VmId, nat>) {
    forall id | id in f.terminated :: f.terminated[id] == 0 && id in vmOf && Gone(s, vmOf[id])
  }

  /** `f` is a scheduler state in which the VMs, named by `vmOf` after their index in the plan, stand where the
      programs of `s` do, and hold the same pipes. */
  ghost predicate Shows(p: Plan, s: World, f: F.Flat, vmOf: map<T.VmId, nat>) {
    && Names(f, vmOf)
    && (forall id {:trigger ShowsVm(p, s, f, vmOf, id)} | id in f.states :: ShowsVm(p, s, f, vmOf, id))
    && ShowsPipes(s, f, vmOf)
    && ShowsEnds(s, f, vmOf)
  }

  /** Runnable VMs wait for nobody, transferring ones by the operation they are at, joining ones come last. */
  function Rank(p: Plan, s: World, f: F.Flat, vmOf: map<T.VmId, nat>, id: T.VmId): nat {
    if id !in f.states || id !in vmOf || f.states[id].Runnable? || vmOf[id] >= |s.guests| then 0
    else match s.guests[vmOf[id]].phase
      case Moving(i, _) => 1 + i
      case Joining(_) => 1 + |p.d.writes| + |s.guests| - vmOf[id]
      case _ => 0
  }

  lemma WaitingRank(p: Plan, s: World, f: F.Flat, vmOf: map<T.VmId, nat>, id: T.VmId)
    requires Shows(p, s, f, vmOf) && id in f.states && F.Waits(f.states[id])
    ensures vmOf[id] < |s.guests| && s.guests[vmOf[id]].phase.Moving?
    ensures Rank(p, s, f, vmOf, id) == 1 + s.guests[vmOf[id]].phase.next <= |p.d.writes|
    ensures var q := f.states[id].pipe; q in s.owner && T.OtherPipe(q) in s.owner
  {
    assert ShowsVm(p, s, f, vmOf, id);
  }

  lemma StuckWaitsForLess(p: Plan, s: World, f: F.Flat, vmOf: map<T.VmId, nat>, id: T.VmId)
    requires Sound(p) && Inv(p, s) && I.Live(f) && Shows(p, s, f, vmOf)
    requires id in f.states && D.Stuck(f, id)
    ensures Rank(p, s, f, vmOf, D.Blocker(f, id)) < Rank(p, s, f, vmOf, id)
  {
    hide I.Live, Planned, Inv, Fits;
    if f.states[id].Join? { JoinWaitsForLess(p, s, f, vmOf, id); } else { PipeWaitsForLess(p, s, f, vmOf, id); }
  }

  lemma JoinWaitsForLess(p: Plan, s: World, f: F.Flat, vmOf: map<T.VmId, nat>, id: T.VmId)
    requires Sound(p) && Inv(p, s) && I.Live(f) && Shows(p, s, f, vmOf)
    requires id in f.states && f.states[id].Join?
    ensures Rank(p, s, f, vmOf, D.Blocker(f, id)) < Rank(p, s, f, vmOf, id)
  {
    hide Planned, Fits;
    assert ShowsVm(p, s, f, vmOf, id);
    assert I.StateOk(f, id);
    hide I.Live;
    var v, target := vmOf[id], f.states[id].target;
    KidFacts(p, s, v, vmOf[target]);
    assert ShowsVm(p, s, f, vmOf, target);
    if F.Waits(f.states[target]) { WaitingRank(p, s, f, vmOf, target); }
  }

  /** The VM at the other end of the pipe is ready to go on, or it is the partner in the same operation or still in
      an earlier one. */
  lemma PeerIsPartner(p: Plan, s: World, v: nat, i: nat, q: T.PipeId)
    requires Sound(p) && Inv(p, s) && v < |s.guests| && s.guests[v].phase.Moving? && s.guests[v].phase.next == i
    requires i < |p.d.writes| && WaitsOn(p.d, s, v, p.d.writes[i].from == v, q)
    ensures T.OtherPipe(q) in s.owner
    ensures var h := s.owner[T.OtherPipe(q)];
            && h < |s.guests|
            && !s.guests[h].phase.Joining?
            && (s.guests[h].phase.Moving? ==>
                  && s.guests[h].phase.next <= i
                  && (s.guests[h].phase.next == i ==>
                        WaitsOn(p.d, s, h, p.d.writes[i].from != v, T.OtherPipe(q))))
  {
    hide Planned, Fits, Inv, MoveNext, Find;
    WaitsFacts(p.d, s, v, p.d.writes[i].from == v, q);
    WaitsProperly(p, s, v);
    WriteFacts(p, i);
    VmCount(p, s);
    OtherHolder(p, s, v, i);
    var h := s.owner[T.OtherPipe(q)];
    if Settling(s.guests[h].phase) {
      PartnerIsNotAhead(p, s, v, h, i);
      if s.guests[h].phase.next == i {
        WaitsProperly(p, s, h);
      }
    }
  }

  lemma WaitsFacts(d: Data, s: World, v: nat, writing: bool, q: T.PipeId)
    requires WaitsOn(d, s, v, writing, q)
    ensures var i := s.guests[v].phase.next;
            i < |d.writes| && Needed(d.writes[i], v).Some? && s.guests[v].phase.done < |d.writes[i].data|
    ensures q in s.owner && T.OtherPipe(q) in s.owner
  {
    hide Find;
  }

  /** The other end of write `i` is held by the partner of `v`, or by a VM that is still on its way there. */
  lemma OtherHolder(p: Plan, s: World, v: nat, i: nat)
    requires p.Made() && Inv(p, s) && i < |p.d.writes| && Needed(p.d.writes[i], v).Some?
    requires Needed(p.d.writes[i], v).value in s.ids
    requires T.OtherPipe(s.ids[Needed(p.d.writes[i], v).value]) in s.owner
    ensures var x := Needed(p.d.writes[i], v).value;
            var h := s.owner[T.OtherPipe(s.ids[x])];
            && T.OtherPipe(x) in s.ids && s.ids[T.OtherPipe(x)] == T.OtherPipe(s.ids[x])
            && h < |s.guests|
            && (Settling(s.guests[h].phase) ==> h == Partner(p.d.writes[i], v))
  {
    hide Planned, CreatedOk, TablesOk, BirthsOk, KidsOk, JoinsOk, SyncOk, Anc, OwnersOk;
    WriteFacts(p, i);
    var x := Needed(p.d.writes[i], v).value;
    var y := T.OtherPipe(x);
    PairedEnds(p, s, x);
    assert NameOk(p, s, x);
    HeldAt(p, s, y);
    var h := s.owner[s.ids[y]];
    if Settling(s.guests[h].phase) { HoldsOnlyOwn(p, s, h, y); }
  }

  lemma WaitIsShown(p: Plan, s: World, f: F.Flat, vmOf: map<T.VmId, nat>, id: T.VmId)
    requires Shows(p, s, f, vmOf) && id in f.states && F.Waits(f.states[id])
    ensures id in vmOf && vmOf[id] < |s.guests| && s.guests[vmOf[id]].phase.Moving?
    ensures var i := s.guests[vmOf[id]].phase.next;
            i < |p.d.writes| && WaitsOn(p.d, s, vmOf[id], p.d.writes[i].from == vmOf[id], f.states[id].pipe)
  {
    assert ShowsVm(p, s, f, vmOf, id);
  }

  lemma OwnerIsShown(p: Plan, s: World, f: F.Flat, vmOf: map<T.VmId, nat>, q: T.PipeId)
    requires Shows(p, s, f, vmOf) && q in s.owner
    ensures q in f.pipes && f.pipes[q] in vmOf && vmOf[f.pipes[q]] == s.owner[q]
  {
  }

  /** A VM that does not wait on a pipe has rank 0, unless it is about to join. */
  lemma IdleRank(p: Plan, s: World, f: F.Flat, vmOf: map<T.VmId, nat>, id: T.VmId)
    requires Shows(p, s, f, vmOf) && id in f.states && !F.Waits(f.states[id])
    requires id in vmOf && vmOf[id] < |s.guests| && !s.guests[vmOf[id]].phase.Joining?
    ensures Rank(p, s, f, vmOf, id) == 0
  {
    assert ShowsVm(p, s, f, vmOf, id);
  }

  /** Two VMs that wait on the two ends of a pipe are matched. */
  lemma PairIsNotStuck(f: F.Flat, id: T.VmId, b: T.VmId)
    requires I.Live(f) && id in f.states && b in f.states && F.Waits(f.states[id]) && F.Waits(f.states[b])
    requires f.states[b].pipe == T.OtherPipe(f.states[id].pipe) && b == D.Blocker(f, id)
    ensures !D.Stuck(f, id)
  {
    assert I.StateOk(f, id) && I.StateOk(f, b);
  }

  lemma BlockerOwns(f: F.Flat, id: T.VmId)
    requires id in f.states && F.Waits(f.states[id]) && T.OtherPipe(f.states[id].pipe) in f.pipes
    ensures D.Blocker(f, id) == f.pipes[T.OtherPipe(f.states[id].pipe)]
  {
  }

  lemma PipeWaitsForLess(p: Plan, s: World, f: F.Flat, vmOf: map<T.VmId, nat>, id: T.VmId)
    requires Sound(p) && Inv(p, s) && I.Live(f) && Shows(p, s, f, vmOf)
    requires id in f.states && F.Waits(f.states[id]) && D.Stuck(f, id)
    ensures Rank(p, s, f, vmOf, D.Blocker(f, id)) < Rank(p, s, f, vmOf, id)
  {
    LiveOwners(f);
    hide *;
    WaitingRank(p, s, f, vmOf, id);
    WaitIsShown(p, s, f, vmOf, id);
    var v, q := vmOf[id], f.states[id].pipe;
    var i := s.guests[v].phase.next;
    PeerIsPartner(p, s, v, i, q);
    OwnerIsShown(p, s, f, vmOf, T.OtherPipe(q));
    var b := f.pipes[T.OtherPipe(q)];
    BlockerOwns(f, id);
    var h := vmOf[b];
    if F.Waits(f.states[b]) {
      WaitingRank(p, s, f, vmOf, b);
      if s.guests[h].phase.next == i {
        WaitIsShown(p, s, f, vmOf, b);
        SamePipe(p, s, h, T.OtherPipe(q), f.states[b].pipe);
        PairIsNotStuck(f, id, b);
      }
    } else {
      IdleRank(p, s, f, vmOf, b);
    }
  }

  lemma LiveOwners(f: F.Flat)
    requires I.Live(f)
    ensures forall q | q in f.pipes :: f.pipes[q] in f.states
  {
  }

  /** No VM of a planned workload waits on a pipe whose other end is closed, so the scheduler does not panic on it,
      whatever its cache holds. */
  lemma PlansNeverPanic(p: Plan, s: World, f: F.Flat, vmOf: map<T.VmId, nat>, keys: set<T.VmId>)
    requires I.Live(f) && Shows(p, s, f, vmOf)
    ensures F.Shaped(f) && (forall id :: !F.ClosedWaiter(f, id)) && !C.IoPanics(f, keys)
  {
    forall id ensures !F.ClosedWaiter(f, id) {
      if id in f.states && F.Waits(f.states[id]) { WaitingRank(p, s, f, vmOf, id); }
    }
    hide C.IoPanics;
    C.NothingClosedNeverPanics(f, keys);
  }

  lemma SamePipe(p: Plan, s: World, u: nat, q: T.PipeId, q': T.PipeId)
    requires WaitsOn(p.d, s, u, true, q) || WaitsOn(p.d, s, u, false, q)
    requires WaitsOn(p.d, s, u, true, q') || WaitsOn(p.d, s, u, false, q')
    ensures q == q'
  {
  }

  /** In any state of the scheduler whose VMs are carrying out a plan, whatever they are about to do, no turn
      reports a deadlock. */
  lemma PlansNeverDeadlock(p: Plan, s: World, env: M.Env, f: F.Flat, vmOf: map<T.VmId, nat>,
                           signal: F.Signal, limit: nat)
    requires Sound(p) && Inv(p, s) && I.Live(f) && Shows(p, s, f, vmOf)
    ensures F.Iterate(env, f, signal, limit) != F.Fatal(T.Deadlock)
  {
    hide Inv, Sound, Shows, Rank;
    var rank := (id: T.VmId) => Rank(p, s, f, vmOf, id);
    forall id | id in f.states && D.Stuck(f, id) ensures rank(D.Blocker(f, id)) < rank(id) {
      StuckWaitsForLess(p, s, f, vmOf, id);
    }
    D.RankedWaitsNeverDeadlock(env, f, signal, limit, rank);
  }

  /** The booted scheduler shows the start of a plan. */
  lemma BootShowsStart(p: Plan, env: M.Env)
    requires p.Made() && F.BootRoot(env, F.EMPTY).Ok?
    ensures I.Live(F.BootRoot(env, F.EMPTY).value) && Inv(p, Start(|p.parent|))
    ensures Shows(p, Start(|p.parent|), F.BootRoot(env, F.EMPTY).value, map[T.ROOT := 0])
  {
    hide Planned;
    I.BootedRootIsLive(env);
    StartIsOk(p);
    var f := F.BootRoot(env, F.EMPTY).value;
    assert f.states == map[T.ROOT := T.Runnable];
    assert ShowsVm(p, Start(|p.parent|), f, map[T.ROOT := 0], T.ROOT);
  }
}
