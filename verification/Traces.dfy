/** Properties of whole stretches of turns: no join is lost, exit codes are written once, pipe ends are
    conserved, and a blocked write is one unbroken stretch of bytes. */
module Traces {
  import opened Words
  import opened Types
  import opened Machine
  import opened Flat
  import opened Invariants
  import opened Slicing
  import opened Turns

  ghost predicate StepsTo(env: Env, f: Flat, slice: TimeSlice, next: Flat) {
    && Live(f)
    && var t := Iterate(env, f, slice.signal, slice.limit);
    && !t.Fatal?
    && next == t.next
  }

  /** The states between consecutive turns, each bounded by its own slice. Only the last one may be the end. */
  ghost predicate Trace(env: Env, tr: seq<Flat>, slices: seq<TimeSlice>) {
    && |tr| == |slices| + 1
    && forall i | 0 <= i < |slices| :: StepsTo(env, tr[i], slices[i], tr[i + 1])
  }

  ghost predicate LiveTrace(env: Env, tr: seq<Flat>, slices: seq<TimeSlice>) {
    Trace(env, tr, slices) && Live(tr[|slices|])
  }

  lemma TraceIsLive(env: Env, tr: seq<Flat>, slices: seq<TimeSlice>, k: nat)
    requires LiveTrace(env, tr, slices) && k <= |slices|
    ensures Live(tr[k])
  {
    hide Live, Iterate;
    if k < |slices| { assert StepsTo(env, tr[k], slices[k], tr[k + 1]); }
  }

  // ---- Exit codes ----

  lemma CodesOnce(env: Env, f: Flat, slice: TimeSlice, next: Flat, id: VmId)
    requires StepsTo(env, f, slice, next) && id in f.terminated
    ensures id in next.terminated && next.terminated[id] == f.terminated[id]
  {
    hide Run, IoVm, IoState, BootMachine, Complete64, Complete8, Store64, Handover, Execute, PipesOk, PendingOk;
    var g, j, r := TurnParts(env, f, slice);
    assert g.terminated == f.terminated;
    ConclusionKeepsCodes(env, g, j, r, id);
  }

  lemma ConclusionKeepsCodes(env: Env, g: Flat, j: VmId, r: RunResult, id: VmId)
    requires Live(g) && Select(g) == Some(j) && j in g.machines && j < g.nextVmId && id in g.terminated
    requires r.stop.Yield? ==> r.stop.message.vm == j
    requires !Conclude(env, g, j, r).Fatal?
    ensures var next := Conclude(env, g, j, r).next;
            id in next.terminated && next.terminated[id] == g.terminated[id]
  {
    hide BootMachine, Complete64, Complete8, Store64, Handover, Woken, StateOk, PipesOk, PendingOk;
    SelectedIsLive(g, j);
  }

  /** Exit codes are recorded once and for all: ids are never reused. */
  lemma {:induction false} CodesAreForever(env: Env, tr: seq<Flat>, slices: seq<TimeSlice>, id: VmId)
    requires Trace(env, tr, slices) && id in tr[0].terminated
    ensures id in tr[|slices|].terminated && tr[|slices|].terminated[id] == tr[0].terminated[id]
    decreases |slices|
  {
    hide StepsTo;
    if slices != [] {
      assert StepsTo(env, tr[0], slices[0], tr[1]);
      CodesOnce(env, tr[0], slices[0], tr[1], id);
      CodesAreForever(env, tr[1..], slices[1..], id);
    }
  }

  // ---- Joins ----

  /** In one turn a joining VM either keeps waiting, untouched, for a VM that is still live, or its target ends
      in this turn and it is woken with the code that is recorded. */
  lemma JoinStep(env: Env, f: Flat, slice: TimeSlice, next: Flat, j: VmId)
    requires StepsTo(env, f, slice, next) && Live(next) && j in f.states && f.states[j].Join?
    ensures var target := f.states[j].target;
            || (Untouched(f, next, j) && target in f.states && target in next.states)
            || (target in next.terminated && target !in next.states && target in f.states &&
                Told(f, next, j, target, next.terminated[target]))
  {
    hide Run, IoState, Complete8, Execute, PipesOk, PendingOk, Conclude;
    var g, id, r := TurnParts(env, f, slice);
    IoVmCycles(f, j);
    assert StateOk(f, j);
    assert Untouched(f, g, j) by { hide IoVm; }
    SelectedIsLive(g, id);
    RootGoesLast(env, g, id, r);
    ConclusionLeavesOthers(env, g, id, r, j);
    ConclusionKeepsTarget(env, g, id, r, f.states[j].target);
  }

  lemma RootGoesLast(env: Env, g: Flat, id: VmId, r: RunResult)
    requires Live(g) && Select(g) == Some(id) && id in g.machines && id < g.nextVmId
    requires r.stop.Yield? ==> r.stop.message.vm == id
    requires !Conclude(env, g, id, r).Fatal? && Live(Conclude(env, g, id, r).next)
    ensures !(r.stop.Exit? && id == ROOT)
  {
    hide Deliver, EndOther;
    assert StateOk(Conclude(env, g, id, r).next, ROOT);
  }

  lemma ConclusionKeepsTarget(env: Env, g: Flat, id: VmId, r: RunResult, target: VmId)
    requires Live(g) && Select(g) == Some(id) && id in g.machines && id < g.nextVmId
    requires r.stop.Yield? ==> r.stop.message.vm == id
    requires !(r.stop.Exit? && id == ROOT)
    requires !Conclude(env, g, id, r).Fatal? && target in g.states
    ensures var next := Conclude(env, g, id, r).next;
            if r.stop.Exit? && id == target
            then target !in next.states && target in next.terminated && next.terminated[target] == r.stop.code
            else target in next.states
  {
    hide Complete64, Complete8, Store64, Handover, BootMachine, Woken, StateOk, PipesOk, PendingOk;
  }

  /** No join is lost: for `m` turns the VM waits unchanged for a live target, and if it is woken at all, then
      in the turn in which the target ends, with the exit code that every later join of it will be given. */
  lemma {:induction false} JoinIsAnswered(env: Env, tr: seq<Flat>, slices: seq<TimeSlice>, j: VmId) returns (m: nat)
    requires LiveTrace(env, tr, slices) && j in tr[0].states && tr[0].states[j].Join?
    ensures m <= |slices|
    ensures forall k | 0 <= k <= m :: Untouched(tr[0], tr[k], j) && tr[0].states[j].target in tr[k].states
    ensures m < |slices| ==>
              var target := tr[0].states[j].target;
              && target in tr[|slices|].terminated && target !in tr[m + 1].states
              && Told(tr[0], tr[m + 1], j, target, tr[|slices|].terminated[target])
    decreases |slices|
  {
    hide StepsTo, Complete8, Live;
    TraceIsLive(env, tr, slices, 0);
    JoinTargetIsLive(tr[0], j);
    m := 0;
    if slices != [] {
      assert StepsTo(env, tr[0], slices[0], tr[1]);
      TraceIsLive(env, tr, slices, 1);
      JoinStep(env, tr[0], slices[0], tr[1], j);
      var target := tr[0].states[j].target;
      if Untouched(tr[0], tr[1], j) && target in tr[1].states {
        var later := JoinIsAnswered(env, tr[1..], slices[1..], j);
        m := later + 1;
        forall k | 0 <= k <= m ensures Untouched(tr[0], tr[k], j) && target in tr[k].states {
          if k > 0 { assert Untouched(tr[1..][0], tr[1..][k - 1], j); }
        }
      } else {
        CodesAreForever(env, tr[1..], slices[1..], target);
      }
    }
  }

  lemma JoinTargetIsLive(f: Flat, j: VmId)
    requires Live(f) && j in f.states
    ensures Untouched(f, f, j)
    ensures f.states[j].Join? ==> f.states[j].target in f.states
  {
    assert StateOk(f, j);
  }

  /** A join is refused exactly when no VM with that id was ever spawned; it is answered at once, with the code
      recorded in any earlier state, when the target has ended; otherwise the target is live. */
  lemma JoinVerdict(env: Env, tr: seq<Flat>, slices: seq<TimeSlice>, id: VmId, target: VmId, addr: u64)
    requires LiveTrace(env, tr, slices)
    requires id in tr[|slices|].machines && DeliverJoin(tr[|slices|], id, target, addr).Ok?
    ensures var f := tr[|slices|];
            var next := DeliverJoin(f, id, target, addr).value;
            && (target in tr[0].terminated ==>
                  next.states[id] == Runnable &&
                  Some(next.machines[id]) == Complete8(f.machines[id], addr, tr[0].terminated[target]))
            && (target >= f.nextVmId <==> target !in f.states && target !in f.terminated)
            && (target >= f.nextVmId ==> next == f.(machines := f.machines[id := f.machines[id].SetA0(JOIN_FAILURE)]))
            && (target in f.states ==> next == f.(states := f.states[id := Join(target, addr)]))
  {
    hide StepsTo, Complete8, StateOk, PipesOk, PendingOk;
    if target in tr[0].terminated {
      CodesAreForever(env, tr, slices, target);
    }
  }

  // ---- Pipe ends ----

  /** What may happen to the end `p` of a pipe while VM `id` has its turn. */
  ghost predicate EndAccounted(g: Flat, next: Flat, id: VmId, stop: Stop, p: PipeId) {
    if p !in g.pipes then
      p in next.pipes ==>
        && g.nextPipeSlot <= p < next.nextPipeSlot && next.nextPipeSlot == g.nextPipeSlot + 2
        && OtherPipe(p) in next.pipes && next.pipes[p] == id && next.pipes[OtherPipe(p)] == id
        && stop.Yield? && stop.message.OpenPipe?
    else if p in next.pipes then
      next.pipes[p] != g.pipes[p] ==>
        && g.pipes[p] == id && next.pipes[p] == g.nextVmId
        && stop.Yield? && stop.message.Spawn? && p in stop.message.spawnArgs.pipes
    else
      g.pipes[p] == id && id != ROOT && stop.Exit?
  }

  lemma DeliverAccounts(env: Env, g: Flat, id: VmId, message: Message, p: PipeId)
    requires Live(g) && id in g.states && id == message.vm && Deliver(env, g, message).Ok?
    ensures EndAccounted(g, Deliver(env, g, message).value, id, Yield(message), p)
    ensures g.nextPipeSlot <= Deliver(env, g, message).value.nextPipeSlot
  {
    hide Complete64, Complete8, Store64, BootMachine, StateOk, PendingOk;
  }

  lemma EndAccounts(g: Flat, id: VmId, code: int, p: PipeId)
    requires Shaped(g) && id in g.states && End(g, id, code).Ok?
    ensures EndAccounted(g, End(g, id, code).value, id, Exit(code), p)
    ensures g.nextPipeSlot == End(g, id, code).value.nextPipeSlot
  {
    hide Complete8, Woken;
  }

  /** Pipe ends are conserved: in a turn of VM `id` an end is created only by its own pipe call, both ends at
      once; it changes hands only from `id` to the VM it spawns; and it closes only when `id` terminates. */
  lemma PipeEndsAreConserved(env: Env, f: Flat, slice: TimeSlice, next: Flat) returns (id: VmId, stop: Stop)
    requires StepsTo(env, f, slice, next)
    ensures id in f.states && f.nextPipeSlot <= next.nextPipeSlot
    ensures forall p :: EndAccounted(f, next, id, stop, p)
  {
    hide Run, IoVm, IoState, Execute, EndAccounted, Deliver, End, StateOk, PendingOk;
    var g, j, r := TurnParts(env, f, slice);
    id, stop := j, r.stop;
    SelectedIsLive(g, id);
    ChargeKeepsLive(g, id, r.vm);
    var charged := Charge(g, id, r.vm);
    forall p ensures EndAccounted(f, next, id, stop, p) && f.nextPipeSlot <= next.nextPipeSlot {
      match r.stop
      case Yield(message) =>
        DeliverAccounts(env, charged, id, message, p);
        SameEnds(f, charged, next, id, stop, p);
      case Exit(code) =>
        EndAccounts(charged, id, code, p);
        SameEnds(f, charged, next, id, stop, p);
      case Stopped(_) =>
        NoEndMoves(f, next, id, stop, p);
    }
    assert EndAccounted(f, next, id, stop, 0);
  }

  lemma SameEnds(f: Flat, g: Flat, next: Flat, id: VmId, stop: Stop, p: PipeId)
    requires f.pipes == g.pipes && f.nextPipeSlot == g.nextPipeSlot && f.nextVmId == g.nextVmId
    requires EndAccounted(g, next, id, stop, p)
    ensures EndAccounted(f, next, id, stop, p)
  {
  }

  lemma NoEndMoves(f: Flat, next: Flat, id: VmId, stop: Stop, p: PipeId)
    requires f.pipes == next.pipes
    ensures EndAccounted(f, next, id, stop, p)
  {
  }

  /** A closed end never opens again. */
  lemma {:induction false} ClosedForever(env: Env, tr: seq<Flat>, slices: seq<TimeSlice>, p: PipeId)
    requires Trace(env, tr, slices) && p !in tr[0].pipes && p < tr[0].nextPipeSlot
    ensures p !in tr[|slices|].pipes && p < tr[|slices|].nextPipeSlot
    decreases |slices|
  {
    hide StepsTo;
    if slices != [] {
      assert StepsTo(env, tr[0], slices[0], tr[1]);
      var id, stop := PipeEndsAreConserved(env, tr[0], slices[0], tr[1]);
      assert EndAccounted(tr[0], tr[1], id, stop, p);
      ClosedForever(env, tr[1..], slices[1..], p);
    }
  }
}
