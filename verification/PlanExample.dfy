/** A program that keeps to its plan, wherever its slices end: the premise of the results about planned workloads is
    met. */
module PlanExample {
  import opened Words
  import T = Types
  import M = Machine
  import F = Flat
  import I = Invariants
  import L = Slicing
  import O = Singles
  import PlanCodec
  import opened Planner
  import opened PlanFacts
  import opened Guests
  import opened GuestInv
  import opened PlanBounds
  import opened PlanSizes
  import opened PlanTurns
  import opened PlanDrives

  /** The plan for a single VM. */
  const SOLO := Plan([0], [], [], Data([], [], []))

  const IDLE := M.Core(seq(32, i => if i == M.A7 then 93 else 0), 0, [], 0)

  /** A program that exits at once, with code 0. */
  const QUITS := M.Env((core: M.Core) => M.Ecall(1, core), core => M.HostExit(core, 0),
                       (data, argv) => Some(M.Booted(IDLE, 0)), [0], id => T.Missing)

  lemma SoloIsSound()
    ensures Sound(SOLO)
  {
    assert Choices([0], []);
    assert CreatedAt([0], [], 0, 0) == [] && AllPipeOps([0], [], 0) == [];
    assert AllPipeOps([0], [], 1) == [];
    assert Planned([0], [], SOLO.d, []);
    SmallPlansFit(SOLO);
  }

  /** What the program does in a turn: it exits, or its slice is too short for even that. */
  lemma QuitRuns(limit: nat, signal: F.Signal)
    ensures var vm := M.Vm(IDLE, 0, 0);
            F.Run(QUITS, T.ROOT, vm, 0, limit, signal) ==
            if signal == F.After(0) then F.RunResult(vm, F.Stopped(T.Pause))
            else if limit == 0 then F.RunResult(vm, F.Stopped(T.CyclesExceeded))
            else F.RunResult(M.Vm(IDLE, 1, 0), F.Exit(0))
  {
    assert IDLE.Reg(M.A7) == 93;
  }

  /** The steps of the plan before the exit: loading it, and finding nothing to create, spawn or move. */
  lemma SoloSteps()
    ensures Quietly(SOLO.d, Start(1), 0, 4).Some?
    ensures Through(Quietly(SOLO.d, Start(1), 0, 4).value, 0)
    ensures Quietly(SOLO.d, Start(1), 0, 4).value.guests[0].spawned == []
  {
    SoloIsSound();
    LoadsIfItFits(SOLO);
    hide PlanCodec.LoadPlan, PlanCodec.Witness, Sound;
    var s := Start(1);
    var s1 := SetPhase(s, 0, Creating(0));
    assert Do(SOLO.d, s, Alone(0)) == Some(s1);
  }

  const STATE: F.Flat := O.Alone(M.Vm(IDLE, 0, 0), 0)

  const INDEX: map<T.VmId, nat> := map[T.ROOT := 0]

  lemma NobodyMoves()
    ensures F.Shaped(STATE) && F.Io(STATE) == T.Ok(STATE) && F.Select(STATE) == Some(T.ROOT)
    ensures Advanced(SOLO.d, Start(1), Movers(STATE, INDEX)) == Start(1)
  {
    O.AloneIo(M.Vm(IDLE, 0, 0), 0);
    hide F.Io, F.Select;
    assert Movers(STATE, INDEX) == {};
    assert Advanced(SOLO.d, Start(1), {}).guests == Start(1).guests;
  }

  /** A turn leaves everything as it was, or the root exits in it with code 0. */
  lemma SoloTurn(slice: L.TimeSlice)
    ensures L.Steppable(STATE)
    ensures var t := F.Iterate(QUITS, STATE, slice.signal, slice.limit);
            if slice.signal == F.After(0) || slice.limit == 0 then t.Cut? && t.next == STATE
            else t.Turn? && I.Ended(t.next)
  {
    hide F.Iterate, F.Run, IDLE;
    var vm := M.Vm(IDLE, 0, 0);
    O.AloneTurn(QUITS, vm, 0, slice.signal, slice.limit);
    QuitRuns(slice.limit, slice.signal);
    assert F.Charge(STATE, T.ROOT, vm) == STATE;
  }

  /** It keeps to the plan: in a slice that is not cut it goes through its four steps and exits. */
  lemma SoloSlice(slice: L.TimeSlice)
    ensures F.Shaped(STATE)
    ensures var n := if slice.signal == F.After(0) || slice.limit == 0 then 0 else 4;
            && PlannedTurn(SOLO.d, Start(1), QUITS, STATE, INDEX, slice, n)
            && (n == 0 ==> TurnWorld(SOLO.d, Start(1), QUITS, STATE, INDEX, slice, n) == (Start(1), INDEX))
  {
    NobodyMoves();
    QuitRuns(slice.limit, slice.signal);
    SoloSteps();
    hide F.Io, F.Select, F.Run, Advanced, Movers, Do, Quiet, IDLE;
    assert Quietly(SOLO.d, Start(1), 0, 0) == Some(Start(1));
  }

  lemma {:induction false} SoloRun(slices: seq<L.TimeSlice>) returns (quiet: seq<nat>)
    ensures |quiet| == |slices| && I.Inv(STATE)
    ensures PlannedRun(SOLO.d, Start(1), QUITS, STATE, INDEX, slices, quiet)
    decreases |slices|
  {
    O.AloneIsLive(M.Vm(IDLE, 0, 0), 0);
    hide STATE, IDLE, QUITS, SOLO, Start;
    quiet := [];
    if slices != [] {
      SoloTurn(slices[0]);
      SoloSlice(slices[0]);
      I.IterateKeepsInv(QUITS, STATE, slices[0].signal, slices[0].limit);
      hide I.Live, F.Iterate, PlannedTurn, TurnWorld, I.Ended, STATE;
      if slices[0].signal == F.After(0) || slices[0].limit == 0 {
        var rest := SoloRun(slices[1..]);
        quiet := [0] + rest;
        assert quiet[1..] == rest;
      } else {
        quiet := [4] + seq(|slices| - 1, _ => 0);
      }
    }
  }

  lemma SoloBoots()
    ensures F.BootRoot(QUITS, F.EMPTY) == T.Ok(STATE) && I.Live(STATE) && |SOLO.parent| == 1
  {
    O.BootsAlone(QUITS, IDLE);
    O.AloneIsLive(M.Vm(IDLE, 0, 0), 0);
  }

  /** So there are workloads to which the results about plans apply. */
  lemma SoloKeepsToPlan()
    ensures Sound(SOLO) && KeepsToPlan(SOLO, QUITS)
  {
    SoloIsSound();
    SoloBoots();
    hide Sound, I.Live, I.Ended, PlannedRun, F.BootRoot, Start, STATE, SOLO, QUITS;
    forall slices: seq<L.TimeSlice>
      ensures exists quiet: seq<nat> ::
                |quiet| == |slices| && PlannedRun(SOLO.d, Start(|SOLO.parent|), QUITS, STATE, INDEX, slices, quiet)
    {
      var quiet := SoloRun(slices);
    }
  }
}
