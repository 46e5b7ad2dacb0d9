/** Two small programs for which `verify_tx` panics when it suspends the scheduler between two calls of `run`, and
    reports a successful exit when it does not. */
module Witness {
  import opened Words
  import opened Types
  import opened Machine
  import opened Syscalls
  import opened Ordered
  import opened Flat
  import opened Invariants
  import opened Deadlocks
  import opened Slicing
  import opened Turns
  import opened SchedulerFacts
  import opened Caches
  import opened VerifyTx

  // ---- The programs ----

  /** Memory that holds these 64-bit words. */
  function Cells(words: seq<u64>): (r: Memory)
    requires |words| <= 8
    ensures |r| == 8 * |words|
  {
    if words == [] then [] else ToLE(8, words[0]) + Cells(words[1..])
  }

  lemma {:induction false} CellAt(words: seq<u64>, i: nat)
    requires i < |words| <= 8
    ensures Load64(Cells(words), 8 * i) == Some(words[i])
    decreases i
  {
    var mem, rest := Cells(words), Cells(words[1..]);
    if i == 0 {
      assert mem[0..8] == ToLE(8, words[0]);
      Pow256Values();
      FromToLE(8, words[0]);
    } else {
      CellAt(words[1..], i - 1);
      assert mem[8 * i..8 * i + 8] == rest[8 * (i - 1)..8 * (i - 1) + 8];
    }
  }

  /** A VM about to make syscall `a7`; it goes on at `pc`. */
  function Calling(pc: u64, a7: u64, a0: u64, a1: u64, a2: u64, a5: u64, words: seq<u64>): Core
    requires |words| <= 8
  {
    Core(seq(32, i => if i == A0 then a0 else if i == A1 then a1 else if i == A2 then a2
                      else if i == A5 then a5 else if i == A7 then a7 else 0),
         pc, Cells(words), 0)
  }

  /** The root opens a pipe, spawns a child with the read end, writes one byte and exits; the child, which starts at 10,
      reads no bytes and exits. */
  function Next(pc: u64): Core {
    if pc == 0 then Calling(1, 2604, 0, 0, 0, 0, [0, 0])
    else if pc == 1 then Calling(2, 2601, 0, 3, 0, 24, SPAWN_CELLS)
    else if pc == 2 then Calling(3, 2605, 0, 8, 3, 0, [0, 1])
    else if pc == 10 then Calling(11, 2606, 0, 8, 2, 0, [0, 0])
    else Calling(pc, 93, 0, 0, 0, 0, [0, 0])
  }

  function Fresh(pc: u64): Core {
    Calling(pc, 0, 0, 0, 0, 0, [0, 0])
  }

  const PROGRAMS := Env((core: Core) => Ecall(1, Next(core.pc)), core => HostExit(core, 0),
                        (data, argv) => Some(Booted(Fresh(if data == [0] then 0 else 10), 0)), [0], id => Found([1]))

  /** The registers of a VM about to make a syscall. */
  lemma RegistersAt(pc: u64)
    ensures var core := Next(pc);
            && (pc == 0 ==> core.Reg(A7) == 2604 && core.Reg(A0) == 0)
            && (pc == 1 ==> core.Reg(A7) == 2601)
            && (pc == 2 ==> core.Reg(A7) == 2605 && core.Reg(A0) == 0 && core.Reg(A1) == 8 && core.Reg(A2) == 3)
            && (pc == 10 ==> core.Reg(A7) == 2606 && core.Reg(A0) == 0 && core.Reg(A1) == 8 && core.Reg(A2) == 2)
            && (pc == 3 || pc == 11 ==> core.Reg(A7) == 93)
  {
    hide Cells;
  }

  lemma NextPcs()
    ensures Next(0).pc == 1 && Next(1).pc == 2 && Next(2).pc == 3 && Next(10).pc == 11
    ensures Next(3).pc == 3 && Next(11).pc == 11
    ensures forall pc | pc in {0, 1, 2, 3, 10, 11} :: |Next(pc).mem| >= 16
  {
    hide Cells;
  }

  lemma NextMems()
    ensures Next(2).mem == Cells([0, 1]) && Next(10).mem == Cells([0, 0])
  {
    hide Cells;
  }

  lemma Executes(id: VmId, core: Core, now: nat)
    ensures Execute(PROGRAMS, id, core, now) ==
            match Handle(PROGRAMS, id, Next(core.pc), now + 1)
            case Done(next, charge) => Advanced(next, 1 + charge)
            case Yielded(next, message) => YieldedAt(next, 1, message)
            case Exited(next, code) => ExitedAt(next, 1, code)
            case Failed(error) => Broken(error)
  {
    hide Handle, Next;
  }

  lemma RootPipes(core: Core, now: nat)
    requires core.pc == 0
    ensures Execute(PROGRAMS, 0, core, now) == YieldedAt(Next(0), 1, OpenPipe(0, 0, 8))
  {
    hide Next, Execute;
    RegistersAt(0);
    Executes(0, core, now);
  }

  lemma RootSpawns(core: Core, now: nat)
    requires core.pc == 1
    ensures Execute(PROGRAMS, 0, core, now) == YieldedAt(Next(1), 1, Spawn(0, SPAWN_ARGS))
  {
    RegistersAt(1);
    Executes(0, core, now);
    SpawnStep(0);
    hide Next, Execute, SpawnCall;
  }

  lemma RootWrites(core: Core, now: nat)
    requires core.pc == 2
    ensures Execute(PROGRAMS, 0, core, now) == YieldedAt(Next(2), 1, PipeWrite(0, PipeIoArgs(3, 1, 0, 8)))
  {
    hide Next, Execute, Cells, Load64;
    RegistersAt(2);
    NextMems();
    Executes(0, core, now);
    CellAt([0, 1], 1);
  }

  lemma RootExits(core: Core, now: nat)
    requires core.pc == 3
    ensures Execute(PROGRAMS, 0, core, now) == ExitedAt(Next(3), 1, 0) && Next(3).pc == 3
  {
    RegistersAt(3);
    Executes(0, core, now);
    assert Next(3).pc == 3;
    hide Next, Execute;
  }

  lemma ChildReads(core: Core, now: nat)
    requires core.pc == 10
    ensures Execute(PROGRAMS, 1, core, now) == YieldedAt(Next(10), 1, PipeRead(1, PipeIoArgs(2, 0, 0, 8)))
  {
    hide Next, Execute, Cells, Load64;
    RegistersAt(10);
    NextMems();
    Executes(1, core, now);
    CellAt([0, 0], 1);
  }

  lemma ChildExits(core: Core, now: nat)
    requires core.pc == 11
    ensures Execute(PROGRAMS, 1, core, now) == ExitedAt(Next(11), 1, 0) && Next(11).pc == 11
  {
    RegistersAt(11);
    Executes(1, core, now);
    assert Next(11).pc == 11;
    hide Next, Execute;
  }

  const SPAWN_ARGS := SpawnArgs(CellDep(0), 0, 0, [], [2], 0)

  const SPAWN_CELLS: seq<u64> := [0, 2, 0, 0, 8]

  lemma PassedList()
    ensures PipeList(Cells(SPAWN_CELLS), 8) == Some([2])
  {
    CellAt(SPAWN_CELLS, 1);
    CellAt(SPAWN_CELLS, 2);
    hide Cells, Load64, PipeList;
    PipeListMeaning(Cells(SPAWN_CELLS), 8, [2]);
  }

  lemma SpawnCells()
    ensures Load64(Cells(SPAWN_CELLS), 24) == Some(0) && Load64(Cells(SPAWN_CELLS), 32) == Some(8)
  {
    CellAt(SPAWN_CELLS, 3);
    CellAt(SPAWN_CELLS, 4);
  }

  lemma SpawnRegs()
    ensures var core := Next(1);
            && core.mem == Cells(SPAWN_CELLS)
            && core.Reg(A0) == 0 && core.Reg(A1) == 3 && core.Reg(A2) == 0 && core.Reg(A3) == 0
            && core.Reg(A4) == 0 && core.Reg(A5) == 24
  {
    hide Cells;
  }

  lemma SpawnYields(id: VmId, core: Core)
    requires core.Reg(A0) == 0 && core.Reg(A1) == 3 && core.Reg(A2) == 0 && core.Reg(A3) == 0
    requires core.Reg(A4) == 0 && core.Reg(A5) == 24
    requires Load64(core.mem, 24) == Some(0) && Load64(core.mem, 32) == Some(8) && PipeList(core.mem, 8) == Some([2])
    ensures SpawnCall(PROGRAMS, id, core) == Yielded(core, Spawn(id, SPAWN_ARGS))
  {
    hide Load64, PipeList;
    assert ToDataPieceId(3, 0) == Some(CellDep(0));
    assert SpawnBoundsCode([1], 0, 0) == SUCCESS;
  }

  lemma SpawnStep(id: VmId)
    ensures SpawnCall(PROGRAMS, id, Next(1)) == Yielded(Next(1), Spawn(id, SPAWN_ARGS))
  {
    hide *;
    SpawnCells();
    PassedList();
    SpawnRegs();
    SpawnYields(id, Next(1));
  }

  // ---- Its states ----

  /** What matters of a state. Every machine has no cycles pending and room for two results. */
  datatype Scene = Scene(total: nat, next: VmId, slot: PipeId, states: map<VmId, VmState>, pipes: map<PipeId, VmId>,
                         terminated: map<VmId, int>, pcs: map<VmId, u64>)

  ghost predicate IsAt(f: Flat, s: Scene) {
    && f.totalCycles == s.total && f.nextVmId == s.next && f.nextPipeSlot == s.slot && f.states == s.states
    && f.pipes == s.pipes && f.terminated == s.terminated && f.machines.Keys == s.states.Keys
    && s.pcs.Keys == s.states.Keys
    && forall id | id in f.machines ::
         f.machines[id].cycles == 0 && f.machines[id].core.pc == s.pcs[id] && |f.machines[id].core.mem| >= 16
  }

  const READS := WaitForRead(2, 0, 0, 8)
  const WRITES := WaitForWrite(3, 0, 1, 0, 8)

  const BOOTED := Scene(0, 1, 2, map[0 := Runnable], map[], map[], map[0 := 0])
  const PIPED := Scene(1, 1, 4, map[0 := Runnable], map[2 := 0, 3 := 0], map[], map[0 := 1])
  const SPAWNED :=
    Scene(2, 2, 4, map[0 := Runnable, 1 := Runnable], map[2 := 1, 3 := 0], map[], map[0 := 2, 1 := 10])
  const READING := Scene(3, 2, 4, map[0 := Runnable, 1 := READS], map[2 := 1, 3 := 0], map[], map[0 := 2, 1 := 11])
  const WRITING := Scene(4, 2, 4, map[0 := WRITES, 1 := READS], map[2 := 1, 3 := 0], map[], map[0 := 3, 1 := 11])
  const SERVED := Scene(4, 2, 4, map[0 := WRITES, 1 := Runnable], map[2 := 1, 3 := 0], map[], map[0 := 3, 1 := 11])
  const CLOSED := Scene(5, 2, 4, map[0 := WRITES], map[3 := 0], map[1 := 0], map[0 := 3])
  const WOKEN := Scene(5, 2, 4, map[0 := Runnable], map[3 := 0], map[1 := 0], map[0 := 3])

  lemma Boots()
    ensures BootRoot(PROGRAMS, EMPTY).Ok? && Live(BootRoot(PROGRAMS, EMPTY).value)
    ensures IsAt(BootRoot(PROGRAMS, EMPTY).value, BOOTED)
  {
    BootedRootIsLive(PROGRAMS);
    assert Slice([0], 0, TWO64 - 1).0 == [0];
  }

  /** No pipe is ready and the VM to run is `id`. */
  lemma StaysQuiet(f: Flat, s: Scene, id: VmId)
    requires Live(f) && IsAt(f, s)
    requires id in s.states && s.states[id].Runnable? && forall j | j in s.states && s.states[j].Runnable? :: j <= id
    requires forall j, k | j in s.states && k in s.states && Waits(s.states[j]) && Waits(s.states[k]) :: j == k
    requires forall j | j in s.states && Waits(s.states[j]) :: OtherPipe(s.states[j].pipe) in s.pipes
    ensures Io(f) == Ok(f) && Select(f) == Some(id)
  {
    forall r, w ensures !Matched(f, r, w) { }
    QuietIo(f);
    assert id in RunnableIds(f);
    LargestIsUnique(RunnableIds(f), id);
  }

  lemma ChargedAt(f: Flat, s: Scene, id: VmId, vm: Vm)
    requires IsAt(f, s) && id in s.states && |vm.core.mem| >= 16
    ensures vm.cycles == 1 ==> IsAt(Charge(f, id, vm), Ran(s, id, vm.core.pc))
  {
  }

  lemma AtStart(f: Flat, s: Scene, id: VmId)
    requires IsAt(f, s) && id in f.machines
    ensures f.machines[id].cycles == 0 && f.totalCycles == s.total && id in s.states
    ensures id in s.pcs && f.machines[id].core.pc == s.pcs[id]
  {
  }

  lemma StepRuns(f: Flat, id: VmId)
    requires id in f.machines && f.machines[id].cycles == 0
    ensures var vm := f.machines[id];
            var r := Run(PROGRAMS, id, vm, f.totalCycles, 1, Never);
            match Execute(PROGRAMS, id, vm.core, f.totalCycles)
            case YieldedAt(core, spent, message) => r == RunResult(Vm(core, spent, vm.exitCode), Yield(message))
            case ExitedAt(core, spent, code) => r == RunResult(Vm(core, spent, code), Exit(code))
            case _ => true
  {
    hide Execute;
  }

  /** A turn in which VM `id` makes a syscall of the scheduler. */
  lemma YieldingTurn(f: Flat, s: Scene, id: VmId, core: Core, m: Message) returns (charged: Flat)
    requires Live(f) && IsAt(f, s) && s.total < 100 && Io(f) == Ok(f) && Select(f) == Some(id)
    requires id in f.machines && Execute(PROGRAMS, id, f.machines[id].core, f.totalCycles) == YieldedAt(core, 1, m)
    requires m.vm == id && |core.mem| >= 16
    ensures Steppable(f) && IsAt(charged, Ran(s, id, core.pc))
    ensures id in charged.machines && id < charged.nextVmId
    ensures Deliver(PROGRAMS, charged, m).Ok? ==>
              Iterate(PROGRAMS, f, Never, 1) == Turn(Deliver(PROGRAMS, charged, m).value, 1)
  {
    hide Live, Io, Select, Run, Execute, Deliver, IsAt, PROGRAMS, Iterate;
    TurnFrom(PROGRAMS, f, Never, 1, f, id);
    AtStart(f, s, id);
    charged := Charge(f, id, Vm(core, 1, f.machines[id].exitCode));
    ChargedAt(f, s, id, Vm(core, 1, f.machines[id].exitCode));
    StepRuns(f, id);
  }

  /** A turn in which VM `id` exits. */
  lemma ExitingTurn(f: Flat, s: Scene, id: VmId, core: Core) returns (charged: Flat)
    requires Live(f) && IsAt(f, s) && s.total < 100 && Io(f) == Ok(f) && Select(f) == Some(id)
    requires id in f.machines && Execute(PROGRAMS, id, f.machines[id].core, f.totalCycles) == ExitedAt(core, 1, 0)
    requires |core.mem| >= 16
    ensures Steppable(f) && IsAt(charged, Ran(s, id, core.pc))
    ensures Shaped(charged) && id in charged.machines && charged.machines[id].exitCode == 0
    ensures End(charged, id, 0).Ok? ==> Iterate(PROGRAMS, f, Never, 1) == Turn(End(charged, id, 0).value, 1)
  {
    hide Live, Io, Select, Run, Execute, End, IsAt, PROGRAMS, Iterate;
    TurnFrom(PROGRAMS, f, Never, 1, f, id);
    AtStart(f, s, id);
    charged := Charge(f, id, Vm(core, 1, 0));
    ChargedAt(f, s, id, Vm(core, 1, 0));
    StepRuns(f, id);
  }

  lemma StaysLive(f: Flat, s: Scene)
    requires Live(f) && Steppable(f) && Iterate(PROGRAMS, f, Never, 1).Turn?
    requires IsAt(Iterate(PROGRAMS, f, Never, 1).next, s) && s.states != map[ROOT := Terminated]
    ensures Live(Iterate(PROGRAMS, f, Never, 1).next)
  {
    hide Live, Iterate;
    IterateKeepsInv(PROGRAMS, f, Never, 1);
  }

  /** The scene once the machine of `id` has been charged one cycle and goes on at `pc`. */
  function Ran(s: Scene, id: VmId, pc: u64): Scene {
    s.(total := s.total + 1, pcs := s.pcs[id := pc])
  }

  /** VM `id` is at `scene`, runs next, and does what its program says at `pc`. */
  ghost predicate Steps(f: Flat, scene: Scene, id: VmId, pc: u64) {
    && scene.total < 100 && Shaped(f) && Io(f) == Ok(f) && Select(f) == Some(id) && id in f.machines
    && |Next(pc).mem| >= 16 && f.machines[id].core.pc == pc
  }

  // ---- Turn by turn ----

  lemma PipeOpens(f: Flat)
    requires IsAt(f, Ran(BOOTED, 0, Next(0).pc)) && 0 in f.machines && 0 < f.nextVmId
    ensures Deliver(PROGRAMS, f, OpenPipe(0, 0, 8)).Ok? && IsAt(Deliver(PROGRAMS, f, OpenPipe(0, 0, 8)).value, PIPED)
  {
    hide ToLE, Cells;
  }

  lemma BootedSteps(f: Flat)
    requires Live(f) && IsAt(f, BOOTED)
    ensures Steps(f, BOOTED, 0, 0) && PIPED.states != map[ROOT := Terminated]
  {
    AtStart(f, BOOTED, 0);
    StaysQuiet(f, BOOTED, 0);
  }

  /** The root opens its pipe. */
  lemma FirstTurn(f: Flat)
    requires Live(f) && IsAt(f, BOOTED)
    ensures Steppable(f)
    ensures var t := Iterate(PROGRAMS, f, Never, 1); t.Turn? && Live(t.next) && IsAt(t.next, PIPED)
  {
    hide Live, Io, Select, Execute, Deliver, Iterate, IsAt, Next, PROGRAMS, BOOTED, PIPED, Ran;
    BootedSteps(f);
    RootPipes(f.machines[0].core, f.totalCycles);
    assert Steps(f, BOOTED, 0, 0);
    var charged := YieldingTurn(f, BOOTED, 0, Next(0), OpenPipe(0, 0, 8));
    PipeOpens(charged);
    StaysLive(f, PIPED);
  }

  lemma CompleteFits(vm: Vm, addr: nat, v: nat)
    requires |vm.core.mem| >= 16 && addr <= 8
    ensures var done := Complete64(vm, addr, v);
            && done.Some? && |done.value.core.mem| == |vm.core.mem|
            && done.value.core.pc == vm.core.pc && done.value.cycles == vm.cycles
  {
  }

  lemma Handed()
    ensures Handover(map[2 := 0, 3 := 0], [2], 1) == map[2 := 1, 3 := 0]
  {
  }

  lemma SpawnGives(f: Flat)
    requires f.nextVmId == 1 && f.pipes == map[2 := 0, 3 := 0] && 0 in f.machines && |f.machines[0].core.mem| >= 16
    ensures var done := Complete64(f.machines[0], 0, 1);
            && done.Some?
            && Deliver(PROGRAMS, f, Spawn(0, SPAWN_ARGS)) ==
               Ok(f.(nextVmId := 2, states := f.states[1 := Runnable], pipes := map[2 := 1, 3 := 0],
                     machines := f.machines[1 := Vm(Fresh(10), 0, 0)][0 := done.value]))
  {
    hide Complete64, BootMachine, PROGRAMS, Fresh, Handover;
    ChildBoots();
    CompleteFits(f.machines[0], 0, 1);
    Handed();
  }

  lemma AddMachineAt(f: Flat, s: Scene, id: VmId, vm: Vm, done: Vm, pipes: map<PipeId, VmId>)
    requires IsAt(f, s) && id in s.states && s.next !in s.states && id in f.machines
    requires vm.cycles == 0 && |vm.core.mem| >= 16
    requires done.cycles == 0 && done.core.pc == f.machines[id].core.pc && |done.core.mem| >= 16
    ensures IsAt(f.(nextVmId := s.next + 1, states := f.states[s.next := Runnable], pipes := pipes,
                    machines := f.machines[s.next := vm][id := done]),
                 s.(next := s.next + 1, states := s.states[s.next := Runnable], pipes := pipes,
                    pcs := s.pcs[s.next := vm.core.pc]))
  {
  }

  lemma SpawnedScene()
    ensures var s := Ran(PIPED, 0, 2);
            && s.pipes == map[2 := 0, 3 := 0] && s.next == 1 && 0 in s.states && 1 !in s.states
            && s.(next := 2, states := s.states[1 := Runnable], pipes := map[2 := 1, 3 := 0], pcs := s.pcs[1 := 10]) ==
               SPAWNED
  {
    assert PIPED.states[1 := Runnable] == SPAWNED.states;
    assert PIPED.pcs[0 := 2][1 := 10] == SPAWNED.pcs;
  }

  lemma ChildSpawns(f: Flat)
    requires IsAt(f, Ran(PIPED, 0, Next(1).pc)) && 0 in f.machines && 0 < f.nextVmId
    ensures Deliver(PROGRAMS, f, Spawn(0, SPAWN_ARGS)).Ok?
    ensures IsAt(Deliver(PROGRAMS, f, Spawn(0, SPAWN_ARGS)).value, SPAWNED)
  {
    hide PIPED, SPAWNED, Deliver, PROGRAMS, Fresh, Next, Ran, Complete64;
    NextPcs();
    ChildBoots();
    SpawnedScene();
    SpawnGives(f);
    CompleteFits(f.machines[0], 0, 1);
    AddMachineAt(f, Ran(PIPED, 0, 2), 0, Vm(Fresh(10), 0, 0), Complete64(f.machines[0], 0, 1).value,
                 map[2 := 1, 3 := 0]);
  }

  lemma ChildBoots()
    ensures BootMachine(PROGRAMS, CellDep(0), 0, 0, []) == Ok(Vm(Fresh(10), 0, 0))
    ensures Fresh(10).pc == 10 && |Fresh(10).mem| == 16
  {
    assert Slice([1], 0, 0).0 == [1];
    hide Cells;
  }

  lemma PipedSteps(f: Flat)
    requires Live(f) && IsAt(f, PIPED)
    ensures Steps(f, PIPED, 0, 1) && SPAWNED.states != map[ROOT := Terminated]
  {
    AtStart(f, PIPED, 0);
    StaysQuiet(f, PIPED, 0);
  }

  /** The root spawns the child. */
  lemma SecondTurn(f: Flat)
    requires Live(f) && IsAt(f, PIPED)
    ensures Steppable(f)
    ensures var t := Iterate(PROGRAMS, f, Never, 1); t.Turn? && Live(t.next) && IsAt(t.next, SPAWNED)
  {
    hide Live, Io, Select, Execute, Deliver, Iterate, IsAt, Next, PROGRAMS, PIPED, SPAWNED, Ran;
    PipedSteps(f);
    RootSpawns(f.machines[0].core, f.totalCycles);
    var charged := YieldingTurn(f, PIPED, 0, Next(1), Spawn(0, SPAWN_ARGS));
    ChildSpawns(charged);
    StaysLive(f, SPAWNED);
  }

  lemma SetStateAt(f: Flat, s: Scene, id: VmId, state: VmState)
    requires IsAt(f, s) && id in s.states
    ensures IsAt(f.(states := f.states[id := state]), s.(states := s.states[id := state]))
  {
    assert s.states[id := state].Keys == s.states.Keys;
  }

  lemma ReadGives(f: Flat)
    requires f.pipes == map[2 := 1, 3 := 0] && 1 in f.machines && 1 < f.nextVmId
    ensures Deliver(PROGRAMS, f, PipeRead(1, PipeIoArgs(2, 0, 0, 8))) == Ok(f.(states := f.states[1 := READS]))
  {
    hide PROGRAMS;
  }

  lemma ReadingScene()
    ensures var s := Ran(SPAWNED, 1, 11);
            s.pipes == map[2 := 1, 3 := 0] && 1 in s.states && s.(states := s.states[1 := READS]) == READING
  {
    assert SPAWNED.states[1 := READS] == READING.states;
    assert SPAWNED.pcs[1 := 11] == READING.pcs;
  }

  lemma ChildWaits(f: Flat)
    requires IsAt(f, Ran(SPAWNED, 1, Next(10).pc)) && 1 in f.machines && 1 < f.nextVmId
    ensures var m := PipeRead(1, PipeIoArgs(2, 0, 0, 8));
            Deliver(PROGRAMS, f, m).Ok? && IsAt(Deliver(PROGRAMS, f, m).value, READING)
  {
    hide READING, SPAWNED, Deliver, PROGRAMS, Next, Ran;
    NextPcs();
    ReadingScene();
    SetStateAt(f, Ran(SPAWNED, 1, 11), 1, READS);
    ReadGives(f);
  }

  lemma SpawnedSteps(f: Flat)
    requires Live(f) && IsAt(f, SPAWNED)
    ensures Steps(f, SPAWNED, 1, 10) && READING.states != map[ROOT := Terminated]
  {
    AtStart(f, SPAWNED, 1);
    StaysQuiet(f, SPAWNED, 1);
  }

  /** The child reads. */
  lemma ThirdTurn(f: Flat)
    requires Live(f) && IsAt(f, SPAWNED)
    ensures Steppable(f)
    ensures var t := Iterate(PROGRAMS, f, Never, 1); t.Turn? && Live(t.next) && IsAt(t.next, READING)
  {
    hide Live, Io, Select, Execute, Deliver, Iterate, IsAt, Next, PROGRAMS, SPAWNED, READING, Ran;
    SpawnedSteps(f);
    ChildReads(f.machines[1].core, f.totalCycles);
    var charged := YieldingTurn(f, SPAWNED, 1, Next(10), PipeRead(1, PipeIoArgs(2, 0, 0, 8)));
    ChildWaits(charged);
    StaysLive(f, READING);
  }

  lemma WriteGives(f: Flat)
    requires f.pipes == map[2 := 1, 3 := 0] && 0 in f.machines && 0 < f.nextVmId
    ensures Deliver(PROGRAMS, f, PipeWrite(0, PipeIoArgs(3, 1, 0, 8))) == Ok(f.(states := f.states[0 := WRITES]))
  {
    hide PROGRAMS;
  }

  lemma WritingScene()
    ensures var s := Ran(READING, 0, 3);
            s.pipes == map[2 := 1, 3 := 0] && 0 in s.states && s.(states := s.states[0 := WRITES]) == WRITING
  {
    assert READING.states[0 := WRITES] == WRITING.states;
    assert READING.pcs[0 := 3] == WRITING.pcs;
  }

  lemma RootWaits(f: Flat)
    requires IsAt(f, Ran(READING, 0, Next(2).pc)) && 0 in f.machines && 0 < f.nextVmId
    ensures var m := PipeWrite(0, PipeIoArgs(3, 1, 0, 8));
            Deliver(PROGRAMS, f, m).Ok? && IsAt(Deliver(PROGRAMS, f, m).value, WRITING)
  {
    hide READING, WRITING, Deliver, PROGRAMS, Next, Ran;
    NextPcs();
    WritingScene();
    SetStateAt(f, Ran(READING, 0, 3), 0, WRITES);
    WriteGives(f);
  }

  lemma ReadingSteps(f: Flat)
    requires Live(f) && IsAt(f, READING)
    ensures Steps(f, READING, 0, 2) && WRITING.states != map[ROOT := Terminated]
  {
    AtStart(f, READING, 0);
    StaysQuiet(f, READING, 0);
  }

  /** The root writes. */
  lemma FourthTurn(f: Flat)
    requires Live(f) && IsAt(f, READING)
    ensures Steppable(f)
    ensures var t := Iterate(PROGRAMS, f, Never, 1); t.Turn? && Live(t.next) && IsAt(t.next, WRITING)
  {
    hide Live, Io, Select, Execute, Deliver, Iterate, IsAt, Next, PROGRAMS, READING, WRITING, Ran;
    ReadingSteps(f);
    RootWrites(f.machines[0].core, f.totalCycles);
    var charged := YieldingTurn(f, READING, 0, Next(2), PipeWrite(0, PipeIoArgs(3, 1, 0, 8)));
    RootWaits(charged);
    StaysLive(f, WRITING);
  }

  lemma EndGives(f: Flat)
    requires Shaped(f) && f.states == SERVED.states && f.pipes == map[2 := 1, 3 := 0]
    ensures 0 in f.machines
    ensures EndOther(f, 1, 0) == Ok(f.(states := map[0 := WRITES], machines := map[0 := f.machines[0]],
                                       pipes := map[3 := 0], terminated := f.terminated[1 := 0]))
  {
    NobodyJoins(f);
    var g := EndOther(f, 1, 0);
    hide Woken;
    assert g.Ok?;
    assert g.value.states == map[0 := WRITES];
    assert g.value.pipes == map[3 := 0];
    assert g.value.machines == map[0 := f.machines[0]];
  }

  lemma ChildEnds(f: Flat)
    requires IsAt(f, Ran(SERVED, 1, 11)) && Shaped(f)
    ensures EndOther(f, 1, 0).Ok? && IsAt(EndOther(f, 1, 0).value, CLOSED)
  {
    hide EndOther;
    EndGives(f);
  }

  lemma NobodyJoins(f: Flat)
    requires Shaped(f) && f.states == SERVED.states
    ensures forall j | j in f.states :: !Joins(f, j, 1) && Woken(f, j, 1, 0) == Some(f.machines[j])
  {
  }

  lemma ServedSteps(f: Flat)
    requires Live(f) && IsAt(f, SERVED)
    ensures Steps(f, SERVED, 1, 11) && CLOSED.states != map[ROOT := Terminated]
  {
    AtStart(f, SERVED, 1);
    StaysQuiet(f, SERVED, 1);
  }

  /** The child exits. */
  lemma FifthTurn(f: Flat)
    requires Live(f) && IsAt(f, SERVED)
    ensures Steppable(f)
    ensures var t := Iterate(PROGRAMS, f, Never, 1); t.Turn? && Live(t.next) && IsAt(t.next, CLOSED)
  {
    hide Live, Io, Select, Execute, EndOther, Iterate, IsAt, Next, PROGRAMS, SERVED, CLOSED, Ran;
    ServedSteps(f);
    ChildExits(f.machines[1].core, f.totalCycles);
    var charged := ExitingTurn(f, SERVED, 1, Next(11));
    ChildEnds(charged);
    StaysLive(f, CLOSED);
  }

  lemma RootEnds(f: Flat)
    requires IsAt(f, Ran(WOKEN, 0, 3)) && ROOT in f.machines && f.machines[ROOT].exitCode == 0 && Shaped(f)
    ensures var g := End(f, ROOT, 0);
            g.Ok? && Ended(g.value) && g.value.totalCycles == 6 && g.value.terminated[ROOT] == 0
  {
  }

  lemma WokenSteps(f: Flat)
    requires Live(f) && IsAt(f, WOKEN)
    ensures Steps(f, WOKEN, 0, 3)
  {
    AtStart(f, WOKEN, 0);
    StaysQuiet(f, WOKEN, 0);
  }

  /** The root exits. */
  lemma SixthTurn(f: Flat)
    requires Live(f) && IsAt(f, WOKEN)
    ensures Steppable(f)
    ensures var t := Iterate(PROGRAMS, f, Never, 1);
            t.Turn? && Ended(t.next) && t.next.totalCycles == 6 && t.next.terminated[ROOT] == 0
  {
    hide Live, Io, Select, Execute, Iterate, IsAt, Next, PROGRAMS, WOKEN, Ran, Ended, End;
    WokenSteps(f);
    RootExits(f.machines[0].core, f.totalCycles);
    var charged := ExitingTurn(f, WOKEN, 0, Next(3));
    RootEnds(charged);
  }

  // ---- Call by call of `run` ----

  /** Input and output leads to scene `s`, where VM `id` runs next. */
  ghost predicate SettlesTo(f: Flat, s: Scene, id: VmId)
    requires Shaped(f)
  {
    Io(f).Ok? && IsAt(Io(f).value, s) && Select(Io(f).value) == Some(id) && s.total < 100
  }

  /** A turn with limit 0 settles input and output and is cut. */
  lemma ZeroTurn(f: Flat, s: Scene, id: VmId)
    requires Live(f) && Shaped(f) && SettlesTo(f, s, id)
    ensures Steppable(f)
    ensures var t := Iterate(PROGRAMS, f, Never, 0); t.Cut? && Live(t.next) && IsAt(t.next, s)
  {
    hide Live, Io, Select, Run, IsAt, PROGRAMS, Iterate, Charge;
    var g := Io(f).value;
    TurnFrom(PROGRAMS, f, Never, 0, g, id);
    AtStart(g, s, id);
    ZeroStops(g, id);
    SameCharge(g, s, id);
    IterateKeepsInv(PROGRAMS, f, Never, 0);
  }

  lemma ZeroStops(g: Flat, id: VmId)
    requires id in g.machines && g.machines[id].cycles == 0
    ensures Run(PROGRAMS, id, g.machines[id], g.totalCycles, 0, Never) ==
            RunResult(g.machines[id], Stopped(CyclesExceeded))
  {
  }

  lemma SameCharge(g: Flat, s: Scene, id: VmId)
    requires IsAt(g, s) && id in g.machines
    ensures IsAt(Charge(g, id, g.machines[id]), s) && g.totalCycles + g.machines[id].cycles == s.total
  {
  }

  lemma StaysSettled(f: Flat, s: Scene, id: VmId, pc: u64)
    requires Live(f) && IsAt(f, s) && Steps(f, s, id, pc)
    ensures Shaped(f) && SettlesTo(f, s, id)
  {
  }

  lemma RunsNext(f: Flat, s: Scene, id: VmId)
    requires IsAt(f, s) && id in s.states && s.states[id].Runnable?
    requires forall j | j in s.states && s.states[j].Runnable? :: j <= id
    ensures Select(f) == Some(id)
  {
    assert id in RunnableIds(f);
    LargestIsUnique(RunnableIds(f), id);
  }

  lemma ServedAt(f: Flat, s: Scene, id: VmId, done: Vm)
    requires IsAt(f, s) && id in s.states && id in f.machines
    requires done.cycles == 0 && done.core.pc == f.machines[id].core.pc && |done.core.mem| >= 16
    ensures IsAt(f.(states := f.states[id := Runnable], machines := f.machines[id := done]),
                 s.(states := s.states[id := Runnable]))
  {
    assert s.states[id := Runnable].Keys == s.states.Keys;
  }

  /** Only VM `id` is served. */
  lemma IoOfOne(f: Flat, id: VmId, done: Vm)
    requires Shaped(f) && id in f.states && IoVm(f, id) == Some(done) && IoState(f, id) == Runnable
    requires forall j | j in f.states && j != id :: IoVm(f, j) == Some(f.machines[j]) && IoState(f, j) == f.states[j]
    ensures Io(f) == Ok(f.(states := f.states[id := Runnable], machines := f.machines[id := done]))
  {
    hide IoVm, IoState;
    assert Io(f).value.states == f.states[id := Runnable];
    assert Io(f).value.machines == f.machines[id := done];
  }

  lemma WritingIo(f: Flat)
    requires Live(f) && f.states == WRITING.states && f.pipes == WRITING.pipes
    requires 1 in f.machines && Complete64(f.machines[1], 8, 0).Some?
    ensures Shaped(f) && Io(f) == Ok(f.(states := f.states[1 := Runnable],
                                        machines := f.machines[1 := Complete64(f.machines[1], 8, 0).value]))
  {
    LiveShape(f);
    WritingVms(f);
    hide Live, Complete64, IoVm, IoState, Io;
    IoOfOne(f, 1, Complete64(f.machines[1], 8, 0).value);
  }

  lemma WritingVms(f: Flat)
    requires Shaped(f) && f.states == WRITING.states && f.pipes == WRITING.pipes
    ensures 0 in f.machines && 1 in f.machines
    ensures IoVm(f, 1) == Complete64(f.machines[1], 8, 0) && IoVm(f, 0) == Some(f.machines[0])
    ensures IoState(f, 1) == Runnable && IoState(f, 0) == WRITES
  {
    hide Complete64;
    assert Matched(f, 1, 0) && PeerOf(f, 1) == Some(0) && PeerOf(f, 0) == Some(1);
    assert Chunk(f, 1, 0) == Some([]);
  }

  lemma ServedScene()
    ensures 1 in WRITING.states && WRITING.(states := WRITING.states[1 := Runnable]) == SERVED
  {
    assert WRITING.states[1 := Runnable] == SERVED.states;
  }

  /** The child gets its no bytes, the root's byte stays where it is. */
  lemma WritingSettles(f: Flat)
    requires Live(f) && IsAt(f, WRITING)
    ensures Shaped(f) && SettlesTo(f, SERVED, 1)
  {
    LiveShape(f);
    CompleteFits(f.machines[1], 8, 0);
    WritingIo(f);
    ServedScene();
    hide Live, Complete64, Io, Select;
    ServedAt(f, WRITING, 1, Complete64(f.machines[1], 8, 0).value);
    RunsNext(Io(f).value, SERVED, 1);
  }

  lemma ClosedIo(f: Flat)
    requires Live(f) && f.states == CLOSED.states && f.pipes == CLOSED.pipes
    requires 0 in f.machines && Complete64(f.machines[0], 8, 0).Some?
    ensures Shaped(f) && Io(f) == Ok(f.(states := f.states[0 := Runnable],
                                        machines := f.machines[0 := Complete64(f.machines[0], 8, 0).value]))
  {
    hide Live, Complete64, Io;
    LiveShape(f);
    assert IoVm(f, 0) == Complete64(f.machines[0], 8, 0) && IoState(f, 0) == Runnable;
    IoOfOne(f, 0, Complete64(f.machines[0], 8, 0).value);
  }

  lemma WokenScene()
    ensures 0 in CLOSED.states && CLOSED.(states := CLOSED.states[0 := Runnable]) == WOKEN
  {
    assert CLOSED.states[0 := Runnable] == WOKEN.states;
  }

  /** The root learns that nothing more can be written. */
  lemma ClosedSettles(f: Flat)
    requires Live(f) && IsAt(f, CLOSED)
    ensures Shaped(f) && ClosedWaiter(f, 0) && SettlesTo(f, WOKEN, 0)
  {
    hide Live, Complete64, Io, Select;
    LiveShape(f);
    CompleteFits(f.machines[0], 8, 0);
    ClosedIo(f);
    WokenScene();
    ServedAt(f, CLOSED, 0, Complete64(f.machines[0], 8, 0).value);
    RunsNext(Io(f).value, WOKEN, 0);
  }

  /** Turn by turn: one with limit 1 from scene `a` to `b`, and one with limit 0 that settles at `c`. */
  ghost predicate RunsTo(f: Flat, b: Scene, c: Scene, id: VmId)
    requires Steppable(f)
  {
    var t := Iterate(PROGRAMS, f, Never, 1);
    && t.Turn? && Live(t.next) && Shaped(t.next) && IsAt(t.next, b) && SettlesTo(t.next, c, id)
    && |b.states| <= 4 && |c.states| <= 4
  }

  lemma RunLands(f: Flat, b: Scene, c: Scene, id: VmId)
    requires Live(f) && Steppable(f) && RunsTo(f, b, c, id)
    ensures var d := RunDrive(PROGRAMS, f, LimitCycles(1)); d.Unfinished? && Live(d.f) && IsAt(d.f, c)
  {
    hide Live, Iterate, IsAt, SettlesTo, PROGRAMS, Drive, RunSlices, RunDrive;
    var h := Iterate(PROGRAMS, f, Never, 1).next;
    RunMakesOneTurn(PROGRAMS, f, LimitCycles(1));
    LiveNotEnded(h);
    ZeroTurn(h, c, id);
  }

  /** With all machines in the cache they all stay there, and the call does not panic. */
  lemma RunKeepsCache(f: Flat, b: Scene, c: Scene, id: VmId, keys: set<VmId>)
    requires Live(f) && Steppable(f) && RunsTo(f, b, c, id) && AllCached(f, keys)
    ensures var mode := LimitCycles(1);
            && !RunPanics(PROGRAMS, f, keys, mode) && RunDrive(PROGRAMS, f, mode).Unfinished?
            && AllCached(RunDrive(PROGRAMS, f, mode).f, RunCache(PROGRAMS, f, keys, mode))
  {
    hide Live, Iterate, SettlesTo, PROGRAMS, Drive, RunSlices, RunDrive, RunPanics, RunCache, AllCached, IoPanics,
         TurnCache;
    var h := Iterate(PROGRAMS, f, Never, 1).next;
    RunByTurns(PROGRAMS, f, keys, LimitCycles(1));
    RunMakesOneTurn(PROGRAMS, f, LimitCycles(1));
    LiveNotEnded(h);
    FewVmsStayCached(PROGRAMS, f, keys, Never, 1);
    ZeroTurn(h, c, id);
    FewVmsStayCached(PROGRAMS, h, TurnCache(PROGRAMS, f, keys, Never, 1), Never, 0);
  }

  lemma RunsToFrom(f: Flat, b: Scene, c: Scene, id: VmId)
    requires Steppable(f) && Iterate(PROGRAMS, f, Never, 1).Turn? && Live(Iterate(PROGRAMS, f, Never, 1).next)
    requires var h := Iterate(PROGRAMS, f, Never, 1).next; Shaped(h) && IsAt(h, b) && SettlesTo(h, c, id)
    requires |b.states| <= 4 && |c.states| <= 4
    ensures RunsTo(f, b, c, id)
  {
    hide Live, Iterate, IsAt, SettlesTo, PROGRAMS;
  }

  lemma SmallScenes()
    ensures |PIPED.states| <= 4 && |SPAWNED.states| <= 4 && |READING.states| <= 4 && |WRITING.states| <= 4
    ensures |SERVED.states| <= 4 && |CLOSED.states| <= 4 && |WOKEN.states| <= 4
  {
  }

  lemma FirstRun(f: Flat)
    requires Live(f) && IsAt(f, BOOTED)
    ensures Steppable(f) && RunsTo(f, PIPED, PIPED, 0)
  {
    hide Live, Iterate, IsAt, SettlesTo, Steps, PROGRAMS, RunsTo, BOOTED, PIPED, SPAWNED, READING, WRITING, SERVED;
    hide CLOSED, WOKEN, ClosedWaiter;
    FirstTurn(f);
    SmallScenes();
    var h := Iterate(PROGRAMS, f, Never, 1).next;
    PipedSteps(h);
    StaysSettled(h, PIPED, 0, 1);
    RunsToFrom(f, PIPED, PIPED, 0);
  }

  lemma SecondRun(f: Flat)
    requires Live(f) && IsAt(f, PIPED)
    ensures Steppable(f) && RunsTo(f, SPAWNED, SPAWNED, 1)
  {
    hide Live, Iterate, IsAt, SettlesTo, Steps, PROGRAMS, RunsTo, BOOTED, PIPED, SPAWNED, READING, WRITING, SERVED;
    hide CLOSED, WOKEN, ClosedWaiter;
    SecondTurn(f);
    SmallScenes();
    var h := Iterate(PROGRAMS, f, Never, 1).next;
    SpawnedSteps(h);
    StaysSettled(h, SPAWNED, 1, 10);
    RunsToFrom(f, SPAWNED, SPAWNED, 1);
  }

  lemma ThirdRun(f: Flat)
    requires Live(f) && IsAt(f, SPAWNED)
    ensures Steppable(f) && RunsTo(f, READING, READING, 0)
  {
    hide Live, Iterate, IsAt, SettlesTo, Steps, PROGRAMS, RunsTo, BOOTED, PIPED, SPAWNED, READING, WRITING, SERVED;
    hide CLOSED, WOKEN, ClosedWaiter;
    ThirdTurn(f);
    SmallScenes();
    var h := Iterate(PROGRAMS, f, Never, 1).next;
    ReadingSteps(h);
    StaysSettled(h, READING, 0, 2);
    RunsToFrom(f, READING, READING, 0);
  }

  lemma FourthRun(f: Flat)
    requires Live(f) && IsAt(f, READING)
    ensures Steppable(f) && RunsTo(f, WRITING, SERVED, 1)
  {
    hide Live, Iterate, IsAt, SettlesTo, Steps, PROGRAMS, RunsTo, BOOTED, PIPED, SPAWNED, READING, WRITING, SERVED;
    hide CLOSED, WOKEN, ClosedWaiter;
    FourthTurn(f);
    SmallScenes();
    var h := Iterate(PROGRAMS, f, Never, 1).next;
    WritingSettles(h);
    RunsToFrom(f, WRITING, SERVED, 1);
  }

  lemma FifthRun(f: Flat)
    requires Live(f) && IsAt(f, SERVED)
    ensures Steppable(f) && RunsTo(f, CLOSED, WOKEN, 0)
  {
    hide Live, Iterate, IsAt, SettlesTo, Steps, PROGRAMS, RunsTo, BOOTED, PIPED, SPAWNED, READING, WRITING, SERVED;
    hide CLOSED, WOKEN, ClosedWaiter;
    FifthTurn(f);
    SmallScenes();
    var h := Iterate(PROGRAMS, f, Never, 1).next;
    ClosedSettles(h);
    RunsToFrom(f, CLOSED, WOKEN, 0);
  }

  /** In the last call the root exits. */
  lemma SixthRun(f: Flat, keys: set<VmId>)
    requires Live(f) && IsAt(f, WOKEN)
    ensures var mode := LimitCycles(1);
            var d := RunDrive(PROGRAMS, f, mode);
            && !RunPanics(PROGRAMS, f, keys, mode) && d.Completed? && d.f.totalCycles == 6
            && ROOT in d.f.terminated && d.f.terminated[ROOT] == 0
  {
    hide Live, Ended, Iterate, RunDrive, RunPanics, IoPanics, TurnCache, RunCache;
    SixthTurn(f);
    NobodyWaits(f);
    NothingClosedNeverPanics(f, keys);
    RunByTurns(PROGRAMS, f, keys, LimitCycles(1));
    RunMakesOneTurn(PROGRAMS, f, LimitCycles(1));
    EndedCode(Iterate(PROGRAMS, f, Never, 1).next);
  }

  lemma NobodyWaits(f: Flat)
    requires Live(f) && IsAt(f, WOKEN)
    ensures Shaped(f) && forall id :: !ClosedWaiter(f, id)
  {
  }

  /** In the call in which the child exits, the root is not brought back into an empty cache, and the turn that is to
      tell it panics. */
  lemma SuspendedPanics(f: Flat)
    requires Live(f) && IsAt(f, SERVED)
    ensures RunPanics(PROGRAMS, f, {}, LimitCycles(1))
  {
    hide Live, Iterate, IsAt, RunPanics, IoPanics, TurnCache, RunCache, Idles, ClosedWaiter, SettlesTo;
    FifthTurn(f);
    RootIdles(f);
    var h := Iterate(PROGRAMS, f, Never, 1).next;
    ClosedSettles(h);
    IdlersStayOut(PROGRAMS, f, {}, 0, Never, 1);
    SettledOk(h);
    MissingPanics(h, TurnCache(PROGRAMS, f, {}, Never, 1), 0);
    NothingClosed(f);
    NothingClosedNeverPanics(f, {});
    RunByTurns(PROGRAMS, f, {}, LimitCycles(1));
  }

  lemma SettledOk(f: Flat)
    requires Shaped(f) && SettlesTo(f, WOKEN, 0)
    ensures Io(f).Ok?
  {
  }

  lemma NothingClosed(f: Flat)
    requires Live(f) && IsAt(f, SERVED)
    ensures Shaped(f) && forall id :: !ClosedWaiter(f, id)
  {
  }

  lemma RootIdles(f: Flat)
    requires Live(f) && IsAt(f, SERVED)
    ensures Idles(f, 0)
  {
    forall r, w ensures !Matched(f, r, w) { }
  }

  // ---- `verify_tx`, with and without a suspension ----

  /** One round in which nothing is suspended and every machine stays in the cache. */
  lemma OneRound(f: Flat, keys: set<VmId>, perSuspend: u64, n: nat, b: Scene, c: Scene, id: VmId)
    returns (g: Flat, keys': set<VmId>)
    requires n > 0 && (f == EMPTY || Live(f)) && BootRoot(PROGRAMS, EMPTY).Ok? && Live(Start(PROGRAMS, f))
    requires f.totalCycles <= 100 && f.totalCycles < perSuspend
    requires Steppable(Start(PROGRAMS, f)) && RunsTo(Start(PROGRAMS, f), b, c, id)
    requires AllCached(Start(PROGRAMS, f), StartKeys(f, keys))
    ensures Live(g) && IsAt(g, c) && AllCached(g, keys')
    ensures Group(PROGRAMS, f, 100, 1, n) == Group(PROGRAMS, g, 100, 1, n - 1)
    ensures GroupPanics(PROGRAMS, f, keys, 0, 100, 1, perSuspend, n) <==>
            GroupPanics(PROGRAMS, g, keys', 0, 100, 1, perSuspend, n - 1)
  {
    hide Live, Start, PROGRAMS, RunsTo, AllCached, Group, GroupPanics, RunDrive, RunPanics, RunCache, StartKeys, IsAt,
         BootRoot;
    var start := Start(PROGRAMS, f);
    RunLands(start, b, c, id);
    RunKeepsCache(start, b, c, id, StartKeys(f, keys));
    GroupStep(PROGRAMS, f, 100, 1, n);
    PanicsStep(PROGRAMS, f, keys, 0, 100, 1, perSuspend, n);
    g := RunDrive(PROGRAMS, start, LimitCycles(1)).f;
    keys' := RunCache(PROGRAMS, start, StartKeys(f, keys), LimitCycles(1));
  }

  lemma StartsThere(f: Flat, keys: set<VmId>)
    requires Live(f)
    ensures f != EMPTY && Start(PROGRAMS, f) == f && StartKeys(f, keys) == keys
  {
    LiveIsNotEmpty(f);
    hide Live, PROGRAMS, BootRoot;
  }

  lemma TotalAt(f: Flat, s: Scene)
    requires IsAt(f, s)
    ensures f.totalCycles == s.total
  {
  }

  /** The loop goes on from `f` with one round less from `g`. */
  ghost predicate Continues(f: Flat, keys: set<VmId>, g: Flat, keys': set<VmId>, perSuspend: u64, n: nat)
    requires n > 0
  {
    && (f == EMPTY || Live(f)) && Live(g) && AllCached(g, keys')
    && Group(PROGRAMS, f, 100, 1, n) == Group(PROGRAMS, g, 100, 1, n - 1)
    && (GroupPanics(PROGRAMS, f, keys, 0, 100, 1, perSuspend, n) <==>
        GroupPanics(PROGRAMS, g, keys', 0, 100, 1, perSuspend, n - 1))
  }

  lemma ContinuesFrom(f: Flat, keys: set<VmId>, g: Flat, keys': set<VmId>, perSuspend: u64, n: nat)
    requires n > 0 && (f == EMPTY || Live(f)) && Live(g) && AllCached(g, keys')
    requires Group(PROGRAMS, f, 100, 1, n) == Group(PROGRAMS, g, 100, 1, n - 1)
    requires GroupPanics(PROGRAMS, f, keys, 0, 100, 1, perSuspend, n) <==>
             GroupPanics(PROGRAMS, g, keys', 0, 100, 1, perSuspend, n - 1)
    ensures Continues(f, keys, g, keys', perSuspend, n)
  {
    hide Live, Group, GroupPanics, AllCached, PROGRAMS;
  }

  lemma ContinuesTo(f: Flat, keys: set<VmId>, g: Flat, keys': set<VmId>, perSuspend: u64, n: nat)
    requires n > 0 && Continues(f, keys, g, keys', perSuspend, n)
    ensures (f == EMPTY || Live(f)) && Live(g) && AllCached(g, keys')
    ensures Group(PROGRAMS, f, 100, 1, n) == Group(PROGRAMS, g, 100, 1, n - 1)
    ensures GroupPanics(PROGRAMS, f, keys, 0, 100, 1, perSuspend, n) <==>
            GroupPanics(PROGRAMS, g, keys', 0, 100, 1, perSuspend, n - 1)
  {
    hide Live, Group, GroupPanics, AllCached, PROGRAMS;
  }

  /** The root is booted and opens its pipe. */
  lemma FirstRound(perSuspend: u64, n: nat) returns (g: Flat, keys: set<VmId>)
    requires n > 0 && perSuspend > 0
    ensures Continues(EMPTY, {}, g, keys, perSuspend, n) && IsAt(g, PIPED)
  {
    Boots();
    StartsLive(PROGRAMS, EMPTY);
    StartIsBooted(PROGRAMS, EMPTY);
    BootedCache(PROGRAMS, EMPTY, {});
    assert EMPTY.totalCycles == 0;
    hide *;
    FirstRun(Start(PROGRAMS, EMPTY));
    g, keys := OneRound(EMPTY, {}, perSuspend, n, PIPED, PIPED, 0);
    ContinuesFrom(EMPTY, {}, g, keys, perSuspend, n);
  }

  /** The root spawns the child. */
  lemma SecondRound(f: Flat, keys: set<VmId>, perSuspend: u64, n: nat) returns (g: Flat, keys': set<VmId>)
    requires n > 0 && perSuspend > 1 && Live(f) && IsAt(f, PIPED) && AllCached(f, keys)
    ensures Continues(f, keys, g, keys', perSuspend, n) && IsAt(g, SPAWNED)
  {
    SecondRun(f);
    TotalAt(f, PIPED);
    StartsThere(f, keys);
    assert PIPED.total == 1;
    hide *;
    Boots();
    g, keys' := OneRound(f, keys, perSuspend, n, SPAWNED, SPAWNED, 1);
    ContinuesFrom(f, keys, g, keys', perSuspend, n);
  }

  /** The child reads. */
  lemma ThirdRound(f: Flat, keys: set<VmId>, perSuspend: u64, n: nat) returns (g: Flat, keys': set<VmId>)
    requires n > 0 && perSuspend > 2 && Live(f) && IsAt(f, SPAWNED) && AllCached(f, keys)
    ensures Continues(f, keys, g, keys', perSuspend, n) && IsAt(g, READING)
  {
    ThirdRun(f);
    TotalAt(f, SPAWNED);
    StartsThere(f, keys);
    assert SPAWNED.total == 2;
    hide *;
    Boots();
    g, keys' := OneRound(f, keys, perSuspend, n, READING, READING, 0);
    ContinuesFrom(f, keys, g, keys', perSuspend, n);
  }

  /** The root writes; settling that serves the child. */
  lemma FourthRound(f: Flat, keys: set<VmId>, perSuspend: u64, n: nat) returns (g: Flat, keys': set<VmId>)
    requires n > 0 && perSuspend > 3 && Live(f) && IsAt(f, READING) && AllCached(f, keys)
    ensures Continues(f, keys, g, keys', perSuspend, n) && IsAt(g, SERVED)
  {
    FourthRun(f);
    TotalAt(f, READING);
    StartsThere(f, keys);
    assert READING.total == 3;
    hide *;
    Boots();
    g, keys' := OneRound(f, keys, perSuspend, n, WRITING, SERVED, 1);
    ContinuesFrom(f, keys, g, keys', perSuspend, n);
  }

  /** The child exits; settling that wakes the root. */
  lemma FifthRound(f: Flat, keys: set<VmId>, perSuspend: u64, n: nat) returns (g: Flat, keys': set<VmId>)
    requires n > 0 && perSuspend > 4 && Live(f) && IsAt(f, SERVED) && AllCached(f, keys)
    ensures Continues(f, keys, g, keys', perSuspend, n) && IsAt(g, WOKEN)
  {
    FifthRun(f);
    TotalAt(f, SERVED);
    StartsThere(f, keys);
    assert SERVED.total == 4;
    hide *;
    Boots();
    g, keys' := OneRound(f, keys, perSuspend, n, CLOSED, WOKEN, 0);
    ContinuesFrom(f, keys, g, keys', perSuspend, n);
  }

  /** After four rounds the root is blocked in its write and the child has been served. */
  lemma FourRounds(perSuspend: u64) returns (g: Flat, keys: set<VmId>)
    requires perSuspend > 3
    ensures Live(g) && IsAt(g, SERVED) && AllCached(g, keys)
    ensures Group(PROGRAMS, EMPTY, 100, 1, 6) == Group(PROGRAMS, g, 100, 1, 2)
    ensures GroupPanics(PROGRAMS, EMPTY, {}, 0, 100, 1, perSuspend, 6) <==>
            GroupPanics(PROGRAMS, g, keys, 0, 100, 1, perSuspend, 2)
  {
    hide *;
    var f1, k1 := FirstRound(perSuspend, 6);
    ContinuesTo(EMPTY, {}, f1, k1, perSuspend, 6);
    var f2, k2 := SecondRound(f1, k1, perSuspend, 5);
    ContinuesTo(f1, k1, f2, k2, perSuspend, 5);
    var f3, k3 := ThirdRound(f2, k2, perSuspend, 4);
    ContinuesTo(f2, k2, f3, k3, perSuspend, 4);
    g, keys := FourthRound(f3, k3, perSuspend, 3);
    ContinuesTo(f3, k3, g, keys, perSuspend, 3);
  }

  /** A suspension after the fourth round. */
  lemma SuspendedOnce()
    ensures GroupPanics(PROGRAMS, EMPTY, {}, 0, 100, 1, 4, 6)
  {
    hide Live, Start, PROGRAMS, AllCached, GroupPanics, IsAt, BootRoot, RunPanics, RunDrive, RunCache;
    var g, keys := FourRounds(4);
    TotalAt(g, SERVED);
    StartsThere(g, {});
    SuspendedPanics(g);
    PanicsStep(PROGRAMS, g, keys, 0, 100, 1, 4, 2);
  }

  /** The last round. */
  lemma SixthRound(f: Flat, keys: set<VmId>)
    requires Live(f) && IsAt(f, WOKEN)
    ensures !GroupPanics(PROGRAMS, f, keys, 0, 100, 1, 1000, 1)
    ensures Group(PROGRAMS, f, 100, 1, 1) == Verdict.Exited(0, 6)
  {
    hide Live, Start, PROGRAMS, AllCached, Group, GroupPanics, IsAt, BootRoot, RunPanics, RunDrive, RunCache;
    TotalAt(f, WOKEN);
    StartsThere(f, keys);
    SixthRun(f, keys);
    GroupStep(PROGRAMS, f, 100, 1, 1);
    PanicsStep(PROGRAMS, f, keys, 0, 100, 1, 1000, 1);
  }

  /** No suspension at all. */
  lemma NeverSuspended()
    ensures !GroupPanics(PROGRAMS, EMPTY, {}, 0, 100, 1, 1000, 6)
    ensures Group(PROGRAMS, EMPTY, 100, 1, 6) == Verdict.Exited(0, 6)
  {
    hide *;
    var f4, k4 := FourRounds(1000);
    var f5, k5 := FifthRound(f4, k4, 1000, 2);
    ContinuesTo(f4, k4, f5, k5, 1000, 2);
    SixthRound(f5, k5);
  }

  /** The same programs under the same limits: `verify_tx` panics when it suspends the scheduler once, and reports
      exit code 0 after six cycles when it does not. */
  method SuspensionMatters() returns (suspended: Verdict, straight: Verdict)
    ensures suspended == Panicked && straight == Verdict.Exited(0, 6)
  {
    SuspendedOnce();
    NeverSuspended();
    hide PROGRAMS, Group, GroupPanics;
    suspended := VerifyGroup(PROGRAMS, 100, 1, 4, 6);
    straight := VerifyGroup(PROGRAMS, 100, 1, 1000, 6);
  }
}
