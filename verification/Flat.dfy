/** The reference scheduler: the same steps as src/lib.rs, with every machine in one map. */
module Flat {
  import opened Words
  import opened Types
  import opened Machine
  import opened Syscalls
  import opened Ordered

  datatype Flat = Flat(
    totalCycles: nat,
    nextVmId: VmId,
    nextPipeSlot: PipeId,
    states: map<VmId, VmState>,
    pipes: map<PipeId, VmId>,
    machines: map<VmId, Vm>,
    terminated: map<VmId, int>)

  const EMPTY := Flat(0, ROOT, FIRST_PIPE_SLOT, map[], map[], map[], map[])

  /** Every live VM has a machine and no machine is left over. */
  predicate Shaped(f: Flat) {
    f.machines.Keys == f.states.Keys
  }

  // ---- Running one VM ----

  datatype Stop = Exit(code: int) | Yield(message: Message) | Stopped(error: Error)

  datatype RunResult = RunResult(vm: Vm, stop: Stop)

  /** One instruction. `now` is the global cycle count when it starts. */
  datatype Executed =
    | Advanced(core: Core, spent: nat)
    | YieldedAt(core: Core, spent: nat, message: Message)
    | ExitedAt(core: Core, spent: nat, code: int)
    | Broken(error: Error)

  function Execute(env: Env, id: VmId, core: Core, now: nat): Executed {
    match env.decode(core)
    case Trap(error) => Broken(Fault(error))
    case Compute(cost, next) => Advanced(next, cost)
    case Ecall(cost, at) =>
      match Handle(env, id, at, now + cost)
      case Done(next, charge) => Advanced(next, cost + charge)
      case Yielded(next, message) => YieldedAt(next, cost, message)
      case Exited(next, code) => ExitedAt(next, cost, code)
      case Failed(error) => Broken(error)
  }

  /** When the pause signal is noticed: never, or after so many instructions. */
  datatype Signal = Never | After(n: nat)

  function Tick(signal: Signal): Signal {
    if signal.After? && signal.n > 0 then After(signal.n - 1) else signal
  }

  predicate Exceeds(env: Env, vm: Vm, limit: nat) {
    var instr := env.decode(vm.core);
    !instr.Trap? && vm.cycles + instr.cost > limit
  }

  /** `machine.run()`: an instruction that does not fit under the limit is left for the next slice. */
  function Run(env: Env, id: VmId, vm: Vm, base: nat, limit: nat, signal: Signal): RunResult
    decreases if vm.cycles <= limit then limit - vm.cycles + 1 else 0
  {
    if signal == After(0) then RunResult(vm, Stopped(Pause))
    else if Exceeds(env, vm, limit) then RunResult(vm, Stopped(CyclesExceeded))
    else match Execute(env, id, vm.core, base + vm.cycles)
      case Advanced(core, spent) =>
        Run(env, id, vm.(core := core, cycles := vm.cycles + spent), base, limit, Tick(signal))
      case YieldedAt(core, spent, message) =>
        RunResult(vm.(core := core, cycles := vm.cycles + spent), Yield(message))
      case ExitedAt(core, spent, code) =>
        RunResult(vm.(core := core, cycles := vm.cycles + spent, exitCode := code), Exit(code))
      case Broken(error) => RunResult(vm, Stopped(error))
  }

  // ---- Pipe input and output, as one simultaneous update of all VMs ----

  predicate OtherEndOpen(f: Flat, p: PipeId) {
    OtherPipe(p) in f.pipes
  }

  predicate Waits(s: VmState) {
    s.WaitForRead? || s.WaitForWrite?
  }

  /** A VM whose pipe was closed at the other end while it waited. */
  predicate ClosedWaiter(f: Flat, id: VmId) {
    id in f.states && Waits(f.states[id]) && !OtherEndOpen(f, f.states[id].pipe)
  }

  /** The reader `r` and the writer `w` wait for each other. */
  predicate Matched(f: Flat, r: VmId, w: VmId) {
    && r in f.states && f.states[r].WaitForRead?
    && w in f.states && f.states[w].WaitForWrite?
    && f.states[w].pipe == OtherPipe(f.states[r].pipe)
    && OtherPipe(f.states[r].pipe) in f.pipes
    && OtherPipe(f.states[w].pipe) in f.pipes
  }

  /** The VM that owns the other end of the pipe `id` waits on. */
  function PeerOf(f: Flat, id: VmId): Option<VmId>
    requires id in f.states && Waits(f.states[id])
  {
    var other := OtherPipe(f.states[id].pipe);
    if other in f.pipes then Some(f.pipes[other]) else None
  }

  /** The reader that the writer `w` is matched with. */
  function ReaderOf(f: Flat, w: VmId): Option<VmId> {
    if !(w in f.states && f.states[w].WaitForWrite?) then None
    else match PeerOf(f, w)
      case None => None
      case Some(r) => if Matched(f, r, w) then Some(r) else None
  }

  function Copiable(r: VmState, w: VmState): nat
    requires r.WaitForRead? && w.WaitForWrite?
  {
    Min(r.length, if w.consumed <= w.length then w.length - w.consumed else 0)
  }

  /** The bytes that go from the writer `w` to the reader `r`. */
  function Chunk(f: Flat, r: VmId, w: VmId): Option<seq<byte>>
    requires Shaped(f) && Matched(f, r, w)
  {
    var s := f.states[w];
    Load(f.machines[w].core.mem, WrappingAdd(s.bufferAddr, s.consumed), Copiable(f.states[r], s))
  }

  function ReaderDone(vm: Vm, s: VmState, chunk: seq<byte>): Option<Vm>
    requires s.WaitForRead?
  {
    match StoreVm(vm, s.bufferAddr, chunk)
    case None => None
    case Some(vm') => Complete64(vm', s.lengthAddr, |chunk|)
  }

  /** The machine of `id` after pending input and output; None when one of the memory accesses faults. */
  function IoVm(f: Flat, id: VmId): Option<Vm>
    requires Shaped(f) && id in f.states
  {
    var vm, s := f.machines[id], f.states[id];
    if !Waits(s) then Some(vm)
    else match PeerOf(f, id)
      case None => Complete64(vm, s.lengthAddr, if s.WaitForRead? then 0 else s.consumed)
      case Some(peer) =>
        if s.WaitForRead? && Matched(f, id, peer) then
          match Chunk(f, id, peer)
          case None => None
          case Some(chunk) => ReaderDone(vm, s, chunk)
        else if s.WaitForWrite? && Matched(f, peer, id) then
          if Chunk(f, peer, id).None? then None
          else if s.consumed + Copiable(f.states[peer], s) == s.length then Complete64(vm, s.lengthAddr, s.length)
          else Some(vm)
        else Some(vm)
  }

  function IoState(f: Flat, id: VmId): VmState
    requires id in f.states
  {
    var s := f.states[id];
    if !Waits(s) then s
    else match PeerOf(f, id)
      case None => Runnable
      case Some(peer) =>
        if s.WaitForRead? && Matched(f, id, peer) then Runnable
        else if s.WaitForWrite? && Matched(f, peer, id) then
          var consumed := s.consumed + Copiable(f.states[peer], s);
          if consumed == s.length then Runnable
          else if consumed < TWO64 then s.(consumed := consumed) else s
        else s
  }

  predicate IoFaults(f: Flat)
    requires Shaped(f)
  {
    exists id :: id in f.states && IoVm(f, id).None?
  }

  function Io(f: Flat): Result<Flat>
    requires Shaped(f)
  {
    if IoFaults(f) then Err(MemOutOfBound)
    else Ok(f.(states := map id | id in f.states :: IoState(f, id),
               machines := map id | id in f.states :: IoVm(f, id).value))
  }

  // ---- Booting and messages ----

  function BootMachine(env: Env, piece: DataPieceId, offset: u64, length: u64, argv: seq<seq<byte>>): Result<Vm> {
    match env.Piece(piece)
    case Missing => Err(IndexOutOfBound)
    case Unloadable => Err(BootFailure)
    case Found(data) =>
      match env.boot(Slice(data, offset, length).0, argv)
      case None => Err(BootFailure)
      case Some(booted) => Ok(Vm(booted.core, TransferredByteCycles(booted.bytesLoaded), 0))
  }

  function Add(f: Flat, vm: Vm): Flat {
    f.(nextVmId := f.nextVmId + 1, states := f.states[f.nextVmId := Runnable], machines := f.machines[f.nextVmId := vm])
  }

  function BootRoot(env: Env, f: Flat): Result<Flat> {
    match BootMachine(env, Program, 0, TWO64 - 1, [])
    case Ok(vm) => Ok(Add(f, vm))
    case Err(e) => Err(e)
    case Panic => Panic
  }

  predicate Owns(f: Flat, id: VmId, p: PipeId) {
    p in f.pipes && f.pipes[p] == id
  }

  function Finish(f: Flat, id: VmId, vm: Option<Vm>): Result<Flat> {
    match vm
    case None => Err(MemOutOfBound)
    case Some(m) => Ok(f.(machines := f.machines[id := m]))
  }

  function Refuse(f: Flat, id: VmId, code: u64): Result<Flat>
    requires id in f.machines
  {
    Ok(f.(machines := f.machines[id := f.machines[id].SetA0(code)]))
  }

  /** Ownership of the pipes passed to a spawned VM. */
  function Handover(pipes: map<PipeId, VmId>, passed: seq<PipeId>, to: VmId): map<PipeId, VmId> {
    map p | p in pipes :: if p in passed then to else pipes[p]
  }

  function DeliverSpawn(env: Env, f: Flat, id: VmId, args: SpawnArgs): Result<Flat>
    requires id in f.machines && id < f.nextVmId
  {
    if exists i | 0 <= i < |args.pipes| :: !Owns(f, id, args.pipes[i]) then Err(NotPipeOwner)
    else match BootMachine(env, args.dataPieceId, args.offset, args.length, args.argv)
      case Err(e) => Err(e)
      case Panic => Panic
      case Ok(vm) =>
        var f' := Add(f, vm).(pipes := Handover(f.pipes, args.pipes, f.nextVmId));
        Finish(f', id, Complete64(f'.machines[id], args.instanceIdAddr, f.nextVmId))
  }

  function DeliverJoin(f: Flat, id: VmId, target: VmId, exitCodeAddr: u64): Result<Flat>
    requires id in f.machines
  {
    if target in f.terminated then
      Finish(f.(states := f.states[id := Runnable]), id, Complete8(f.machines[id], exitCodeAddr, f.terminated[target]))
    else if target !in f.states then Refuse(f, id, JOIN_FAILURE)
    else Ok(f.(states := f.states[id := Join(target, exitCodeAddr)]))
  }

  function DeliverPipe(f: Flat, id: VmId, addr1: u64, addr2: u64): Result<Flat>
    requires id in f.machines
  {
    var (p1, p2, slot) := CreatePipe(f.nextPipeSlot);
    var f' := f.(nextPipeSlot := slot, pipes := f.pipes[p1 := id][p2 := id]);
    match Store64(f.machines[id], addr1, p1)
    case None => Err(MemOutOfBound)
    case Some(vm) => Finish(f', id, Complete64(vm, addr2, p2))
  }

  function DeliverIo(f: Flat, id: VmId, p: PipeId, wait: VmState): Result<Flat>
    requires id in f.machines
  {
    if !Owns(f, id, p) then Refuse(f, id, INVALID_PIPE)
    else if !OtherEndOpen(f, p) then Refuse(f, id, OTHER_END_CLOSED)
    else Ok(f.(states := f.states[id := wait]))
  }

  function Deliver(env: Env, f: Flat, message: Message): Result<Flat>
    requires message.vm in f.machines && message.vm < f.nextVmId
  {
    match message
    case Spawn(id, args) => DeliverSpawn(env, f, id, args)
    case JoinVm(id, target, exitCodeAddr) => DeliverJoin(f, id, target, exitCodeAddr)
    case OpenPipe(id, addr1, addr2) => DeliverPipe(f, id, addr1, addr2)
    case PipeRead(id, io) => DeliverIo(f, id, io.pipe, WaitForRead(io.pipe, io.length, io.bufferAddr, io.lengthAddr))
    case PipeWrite(id, io) =>
      DeliverIo(f, id, io.pipe, WaitForWrite(io.pipe, 0, io.length, io.bufferAddr, io.lengthAddr))
  }

  // ---- Termination ----

  predicate Joins(f: Flat, id: VmId, target: VmId) {
    id in f.states && f.states[id].Join? && f.states[id].target == target
  }

  function Woken(f: Flat, id: VmId, target: VmId, code: int): Option<Vm>
    requires id in f.machines
  {
    if Joins(f, id, target) then Complete8(f.machines[id], f.states[id].exitCodeAddr, code) else Some(f.machines[id])
  }

  function EndRoot(f: Flat, code: int): Flat
    requires ROOT in f.machines
  {
    f.(states := map[ROOT := Terminated], machines := map[ROOT := f.machines[ROOT]],
       terminated := f.terminated[ROOT := code])
  }

  /** The ends that stay open when VM `id` terminates. */
  function Disowned(pipes: map<PipeId, VmId>, id: VmId): map<PipeId, VmId> {
    map p | p in pipes && pipes[p] != id :: pipes[p]
  }

  function EndOther(f: Flat, id: VmId, code: int): Result<Flat>
    requires Shaped(f)
  {
    if exists j :: j in f.states && Woken(f, j, id, code).None? then Err(MemOutOfBound)
    else Ok(f.(states := map j | j in f.states && j != id :: if Joins(f, j, id) then Runnable else f.states[j],
               machines := map j | j in f.states && j != id :: Woken(f, j, id, code).value,
               pipes := Disowned(f.pipes, id),
               terminated := f.terminated[id := code]))
  }

  function End(f: Flat, id: VmId, code: int): Result<Flat>
    requires Shaped(f) && (id == ROOT ==> ROOT in f.machines)
  {
    if id == ROOT then Ok(EndRoot(f, code)) else EndOther(f, id, code)
  }

  // ---- One turn of the scheduler ----

  function RunnableIds(f: Flat): set<VmId> {
    set id | id in f.states && f.states[id].Runnable?
  }

  /** The VM to run: the runnable one with the largest id. */
  function Select(f: Flat): Option<VmId> {
    if RunnableIds(f) == {} then None else Some(Largest(RunnableIds(f)))
  }

  /** Moves the cycles VM `id` has spent into the total. */
  function Charge(f: Flat, id: VmId, vm: Vm): Flat {
    f.(totalCycles := f.totalCycles + vm.cycles, machines := f.machines[id := vm.(cycles := 0)])
  }

  /** `Turn`: a message or a termination was dealt with. `Cut`: the VM was stopped by the cycle limit or the
      pause signal and can go on later. `Fatal`: the scheduler must not be used any more. */
  datatype Turned = Turn(next: Flat, consumed: nat) | Cut(next: Flat, error: Error) | Fatal(error: Error)

  function ToTurned(r: Result<Flat>, consumed: nat): Turned
    requires !r.Panic?
  {
    match r
    case Ok(f) => Turn(f, consumed)
    case Err(e) => Fatal(e)
  }

  function Conclude(env: Env, f: Flat, id: VmId, r: RunResult): Turned
    requires Shaped(f) && id in f.machines && id < f.nextVmId
    requires r.stop.Yield? ==> r.stop.message.vm == id
  {
    if r.stop == Stopped(CapacityOverflow) then Fatal(CapacityOverflow)
    else if f.totalCycles + r.vm.cycles >= TWO64 then Fatal(CyclesOverflow)
    else
      var charged := Charge(f, id, r.vm);
      match r.stop
      case Yield(message) => ToTurned(Deliver(env, charged, message), r.vm.cycles)
      case Exit(code) => ToTurned(End(charged, id, code), r.vm.cycles)
      case Stopped(error) =>
        if error.CyclesExceeded? || error.Pause? then Cut(charged, error) else Fatal(error)
  }

  lemma {:induction false} RunYieldsWellFormed(env: Env, id: VmId, vm: Vm, base: nat, limit: nat, signal: Signal)
    ensures var r := Run(env, id, vm, base, limit, signal); r.stop.Yield? ==> WellFormedMessage(id, r.stop.message)
    decreases if vm.cycles <= limit then limit - vm.cycles + 1 else 0
  {
    if signal != After(0) && !Exceeds(env, vm, limit) {
      match Execute(env, id, vm.core, base + vm.cycles)
      case Advanced(core, spent) =>
        RunYieldsWellFormed(env, id, vm.(core := core, cycles := vm.cycles + spent), base, limit, Tick(signal));
      case YieldedAt(core, spent, message) =>
        var instr := env.decode(vm.core);
        HandleYieldsWellFormed(env, id, instr.at, base + vm.cycles + instr.cost);
      case _ =>
    }
  }

  function Iterate(env: Env, f: Flat, signal: Signal, limit: nat): Turned
    requires Shaped(f) && (forall id | id in f.states :: id < f.nextVmId)
  {
    match Io(f)
    case Err(e) => Fatal(e)
    case Ok(g) =>
      match Select(g)
      case None => Fatal(Deadlock)
      case Some(id) =>
        RunYieldsWellFormed(env, id, g.machines[id], g.totalCycles, limit, signal);
        Conclude(env, g, id, Run(env, id, g.machines[id], g.totalCycles, limit, signal))
  }
}
