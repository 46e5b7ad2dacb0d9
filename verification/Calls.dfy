/** What a program asks for when it makes a syscall: from its registers and memory to the message the scheduler gets.
    The registers a0 to a7 of the RISC-V calling convention are numbers 10 to 17. */
module Calls {
  import opened Words
  import opened Types
  import opened Machine
  import opened Syscalls

  // ---- Naming data ----

  /** The numbers by which programs name data: where to look, and at which of 2^32 positions. */
  lemma SourceNumbers(source: u64, index: u64)
    ensures var piece := ToDataPieceId(source, index);
            if index > 0xFFFF_FFFF then piece.None?
            else match source
              case 1 => piece == Some(Input(index))
              case 2 => piece == Some(Output(index))
              case 3 => piece == Some(CellDep(index))
              case 0x0100_0000_0000_0001 => piece == Some(GroupInput(index))
              case 0x0100_0000_0000_0002 => piece == Some(GroupOutput(index))
              case _ => piece.None?
  {
  }

  // ---- spawn ----

  /** `argv` are the C strings behind the pointers stored from `addr` on. */
  ghost predicate ArgumentsAt(mem: Memory, addr: nat, argv: seq<seq<byte>>) {
    forall i | 0 <= i < |argv| :: Pointed(mem, addr, i) == Some(argv[i])
  }

  /** `pipes` is the list at `addr`; address 0 stands for the empty list. */
  ghost predicate PipesAt(mem: Memory, addr: nat, pipes: seq<PipeId>) {
    if addr == 0 then pipes == [] else ListedAt(mem, addr, pipes)
  }

  /** The registers and memory of a program that calls spawn say `args`: a0 and a1 name the data, a2 the part of it, a3
      and a4 the arguments; the two words at a5 are where the new id goes and where the pipes to pass on are listed. */
  ghost predicate Asks(core: Core, args: SpawnArgs) {
    && ToDataPieceId(core.regs[11], core.regs[10]) == Some(args.dataPieceId)
    && core.regs[12] == args.offset * 0x1_0000_0000 + args.length && args.length < 0x1_0000_0000
    && |args.argv| == core.regs[13] && ArgumentsAt(core.mem, core.regs[14], args.argv)
    && Load64(core.mem, core.regs[15]) == Some(args.instanceIdAddr)
    && var list := Load64(core.mem, (core.regs[15] + 8) % TWO64);
    && list.Some? && PipesAt(core.mem, list.value, args.pipes)
  }

  /** A vector of so many arguments, of 32 bytes each, would have 2^63 bytes or more. */
  predicate Oversized(argc: nat) {
    32 * argc >= 0x8000_0000_0000_0000
  }

  /** The named part of the data is there, and not empty. */
  predicate InRange(data: seq<byte>, offset: nat, length: nat) {
    offset < |data| && offset + length <= |data|
  }

  /** Whether the call is accepted: its arguments can be read, the data exists, and so does the part of it. */
  ghost predicate Accepted(env: Env, core: Core, args: SpawnArgs) {
    && Asks(core, args)
    && !Oversized(core.regs[13])
    && env.Piece(args.dataPieceId).Found? && InRange(env.Piece(args.dataPieceId).data, args.offset, args.length)
  }

  /** The argument vector of a call. */
  lemma ArgumentsRead(mem: Memory, addr: nat, argc: nat)
    ensures Argv(mem, addr, argc).Some? ==> ArgumentsAt(mem, addr, Argv(mem, addr, argc).value)
    ensures forall argv | |argv| == argc && ArgumentsAt(mem, addr, argv) :: Argv(mem, addr, argc) == Some(argv)
  {
    ArgvMeaning(mem, addr, argc);
    hide Argv, Pointed;
    forall argv | |argv| == argc && ArgumentsAt(mem, addr, argv) ensures Argv(mem, addr, argc) == Some(argv) {
      forall i | 0 <= i < argc ensures Pointed(mem, addr, i) == Some(argv[i]) { }
      assert Argv(mem, addr, argc).value == argv;
    }
  }

  /** The pipe list of a call. */
  function PassedPipes(mem: Memory, addr: nat): Option<seq<PipeId>> {
    if addr == 0 then Some([]) else PipeList(mem, addr)
  }

  lemma PipesRead(mem: Memory, addr: nat, pipes: seq<PipeId>)
    ensures PassedPipes(mem, addr) == Some(pipes) <==> PipesAt(mem, addr, pipes)
  {
    hide PipeList, ListedAt;
    PipeListMeaning(mem, addr, pipes);
  }

  /** The same, in terms of the loops that read it. */
  ghost predicate AskedFor(core: Core, args: SpawnArgs) {
    && ToDataPieceId(core.regs[11], core.regs[10]) == Some(args.dataPieceId)
    && args.offset == core.regs[12] / 0x1_0000_0000 && args.length == core.regs[12] % 0x1_0000_0000
    && Argv(core.mem, core.regs[14], core.regs[13]) == Some(args.argv)
    && Load64(core.mem, core.regs[15]) == Some(args.instanceIdAddr)
    && Load64(core.mem, WrappingAdd(core.regs[15], 8)).Some?
    && PassedPipes(core.mem, Load64(core.mem, WrappingAdd(core.regs[15], 8)).value) == Some(args.pipes)
  }

  /** What is asked for is what the loops over the memory read. */
  lemma AsksWhatIsRead(core: Core, args: SpawnArgs)
    ensures Asks(core, args) <==> AskedFor(core, args)
  {
    hide Argv, PassedPipes, PipesAt, ArgumentsAt, Load64, ToDataPieceId, ListedAt, Pointed, PipeList;
    ArgumentsRead(core.mem, core.regs[14], core.regs[13]);
    var list := Load64(core.mem, WrappingAdd(core.regs[15], 8));
    if list.Some? { PipesRead(core.mem, list.value, args.pipes); }
    BoundsWord(core.regs[12], args.offset, args.length);
    ArgvLength(core.mem, core.regs[14], core.regs[13]);
  }

  lemma BoundsWord(word: u64, offset: u64, length: u64)
    ensures word == offset * 0x1_0000_0000 + length && length < 0x1_0000_0000 <==>
            offset == word / 0x1_0000_0000 && length == word % 0x1_0000_0000
  {
  }

  lemma ArgvLength(mem: Memory, addr: nat, argc: nat)
    ensures Argv(mem, addr, argc).Some? ==> |Argv(mem, addr, argc).value| == argc
  {
  }

  lemma BoundsCode(data: seq<byte>, offset: u64, length: u64)
    ensures SpawnBoundsCode(data, offset, length) == if InRange(data, offset, length) then 0 else 3
  {
  }

  /** A spawn is passed on to the scheduler if and only if it is accepted, and then with exactly what was asked for. */
  lemma SpawnAsks(env: Env, id: VmId, core: Core, now: nat, args: SpawnArgs)
    requires core.regs[17] == 2601
    ensures Handle(env, id, core, now) == Yielded(core, Spawn(id, args)) <==> Accepted(env, core, args)
    ensures Handle(env, id, core, now).Yielded? ==>
              Handle(env, id, core, now).core == core && Handle(env, id, core, now).message.Spawn?
  {
    AsksWhatIsRead(core, args);
    hide Asks, Argv, PipeList, Load64, ToDataPieceId, InRange, SpawnBoundsCode;
    if env.Piece(args.dataPieceId).Found? { BoundsCode(env.Piece(args.dataPieceId).data, args.offset, args.length); }
  }

  /** A spawn that is not passed on is answered at once or ends the run, in this order of reasons. */
  lemma SpawnRefused(env: Env, id: VmId, core: Core, now: nat)
    requires core.regs[17] == 2601
    ensures var r := Handle(env, id, core, now);
            if ToDataPieceId(core.regs[11], core.regs[10]).None? then r == Done(core.SetA0(1), 0)
            else if Oversized(core.regs[13]) then r == Failed(CapacityOverflow)
            else if forall args :: !Asks(core, args) then r == Failed(MemOutOfBound)
            else
              forall args | Asks(core, args) ::
                match env.Piece(args.dataPieceId)
                case Missing => r == Done(core.SetA0(1), 0)
                case Unloadable => r == Failed(BootFailure)
                case Found(data) => !InRange(data, args.offset, args.length) ==> r == Done(core.SetA0(3), 0)
  {
    hide Asks, Argv, PipeList, Load64, ToDataPieceId, InRange, SpawnBoundsCode;
    var piece, argv := ToDataPieceId(core.regs[11], core.regs[10]), Argv(core.mem, core.regs[14], core.regs[13]);
    var cell, list := Load64(core.mem, core.regs[15]), Load64(core.mem, WrappingAdd(core.regs[15], 8));
    if piece.Some? && argv.Some? && cell.Some? && list.Some? && PassedPipes(core.mem, list.value).Some? {
      AsksWhatIsRead(core, SpawnArgs(piece.value, core.regs[12] / 0x1_0000_0000, core.regs[12] % 0x1_0000_0000,
                                     argv.value, PassedPipes(core.mem, list.value).value, cell.value));
    }
    forall args | Asks(core, args) && env.Piece(args.dataPieceId).Found?
      ensures SpawnBoundsCode(env.Piece(args.dataPieceId).data, args.offset, args.length) ==
              if InRange(env.Piece(args.dataPieceId).data, args.offset, args.length) then 0 else 3
    {
      BoundsCode(env.Piece(args.dataPieceId).data, args.offset, args.length);
    }
    forall args | Asks(core, args) ensures AskedFor(core, args) { AsksWhatIsRead(core, args); }
  }

  // ---- The other calls ----

  /** A join waits for the VM that a0 names and wants its code where a1 points. */
  lemma JoinAsks(env: Env, id: VmId, core: Core, now: nat)
    requires core.regs[17] == 2602
    ensures var r := Handle(env, id, core, now);
            && r.Yielded? && r.core == core && r.message.JoinVm? && r.message.vm == id
            && r.message.target == core.regs[10] && r.message.exitCodeAddr == core.regs[11]
  {
  }

  /** A program that asks for its id is told so in a0, and nothing else of it changes. */
  lemma IdAsks(env: Env, id: VmId, core: Core, now: nat)
    requires core.regs[17] == 2603 && id < TWO64
    ensures var r := Handle(env, id, core, now);
            && r.Done? && r.charge == 0 && r.core.regs[10] == id
            && (forall i | 0 <= i < 32 && i != 10 :: r.core.Reg(i) == core.Reg(i))
            && r.core.pc == core.pc && r.core.mem == core.mem && r.core.reservation == core.reservation
  {
  }

  /** A new pipe's read end goes where a0 points, its write end into the next word. */
  lemma PipeAsks(env: Env, id: VmId, core: Core, now: nat)
    requires core.regs[17] == 2604
    ensures var r := Handle(env, id, core, now);
            && r.Yielded? && r.core == core && r.message.OpenPipe? && r.message.vm == id
            && r.message.pipe1Addr == core.regs[10] && r.message.pipe2Addr == (core.regs[10] + 8) % TWO64
  {
  }

  /** A transfer names its buffer in a0, the cell with its length in a1 and its pipe in a2. */
  ghost predicate Transfers(core: Core, io: PipeIoArgs) {
    && io.bufferAddr == core.regs[10] && io.lengthAddr == core.regs[11] && io.pipe == core.regs[12]
    && Load64(core.mem, core.regs[11]) == Some(io.length)
  }

  /** A write goes to the scheduler if and only if its length can be read and the pipe is a write end; a read end is
      refused with code 6. */
  lemma WriteAsks(env: Env, id: VmId, core: Core, now: nat)
    requires core.regs[17] == 2605
    ensures var r := Handle(env, id, core, now);
            if Load64(core.mem, core.regs[11]).None? then r == Failed(MemOutOfBound)
            else if core.regs[12] % 2 == 0 then r == Done(core.SetA0(6), 0)
            else r.Yielded? && r.core == core && r.message.PipeWrite? && r.message.vm == id &&
                 Transfers(core, r.message.io)
  {
    hide Load64;
  }

  /** A read, the other way round. */
  lemma ReadAsks(env: Env, id: VmId, core: Core, now: nat)
    requires core.regs[17] == 2606
    ensures var r := Handle(env, id, core, now);
            if Load64(core.mem, core.regs[11]).None? then r == Failed(MemOutOfBound)
            else if core.regs[12] % 2 == 1 then r == Done(core.SetA0(6), 0)
            else r.Yielded? && r.core == core && r.message.PipeRead? && r.message.vm == id &&
                 Transfers(core, r.message.io)
  {
    hide Load64;
  }

  /** The calls that the scheduler answers itself. */
  predicate Own(code: nat) {
    code == 2042 || 2601 <= code <= 2606
  }

  lemma OwnAnswersAreFree(env: Env, id: VmId, core: Core, now: nat)
    requires Own(core.regs[17])
    ensures Handle(env, id, core, now).Done? ==> Handle(env, id, core, now).charge == 0
    ensures !Handle(env, id, core, now).Exited?
  {
    hide Argv, PipeList, Load64;
  }

  /** Every other call is answered by the host: with a changed program and a charge, with an exit code, or with a
      fault. */
  lemma HostAnswers(env: Env, id: VmId, core: Core, now: nat)
    requires !Own(core.regs[17])
    ensures var r := Handle(env, id, core, now);
            match env.host(core)
            case HostDone(next, charge) => r.Done? && r.core == next && r.charge == charge
            case HostExit(next, code) => r.Exited? && r.core == next && r.code == code
            case HostFault(error) => r.Failed? && r.error == Fault(error)
  {
  }
}
