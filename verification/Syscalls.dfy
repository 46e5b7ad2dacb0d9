/** The syscalls the scheduler adds to a VM (src/syscalls.rs). */
module Syscalls {
  import opened Words
  import opened Types
  import opened Machine

  /** `Yielded` leaves exactly one message behind; the other outcomes leave none. */
  datatype SysResult =
    | Done(core: Core, charge: nat)
    | Yielded(core: Core, message: Message)
    | Exited(core: Core, code: int)
    | Failed(error: Error)

  // ---- Reading arguments from memory ----

  /** The bytes from `addr` up to, not including, the first NUL. */
  function CString(mem: Memory, addr: nat): Option<seq<byte>>
    decreases |mem| - addr
  {
    if addr >= |mem| then None
    else if mem[addr] == 0 then Some([])
    else Prepend([mem[addr]], CString(mem, addr + 1))
  }

  /** A C string is the stretch of memory that ends at the first NUL, and it exists iff there is one. */
  lemma {:induction false} CStringMeaning(mem: Memory, addr: nat)
    ensures CString(mem, addr).None? <==> forall i | addr <= i < |mem| :: mem[i] != 0
    ensures CString(mem, addr).Some? ==>
              var s := CString(mem, addr).value;
              addr + |s| < |mem| && s == mem[addr..addr + |s|] && mem[addr + |s|] == 0 && 0 !in s
    decreases |mem| - addr
  {
    if addr < |mem| && mem[addr] != 0 {
      CStringMeaning(mem, addr + 1);
    }
  }

  method LoadCString(mem: Memory, addr: u64) returns (r: Option<seq<byte>>)
    ensures r == CString(mem, addr)
  {
    var buffer: seq<byte> := [];
    var at: nat := addr;
    while at < |mem| && mem[at] != 0
      invariant addr <= at
      invariant CString(mem, addr) == Prepend(buffer, CString(mem, at))
      decreases |mem| - at
    {
      PrependTwice(buffer, [mem[at]], CString(mem, at + 1));
      buffer := buffer + [mem[at]];
      at := at + 1;
    }
    r := if at < |mem| then Some(buffer) else None;
  }

  /** `argc` pointers starting at `addr`, each followed to its C string. */
  function Argv(mem: Memory, addr: nat, argc: nat): (r: Option<seq<seq<byte>>>)
    ensures r.Some? ==> |r.value| == argc
    decreases argc
  {
    if argc == 0 then Some([])
    else match Load64(mem, addr)
      case None => None
      case Some(target) =>
        match CString(mem, target)
        case None => None
        case Some(s) => Prepend([s], Argv(mem, addr + 8, argc - 1))
  }

  /** `Vec::with_capacity` of 32-byte elements panics from this length on: the vector would have 2^63 bytes. */
  const ARGC_CAPACITY: nat := 0x400_0000_0000_0000

  /** Room for the whole vector is asked for before the first pointer is read. */
  method LoadArgv(mem: Memory, addr: u64, argc: u64) returns (r: Result<seq<seq<byte>>>)
    ensures r.Panic? <==> argc >= ARGC_CAPACITY
    ensures r.Ok? ==> Argv(mem, addr, argc) == Some(r.value)
    ensures r.Err? ==> Argv(mem, addr, argc).None? && r.error == MemOutOfBound
  {
    if argc >= ARGC_CAPACITY { return Panic; }
    var argv: seq<seq<byte>> := [];
    var at: nat := addr;
    for i := 0 to argc
      invariant at == addr + 8 * i
      invariant Argv(mem, addr, argc) == Prepend(argv, Argv(mem, at, argc - i))
    {
      var target := Load64(mem, at);
      if target.None? { return Err(MemOutOfBound); }
      var s := LoadCString(mem, target.value);
      if s.None? { return Err(MemOutOfBound); }
      PrependTwice(argv, [s.value], Argv(mem, at + 8, argc - i - 1));
      argv := argv + [s.value];
      at := at + 8;
    }
    r := Ok(argv);
  }

  /** The zero-terminated list of pipe ids at `addr`. */
  function PipeList(mem: Memory, addr: nat): Option<seq<PipeId>>
    decreases |mem| - addr
  {
    match Load64(mem, addr)
    case None => None
    case Some(p) =>
      if p == 0 then Some([])
      else Prepend([p], PipeList(mem, addr + 8))
  }

  method LoadPipeList(mem: Memory, addr: u64) returns (r: Option<seq<PipeId>>)
    ensures r == PipeList(mem, addr)
  {
    var pipes: seq<PipeId> := [];
    var at: nat := addr;
    while true
      invariant PipeList(mem, addr) == Prepend(pipes, PipeList(mem, at))
      decreases |mem| - at
    {
      var p := Load64(mem, at);
      if p.None? { return None; }
      if p.value == 0 { return Some(pipes); }
      PrependTwice(pipes, [p.value], PipeList(mem, at + 8));
      pipes := pipes + [p.value];
      at := at + 8;
    }
  }

  /** The argument vector is there exactly when every pointer can be loaded and leads to a C string, and it then
      lists these strings in order. */
  lemma {:induction false} ArgvMeaning(mem: Memory, addr: nat, argc: nat)
    ensures Argv(mem, addr, argc).Some? <==> forall i | 0 <= i < argc :: Pointed(mem, addr, i).Some?
    ensures Argv(mem, addr, argc).Some? ==>
              forall i | 0 <= i < argc :: Pointed(mem, addr, i) == Some(Argv(mem, addr, argc).value[i])
    decreases argc
  {
    if argc > 0 {
      ArgvMeaning(mem, addr + 8, argc - 1);
      forall i | 0 < i < argc ensures Pointed(mem, addr, i) == Pointed(mem, addr + 8, i - 1) {
        assert addr + 8 + 8 * (i - 1) == addr + 8 * i;
      }
      ArgvFirst(mem, addr, argc);
      hide Pointed, Argv;
      if Argv(mem, addr, argc).Some? {
        var q, rest := Argv(mem, addr, argc).value, Argv(mem, addr + 8, argc - 1).value;
        forall i | 0 <= i < argc ensures Pointed(mem, addr, i) == Some(q[i]) {
          if i > 0 { assert Pointed(mem, addr + 8, i - 1) == Some(rest[i - 1]); }
        }
      } else if Pointed(mem, addr, 0).Some? {
        var i: nat :| i < argc - 1 && Pointed(mem, addr + 8, i).None?;
        assert Pointed(mem, addr, i + 1).None?;
      }
    }
  }

  lemma ArgvFirst(mem: Memory, addr: nat, argc: nat)
    requires argc > 0
    ensures Argv(mem, addr, argc) ==
            match Pointed(mem, addr, 0)
            case None => None
            case Some(s) => Prepend([s], Argv(mem, addr + 8, argc - 1))
  {
  }

  /** The C string behind pointer `i` of those stored from `addr` on. */
  function Pointed(mem: Memory, addr: nat, i: nat): Option<seq<byte>> {
    match Load64(mem, addr + 8 * i)
    case None => None
    case Some(target) => CString(mem, target)
  }

  /** The word `i` cells after `addr`. */
  function WordAt(mem: Memory, addr: nat, i: nat): Option<u64> {
    Load64(mem, addr + 8 * i)
  }

  /** `q` stands at `addr`, with the first zero word behind it. */
  ghost predicate ListedAt(mem: Memory, addr: nat, q: seq<PipeId>) {
    && 0 !in q && WordAt(mem, addr, |q|) == Some(0)
    && forall i | 0 <= i < |q| :: WordAt(mem, addr, i) == Some(q[i])
  }

  /** Cell `n` is the first one that cannot be loaded, and no cell before it holds zero. */
  ghost predicate BreaksAt(mem: Memory, addr: nat, n: nat) {
    WordAt(mem, addr, n).None? && forall i: nat | i < n :: WordAt(mem, addr, i).Some? && WordAt(mem, addr, i) != Some(0)
  }

  lemma WordsShift(mem: Memory, addr: nat, next: nat)
    requires next == addr + 8
    ensures forall i: nat :: WordAt(mem, next, i) == WordAt(mem, addr, i + 1)
  {
  }

  /** The pipe list is exactly what stands before the first zero word. */
  lemma {:induction false} PipeListMeaning(mem: Memory, addr: nat, q: seq<PipeId>)
    ensures PipeList(mem, addr) == Some(q) <==> ListedAt(mem, addr, q)
    decreases |mem| - addr
  {
    var p := Load64(mem, addr);
    assert p == WordAt(mem, addr, 0);
    if p.Some? && p.value != 0 && q != [] {
      PipeListMeaning(mem, addr + 8, q[1..]);
      ListedTail(mem, addr, addr + 8, q);
      assert q == [q[0]] + q[1..];
    }
  }

  lemma ListedTail(mem: Memory, addr: nat, next: nat, q: seq<PipeId>)
    requires q != [] && next == addr + 8
    ensures ListedAt(mem, addr, q) <==>
            q[0] != 0 && WordAt(mem, addr, 0) == Some(q[0]) && ListedAt(mem, next, q[1..])
  {
    WordsShift(mem, addr, next);
    hide WordAt;
    assert q == [q[0]] + q[1..];
    if ListedAt(mem, next, q[1..]) && WordAt(mem, addr, 0) == Some(q[0]) {
      forall i | 0 <= i < |q| ensures WordAt(mem, addr, i) == Some(q[i]) {
        if i > 0 { assert WordAt(mem, next, i - 1) == Some(q[1..][i - 1]); }
      }
      assert WordAt(mem, next, |q| - 1) == WordAt(mem, addr, |q|);
    }
    if ListedAt(mem, addr, q) {
      forall i | 0 <= i < |q| - 1 ensures WordAt(mem, next, i) == Some(q[1..][i]) {
        assert WordAt(mem, addr, i + 1) == Some(q[i + 1]);
      }
    }
  }

  /** There is no pipe list exactly when a cell that cannot be loaded comes before any zero word. */
  lemma {:induction false} PipeListMissing(mem: Memory, addr: nat)
    ensures PipeList(mem, addr).None? <==> exists n: nat :: BreaksAt(mem, addr, n)
    decreases |mem| - addr
  {
    var p, next := Load64(mem, addr), addr + 8;
    assert p == WordAt(mem, addr, 0);
    if p.None? {
      assert BreaksAt(mem, addr, 0);
    } else if p.value != 0 {
      PipeListMissing(mem, next);
      WordsShift(mem, addr, next);
      hide WordAt;
      if n: nat :| BreaksAt(mem, next, n) { BreakBefore(mem, addr, next, n); }
      if n: nat :| BreaksAt(mem, addr, n) { BreakBefore(mem, addr, next, n - 1); }
    }
  }

  lemma BreakBefore(mem: Memory, addr: nat, next: nat, n: nat)
    requires next == addr + 8 && WordAt(mem, addr, 0).Some? && WordAt(mem, addr, 0).value != 0
    ensures BreaksAt(mem, addr, n + 1) <==> BreaksAt(mem, next, n)
  {
    WordsShift(mem, addr, next);
    hide WordAt;
    if BreaksAt(mem, next, n) {
      forall i: nat | i < n + 1 ensures WordAt(mem, addr, i).Some? && WordAt(mem, addr, i) != Some(0) {
        if i > 0 { assert WordAt(mem, next, i - 1).Some?; }
      }
    }
    if BreaksAt(mem, addr, n + 1) {
      forall i: nat | i < n ensures WordAt(mem, next, i).Some? && WordAt(mem, next, i) != Some(0) {
        assert WordAt(mem, addr, i + 1).Some?;
      }
    }
  }

  // ---- The syscalls as functions of the machine ----

  function Fail(core: Core, code: u64): SysResult {
    Done(core.SetA0(code), 0)
  }

  /** Whether the part of the piece named by `offset` and `length` exists. */
  function SpawnBoundsCode(data: seq<byte>, offset: u64, length: u64): u64 {
    var full := Slice(data, 0, 0).1;
    if offset >= full then SLICE_OUT_OF_BOUND
    else if length > 0 && offset + length > full then SLICE_OUT_OF_BOUND
    else SUCCESS
  }

  function SpawnCall(env: Env, id: VmId, core: Core): SysResult {
    match ToDataPieceId(core.Reg(A1), core.Reg(A0))
    case None => Fail(core, INDEX_OUT_OF_BOUND)
    case Some(piece) =>
      var offset: u64 := core.Reg(A2) / 0x1_0000_0000;
      var length: u64 := core.Reg(A2) % 0x1_0000_0000;
      if core.Reg(A3) >= ARGC_CAPACITY then Failed(CapacityOverflow) else
      match Argv(core.mem, core.Reg(A4), core.Reg(A3))
      case None => Failed(MemOutOfBound)
      case Some(argv) =>
        var instanceIdAddr := Load64(core.mem, core.Reg(A5));
        var pipesAddr := Load64(core.mem, WrappingAdd(core.Reg(A5), 8));
        if instanceIdAddr.None? || pipesAddr.None? then Failed(MemOutOfBound)
        else match if pipesAddr.value == 0 then Some([]) else PipeList(core.mem, pipesAddr.value)
          case None => Failed(MemOutOfBound)
          case Some(pipes) =>
            match env.Piece(piece)
            case Missing => Fail(core, INDEX_OUT_OF_BOUND)
            case Unloadable => Failed(BootFailure)
            case Found(data) =>
              var code := SpawnBoundsCode(data, offset, length);
              if code != SUCCESS then Fail(core, code)
              else Yielded(core, Spawn(id, SpawnArgs(piece, offset, length, argv, pipes, instanceIdAddr.value)))
  }

  function JoinCall(id: VmId, core: Core): SysResult {
    Yielded(core, JoinVm(id, core.Reg(A0), core.Reg(A1)))
  }

  function PipeCall(id: VmId, core: Core): SysResult {
    Yielded(core, OpenPipe(id, core.Reg(A0), WrappingAdd(core.Reg(A0), 8)))
  }

  function PipeIo(core: Core, length: u64): PipeIoArgs {
    PipeIoArgs(core.Reg(A2), length, core.Reg(A0), core.Reg(A1))
  }

  function PipeWriteCall(id: VmId, core: Core): SysResult {
    match Load64(core.mem, core.Reg(A1))
    case None => Failed(MemOutOfBound)
    case Some(length) =>
      if !IsWrite(core.Reg(A2)) then Fail(core, INVALID_PIPE)
      else Yielded(core, PipeWrite(id, PipeIo(core, length)))
  }

  function PipeReadCall(id: VmId, core: Core): SysResult {
    match Load64(core.mem, core.Reg(A1))
    case None => Failed(MemOutOfBound)
    case Some(length) =>
      if !IsRead(core.Reg(A2)) then Fail(core, INVALID_PIPE)
      else Yielded(core, PipeRead(id, PipeIo(core, length)))
  }

  /** Cycles spent so far by all VMs together: the scheduler's total plus this VM's own pending ones. */
  function CurrentCyclesCall(core: Core, now: nat): SysResult {
    if now >= TWO64 then Failed(CyclesOverflow) else Done(core.SetA0(now), 0)
  }

  /** `ecall`: dispatch on A7. `now` is what `current_cycles` would report. */
  function Handle(env: Env, id: VmId, core: Core, now: nat): SysResult {
    var code := core.Reg(A7);
    if code == 2042 then CurrentCyclesCall(core, now)
    else if code == 2601 then SpawnCall(env, id, core)
    else if code == 2602 then JoinCall(id, core)
    else if code == 2603 then Done(core.SetA0(id % TWO64), 0)
    else if code == 2604 then PipeCall(id, core)
    else if code == 2605 then PipeWriteCall(id, core)
    else if code == 2606 then PipeReadCall(id, core)
    else match env.host(core)
      case HostDone(next, charge) => Done(next, charge)
      case HostExit(next, exitCode) => Exited(next, exitCode)
      case HostFault(error) => Failed(Fault(error))
  }

  /** What the scheduler may rely on in a message: it comes from the running VM, reads name read ends and
      writes name write ends. */
  predicate WellFormedMessage(id: VmId, message: Message) {
    && message.vm == id
    && (message.PipeRead? ==> IsRead(message.io.pipe))
    && (message.PipeWrite? ==> IsWrite(message.io.pipe))
  }

  lemma HandleYieldsWellFormed(env: Env, id: VmId, core: Core, now: nat)
    ensures var r := Handle(env, id, core, now); r.Yielded? ==> WellFormedMessage(id, r.message)
  {
  }

  /** A spawn call that names a data piece and asks for more arguments than a vector can hold. */
  predicate HugeSpawn(core: Core) {
    && core.Reg(A7) == 2601 && ToDataPieceId(core.Reg(A1), core.Reg(A0)).Some?
    && core.Reg(A3) >= ARGC_CAPACITY
  }

  /** The only syscall that panics, whatever the memory holds and whichever pieces exist. */
  lemma HugeSpawnPanics(env: Env, id: VmId, core: Core, now: nat)
    ensures Handle(env, id, core, now) == Failed(CapacityOverflow) <==> HugeSpawn(core)
  {
    hide Argv, PipeList, Load64, SpawnBoundsCode;
  }

  // ---- Spawn bounds agree with booting ----

  /** Whenever the spawn syscall accepts a bounds word, the bytes `boot_vm` later loads for it are exactly the
      named range, never a truncated one; and the word it rejects names a range that is not all there. */
  lemma SpawnBoundsMatchBoot(env: Env, id: VmId, core: Core, data: seq<byte>)
    requires core.Reg(A7) == 2601
    requires var piece := ToDataPieceId(core.Reg(A1), core.Reg(A0));
             piece.Some? && env.Piece(piece.value) == Found(data)
    ensures var offset := core.Reg(A2) / 0x1_0000_0000;
            var length := core.Reg(A2) % 0x1_0000_0000;
            var r := Handle(env, id, core, 0);
            && (r.Yielded? ==>
                  && r.message.Spawn?
                  && r.message.spawnArgs.offset == offset < |data|
                  && r.message.spawnArgs.length == length
                  && (length == 0 ==> Slice(data, offset, length).0 == data[offset..])
                  && (length > 0 ==> offset + length <= |data| &&
                                     Slice(data, offset, length).0 == data[offset..offset + length]))
            && (r.Done? ==> r.core == core.SetA0(SLICE_OUT_OF_BOUND) && (offset >= |data| || offset + length > |data|))
  {
    var offset := core.Reg(A2) / 0x1_0000_0000;
    assert Slice(data, 0, 0).1 == |data|;
    assert offset < |data| ==> Min(offset, |data|) == offset;
  }
}
