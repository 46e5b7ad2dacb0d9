/** Identifiers, VM states and messages of the scheduler (src/types.rs). */
module Types {
  import opened Words

  type VmId = nat
  type PipeId = nat

  const ROOT: VmId := 0
  const FIRST_PIPE_SLOT: PipeId := 2

  /** Errors that can leave `Scheduler::run`. `CapacityOverflow` stands for the panic of an allocation that is too large
      to be asked for; the reference functions carry it like an error, the methods of the scheduler turn it into
      `Panic`. */
  datatype Error =
    | CyclesExceeded
    | Pause
    | CyclesOverflow
    | CapacityOverflow
    | MemOutOfBound
    | IndexOutOfBound
    | Deadlock
    | NotPipeOwner
    | BootFailure
    | TooManyRequested
    | NotSuspended
    | NotInstantiated
    | Fault(code: nat)

  /** `Panic` stands for a failed `unwrap`, index or `assert!` of the program. */
  datatype Result<+T> = Ok(value: T) | Err(error: Error) | Panic

  datatype VmState =
    | Runnable
    | Terminated
    | Join(target: VmId, exitCodeAddr: u64)
    | WaitForWrite(pipe: PipeId, consumed: u64, length: u64, bufferAddr: u64, lengthAddr: u64)
    | WaitForRead(pipe: PipeId, length: u64, bufferAddr: u64, lengthAddr: u64)

  datatype DataPieceId =
    | Program
    | Input(index: nat)
    | Output(index: nat)
    | CellDep(index: nat)
    | GroupInput(index: nat)
    | GroupOutput(index: nat)

  datatype SpawnArgs = SpawnArgs(
    dataPieceId: DataPieceId, offset: u64, length: u64,
    argv: seq<seq<byte>>, pipes: seq<PipeId>, instanceIdAddr: u64)

  datatype PipeIoArgs = PipeIoArgs(pipe: PipeId, length: u64, bufferAddr: u64, lengthAddr: u64)

  datatype Message =
    | Spawn(vm: VmId, spawnArgs: SpawnArgs)
    | JoinVm(vm: VmId, target: VmId, exitCodeAddr: u64)
    | OpenPipe(vm: VmId, pipe1Addr: u64, pipe2Addr: u64)
    | PipeRead(vm: VmId, io: PipeIoArgs)
    | PipeWrite(vm: VmId, io: PipeIoArgs)

  // ---- PipeId ----

  predicate IsRead(p: PipeId) { p % 2 == 0 }

  predicate IsWrite(p: PipeId) { p % 2 == 1 }

  /** `self.0 ^ 0x1`: flips the low bit. */
  function OtherPipe(p: PipeId): PipeId {
    if p % 2 == 0 then p + 1 else p - 1
  }

  /** `PipeId::create`: the read end, the write end and the next free slot. */
  function CreatePipe(slot: PipeId): (PipeId, PipeId, PipeId) {
    (slot, slot + 1, slot + 2)
  }

  /** The low-bit flip is an involution without fixed points that turns a read end into a write end,
      and it is the only map of that kind that stays within each created pair. */
  lemma OtherPipeIsInvolution(p: PipeId)
    ensures OtherPipe(OtherPipe(p)) == p && OtherPipe(p) != p
    ensures IsRead(p) <==> IsWrite(OtherPipe(p))
    ensures forall slot: PipeId | slot % 2 == 0 && (p == CreatePipe(slot).0 || p == CreatePipe(slot).1) ::
              {p, OtherPipe(p)} == {CreatePipe(slot).0, CreatePipe(slot).1}
  {
  }

  // ---- DataPieceId::try_from and TxData::load_data ----

  function ToDataPieceId(source: u64, index: u64): Option<DataPieceId> {
    if index >= 0x1_0000_0000 then None
    else if source == 1 then Some(Input(index))
    else if source == 2 then Some(Output(index))
    else if source == 3 then Some(CellDep(index))
    else if source == 0x0100_0000_0000_0001 then Some(GroupInput(index))
    else if source == 0x0100_0000_0000_0002 then Some(GroupOutput(index))
    else None
  }

  /** Looking up the bytes behind a data piece: outside the range of the transaction, or not loadable. */
  datatype Lookup = Found(data: seq<byte>) | Missing | Unloadable

  /** The slice `load_data` cuts out of a piece, and the length that was available from `offset` on. */
  function Slice(data: seq<byte>, offset: u64, length: u64): (seq<byte>, nat) {
    var start := Min(offset, |data|);
    var full := |data| - start;
    var size := if length > 0 then Min(full, length) else full;
    (data[start..start + size], full)
  }
}
