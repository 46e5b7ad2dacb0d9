/** The VM a scheduler drives. CKB-VM itself is outside the repository: its state is a plain value and its
    instruction semantics an arbitrary deterministic function handed in through `Env`. */
module Machine {
  import opened Words
  import opened Types

  const MAX_MEMORY: nat := 0x40_0000

  type Memory = m: seq<byte> | |m| <= MAX_MEMORY witness []

  type Registers = r: seq<u64> | |r| == 32 witness seq(32, _ => 0)

  const A0 := 10
  const A1 := 11
  const A2 := 12
  const A3 := 13
  const A4 := 14
  const A5 := 15
  const A7 := 17

  const SUCCESS: u64 := 0
  const INDEX_OUT_OF_BOUND: u64 := 1
  const SLICE_OUT_OF_BOUND: u64 := 3
  const JOIN_FAILURE: u64 := 5
  const INVALID_PIPE: u64 := 6
  const OTHER_END_CLOSED: u64 := 7

  /** Everything an instruction can look at. The cycle counter is deliberately not part of it. */
  datatype Core = Core(regs: Registers, pc: u64, mem: Memory, reservation: u64) {
    function Reg(i: nat): u64
      requires i < 32
    {
      regs[i]
    }

    function SetA0(v: u64): Core {
      this.(regs := regs[A0 := v])
    }
  }

  /** `cycles` are the cycles spent since the scheduler last moved them into its total. */
  datatype Vm = Vm(core: Core, cycles: nat, exitCode: int) {
    function SetA0(v: u64): Vm {
      this.(core := core.SetA0(v))
    }
  }

  // ---- Memory ----

  function Load(mem: Memory, addr: nat, length: nat): Option<seq<byte>> {
    if length == 0 then Some([])
    else if addr + length <= |mem| then Some(mem[addr..addr + length])
    else None
  }

  function Store(mem: Memory, addr: nat, data: seq<byte>): (r: Option<Memory>)
    ensures r.Some? ==> |r.value| == |mem|
  {
    if data == [] then Some(mem)
    else if addr + |data| <= |mem| then Some(mem[..addr] + data + mem[addr + |data|..])
    else None
  }

  function Load64(mem: Memory, addr: nat): Option<u64> {
    match Load(mem, addr, 8)
    case None => None
    case Some(bytes) => Some(FromLE(bytes) % TWO64)
  }

  function StoreVm(m: Vm, addr: nat, data: seq<byte>): Option<Vm> {
    match Store(m.core.mem, addr, data)
    case None => None
    case Some(mem) => Some(m.(core := m.core.(mem := mem)))
  }

  function Store64(m: Vm, addr: nat, v: nat): Option<Vm> {
    StoreVm(m, addr, ToLE(8, v))
  }

  /** `store8(addr, u64::from_i8(code))`: the low byte of the sign-extended exit code. */
  function Store8(m: Vm, addr: nat, code: int): Option<Vm> {
    StoreVm(m, addr, [code % 256])
  }

  /** Writes a 64-bit result cell and the success code, the way the scheduler finishes a blocking syscall. */
  function Complete64(m: Vm, addr: nat, v: nat): Option<Vm> {
    match Store64(m, addr, v)
    case None => None
    case Some(m') => Some(m'.SetA0(SUCCESS))
  }

  function Complete8(m: Vm, addr: nat, code: int): Option<Vm> {
    match Store8(m, addr, code)
    case None => None
    case Some(m') => Some(m'.SetA0(SUCCESS))
  }

  lemma StoreThenLoad(mem: Memory, addr: nat, data: seq<byte>)
    requires Store(mem, addr, data).Some?
    ensures Load(Store(mem, addr, data).value, addr, |data|) == Some(data)
  {
  }

  /** A load gives the bytes that are there, or nothing if they are not all within the memory. */
  lemma LoadMeaning(mem: Memory, addr: nat, length: nat)
    ensures Load(mem, addr, length).Some? <==> length == 0 || addr + length <= |mem|
    ensures Load(mem, addr, length).Some? ==>
              && |Load(mem, addr, length).value| == length
              && forall i | 0 <= i < length :: Load(mem, addr, length).value[i] == mem[addr + i]
  {
  }

  /** A store changes these bytes and no others, and fails where the load would. */
  lemma StoreMeaning(mem: Memory, addr: nat, data: seq<byte>)
    ensures Store(mem, addr, data).Some? <==> data == [] || addr + |data| <= |mem|
    ensures Store(mem, addr, data).Some? ==>
              var after := Store(mem, addr, data).value;
              && |after| == |mem|
              && (forall i | 0 <= i < |data| :: after[addr + i] == data[i])
              && forall i | 0 <= i < |mem| && !(addr <= i < addr + |data|) :: after[i] == mem[i]
  {
  }

  /** A word is eight bytes, the least significant one first. */
  lemma WordMeaning(mem: Memory, addr: nat, v: u64)
    ensures Load64(mem, addr) == Some(v) <==> addr + 8 <= |mem| && mem[addr..addr + 8] == ToLE(8, v)
  {
    if addr + 8 <= |mem| { BytesAreWord(mem[addr..addr + 8], v); }
    hide ToLE, FromLE;
  }

  lemma BytesAreWord(bytes: seq<byte>, v: u64)
    requires |bytes| == 8
    ensures FromLE(bytes) % TWO64 == v <==> bytes == ToLE(8, v)
  {
    hide ToLE, FromLE, Pow256;
    Pow256Values();
    FromToLE(8, v);
    ToFromLE(bytes);
  }

  // ---- Instruction semantics, supplied from outside ----

  type Cost = c: nat | 1 <= c witness 1

  datatype Instr =
    | Compute(cost: Cost, next: Core)
    | Ecall(cost: Cost, at: Core)
    | Trap(error: nat)

  /** Outcome of a syscall that the scheduler does not implement itself. */
  datatype HostCall =
    | HostDone(core: Core, charge: nat)
    | HostExit(core: Core, code: int)
    | HostFault(error: nat)

  datatype Booted = Booted(core: Core, bytesLoaded: nat)

  datatype Env = Env(
    decode: Core -> Instr,
    host: Core -> HostCall,
    boot: (seq<byte>, seq<seq<byte>>) -> Option<Booted>,
    program: seq<byte>,
    cell: DataPieceId -> Lookup)
  {
    function Piece(id: DataPieceId): Lookup {
      if id.Program? then Found(program) else cell(id)
    }
  }

  const BYTES_PER_CYCLE: nat := 4

  /** A cycle for every four bytes, rounded up. */
  function TransferredByteCycles(bytes: nat): (cycles: nat)
    ensures 4 * cycles - 3 <= bytes <= 4 * cycles
  {
    (bytes + BYTES_PER_CYCLE - 1) / BYTES_PER_CYCLE
  }
}
