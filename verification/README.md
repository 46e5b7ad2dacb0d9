# Verification of the spawn scheduler

A Dafny model of the deterministic VM scheduler (`src/lib.rs`, `src/types.rs`, `src/syscalls.rs`), of the workload
planner and the program that carries its plans out (`src/dev_utils/mod.rs`, `test-contracts/main.c`), and of the two
codecs between them (`src/dev_utils/dag.rs`, `test-contracts/escape_encoding.h`), with proofs of what they are for.
`dafny verify dfyconfig.toml` checks everything.

## The scheduler

A `Scheduler` runs many VMs, one at a time. VMs spawn each other, join each other and move bytes through pipes. At most
four machines are instantiated; the others are snapshots.

- `Flat.dfy` is a reference scheduler: the same steps with all machines in one map, written as functions.
  `Scheduler.dfy` is the class of `src/lib.rs` with its fields, loops and its machine cache. Each of its methods is
  proved to do what the reference function does, whatever is evicted or resumed on the way.
- A machine is a value (registers, memory, pending cycles, exit code). What an instruction does, what a syscall outside
  the scheduler does, what booting does and which cells a transaction has are parameters (`Machine.Env`), so every
  result holds for all programs. Taking a snapshot and resuming from it is the identity.
- `Calls.dfy` says, register by register and cell by cell, what each syscall asks the scheduler for, `CallTurns.dfy` and
  `Results.dfy` what comes of it, and `ExitCodes.dfy` where the code comes from with which a VM ends.
- `Invariants.dfy` states what holds in every reachable state and proves it for every turn. `Turns.dfy`, `Traces.dfy`,
  `Streams.dfy`, `Cycles.dfy`, `Deadlock.dfy`, `Slicing.dfy` and `Progress.dfy` build the results about whole runs on it.
- A run of instructions stops for a message, an exit, an error, the cycle limit, or the pause signal. The pause signal is
  an input: the number of instructions after which it is noticed.

### What the code does where one might expect something else

- The scheduler can panic in two places, and `Schedulers.Scheduler.Iterate`, `Schedulers.Scheduler.Run` and
  `VerifyTx.VerifyGroup` say exactly when a turn, a call of `run` and the loop of `verify_tx` do.
  - The closed-pipe branch of `process_io` unwraps `instantiated` without filling the cache (`src/lib.rs:454-481`). If the
    VM whose partner closed the pipe is only a snapshot, the scheduler panics. `Caches.dfy` says which machines are in the
    cache after every step, as a function of the reference state. A suspension empties the cache, so every VM blocked on a
    pipe is exposed: `Witness.dfy` has two small programs, run from boot, for which `verify_tx` panics when it suspends
    once and reports exit code 0 when it does not.
  - `spawn` reserves room for its arguments before it reads the first of them (`src/syscalls.rs:236`). With 2^58 arguments
    or more the vector would have 2^63 bytes, which is a panic. The reference functions carry it as the error
    `CapacityOverflow`, the methods of the scheduler turn it into `Panic`. `Singles.OneVmPanics` is a single VM that does it.
  - With at most four VMs alive and no suspension only the second one is left (`VerifyTx.FewVmsPanics`).
- `run` computes the next limit as `consumed_cycles - consumed_cycles` (`src/lib.rs:174-176`), which is 0. One call of
  `run` therefore makes at most one turn of progress (`Slicing.RunMakesOneTurn`).
- The pipes are not purged when the root terminates, so claims about live owners are made for a live root.
- A zero-length read or write is answered with length 0, so 0 does not mean that the other end was closed.
- `current_cycles` and the total are 64-bit. An overflow of the total ends the run, but it is noticed only when the VM
  that runs is stopped. All ways of slicing a run that come to an end come to the same end, an overflow included, with one
  exception: past the overflow a slice can still reach an oversized spawn call and panic where a shorter one reports the
  overflow (`Slicing.SlicingIsTransparent`, `Singles.SlicesCanDiffer`).
- `verify_tx` has no bound on its rounds. It goes on forever if and only if it comes to a state in which the next
  instruction costs more than a whole slice; otherwise as many rounds as the maximum of cycles plus two are enough
  (`Progress.VerifyToTheEnd`).
- `verify_tx` adds up the cycles of all script groups; the model is of the loop for one group.

## The planner and its programs

`Planner.dfy` is `generate_data_graph` with every random choice as an input: the parent picked for each VM and the write
edges with their data (any two different VMs; that the write graph is acyclic is not needed). `Guests.dfy` is `main.c`, a
state machine per VM with one step for each iteration of its loops and each syscall, interleaved arbitrarily; a read and
the write that serves it are one step. Its first step loads the whole plan. `GuestInv.dfy`, `GuestSteps.dfy` and
`GuestRuns.dfy` prove that a generated plan never fails, never gets stuck, and always comes to its end. `PlanCodec.dfy`
shows that the plan that arrives in the programs is the one that was made, `PlanSizes.dfy` how long its encoding is.

`PlanOnScheduler.dfy`, `PlanTurns.dfy` and `PlanDrives.dfy` connect these programs with the scheduler. `Shows` relates a
scheduler state to a state of the plan. The booted scheduler shows the start, and every turn in which the VM that runs
makes the syscall that comes next in its part of the plan, or returns the exit code that its joins lead to, leads from a
state that shows one to a state that shows the next. Hence a workload whose programs keep to their plan is never reported
as a deadlock, never makes the scheduler panic, however it is sliced and suspended, and can only exit with code 0.
`PlanProgress.dfy` bounds the number of turns it takes by the plan alone, so in slices that are long enough it does come to
its end. That the programs keep to the plan is the premise; it replaces running their machine code. `PlanExample.dfy` has
a program that does.

The capacities of `main.c` (600 KB for the encoded plan, 3200 pipe ends and 1024 children for each VM) are the condition
`GuestInv.Fits` on the plan. The planner does not check them, and it does draw plans beyond them: 1600 writes of 1024
bytes are too much for the buffer (`PlanBounds.LargePlanFails`). `PlanLimits.dfy` proves the condition exact: some run of
the plan reaches the exit of the root if and only if the plan fits, and if it fits, every run does. `PlanBounds.dfy`
gives a condition that can be checked before the plan is made.

## The codecs

`Molecule.dfy` has the four shapes of `dag.rs` (array, fixed vector, table, dynamic vector) once, for any schema;
`PIPE`, `WRITE`, `SPAWN` and `DATA` are the schemas of this repository. `RoundTrips.dfy` proves both round trips.
`Escape.dfy` is the NUL-free escape encoding with its bounded and its in-place loops.

## Model

| member | source | states |
|---|---|---|
| Types.OtherPipeIsInvolution | src/types.rs:24-40 | flipping the low bit is an involution without fixed points, joins each created read end to its write end, and swaps the two kinds |
| Words.FromToLE | src/lib.rs:303-311 | a 64-bit result cell read back gives the number stored |
| Words.LittleEndian | src/lib.rs:303-311 | byte i of a stored number holds its bits from 8i on |
| Machine.StoreThenLoad | src/lib.rs:520-526 | bytes stored are the bytes loaded back |
| Machine.LoadMeaning | src/lib.rs:508-519 | a load gives exactly the bytes that are there, and fails if and only if they are not all within the memory |
| Machine.StoreMeaning | src/lib.rs:520-526 | a store changes exactly these bytes, and fails under the same condition |
| Machine.WordMeaning | src/syscalls.rs:249-262 | a word is eight bytes, the least significant one first |
| Syscalls.CStringMeaning | src/syscalls.rs:492-509 | a C string is the memory up to the first NUL, and exists if and only if there is a NUL |
| Syscalls.LoadCString | src/syscalls.rs:492-509 | the byte-wise loop computes that string or the out-of-bound error |
| Syscalls.LoadArgv | src/syscalls.rs:233-247 | the loop over argument pointers computes the argument vector or the out-of-bound error, and it panics if and only if there are 2^58 arguments or more |
| Syscalls.ArgvMeaning | src/syscalls.rs:233-247 | the vector exists if and only if each of the argc pointers leads to a C string, and lists these in order |
| Syscalls.LoadPipeList | src/syscalls.rs:249-277 | the loop over pipe ids stops at the first zero word |
| Syscalls.PipeListMeaning | src/syscalls.rs:249-277 | the list is q if and only if q stands at the address, has no zero in it, and the first zero word follows it |
| Syscalls.PipeListMissing | src/syscalls.rs:249-277 | there is no list if and only if a word that cannot be loaded comes before any zero word |
| Syscalls.HandleYieldsWellFormed | src/syscalls.rs:451-469 | a message names the running VM; reads name even pipe ids, writes odd ones |
| Syscalls.HugeSpawnPanics | src/syscalls.rs:211-236 | of the scheduler's syscalls only spawn can panic, and it does if and only if source and index name a kind of data and there are 2^58 arguments or more, whatever memory and transaction hold |
| Syscalls.SpawnBoundsMatchBoot | src/syscalls.rs:279-303 | if spawn accepts a bounds word, the bytes booted are exactly that range; if it answers SLICE_OUT_OF_BOUND the range is not all there |
| Calls.SourceNumbers | src/types.rs:114-130 | 1 names inputs, 2 outputs, 3 cell dependencies, and with the top byte 1 the inputs and outputs of the group; positions have 32 bits |
| Calls.SpawnAsks | src/syscalls.rs:211-321 | a spawn is passed on if and only if its arguments can be read and the data is there, and then with exactly the piece, part, arguments, pipes and id cell that registers and memory say |
| Calls.SpawnRefused | src/syscalls.rs:211-303 | otherwise it is answered with code 1 or 3, or ends the run, in this order of reasons |
| Calls.JoinAsks | src/syscalls.rs:328-343 | a join waits for the VM that a0 names and wants its code where a1 points |
| Calls.IdAsks | src/syscalls.rs:346-350 | a program is told its id in a0, and nothing else of it changes |
| Calls.PipeAsks | src/syscalls.rs:353-367 | the read end goes where a0 points, the write end into the next word |
| Calls.WriteAsks | src/syscalls.rs:370-403 | a write is passed on if and only if its length can be read and the pipe is a write end, with buffer, length, length cell and pipe in place; a read end is refused with code 6 |
| Calls.ReadAsks | src/syscalls.rs:406-439 | a read, the other way round |
| Calls.HostAnswers | src/syscalls.rs:451-471 | every other call is the host's: with its result and its charge, its exit code, or its fault |
| CallTurns.ExecuteMeaning | src/lib.rs:206-221 | an instruction computes, traps, or makes a call that is answered, passed on, ends the VM or fails, at its cost and the charge of the call |
| CallTurns.RunMeaning | src/lib.rs:206-221 | a run executes instructions as long as the pause signal is not due, the next one fits under the limit and none stops it, and reports the first of these that happens |
| CallTurns.JoinReturns | src/lib.rs:314-344 | from the registers of a join to memory: the low byte of the recorded code at a1, or a wait for the VM in a0, or code 5 |
| CallTurns.PipeReturns | src/lib.rs:345-367 | from the registers of a pipe call to the two cells at a0 |
| CallTurns.ReadReturns | src/lib.rs:368-395 | a read is refused with 6 for an end not owned and with 7 for a pipe closed at the other end, and otherwise waits with the buffer, length, length cell and pipe of its registers |
| CallTurns.WriteReturns | src/lib.rs:396-424 | a write likewise, with nothing consumed so far |
| CallTurns.SpawnOutcome | src/lib.rs:287-313 | a spawn fails for an end not owned, then for its program, then for the cell of the new id, and otherwise succeeds |
| CallTurns.CallOfTurn | src/lib.rs:187-281 | a turn that comes to a call that is passed on is the delivery of the message that the call stands for |
| CallTurns.JoinTurn | src/lib.rs:187-281 | after a turn in which a program joins a VM that has ended, the byte at a1 is the low byte of its recorded code |
| CallTurns.CutReason | src/lib.rs:206-221 | a turn is cut because the pause signal was due after the instructions executed, or because the next one does not fit |
| CallTurns.RunErrorMeaning | src/lib.rs:167-177 | which of the two errors run returns when it can be gone on from |
| CallTurns.BootMeaning | src/lib.rs:660-672 | a booted machine starts where its program does with the given arguments, and is charged a cycle for every four bytes loaded, rounded up |
| CallTurns.RootBoots | src/lib.rs:157-165 | a run starts with the whole program as VM 0, without arguments and alone; the next VM is 1 and the next pipe has the ends 2 and 3 |
| ExitCodes.ExecuteExits | src/syscalls.rs:451-471 | an instruction ends its VM if and only if the host does, and with the host's code |
| ExitCodes.HostExitStops | src/lib.rs:206-221 | a run that comes to such an instruction stops with that code |
| ExitCodes.StopIsHosts | src/lib.rs:206-221 | a run that stops with a code has come to such an instruction |
| ExitCodes.RecordedCode | src/lib.rs:228-235 | the code recorded for a VM, and told to all who join it, is the one the host ended it with |
| ExitCodes.CompletedByHost | src/lib.rs:157-182 | however it is sliced, a completed run went through a state in which the host ended the root with exactly the code returned; the total, the pipes and the codes of the others are as they were then |
| ExitCodes.VerdictIsHosts | src/dev_utils/mod.rs:94-168 | so is the code with which a script group exits |
| Results.ResultIsStored | src/lib.rs:455-481 | a finished call leaves the result in its 64-bit cell and success in A0, and changes nothing else of the VM |
| Results.SpawnResult | src/lib.rs:287-313 | the parent reads the child's fresh id; the child boots from the named slice with the given arguments and owns exactly the passed ends; all other VMs and ends stay |
| Results.PipeResult | src/lib.rs:345-367 | the new even read end is stored first and its odd write end behind it, both fresh and owned by the caller |
| Results.JoinResult | src/lib.rs:257-268 | a woken VM finds the low byte of the exit code in its cell and success in A0, and is otherwise unchanged |
| Results.ReadResult | src/lib.rs:482-563 | a served reader finds the bytes the writer handed over in its buffer and their number in its length cell |
| Ordered.LargestIsUnique | src/lib.rs:192-198 | the largest key is unique, so the VM to run is determined |
| Invariants.BootedRootIsLive | src/lib.rs:158-165 | a freshly booted root satisfies the global invariant |
| Invariants.OneWaiterPerEnd | src/lib.rs:368-424 | a VM waiting on a pipe owns it, so no two VMs wait on one end |
| Invariants.MatchedIsPeer | src/lib.rs:482-488 | a matched reader and writer each own the other end of the other's pipe |
| Invariants.PairsAreDisjoint | src/lib.rs:482-488 | the collected pairs share no VM |
| Invariants.IoStateOk | src/lib.rs:430-565 | input and output only ends waits or advances a write without reaching its length |
| Invariants.IoKeepsLive | src/lib.rs:430-565 | pending input and output keeps the invariant |
| Invariants.PendingIsSelected | src/lib.rs:644-675 | cycles not yet in the total belong to the VM that runs next |
| Invariants.ChargeKeepsLive | src/lib.rs:206-221 | moving a VM's cycles into the total leaves no pending cycles and keeps the invariant |
| Invariants.DeliverKeepsLive | src/lib.rs:283-428 | every message keeps the invariant |
| Invariants.EndOtherKeepsLive | src/lib.rs:245-275 | the end of a VM keeps the invariant: no join target, pipe owner or waiter is lost |
| Invariants.ConcludeKeepsInv | src/lib.rs:222-281 | after a turn the state is live, or the root has ended |
| Invariants.IterateKeepsInv | src/lib.rs:187-281 | every turn keeps the invariant: ids fresh, live or terminated but never both, joins on live VMs, waiters own their ends, even slots, pending cycles only at the largest id |
| IoSteps.PartialEnd | src/lib.rs:430-565 | serving closed waiters and pairs one by one, in any order, is the simultaneous update |
| IoSteps.PairStep | src/lib.rs:482-563 | a pair moves min(read length, remaining) bytes; the reader is done, the writer only when all is written |
| IoSteps.WakeEnd | src/lib.rs:245-275 | waking the joiners one by one and then removing the VM is its termination |
| IoSteps.IoFails | src/lib.rs:430-565 | settling input and output fails if and only if the bytes of a pair, or a cell for a result, lie beyond the memory |
| IoSteps.EndFails | src/lib.rs:245-268 | the end of a VM fails if and only if the cell of a joining VM lies beyond its memory |
| Deadlocks.IoLeavesNoClosedWaiter | src/lib.rs:430-481 | after process_io nobody waits on a pipe that is closed at the other end |
| Deadlocks.IoLeavesNoPair | src/lib.rs:482-563 | after process_io no matched pair waits |
| Deadlocks.IoIdempotent | src/lib.rs:430-565 | process_io twice is process_io once |
| Deadlocks.CutIsResumed | src/lib.rs:187-204 | a VM stopped by the cycle limit or the pause signal is the one selected on re-entry, with nothing left to settle |
| Deadlocks.DeadlockIffAllStuck | src/lib.rs:188-203 | a deadlock is reported if and only if every VM joins a live VM or waits on an open pipe whose other owner does not wait on it |
| Deadlocks.Pigeonhole | src/lib.rs:188-203 | following waits among finitely many VMs repeats one |
| Deadlocks.DeadlockHasCycle | src/lib.rs:188-203 | a reported deadlock is a cycle of live VMs each waiting for the next |
| Deadlocks.RankedWaitsNeverDeadlock | src/lib.rs:188-203 | if waits only go to VMs of smaller rank, no deadlock is ever reported |
| Slicing.MicroStepIsGood | src/lib.rs:187-281 | each single instruction, with what it triggers, keeps the invariant |
| Slicing.EndIsUnique | src/lib.rs:157-182 | the unsliced run has at most one end |
| Slicing.RunFollows | src/lib.rs:206-221 | running a machine under any limit and pause signal is a stretch of the unsliced run |
| Slicing.TurnFollows | src/lib.rs:187-281 | so is a whole turn, however it ends, an overflow of the total included; only past that overflow can it panic in an oversized spawn call instead |
| Slicing.SlicingIsTransparent | src/lib.rs:157-224 | two ways of slicing the same run that both end give the same exit code, total cycles, pipes and memory, or the same error, an overflow of the total included; they differ if and only if one of them panics in an oversized spawn call and the other does not, which then reports that the total overflowed, as the unsliced run does |
| Slicing.OverflowStops | src/lib.rs:213-221 | the unsliced run crashes with the overflow error before it goes on with a total beyond 64 bits |
| Slicing.DriveResumes | src/lib.rs:94-142 | a run can be left between two slices and taken up there |
| Slicing.DriveIsFinal | src/lib.rs:157-182 | a run that has ended stays there under any further slices |
| Slicing.ZeroLimitNeverTurns | src/lib.rs:172-177 | with limit 0 no turn gets anywhere |
| Slicing.RunMakesOneTurn | src/lib.rs:157-182 | one call of run makes at most one turn of progress: it returns an exit code if and only if the root ends in that turn |
| Slicing.RunModes | src/lib.rs:167-177 | the first turn has the given cycle limit and no pause signal, or the signal and the largest 64-bit limit, and decides what run comes to unless it makes progress |
| Turns.TurnParts | src/lib.rs:187-224 | a turn that is not fatal is settled input and output, the largest runnable VM, and its run |
| Turns.RunOvercommits | src/lib.rs:206-221 | a run of a machine panics if and only if an oversized spawn call is its next instruction and neither the limit nor the pause signal stops it there |
| Turns.TurnOvercommits | src/lib.rs:187-221 | a turn panics in a spawn call if and only if the run of the VM it selects does |
| Turns.ConclusionLeavesOthers | src/lib.rs:222-281 | a VM that did not run is untouched, unless it joined the one that ended |
| Traces.CodesAreForever | src/lib.rs:230-235 | recorded exit codes are never changed: ids are not reused |
| Traces.JoinStep | src/lib.rs:245-275 | in a turn a joining VM waits on unchanged for a live target, or is woken with the recorded code |
| Traces.JoinIsAnswered | src/lib.rs:245-275 | over any stretch of turns a join waits for a live target until exactly the turn in which it ends, and gets the code all later joins get |
| Traces.JoinVerdict | src/lib.rs:314-344 | a join is refused if and only if the id was never handed out, answered at once with the recorded code if the target ended before, and waits if it is live |
| Traces.PipeEndsAreConserved | src/lib.rs:269-367 | in a turn of a VM ends appear only in pairs by its pipe call, move only from it to the child it spawns, and close only when it terminates |
| Traces.ClosedForever | src/lib.rs:269-270 | a closed end never opens again |
| Streams.LoadAppends | src/lib.rs:510-519 | reading on at a wrapping address continues the buffer without a gap |
| Streams.PieceStep | src/lib.rs:482-563 | one round hands over min(read length, remaining) bytes that continue what was handed over, to exactly the matched reader |
| Streams.StreamSoFar | src/lib.rs:396-424 | while a write is blocked its VM is frozen, and the pieces put together are the first consumed bytes of its buffer |
| Streams.WriteDeliversItsBuffer | src/lib.rs:396-563 | a finished write handed over exactly the first bytes of its buffer, reports their number, and left some out only if the other end was closed |
| Cycles.PendingIsAll | src/lib.rs:644-675 | only the VM with the largest id can have pending cycles, and it is the one selected |
| Cycles.ClockAdvances | src/lib.rs:206-221 | each instruction moves the clock by exactly its cost, what the host charges for its call, and a cycle for every four bytes of a program it spawns, rounded up; and by at least one |
| Cycles.SpentIsCharged | src/syscalls.rs:451-471 | what an instruction spends is its cost and the host's charge; the scheduler's own calls are free |
| Cycles.BootIsCharged | src/lib.rs:666-672 | what a spawned machine starts with is the charge for the bytes loaded |
| Cycles.ChargesAddUp | src/lib.rs:206-221 | the total after any number of instructions is the sum of their charges |
| Cycles.CyclesAreConserved | src/lib.rs:157-224 | the total a run ends with is what it started with plus all charges, however it was sliced |
| Cycles.ObservedCyclesIncrease | src/syscalls.rs:55-62 | values seen by current_cycles across all VMs strictly increase |
| Suspension.RecordsInvert | src/lib.rs:95-121 | the maps rebuilt from the records hold exactly the recorded VMs |
| Suspension.FullRoundTrip | src/lib.rs:94-142 | suspending and resuming loses nothing |
| Caches.CacheFilled | src/lib.rs:587-601 | when not all missing VMs fit, as many VMs are evicted, smallest ids first and none of the requested ones |
| Caches.CacheHit | src/lib.rs:573-577 | a VM that is in the cache is not resumed and pushes nobody out |
| Caches.CacheIsBroughtIn | src/lib.rs:568-604 | afterwards all requested VMs are in the cache, nobody else has come in, whoever had to leave has a smaller id than those who could stay, and nobody left while one of the four places was free |
| Caches.IoPanicsMeaning | src/lib.rs:430-481 | settling panics if and only if a closed waiter is not instantiated and the results of all those answered before it, readers first and each kind by id, can be stored |
| Caches.LastPairStays | src/lib.rs:482-563 | pairs are served by writer: both VMs of the last one are in the cache afterwards |
| Caches.LastJoinerStays | src/lib.rs:245-268 | joining VMs are brought in and woken by id: the largest one is in the cache afterwards |
| Caches.PairsListed | src/lib.rs:443-453 | the pairs are served in the order of their writers, each with its only reader |
| Caches.MissingPanics | src/lib.rs:454-481 | where settling succeeds on the reference, a closed waiter outside the cache means a panic |
| Caches.PanicMeansMissing | src/lib.rs:454-481 | a panic means that some closed waiter is outside the cache |
| Caches.IdlersStayOut | src/lib.rs:187-281 | a VM that waits outside the cache is not brought in by a turn in which nothing happens to it |
| Caches.FewVmsStayCached | src/lib.rs:187-281 | with all machines in the cache and at most four VMs alive a turn panics if and only if it comes to an oversized spawn call, and leaves all machines in the cache |
| Caches.RunByTurns | src/lib.rs:172-182 | whether a call of run panics and the cache it leaves, by those of its one or two turns |
| Schedulers.Scheduler.ResumeVm | src/lib.rs:607-622 | moves one machine from the snapshots to the cache; the state it stands for stays |
| Schedulers.Scheduler.SuspendVm | src/lib.rs:625-642 | moves one machine from the cache to the snapshots; the state it stands for stays |
| Schedulers.Scheduler.EnsureVmsInstantiated | src/lib.rs:568-604 | up to four distinct live VMs are all instantiated and none of them is evicted; others leave only for want of room, smallest ids first, the assertion inside never fails, and it succeeds if and only if the missing ones are distinct snapshots |
| Schedulers.Scheduler.ResumeWhileRoom | src/lib.rs:577-585 | the first loop resumes machines until the cache is full |
| Schedulers.Scheduler.EvictAndResume | src/lib.rs:587-601 | the second loop trades one evicted machine for each resumed one |
| Schedulers.Scheduler.BootVm | src/lib.rs:644-675 | boots under the next id or reports the loading error; a cache of four loses exactly its smallest id, a smaller one nothing |
| Schedulers.Scheduler.MakeRoom | src/lib.rs:652-658 | suspends the smallest id if the cache holds four machines, and otherwise nobody |
| Schedulers.Scheduler.CollectReaders | src/lib.rs:431-442 | collects who waits for data, and in the order of their ids those whose writer is gone |
| Schedulers.Scheduler.CollectWriters | src/lib.rs:443-453 | collects the pairs in the order of their writers, and the writers whose reader is gone |
| Schedulers.Scheduler.FinishClosed | src/lib.rs:454-481 | answers waiters of closed pipes, or panics if and only if one of them is not instantiated and no earlier result faults |
| Schedulers.Scheduler.Transfer | src/lib.rs:482-563 | serves one pair, whatever the cache holds |
| Schedulers.Scheduler.FinishWrite | src/lib.rs:537-562 | ends the write call if and only if everything has been written |
| Schedulers.Scheduler.ProcessIo | src/lib.rs:430-565 | equals the reference update and leaves the cache that `IoCache` says, or panics exactly when a closed waiter is missed |
| Schedulers.Scheduler.HandleSpawn | src/lib.rs:287-313 | equals the reference spawn, with its ownership check first; the child may push out its spawner, who is brought back for the result |
| Schedulers.Scheduler.MovePipes | src/lib.rs:296-303 | the loop hands exactly the listed ends to the child |
| Schedulers.Scheduler.HandleJoin | src/lib.rs:314-344 | equals the reference join in its three cases |
| Schedulers.Scheduler.HandlePipe | src/lib.rs:345-367 | equals the reference pipe call |
| Schedulers.Scheduler.HandleIo | src/lib.rs:368-424 | refuses pipes not owned and pipes closed at the other end, otherwise the VM waits |
| Schedulers.Scheduler.ProcessMessageBox | src/lib.rs:283-428 | delivers the one message and empties the box |
| Schedulers.Scheduler.EndRootVm | src/lib.rs:238-244 | keeps only the root, terminated and instantiated |
| Schedulers.Scheduler.CollectJoiners | src/lib.rs:245-257 | lists every VM that joined the ended one, once and in order, with its cell |
| Schedulers.Scheduler.EndOtherVm | src/lib.rs:245-275 | wakes all joiners with the code, bringing them into the cache in order, closes the VM's ends and removes it |
| Schedulers.Scheduler.SelectVm | src/lib.rs:192-198 | finds the runnable VM with the largest id |
| Schedulers.Scheduler.ConcludeTurn | src/lib.rs:213-281 | equals the reference conclusion of a turn, in the state and in the cache |
| Schedulers.Scheduler.Iterate | src/lib.rs:187-281 | equals the reference turn whatever is evicted, and leaves exactly the cache `TurnCache`; it panics if and only if a closed waiter is not instantiated and no earlier result faults, or the reference turn comes to an oversized spawn call |
| Schedulers.Scheduler.RunTurns | src/lib.rs:172-182 | the loop of run is a drive of the reference scheduler; it panics if and only if one of its turns does, or the root had ended and is not instantiated |
| Schedulers.Scheduler.Run | src/lib.rs:157-182 | run boots a fresh scheduler and follows the reference, down to the error it returns when it can be gone on from; it panics if and only if `RunPanics` says so of the state and the cache it starts from, and leaves the cache `RunCache` |
| Schedulers.Scheduler.constructor | src/lib.rs:74-88 | a new scheduler is empty |
| Schedulers.Scheduler.Resume | src/lib.rs:94-121 | a resumed scheduler stands for the suspended state, with an empty cache |
| Schedulers.Scheduler.Suspend | src/lib.rs:124-142 | leaves one record for every VM and never fails |
| Schedulers.SuspendAndResume | src/lib.rs:94-142 | a resumed scheduler stands for the same state as before the suspension |
| Schedulers.PartnerExitPanics | src/lib.rs:454-481 | a VM waiting on a pipe outside the cache makes the turn after its partner's exit panic |
| Witness.FourRounds | src/dev_utils/mod.rs:94-168 | from boot and with no suspension so far: after four rounds the root is blocked in its write, the child has been served, and both machines are in the cache |
| Witness.FifthTurn | src/lib.rs:245-275 | the child exits and leaves the root a closed pipe |
| Witness.SuspendedPanics | src/lib.rs:454-481 | a call of run on that state with an empty cache panics |
| Witness.SuspensionMatters | src/dev_utils/mod.rs:94-168 | the same two programs under the same limits: the loop panics when it suspends once, and exits with code 0 after six cycles when it does not |
| VerifyTx.FatalErrors | src/lib.rs:187-281 | an error that ends a run is never the one that means "go on later" |
| VerifyTx.VerifyGroup | src/dev_utils/mod.rs:94-168 | the loop comes to what driving the reference scheduler comes to (exit, failure, out of cycles or still running), or panics, and it panics exactly when `GroupPanics` says so; suspensions have no other effect |
| VerifyTx.GroupMeans | src/dev_utils/mod.rs:94-168 | each verdict is a fact about the run of the booted root: it exits or fails like that, has used that many cycles, or goes on |
| VerifyTx.TurnOverflows | src/lib.rs:206-221 | the total moves by what the selected VM has spent; a turn fails with the overflow error if and only if that takes the total beyond 64 bits or the VM asks for its cycles when they are |
| VerifyTx.SpentBeforeExit | src/dev_utils/mod.rs:94-104 | no state on the way has used more cycles than the exit reports |
| VerifyTx.PanicMeaning | src/dev_utils/mod.rs:94-168 | if the loop panics, its run goes through a state in which a VM waits on a closed pipe, or comes to an oversized spawn call |
| VerifyTx.OvercommitPanics | src/dev_utils/mod.rs:94-168 | whenever the run of the loop comes to an oversized spawn call the loop panics, whatever the cache holds |
| VerifyTx.HugeSpawnMet | src/dev_utils/mod.rs:94-168 | and such a run has gone through a state whose next turn makes that call |
| VerifyTx.FewVmsPanics | src/dev_utils/mod.rs:94-168 | with at most four VMs alive at any time and no suspension the loop panics if and only if its run comes to an oversized spawn call |
| VerifyTx.FewVmsNeverPanic | src/dev_utils/mod.rs:94-168 | if moreover no turn of the run comes to such a call, the loop never panics |
| VerifyTx.VerifyTwice | src/dev_utils/mod.rs:94-168 | any two choices of slice length, suspension interval, cycle maximum and number of rounds: two exits agree on code and cycles, two failures on the error, an exit excludes a failure, and running out of cycles beside an exit means a lower maximum |
| Singles.OneVmPanics | src/syscalls.rs:236 | a single VM that calls spawn with 2^58 arguments makes the loop panic, with no pipe and no suspension |
| Singles.OneVmExits | src/dev_utils/mod.rs:94-168 | a program that exits at once ends the loop with its code, whatever that is, after one cycle |
| Singles.SlicesCanDiffer | src/lib.rs:206-221 | one program, two slicings: with a slice cut behind the overflow of the total the run reports it, with a longer one it panics in spawn |
| Progress.TurnSpends | src/lib.rs:187-221 | a turn that does not fail moves the total on, unless it is paused at once or the instruction up next costs more than its limit |
| Progress.TurnConsumes | src/lib.rs:213-281 | a turn of progress reports the cycles by which the total has grown |
| Progress.PausedRunSpends | src/lib.rs:167-177 | a run that is to be paused later than at once makes progress |
| Progress.EveryRunEnds | src/lib.rs:213-221 | in slices with room for any single instruction every run ends, at the latest when the 64-bit total is used up |
| Progress.EnoughSlicesComplete | src/lib.rs:157-224 | if the unsliced run ends well with a total of T, more such slices than cycles are left to T complete it, with the same state |
| Progress.StillRunningIffStalls | src/dev_utils/mod.rs:94-168 | after as many rounds as the maximum of cycles plus two the loop has no verdict if and only if it came to a state whose next instruction costs more than a slice |
| Progress.StallsForever | src/dev_utils/mod.rs:94-168 | and then it never has one |
| Progress.RoundsSuffice | src/dev_utils/mod.rs:94-168 | more rounds never change what that many rounds come to |
| Progress.VerifyToTheEnd | src/dev_utils/mod.rs:94-168 | the loop without a bound on its rounds: it fails to come to a verdict if and only if it stalls without having panicked, and never if slices have room for every instruction |
| Trees.LcaIsLca | src/dev_utils/mod.rs:330-384 | climbing from the larger node finds the lowest common ancestor |
| Trees.LcaIsUnique | src/dev_utils/mod.rs:330-384 | there is only one |
| Trees.FirstMeeting | src/dev_utils/mod.rs:370-382 | on two disjoint climbs the first node met by the other is the lowest common ancestor |
| Planner.CommonAncestor | src/dev_utils/mod.rs:336-384 | the two-pointer walk ends, its assertion holds, and it returns the lowest common ancestor of any two nodes of any tree |
| Planner.RootsMeet | src/dev_utils/mod.rs:349-353 | both walks cannot have reached the root, so the assertion in the loop holds |
| Planner.PassDown | src/dev_utils/mod.rs:386-412 | exactly the spawn edges on the path list the pipe once more |
| Planner.VisitSpawnTree | src/dev_utils/mod.rs:286-299 | the queue meets every spawn edge exactly once, and breadth first: in the order of the parents, and under one parent by number |
| Planner.PassedInOrder | src/dev_utils/mod.rs:386-412 | a spawn lists the ends it passes on by write, and of each write the writing end before the reading end |
| Planner.WalkMeetsAll | src/dev_utils/mod.rs:286-299 | a finished breadth-first walk has met every node |
| Planner.ThreadPipe | src/dev_utils/mod.rs:303-419 | one write edge adds its pipe at the common ancestor and its ends along both paths |
| Planner.GenerateDataGraph | src/dev_utils/mod.rs:220-460 | the plan lists every spawn, pipe and write as the choices determine, the spawns breadth first |
| PlanFacts.PassedExactlyOnPath | src/dev_utils/mod.rs:386-412 | the spawns that list a pipe end are exactly the tree path from its creator to its user |
| PlanFacts.PassedOnce | src/dev_utils/mod.rs:386-412 | no spawn lists an end twice |
| PlanFacts.SpawnPosition | src/dev_utils/mod.rs:421-440 | every VM but the root is spawned exactly once, by its parent |
| PlanFacts.PipePosition | src/dev_utils/mod.rs:414-453 | every pipe is created exactly once, at the lowest common ancestor of its writer and reader |
| PlanFacts.PipesInOrder | src/dev_utils/mod.rs:442-453 | the pipes are listed by the VM that creates them, and those of one VM by write |
| PlanFacts.WriteFacts | src/dev_utils/mod.rs:303-328 | write e uses the two ends of pipe e, at the two different VMs drawn for it, and carries the data drawn for it |
| GuestInv.Finds | test-contracts/main.c:44-52 | a lookup of an end on the VM's way finds the id it was given |
| GuestInv.UserOwns | test-contracts/main.c:250-322 | once its user exists, an end belongs to it |
| GuestInv.EndExists | test-contracts/main.c:136-167 | a pipe exists once its creator has gone through the pipe list |
| GuestSteps.CreateStep | test-contracts/main.c:136-167 | creating a pipe never runs out of room and keeps the invariant |
| GuestSteps.LoadStep | test-contracts/main.c:54-134 | loading the plan and taking the passed ends from the arguments never fails |
| GuestSteps.HoldsPassed | test-contracts/main.c:172-216 | the spawning VM knows and owns every end it passes on |
| GuestSteps.SpawnStep | test-contracts/main.c:172-248 | a spawn succeeds: all lookups hit, all ends are owned, the child finds its own entry |
| GuestSteps.WaitsProperly | test-contracts/main.c:250-322 | a VM with bytes left to move finds both ends in place and waits |
| GuestSteps.MeetingAgrees | test-contracts/main.c:250-322 | a read and a write that meet belong to the same planned operation and are equally far |
| GuestSteps.ExchangeCompletes | test-contracts/main.c:278-322 | a meeting moves all that is left, and the reader gets the bytes it compares with |
| GuestSteps.HoldsOnlyOwn | test-contracts/main.c:172-248 | after spawning a VM holds only the ends meant for itself |
| GuestSteps.ExitStep | test-contracts/main.c:324-337 | an exit closes only ends whose user is done |
| GuestRuns.StepKeepsInv | test-contracts/main.c:54-338 | whichever VM goes next, the invariant is kept |
| GuestRuns.MoverGoesOn | test-contracts/main.c:250-322 | the lowest unfinished write has both its sides waiting for it |
| GuestRuns.JoinerGoesOn | test-contracts/main.c:324-335 | joins only go down the tree, so some joining VM can go on |
| GuestRuns.SomeoneGoesOn | test-contracts/main.c:172-335 | while the root has not exited some VM can go on |
| GuestRuns.RunIsBounded | test-contracts/main.c:54-338 | every step brings the run closer to its end |
| GuestRuns.PlansSucceed | test-contracts/main.c:54-338 | every interleaving of a generated plan that fits runs without any failure, without deadlock and in bounded length, and leaves all VMs exited and no end open |
| GuestFailures.LoadFails | test-contracts/main.c:54-134 | a plan that overruns the buffer ends a program with 45, arguments that do not fit the plan with 46, too many passed ends with 43 |
| GuestFailures.CreateFails | test-contracts/main.c:136-167 | no room for a new pipe: 43 |
| GuestFailures.SpawnFails | test-contracts/main.c:172-216 | 1024 children already: 47; an end to be passed on that is not known: 44 |
| GuestFailures.MoveFails | test-contracts/main.c:250-322 | an end that is not known: 44, and with bytes left to move one not owned: 6, or closed at the other end: 48; otherwise the program waits for its partner |
| GuestFailures.CorruptionIsNoticed | test-contracts/main.c:316-318 | a reader that gets other bytes than its plan says ends with 49 |
| GuestFailures.JoinFails | test-contracts/main.c:324-335 | the code of a child that failed is handed up |
| PlanLimits.StepOrDoom | test-contracts/main.c:54-338 | each step of a plan, fitting or not, leads to a regular state or to one in which a failed VM keeps everybody above it waiting |
| PlanLimits.DoomStays | test-contracts/main.c:324-338 | a run in which a VM has failed never reaches the exit of the root |
| PlanLimits.SucceedsIffItFits | test-contracts/main.c:9-42 | some run of a generated plan reaches the exit of the root if and only if the plan fits |
| PlanBounds.SmallPlansFit | test-contracts/main.c:9-42 | up to 1024 spawns and 1600 writes with little enough data, the plan fits into the buffer and the tables |
| PlanBounds.ChoicesSucceed | src/dev_utils/mod.rs:220-460 | whatever tree and write edges are drawn within that condition, every interleaving of the plan made from them succeeds |
| PlanBounds.LongPlansFail | test-contracts/main.c:54-72 | a plan that overruns the buffer fails in the root's first step |
| PlanBounds.LargePlanFails | src/dev_utils/mod.rs:303-328 | two VMs and 1600 writes of 1024 bytes, which the planner may draw, are such a plan |
| PlanBounds.LargeWritesCanBeDrawn | src/dev_utils/mod.rs:303-328 | the planner accepts that tree and these write edges |
| PlanOnScheduler.PipeWaitsForLess | src/lib.rs:368-424 | a VM of a plan blocked on a pipe waits for one in an earlier operation or one that is runnable |
| PlanOnScheduler.JoinWaitsForLess | src/lib.rs:314-344 | a joining VM of a plan waits for one further down the tree |
| PlanOnScheduler.PlansNeverDeadlock | src/lib.rs:188-203 | no turn reports a deadlock from a state that shows one of a plan |
| PlanOnScheduler.PlansNeverPanic | src/lib.rs:454-481 | in a state that shows one of a plan no VM waits on a closed pipe, so settling does not panic, whatever the cache holds |
| PlanOnScheduler.BootShowsStart | src/lib.rs:157-165 | the booted scheduler shows the start of a plan |
| PlanTurns.PipeShows | src/lib.rs:345-367 | a planned pipe call leads to a state that shows the plan with its pipe |
| PlanTurns.SpawnShows | src/lib.rs:287-313 | a planned spawn leads to a state that shows the plan with its child |
| PlanTurns.SpawnAllowed | src/lib.rs:287-295 | a planned spawn is never refused for passing an end its VM does not own |
| PlanTurns.IoCallShows | src/lib.rs:368-424 | a planned read or write is never refused |
| PlanTurns.JoinShows | src/lib.rs:314-344 | a planned join waits, or is answered and the plan goes on with it |
| PlanTurns.StillWaits | src/lib.rs:269-270 | an exit closes no end that a waiting VM of the plan needs |
| PlanTurns.ExitIsZero | test-contracts/main.c:324-337 | a VM that returns the first code other than 0 told by its joins exits with 0, and not before its last join, as all VMs that ended before it did so with 0 |
| PlanTurns.ExitShows | src/lib.rs:245-275 | the exit of a child that is through shows the plan without it |
| PlanTurns.PairMeets | src/lib.rs:482-488 | two matched VMs meet in the plan, and each asks for all that is left of one operation |
| PlanTurns.IoShows | src/lib.rs:430-565 | settling input and output lets exactly the VMs that meet in the plan complete their operations |
| PlanDrives.TurnShows | src/lib.rs:187-281 | a turn in which the selected VM keeps to the plan leads from a state that shows one of the plan to a state that shows where the plan goes, or the root has exited with code 0; if it fails, then in a memory access, in a boot, or because the total overflows |
| PlanDrives.PlannedRunsSucceed | src/lib.rs:157-182 | over whole runs: a planned run fails at most in these ways and never as a deadlock, nobody in it waits on a closed pipe, and if it completes the exit code is 0, which follows from the joins |
| PlanDrives.VerifyPlanned | src/dev_utils/mod.rs:94-168 | the loop on a workload that keeps to its plan never panics, never reports a deadlock, can only exit with code 0, and comes to a verdict if slices have room for every instruction |
| PlanExample.SoloKeepsToPlan | test-contracts/main.c:54-338 | the plan for one VM and a program that exits at once meet the premise, wherever the slices end |
| PlanProgress.TurnWorks | src/lib.rs:187-281 | a planned turn of progress leaves less to do: fewer steps of the plan, or fewer VMs that are free to run |
| PlanProgress.PlannedTurnsAreFew | src/lib.rs:157-182 | a planned run takes no more turns of progress than there is to do at its start, however it is sliced |
| PlanProgress.PlannedCompletes | src/lib.rs:157-182 | from boot that is a number computed from the plan, and in more slices than that, none of them cut short, the run comes to its end |
| PlanCodec.PlanArrives | test-contracts/main.c:54-72 | the programs read back exactly the plan that was made if and only if its encoding fits into the 600 KB buffer |
| PlanCodec.PlanRoundTrip | src/dev_utils/mod.rs:421-478 | the encoded plan is accepted in both modes and holds the plan that was made |
| PlanCodec.PipeBytes | src/dev_utils/dag.rs:1302-1319 | a pipe entry byte by byte: size, three offsets, and VM, read end and write end, least significant byte first |
| PlanCodec.EntryParts | src/dev_utils/dag.rs:1975-2000 | the parts of a write entry and of a spawn entry in the order of the schema |
| PlanCodec.ListBytes | src/dev_utils/dag.rs:733-739 | a list of ends is its length and each end in eight bytes; data is its length and the data |
| PlanCodec.WitnessParts | src/dev_utils/dag.rs:3236-3256 | the witness is the layout of spawns, pipes and writes, in this order |
| PlanSizes.WitnessLength | src/dev_utils/dag.rs:1232-1325 | the encoded plan has exactly 28 bytes, 40 for each spawn and 8 for each end it passes, 44 for each pipe, and 64 for each write besides its data |
| PlanSizes.PlanLength | src/dev_utils/mod.rs:421-478 | the encoding of a plan made from a tree and write edges is within a bound computed from these alone |
| PlanSizes.LoadsIfItFits | test-contracts/main.c:54-72 | a plan that was made is loaded if and only if its encoding fits into the buffer |
| Layouts.LayoutReads | src/dev_utils/dag.rs:1302-1319 | the offsets a builder writes lead to the parts it wrote |
| Layouts.LayoutOfParts | src/dev_utils/dag.rs:1232-1269 | bytes whose offsets rise from the header to the end are the layout of their parts |
| Molecule.WriteTable | src/dev_utils/dag.rs:1302-1319 | the builder of a table writes total size, offsets and parts |
| Molecule.WriteDynVec | src/dev_utils/dag.rs:1584-1610 | so does the builder of a dynamic vector; an empty one is a lone size |
| Molecule.WriteFixVec | src/dev_utils/dag.rs:733-739 | the builder of a fixed vector writes the item count and the items |
| Molecule.FieldIsPart | src/dev_utils/dag.rs:1179-1219 | a table getter returns the bytes between two offsets, extra fields or not |
| Molecule.GetItemIsPart | src/dev_utils/dag.rs:1367-1398 | the vector getter returns the item between two offsets, or none beyond the end |
| RoundTrips.FixedReadsBack | src/dev_utils/dag.rs:565-586 | the getters of a fixed vector return its items |
| RoundTrips.BuildReads | src/dev_utils/dag.rs:1232-1325 | for every schema and value below 2^32 bytes, verify accepts what the builder writes, in both modes, and the getters return the value |
| RoundTrips.ReadBuilds | src/dev_utils/dag.rs:1506-1616 | bytes accepted without compatibility rebuild to the identical bytes |
| RoundTrips.TableVerdict | src/dev_utils/dag.rs:1232-1269 | a table is accepted if and only if it has as many parts as the schema has fields, or with compatibility at least as many, and each field is accepted |
| RoundTrips.VectorVerdict | src/dev_utils/dag.rs:1506-1545 | a dynamic vector is accepted if and only if each item is |
| RoundTrips.AcceptedIsLayout | src/dev_utils/dag.rs:1506-1545 | in either mode, whatever is accepted is the layout of its parts to the last byte |
| Escape.EncodedIsCString | test-contracts/escape_encoding.h:11-80 | encoded text has no zero byte and at most twice the length |
| Escape.Codes | test-contracts/escape_encoding.h:57-80 | 0 is written as FE FF, FE as FE FD, and every other byte stands for itself |
| Escape.RoundTrip | test-contracts/escape_encoding.h:13-80 | decoding encoded text gives back the source |
| Escape.EeEncode | test-contracts/escape_encoding.h:57-80 | encodes the longest prefix whose whole codes fit, and touches nothing behind it |
| Escape.FittingIsUnique | test-contracts/escape_encoding.h:57-80 | how much fits is determined by the prefix that fits and the next code that does not |
| Escape.ChunksConcatenate | test-contracts/escape_encoding.h:57-80 | encoding through buffers of two or more bytes concatenates to the one-shot encoding |
| Escape.EeDecode | test-contracts/escape_encoding.h:13-35 | decodes into a bounded buffer or reports the malformed text |
| Escape.DecodeIntoIsDecode | test-contracts/escape_encoding.h:13-35 | a bounded decoding followed by the decoding of the rest is the whole decoding |
| Escape.EeDecodeInPlace | test-contracts/escape_encoding.h:37-55 | decoding a C string onto itself gives what decoding it elsewhere gives |
| Escape.ThroughArgument | test-contracts/main.c:219-248 | what a parent encodes into an argument its child decodes from it |

## Left out

- CKB-VM instruction execution, ELF loading and snapshot internals: parameters of the model; snapshots are the identity.
- The syscalls `load_cell_data`, `load_cell_data_as_code`, `debug` and those of ckb-script: any deterministic outcome other than a panic, part of the parameter `host`.
- Memory permissions: a memory access fails only when it leaves the memory, and an access of length zero always succeeds.
- The counters for VM ids, pipe slots and the cycles of one machine are unbounded; the overflow of the 64-bit total is modelled.
- The state of a scheduler after an error that ends the run, or after a panic, is not specified.
- Running out of memory: an allocation that can be asked for is taken to succeed, so a spawn with fewer than 2^58 arguments never fails for their number. Pointers are 64 bits wide.
- The mutex around the message box: it is a plain sequence, with at most one message, as each message stops the machine.
- VerifyTx.VerifyGroup: one script group and a given number of rounds; `Progress.RoundsSuffice` shows how many are enough.
- Planner.GenerateDataGraph: the random generator and the graph library are inputs; the acyclicity of the write graph is neither assumed nor proved.
- GuestRuns.PlansSucceed: VMs are named by plan index instead of instance id, arguments are passed as values (their encoding is proved in `Escape.ThroughArgument`), and a write is one step with the read that meets it.
- The error code of a read or write whose other end is closed: always the one of a call that was blocked when it was closed, also where the call comes later.
- What a program makes of the memory behind its 600 KB buffer when the plan is longer: its verification is taken to fail with the encoding error.
- PlanDrives.VerifyPlanned: that the machine code of the programs follows `main.c` is the premise `KeepsToPlan`; memory faults, boot failures and an overflow of the total are not excluded.
- The loops of `main.c` as loops: its VMs interleave at their syscalls, so each program is a state machine with one step per loop iteration and syscall.
- Transaction building and resolution, random scripts, logging, command line, examples.
- Sizes, formatting, iterators and default values in `dag.rs`, and its generated C counterpart `dag.h`.
