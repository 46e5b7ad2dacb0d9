/** The serialisable form of a whole scheduler (src/types.rs, `FullSuspendedState`). */
module Suspension {
  import opened Types
  import opened Machine
  import opened Ordered
  import opened Flat

  datatype FullSuspendedState = FullSuspendedState(
    totalCycles: nat,
    nextVmId: VmId,
    nextPipeSlot: PipeId,
    vms: seq<(VmId, VmState, Vm)>,
    pipes: map<PipeId, VmId>,
    terminatedVms: map<VmId, int>)

  function Records(ids: seq<VmId>, f: Flat): (r: seq<(VmId, VmState, Vm)>)
    requires Shaped(f) && forall id | id in ids :: id in f.states
    ensures |r| == |ids|
    ensures forall k | 0 <= k < |r| :: ids[k] in f.states && r[k] == (ids[k], f.states[ids[k]], f.machines[ids[k]])
  {
    seq(|ids|, k requires 0 <= k < |ids| => (ids[k], f.states[ids[k]], f.machines[ids[k]]))
  }

  lemma RecordsShape(ids: seq<VmId>, f: Flat)
    requires Shaped(f) && forall id | id in ids :: id in f.states
    ensures |Records(ids, f)| == |ids|
    ensures forall k | 0 <= k < |ids| ::
              ids[k] in f.states && Records(ids, f)[k] == (ids[k], f.states[ids[k]], f.machines[ids[k]])
  {
  }

  /** One record per VM, in key order. */
  function ToFull(f: Flat): FullSuspendedState
    requires Shaped(f)
  {
    FullSuspendedState(f.totalCycles, f.nextVmId, f.nextPipeSlot, Records(Ascending(f.states.Keys), f),
                       f.pipes, f.terminated)
  }

  function StatesOf(vms: seq<(VmId, VmState, Vm)>): map<VmId, VmState> {
    if vms == [] then map[] else StatesOf(vms[..|vms| - 1])[vms[|vms| - 1].0 := vms[|vms| - 1].1]
  }

  function MachinesOf(vms: seq<(VmId, VmState, Vm)>): map<VmId, Vm> {
    if vms == [] then map[] else MachinesOf(vms[..|vms| - 1])[vms[|vms| - 1].0 := vms[|vms| - 1].2]
  }

  function FromFull(full: FullSuspendedState): Flat {
    Flat(full.totalCycles, full.nextVmId, full.nextPipeSlot, StatesOf(full.vms), full.pipes,
         MachinesOf(full.vms), full.terminatedVms)
  }

  lemma {:induction false} RecordsInvert(vms: seq<(VmId, VmState, Vm)>, f: Flat)
    requires Shaped(f)
    requires forall k | 0 <= k < |vms| ::
               vms[k].0 in f.states && vms[k].1 == f.states[vms[k].0] && vms[k].2 == f.machines[vms[k].0]
    ensures forall id :: id in StatesOf(vms) <==> exists k :: 0 <= k < |vms| && vms[k].0 == id
    ensures MachinesOf(vms).Keys == StatesOf(vms).Keys
    ensures forall id | id in StatesOf(vms) :: id in f.states && StatesOf(vms)[id] == f.states[id] &&
              MachinesOf(vms)[id] == f.machines[id]
  {
    if vms != [] {
      var front := vms[..|vms| - 1];
      RecordsInvert(front, f);
      var last := vms[|vms| - 1];
      forall id ensures id in StatesOf(vms) <==> exists k :: 0 <= k < |vms| && vms[k].0 == id {
        if id in StatesOf(front) {
          var k :| 0 <= k < |front| && front[k].0 == id;
          assert vms[k].0 == id;
        }
        if k :| 0 <= k < |vms| && vms[k].0 == id && k < |vms| - 1 {
          assert front[k].0 == id;
        }
      }
    }
  }

  lemma SameMap<T>(a: map<VmId, T>, b: map<VmId, T>)
    requires a.Keys == b.Keys && forall id | id in a :: a[id] == b[id]
    ensures a == b
  {
  }

  lemma RecordsCover(ids: seq<VmId>, f: Flat)
    requires Shaped(f) && forall id :: id in ids <==> id in f.states
    ensures StatesOf(Records(ids, f)) == f.states && MachinesOf(Records(ids, f)) == f.machines
  {
    hide Records, StatesOf, MachinesOf;
    var vms := Records(ids, f);
    RecordsShape(ids, f);
    RecordsInvert(vms, f);
    forall id | id in f.states ensures id in StatesOf(vms) {
      var k :| 0 <= k < |ids| && ids[k] == id;
      assert vms[k].0 == id;
    }
    SameMap(StatesOf(vms), f.states);
    SameMap(MachinesOf(vms), f.machines);
  }

  /** Suspending and resuming loses nothing. */
  lemma FullRoundTrip(f: Flat)
    requires Shaped(f)
    ensures FromFull(ToFull(f)) == f
  {
    RecordsCover(Ascending(f.states.Keys), f);
  }
}
