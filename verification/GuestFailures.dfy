/** With which codes the programs of a plan fail, and that failing closes what they hold. */
module GuestFailures {
  import opened Words
  import opened Types
  import opened Planner
  import PlanCodec
  import opened Guests

  /** `v` has failed with `code`, its pipe ends are closed, and nothing has happened to anybody else. */
  ghost predicate DiesWith(s: World, s': World, v: nat, code: nat) {
    && |s'.guests| == |s.guests| && v < |s.guests| && s'.guests[v].phase == Died(code)
    && (forall u | 0 <= u < |s.guests| && u != v :: s'.guests[u] == s.guests[u])
    && (forall p :: p in s'.owner <==> p in s.owner && s.owner[p] != v)
    && (forall p | p in s'.owner :: s'.owner[p] == s.owner[p])
  }

  /** A plan that overruns the buffer is an encoding error; a spawned program whose arguments do not fit the plan fails
      with the argument error, or with that for a full table. */
  lemma LoadFails(d: Data, s: World, v: nat)
    requires v < |s.guests| && s.guests[v].phase.Loading?
    ensures |PlanCodec.Witness(d)| > 600 * 1024 ==> DiesWith(s, LoadNext(d, s, v), v, 45)
    ensures PlanCodec.LoadPlan(PlanCodec.Witness(d)) == Some(d) && v > 0 ==>
              match OwnEntry(d.spawns, v)
              case None => DiesWith(s, LoadNext(d, s, v), v, 46)
              case Some(op) =>
                var passed := |s.guests[v].phase.passed|;
                && (passed != |op.pipes| ==> DiesWith(s, LoadNext(d, s, v), v, 46))
                && (passed == |op.pipes| > 3200 ==> DiesWith(s, LoadNext(d, s, v), v, 43))
  {
    hide PlanCodec.Witness, OwnEntry, Zip;
  }

  lemma CreateFails(d: Data, s: World, v: nat)
    requires v < |s.guests| && s.guests[v].phase.Creating?
    requires var i := s.guests[v].phase.next; i < |d.pipes| && d.pipes[i].vm == v
    requires |s.guests[v].table| + 2 > 3200
    ensures DiesWith(s, CreateNext(d, s, v), v, 43)
  {
  }

  lemma {:induction false} PickFails(table: seq<(nat, PipeId)>, indices: seq<nat>, used: nat, k: nat)
    requires k < |indices| && Find(table, indices[k]).None? && used + |indices| <= 3200
    ensures Pick(table, indices, used) == Unable(44)
    decreases k
  {
    if k > 0 && Find(table, indices[0]).Some? { PickFails(table, indices[1..], used + 1, k - 1); }
  }

  /** A program that has spawned 1024 others, or lacks a pipe end that it is to pass on. */
  lemma SpawnFails(d: Data, s: World, v: nat)
    requires v < |s.guests| && s.guests[v].phase.Spawning?
    requires var i := s.guests[v].phase.next; i < |d.spawns| && d.spawns[i].from == v
    ensures |s.guests[v].spawned| >= 1024 ==> DiesWith(s, SpawnNext(d, s, v), v, 47)
    ensures var op := d.spawns[s.guests[v].phase.next];
            |s.guests[v].spawned| < 1024 && |op.pipes| <= 3200 &&
            (exists k :: 0 <= k < |op.pipes| && Find(s.guests[v].table, op.pipes[k]).None?) ==>
              DiesWith(s, SpawnNext(d, s, v), v, 44)
  {
    var op := d.spawns[s.guests[v].phase.next];
    if k :| 0 <= k < |op.pipes| && Find(s.guests[v].table, op.pipes[k]).None? && |op.pipes| <= 3200 {
      PickFails(s.guests[v].table, op.pipes, 0, k);
    }
    hide Find, Pick;
  }

  /** A program that is to read or write and does not know the end, or has bytes left to move and does not own it or
      finds the other end closed. */
  lemma MoveFails(d: Data, s: World, v: nat)
    requires v < |s.guests| && s.guests[v].phase.Moving?
    requires var i := s.guests[v].phase.next; i < |d.writes| && (d.writes[i].from == v || d.writes[i].to == v)
    ensures var op := d.writes[s.guests[v].phase.next];
            var end := Find(s.guests[v].table, if op.from == v then op.fromPipe else op.toPipe);
            match end
            case None => MoveNext(d, s, v).Some? && DiesWith(s, MoveNext(d, s, v).value, v, 44)
            case Some(p) =>
              if s.guests[v].phase.done >= |op.data| then
                MoveNext(d, s, v) == Some(SetPhase(s, v, Moving(s.guests[v].phase.next + 1, 0)))
              else if !(p in s.owner && s.owner[p] == v) then
                MoveNext(d, s, v).Some? && DiesWith(s, MoveNext(d, s, v).value, v, 6)
              else if OtherPipe(p) !in s.owner then
                MoveNext(d, s, v).Some? && DiesWith(s, MoveNext(d, s, v).value, v, 48)
              else MoveNext(d, s, v).None?
  {
    hide Find;
  }

  /** A reader that gets other bytes than its plan says notices it; the writer goes on. */
  lemma CorruptionIsNoticed(d: Data, s: World, w: nat, r: nat, p: PipeId)
    requires Meets(d, s, w, r, p)
    ensures var i, j := s.guests[w].phase.next, s.guests[r].phase.next;
            var sent, got := s.guests[w].phase.done, s.guests[r].phase.done;
            var n := Min(|d.writes[i].data| - sent, |d.writes[j].data| - got);
            n > 0 && d.writes[i].data[sent..sent + n] != d.writes[j].data[got..got + n] ==>
              var s' := Exchange(d, s, w, r, p);
              s'.guests[r].phase == Died(49) && s'.guests[w].phase == Moving(i, sent + n)
  {
    hide Find;
  }

  /** The code of a child that failed is handed up. */
  lemma JoinFails(s: World, v: nat)
    requires v < |s.guests| && s.guests[v].phase.Joining? && s.guests[v].phase.joined < |s.guests[v].spawned|
    ensures var child := s.guests[v].spawned[|s.guests[v].spawned| - 1 - s.guests[v].phase.joined];
            child < |s.guests| && s.guests[child].phase.Died? ==>
              JoinNext(s, v).Some? && DiesWith(s, JoinNext(s, v).value, v, s.guests[child].phase.code)
  {
  }
}
