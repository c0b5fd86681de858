/** What one repair computes: which interrupted closes it finishes, where it stops, and what it leaves alone. */
module TaskRepair {
  import opened Common
  import opened TaskModel
  import opened TaskSpec
  import opened TaskHistory

  /** Repair reads this task and fails on it: unreadable, or terminal but refused by a close that presents no lease. */
  predicate Stops(s: State, id: nat) {
    && id in s.tasks && !s.tasks[id].archived
    && var r := s.tasks[id].record;
       !ValidRecord(r) || (IsTerminal(r.status) && (id in s.leases || Pending(r) || Unfinished(r)))
  }

  /** Completed, not yet committed as final, and still carrying what a completed task may not keep. */
  predicate Unfinished(r: TaskRecord) {
    r.archivedAt.None? && r.status.Completed? && (r.nextAction.Some? || r.continuity.blockers != [])
  }

  /** An active terminal task that repair gets to: nothing at or before it makes repair stop. */
  ghost predicate Due(s: State, id: nat) {
    && id in s.tasks && !s.tasks[id].archived && IsTerminal(s.tasks[id].record.status)
    && forall x: nat :: x <= id ==> !Stops(s, x)
  }

  /** A committed final record is kept as it is; an older terminal record is committed now. */
  function RepairedRecord(r: TaskRecord, now: int): TaskRecord {
    if r.archivedAt.Some? then r else Edited(r, now, NoEdit, Some(r.status), r.continuity, Some(now))
  }

  /** The close that repair asks for fails on the tasks that stop it, and otherwise archives the final record. */
  lemma CloseForRepair(s: State, now: int, id: nat)
    requires id in s.tasks && !s.tasks[id].archived && ValidRecord(s.tasks[id].record) && IsTerminal(s.tasks[id].record.status)
    requires s.tasks[id].record.id == id
    ensures
      var r := s.tasks[id].record;
      var o := CloseStep(s, now, id, r.status, None, NoEdit, None);
      if Stops(s, id) then o.reply.Failed? && o.state == s
      else o == Outcome(ArchiveWith(s, RepairedRecord(r, now)), Record(RepairedRecord(r, now))) && id !in s.leases
  {
    hide ValidContinuity, HasPending;
  }

  // ---------- The loop ----------

  function TerminalAmong(s: State, ids: seq<nat>): (terminal: seq<nat>)
    requires forall id :: id in ids ==> id in s.tasks
    ensures forall id :: id in terminal <==> id in ids && IsTerminal(s.tasks[id].record.status)
  {
    if ids == [] then []
    else (if IsTerminal(s.tasks[ids[0]].record.status) then [ids[0]] else []) + TerminalAmong(s, ids[1..])
  }

  lemma {:induction false} TerminalAscending(s: State, ids: seq<nat>)
    requires Ascending(ids) && forall id :: id in ids ==> id in s.tasks
    ensures Ascending(TerminalAmong(s, ids))
  {
    if ids != [] {
      TerminalAscending(s, ids[1..]);
      var rest := TerminalAmong(s, ids[1..]);
      forall i | 0 <= i < |rest| ensures ids[0] < rest[i] {
        assert rest[i] in ids[1..];
      }
    }
  }

  /** Active tasks in id order. */
  ghost predicate Listed(s: State, ids: seq<nat>) {
    Ascending(ids) && forall id :: id in ids ==> id in s.tasks && !s.tasks[id].archived
  }

  ghost predicate DueIn(s: State, ids: seq<nat>, id: nat) {
    id in ids && id in s.tasks && IsTerminal(s.tasks[id].record.status) && forall x :: x in ids && x <= id ==> !Stops(s, x)
  }

  /** What the loop has to achieve from here on. */
  ghost predicate Repairs(s: State, now: int, ids: seq<nat>, done: seq<nat>, o: Outcome)
    requires forall id :: id in ids ==> id in s.tasks
  {
    o.state.leases == s.leases && Archives(s, now, ids, o.state) && Reports(s, ids, done, o.reply)
  }

  ghost predicate Archives(s: State, now: int, ids: seq<nat>, t: State) {
    && t.tasks.Keys == s.tasks.Keys
    && (forall id :: id in s.tasks ==>
          t.tasks[id] == if DueIn(s, ids, id) then Entry(RepairedRecord(s.tasks[id].record, now), true) else s.tasks[id])
  }

  ghost predicate Reports(s: State, ids: seq<nat>, done: seq<nat>, reply: Reply)
    requires forall id :: id in ids ==> id in s.tasks
  {
    if exists x :: x in ids && Stops(s, x) then reply.Failed? else reply == Ids(done + TerminalAmong(s, ids))
  }

  lemma {:induction false} RepairLoop(s: State, now: int, ids: seq<nat>, done: seq<nat>)
    requires WfState(s) && Listed(s, ids)
    ensures Repairs(s, now, ids, done, RepairFrom(s, now, ids, done))
    decreases |ids|
  {
    hide ValidRecord, CloseStep, RepairedRecord, Stops;
    if ids != [] {
      var id := ids[0];
      StopsOnTerminal(s, id);
      if ValidRecord(s.tasks[id].record) {
        if !IsTerminal(s.tasks[id].record.status) {
          RepairLoop(s, now, ids[1..], done);
          RepairSkips(s, now, ids, done, RepairFrom(s, now, ids[1..], done));
        } else {
          CloseForRepair(s, now, id);
          if !Stops(s, id) {
            var t := ArchiveWith(s, RepairedRecord(s.tasks[id].record, now));
            ClosedOne(s, now, id);
            assert forall x :: x in ids[1..] ==> x in ids && x != id;
            RepairLoop(t, now, ids[1..], done + [id]);
            RepairCloses(s, t, now, ids, done, RepairFrom(t, now, ids[1..], done + [id]));
          } else {
            assert id in ids;
          }
        }
      } else {
        assert id in ids && Stops(s, id);
      }
    }
  }

  lemma StopsOnTerminal(s: State, id: nat)
    requires id in s.tasks && !s.tasks[id].archived
    ensures !ValidRecord(s.tasks[id].record) ==> Stops(s, id)
    ensures ValidRecord(s.tasks[id].record) && !IsTerminal(s.tasks[id].record.status) ==> !Stops(s, id)
  {
  }

  lemma ClosedOne(s: State, now: int, id: nat)
    requires WfState(s) && id in s.tasks && !s.tasks[id].archived && id !in s.leases
    ensures
      var t := ArchiveWith(s, RepairedRecord(s.tasks[id].record, now));
      && WfState(t) && t.leases == s.leases && t.tasks == s.tasks[id := Entry(RepairedRecord(s.tasks[id].record, now), true)]
      && forall x :: x != id ==> Stops(t, x) == Stops(s, x)
  {
    hide ValidRecord, HasPending;
  }

  /** The first task neither stops repair nor is closed by it. */
  lemma DueAfterSkip(s: State, ids: seq<nat>, x: nat)
    requires Listed(s, ids) && ids != [] && !Stops(s, ids[0]) && !IsTerminal(s.tasks[ids[0]].record.status)
    ensures DueIn(s, ids, x) <==> DueIn(s, ids[1..], x)
  {
    hide Stops, IsTerminal;
    assert ids == [ids[0]] + ids[1..];
  }

  /** The first task was closed, which changes nothing for the others. */
  lemma DueAfterClose(s: State, t: State, ids: seq<nat>, x: nat)
    requires Listed(s, ids) && ids != [] && !Stops(s, ids[0]) && IsTerminal(s.tasks[ids[0]].record.status)
    requires forall y :: y != ids[0] ==> EntryAt(t, y) == EntryAt(s, y) && Stops(t, y) == Stops(s, y)
    ensures DueIn(s, ids, x) <==> x == ids[0] || DueIn(t, ids[1..], x)
    ensures ids[0] !in ids[1..]
  {
    hide Stops, IsTerminal;
    var id, rest := ids[0], ids[1..];
    assert ids == [id] + rest;
    assert forall i :: 0 <= i < |rest| ==> id < rest[i];
    assert forall y :: y in rest ==> id < y;
    if x != id && x in s.tasks { assert EntryAt(t, x) == EntryAt(s, x); }
  }

  lemma RepairSkips(s: State, now: int, ids: seq<nat>, done: seq<nat>, o: Outcome)
    requires Listed(s, ids) && ids != [] && !Stops(s, ids[0]) && !IsTerminal(s.tasks[ids[0]].record.status)
    requires Repairs(s, now, ids[1..], done, o)
    ensures Repairs(s, now, ids, done, o)
  {
    hide Stops, RepairedRecord, DueIn, IsTerminal;
    forall x | x in s.tasks ensures DueIn(s, ids, x) <==> DueIn(s, ids[1..], x) { DueAfterSkip(s, ids, x); }
    assert ids == [ids[0]] + ids[1..];
  }

  lemma RepairCloses(s: State, t: State, now: int, ids: seq<nat>, done: seq<nat>, o: Outcome)
    requires Listed(s, ids) && ids != [] && !Stops(s, ids[0]) && IsTerminal(s.tasks[ids[0]].record.status)
    requires t.leases == s.leases && t.tasks == s.tasks[ids[0] := Entry(RepairedRecord(s.tasks[ids[0]].record, now), true)]
    requires forall x :: x != ids[0] ==> Stops(t, x) == Stops(s, x)
    requires Repairs(t, now, ids[1..], done + [ids[0]], o)
    ensures Repairs(s, now, ids, done, o)
  {
    hide Archives, Reports, Stops, RepairedRecord, IsTerminal;
    assert forall y :: y != ids[0] ==> EntryAt(t, y) == EntryAt(s, y);
    ClosedArchives(s, t, now, ids, o.state);
    ClosedReports(s, t, ids, done, o.reply);
  }

  lemma ClosedArchives(s: State, t: State, now: int, ids: seq<nat>, u: State)
    requires Listed(s, ids) && ids != [] && !Stops(s, ids[0]) && IsTerminal(s.tasks[ids[0]].record.status)
    requires t.tasks == s.tasks[ids[0] := Entry(RepairedRecord(s.tasks[ids[0]].record, now), true)]
    requires forall y :: y != ids[0] ==> EntryAt(t, y) == EntryAt(s, y) && Stops(t, y) == Stops(s, y)
    requires Archives(t, now, ids[1..], u)
    ensures Archives(s, now, ids, u)
  {
    hide Stops, RepairedRecord, DueIn, IsTerminal;
    var id, rest := ids[0], ids[1..];
    forall x | x in s.tasks ensures DueIn(s, ids, x) <==> x == id || DueIn(t, rest, x) { DueAfterClose(s, t, ids, x); }
    DueAfterClose(s, t, ids, id);
    DueIsListed(t, rest, id);
  }

  lemma ClosedReports(s: State, t: State, ids: seq<nat>, done: seq<nat>, reply: Reply)
    requires Listed(s, ids) && ids != [] && !Stops(s, ids[0]) && IsTerminal(s.tasks[ids[0]].record.status)
    requires forall id :: id in ids[1..] ==> id in t.tasks
    requires forall y :: y != ids[0] ==> EntryAt(t, y) == EntryAt(s, y) && Stops(t, y) == Stops(s, y)
    requires Reports(t, ids[1..], done + [ids[0]], reply)
    ensures Reports(s, ids, done, reply)
  {
    hide Stops, IsTerminal;
    var id, rest := ids[0], ids[1..];
    DueAfterClose(s, t, ids, id);
    assert ids == [id] + rest;
    forall x | x in rest ensures x != id && x in s.tasks && t.tasks[x] == s.tasks[x] {
      assert EntryAt(t, x) == EntryAt(s, x);
    }
    SameTerminal(s, t, rest);
    assert done + [id] + TerminalAmong(s, rest) == done + ([id] + TerminalAmong(s, rest));
  }

  lemma DueIsListed(s: State, ids: seq<nat>, id: nat)
    ensures DueIn(s, ids, id) ==> id in ids
  {
  }

  lemma {:induction false} SameTerminal(s: State, t: State, ids: seq<nat>)
    requires forall id :: id in ids ==> id in s.tasks && id in t.tasks && t.tasks[id] == s.tasks[id]
    ensures TerminalAmong(t, ids) == TerminalAmong(s, ids)
  {
    if ids != [] { SameTerminal(s, t, ids[1..]); }
  }

  // ---------- The command ----------

  /**
   * Repair closes exactly the terminal active tasks before the first one it has to stop at, each to its final record; every
   * other task and every live lease stays. It is accepted iff nothing stops it, and then reports what it closed, in order.
   */
  lemma RepairExactly(kind: LayoutKind, before: State, now: int)
    requires WfState(before)
    ensures
      var s, o := Expire(before, now), Step(kind, before, now, Repair);
      && o.state.leases == s.leases && o.state.tasks.Keys == s.tasks.Keys
      && (forall id :: id in s.tasks ==>
            o.state.tasks[id] == if Due(s, id) then Entry(RepairedRecord(s.tasks[id].record, now), true) else s.tasks[id])
      && (o.reply.Ids? <==> forall x :: !Stops(s, x))
      && (o.reply.Ids? ==> o.reply.ids == Sorted(set id | id in s.tasks && !s.tasks[id].archived && IsTerminal(s.tasks[id].record.status)))
  {
    hide Stops, RepairedRecord, RepairFrom, LiveLeases, Due, DueIn, ActiveIds, Sorted, TerminalAmong, IsTerminal;
    var s := Expire(before, now);
    var ids := Sorted(ActiveIds(s));
    ExpireWf(before, now);
    ActiveListed(s);
    RepairLoop(s, now, ids, []);
    forall x | Stops(s, x) ensures x in ids { StopsActive(s, x); }
    forall id | id in s.tasks ensures Due(s, id) <==> DueIn(s, ids, id) { DueListed(s, ids, id); }
    assert [] + TerminalAmong(s, ids) == TerminalAmong(s, ids);
  }

  lemma ActiveListed(s: State)
    ensures
      var ids := Sorted(ActiveIds(s));
      && Listed(s, ids) && (forall id :: id in ids <==> id in ActiveIds(s))
      && TerminalAmong(s, ids) == Sorted(set id | id in s.tasks && !s.tasks[id].archived && IsTerminal(s.tasks[id].record.status))
  {
    var ids := Sorted(ActiveIds(s));
    TerminalAscending(s, ids);
    AscendingUnique(TerminalAmong(s, ids), Sorted(set id | id in s.tasks && !s.tasks[id].archived && IsTerminal(s.tasks[id].record.status)));
  }

  lemma DueListed(s: State, ids: seq<nat>, id: nat)
    requires forall x :: x in ids <==> x in ActiveIds(s)
    ensures Due(s, id) <==> DueIn(s, ids, id)
  {
    hide ValidRecord, HasPending, IsTerminal;
    assert forall x :: Stops(s, x) ==> x in ids;
    hide Stops;
  }

  lemma StopsActive(s: State, id: nat)
    requires Stops(s, id)
    ensures id in ActiveIds(s)
  {
  }

  /** An accepted repair leaves no terminal task active. */
  lemma AcceptedRepairIsComplete(kind: LayoutKind, before: State, now: int)
    requires WfState(before) && Step(kind, before, now, Repair).reply.Ids?
    ensures
      var t := Step(kind, before, now, Repair).state;
      forall id :: id in t.tasks && !t.tasks[id].archived ==> !IsTerminal(t.tasks[id].record.status)
  {
    hide Step, Stops, RepairedRecord, LiveLeases;
    RepairExactly(kind, before, now);
  }

  // ---------- One refused task keeps later ones waiting ----------

  /** A committed final record. */
  function FinalTask(id: nat): TaskRecord {
    TaskRecord(2, 2, id, "t", "o", None, Completed, None, EmptyContinuity, false, 0, 1, Some(1))
  }

  /** Two interrupted closes; only the first task still has a live lease, yet the second is not finished either. */
  lemma RepairStopsEarly()
    ensures
      var s := State(map[1 := Entry(FinalTask(1), false), 2 := Entry(FinalTask(2), false)], map[1 := Lease(5, "x", "y", 0, 0, 100)]);
      var o := Step(FileLayout, s, 50, Repair);
      o.reply.Failed? && 2 !in s.leases && EntryAt(o.state, 2) == Some(Entry(FinalTask(2), false))
  {
    hide Step, RepairedRecord;
    var s := State(map[1 := Entry(FinalTask(1), false), 2 := Entry(FinalTask(2), false)], map[1 := Lease(5, "x", "y", 0, 0, 100)]);
    assert Expire(s, 50) == s;
    assert Stops(s, 1);
    RepairExactly(FileLayout, s, 50);
    assert !Due(s, 2);
    assert EntryAt(s, 2) == Some(Entry(FinalTask(2), false));
    OnlyIdsOrFailed(FileLayout, s, 50);
  }

  lemma OnlyIdsOrFailed(kind: LayoutKind, s: State, now: int)
    requires WfState(s)
    ensures Step(kind, s, now, Repair).reply.Ids? || Step(kind, s, now, Repair).reply.Failed?
  {
    hide RepairFrom, LiveLeases, Stops, IsTerminal, TerminalAmong;
    ExpireWf(s, now);
    ActiveListed(Expire(s, now));
    RepairLoop(Expire(s, now), now, Sorted(ActiveIds(Expire(s, now))), []);
  }
}
