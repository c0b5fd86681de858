/** When a task is pending: which commands raise the flag, which clear it, and what that says about every point of a run. */
module TaskPending {
  import opened Common
  import opened TaskModel
  import opened TaskSpec
  import opened TaskHistory

  predicate OpenPending(e: Option<Entry>) {
    e.Some? && !e.value.archived && !IsTerminal(e.value.record.status) && Pending(e.value.record)
  }

  /** A mark, or an update that writes a blocker with the reserved prefix and reconciles nothing. */
  predicate Raises(c: Cmd, id: nat) {
    || (c.Mark? && c.id == id)
    || (c.Update? && c.id == id && c.reconcile.None? && c.edit.continuity.Some? && c.edit.continuity.value.blockers.Some?
        && HasPending(c.edit.continuity.value.blockers.value))
  }

  /** An accepted update settles the flag by itself: evidence clears it, reserved blockers set it, anything else keeps it. */
  lemma UpdateFlag(r: TaskRecord, now: int, c: Cmd)
    requires c.Update? && c.id == r.id && UpdateRecord(r, now, c).Ok?
    ensures var n := UpdateRecord(r, now, c).value;
            Pending(n) <==> c.reconcile.None? && (Pending(r) || Raises(c, r.id))
  {
    hide ValidContinuity, ValidHeader, HasPending;
  }

  /** What one command does to the flag of a task it changes. */
  lemma FlagStep(kind: LayoutKind, before: State, now: int, c: Cmd, id: nat)
    requires WfState(before) && EntryAt(before, id).Some?
    ensures
      var a, b := EntryAt(before, id), EntryAt(Step(kind, before, now, c).state, id);
      b.Some? && b.value.record != a.value.record ==>
        && (Reconciles(c, id) ==> !OpenPending(b))
        && (Raises(c, id) ==> OpenPending(b))
        && (OpenPending(b) && !OpenPending(a) ==> Raises(c, id))
  {
    hide Step, ValidRecord, HasPending, Raises;
    StepEntry(kind, before, now, c, id);
    if c.Update? && c.id == id { UpdateStepFlag(kind, before, now, c); }
    OnlyTheseRaise(c, id);
    ClosedChange(kind, before, now, c, id);
  }

  lemma OnlyTheseRaise(c: Cmd, id: nat)
    ensures Raises(c, id) ==> c.id == id && (c.Mark? || (c.Update? && c.reconcile.None?))
    ensures c.Mark? && c.id == id ==> Raises(c, id)
  {
  }

  lemma UpdateStepFlag(kind: LayoutKind, before: State, now: int, c: Cmd)
    requires WfState(before) && c.Update?
    ensures
      var a, b := EntryAt(before, c.id), EntryAt(Step(kind, before, now, c).state, c.id);
      a.Some? && b.Some? && !b.value.archived && b.value.record != a.value.record ==>
        !a.value.archived && (Pending(b.value.record) <==> c.reconcile.None? && (Pending(a.value.record) || Raises(c, c.id)))
  {
    hide ValidRecord, CloseStep, LiveLeases, HasPending, UpdateRecord, Raises;
    ExpireWf(before, now);
    var s := Expire(before, now);
    if c.status.Some? && IsTerminal(c.status.value) {
      CloseOutcome(s, now, c.id, c.status.value, c.expected, c.edit, c.leaseId);
    } else if UpdateDecision(s, now, c).Ok? {
      UpdateFlag(s.tasks[c.id].record, now, c);
      UpdateOutcome(s, now, c);
    }
  }

  /** A close never archives a record that an update made pending. */
  lemma ClosedChange(kind: LayoutKind, before: State, now: int, c: Cmd, id: nat)
    requires WfState(before) && EntryAt(before, id).Some?
    ensures
      var a, b := EntryAt(before, id), EntryAt(Step(kind, before, now, c).state, id);
      b.Some? && b.value.record != a.value.record && b.value.archived ==> !Raises(c, id)
  {
    hide ValidRecord, LiveLeases, HasPending, Step;
    StepEntry(kind, before, now, c, id);
    if c.Update? && c.id == id && c.status.Some? && IsTerminal(c.status.value) && Raises(c, id) {
      ClosePatched(kind, before, now, c);
    } else if c.Update? && c.id == id && Raises(c, id) {
      PlainUpdateStays(kind, before, now, c);
    } else if c.Mark? && c.id == id {
      MarkStays(kind, before, now, c);
    }
  }

  lemma MarkStays(kind: LayoutKind, before: State, now: int, c: Cmd)
    requires WfState(before) && c.Mark? && EntryAt(before, c.id).Some?
    ensures var b := EntryAt(Step(kind, before, now, c).state, c.id);
            b.Some? && b != EntryAt(before, c.id) ==> !b.value.archived
  {
    hide ValidRecord, LiveLeases, HasPending, MarkDecision, Rewritten;
    ExpireWf(before, now);
    MarkOutcome(kind, Expire(before, now), now, c);
  }

  lemma PlainUpdateStays(kind: LayoutKind, before: State, now: int, c: Cmd)
    requires WfState(before) && c.Update? && (c.status.Some? ==> !IsTerminal(c.status.value)) && EntryAt(before, c.id).Some?
    ensures var b := EntryAt(Step(kind, before, now, c).state, c.id);
            b.Some? && b != EntryAt(before, c.id) ==> !b.value.archived
  {
    hide ValidRecord, LiveLeases, HasPending, UpdateDecision, Rewritten;
    ExpireWf(before, now);
    UpdateOutcome(Expire(before, now), now, c);
  }

  lemma ClosePatched(kind: LayoutKind, before: State, now: int, c: Cmd)
    requires WfState(before) && c.Update? && c.status.Some? && IsTerminal(c.status.value) && Raises(c, c.id)
    requires EntryAt(before, c.id).Some?
    ensures var b := EntryAt(Step(kind, before, now, c).state, c.id);
            b.Some? ==> b.value.record == before.tasks[c.id].record
  {
    hide ValidRecord, LiveLeases, HasPending, CommitDecision, DesiredCloseMatches;
    ExpireWf(before, now);
    if ReadActive(Expire(before, now), c.id).Ok? {
      PatchedCommitFails(before.tasks[c.id].record, now, c.status.value, c.expected, c.edit);
    }
  }

  lemma PatchedCommitFails(r: TaskRecord, now: int, final: FinalStatus, expected: Option<int>, e: Edit)
    requires e.continuity.Some? && e.continuity.value.blockers.Some? && HasPending(e.continuity.value.blockers.value)
    ensures CommitDecision(r, now, final, expected, e).Err?
  {
    hide ValidContinuity, ValidHeader, HasPending;
  }

  // ---------- Whole runs ----------

  /** No reconciling update of this task is accepted from command i up to command j. */
  ghost predicate Unreconciled(kind: LayoutKind, s: State, run: seq<Timed>, i: nat, j: nat, id: nat)
    requires j <= |run|
  {
    forall k :: i <= k < j && Reconciles(run[k].cmd, id) ==> !Changes(kind, s, run, k, id)
  }

  /** Command m raised the flag, and nothing reconciled it up to command j. */
  ghost predicate RaisedSince(kind: LayoutKind, s: State, run: seq<Timed>, m: nat, j: nat, id: nat)
    requires m < j <= |run|
  {
    Raises(run[m].cmd, id) && Changes(kind, s, run, m, id) && Unreconciled(kind, s, run, m + 1, j, id)
  }

  /** The flag as the history of accepted commands determines it. */
  ghost predicate Flagged(kind: LayoutKind, s: State, run: seq<Timed>, i: nat, j: nat, id: nat)
    requires i <= j <= |run|
  {
    || (OpenPending(EntryAt(StateAt(kind, s, run, i), id)) && Unreconciled(kind, s, run, i, j, id))
    || exists m :: i <= m < j && RaisedSince(kind, s, run, m, j, id)
  }

  /** One more command: it raises the flag, reconciles it, or keeps it. */
  lemma FlaggedNext(kind: LayoutKind, s: State, run: seq<Timed>, i: nat, j: nat, id: nat)
    requires i <= j < |run|
    ensures
      var changed := Changes(kind, s, run, j, id);
      Flagged(kind, s, run, i, j + 1, id) <==>
        if changed && Raises(run[j].cmd, id) then true
        else if changed && Reconciles(run[j].cmd, id) then false
        else Flagged(kind, s, run, i, j, id)
  {
    hide StateAt, Changes, OpenPending, HasPending;
    var changed, n := Changes(kind, s, run, j, id), j + 1;
    if changed && Raises(run[j].cmd, id) {
      assert RaisedSince(kind, s, run, j, n, id);
    } else if changed && Reconciles(run[j].cmd, id) {
      forall m: nat | m < n ensures !RaisedSince(kind, s, run, m, n, id) {}
      assert !Unreconciled(kind, s, run, i, n, id);
    } else {
      UnreconciledNext(kind, s, run, i, j, id);
      forall m: nat | i <= m < j ensures RaisedSince(kind, s, run, m, n, id) <==> RaisedSince(kind, s, run, m, j, id) {
        UnreconciledNext(kind, s, run, m + 1, j, id);
      }
      assert !RaisedSince(kind, s, run, j, n, id);
      hide RaisedSince, Unreconciled;
      if m: nat :| i <= m < n && RaisedSince(kind, s, run, m, n, id) {
        assert RaisedSince(kind, s, run, m, j, id);
      }
      if m: nat :| i <= m < j && RaisedSince(kind, s, run, m, j, id) {
        assert RaisedSince(kind, s, run, m, n, id);
      }
    }
  }

  lemma UnreconciledNext(kind: LayoutKind, s: State, run: seq<Timed>, m: nat, j: nat, id: nat)
    requires m <= j < |run| && !(Changes(kind, s, run, j, id) && Reconciles(run[j].cmd, id))
    ensures Unreconciled(kind, s, run, m, j + 1, id) <==> Unreconciled(kind, s, run, m, j, id)
  {
    hide Changes, Reconciles;
  }

  /**
   * At every point of every run a task is open and pending exactly when some accepted command raised the flag, or it was up at
   * the start, and no reconciling update has been accepted since.
   */
  lemma {:induction false} PendingIff(kind: LayoutKind, s: State, run: seq<Timed>, i: nat, j: nat, id: nat)
    requires WfState(s) && i <= j <= |run| && NeverDrawn(run, id)
    ensures OpenPending(EntryAt(StateAt(kind, s, run, j), id)) <==> Flagged(kind, s, run, i, j, id)
    decreases j
  {
    hide Step, WfState, OpenPending, Raises, Reconciles, Flagged;
    if i < j {
      PendingIff(kind, s, run, i, j - 1, id);
      FlaggedNext(kind, s, run, i, j - 1, id);
      StateAtWf(kind, s, run, j - 1);
      FlagMoves(kind, s, run, j - 1, id);
    } else {
      FlaggedStart(kind, s, run, i, id);
    }
  }

  lemma FlaggedStart(kind: LayoutKind, s: State, run: seq<Timed>, i: nat, id: nat)
    requires i <= |run|
    ensures Flagged(kind, s, run, i, i, id) <==> OpenPending(EntryAt(StateAt(kind, s, run, i), id))
  {
    hide StateAt, OpenPending;
  }

  lemma FlagMoves(kind: LayoutKind, s: State, run: seq<Timed>, j: nat, id: nat)
    requires WfState(s) && j < |run| && NeverDrawn(run, id)
    ensures
      var changed := Changes(kind, s, run, j, id);
      OpenPending(EntryAt(StateAt(kind, s, run, j + 1), id)) <==>
        if changed && Raises(run[j].cmd, id) then true
        else if changed && Reconciles(run[j].cmd, id) then false
        else OpenPending(EntryAt(StateAt(kind, s, run, j), id))
  {
    hide Step, ValidRecord, HasPending, Raises;
    StateAtWf(kind, s, run, j);
    EntryMoves(kind, s, run, j, id);
    var before := StateAt(kind, s, run, j);
    if EntryAt(before, id).Some? { FlagStep(kind, before, run[j].now, run[j].cmd, id); }
  }
}
