/**
 * What every run of task commands keeps, derived from one transition relation per task.
 */
module TaskHistory {
  import opened Common
  import opened TaskModel
  import opened TaskSpec

  /** Every lease belongs to an active task, and every record carries its own key. */
  ghost predicate WfState(s: State) {
    WellKeyed(s) && forall id :: id in s.leases ==> id in s.tasks && !s.tasks[id].archived
  }

  function EntryAt(s: State, id: nat): Option<Entry> { if id in s.tasks then Some(s.tasks[id]) else None }

  function HeldAt(s: State, id: nat): Option<Lease> { if id in s.leases then Some(s.leases[id]) else None }

  predicate Pending(r: TaskRecord) { HasPending(r.continuity.blockers) }

  /** The command targets this task and carries the live lease's identifier. */
  predicate Presents(c: Cmd, id: nat, held: Option<Lease>) {
    held.Some? ==>
      match c
      case Update(target, _, _, _, _, leaseId) => target == id && leaseId == Some(held.value.leaseId)
      case Mark(target, _, leaseId) => target == id && leaseId == Some(held.value.leaseId)
      case Close(target, _, _, _, leaseId) => target == id && leaseId == Some(held.value.leaseId)
      case _ => false
  }

  predicate Reconciles(c: Cmd, id: nat) { c.Update? && c.id == id && c.reconcile.Some? }

  predicate ExpectationMet(c: Cmd, r: TaskRecord) {
    match c
    case Update(_, _, expected, _, _, _) => !Stale(r, expected)
    case Close(_, _, expected, _, _) => !Stale(r, expected)
    case _ => true
  }

  /** An open record is rewritten in place: one revision later, still open, same creation time. */
  predicate Rewritten(r: TaskRecord, n: TaskRecord, now: int, c: Cmd, id: nat) {
    && ValidRecord(r) && !IsTerminal(r.status) && !IsTerminal(n.status)
    && n.revision == r.revision + 1 && n.schemaVersion == 2 && n.id == r.id
    && n.createdAt == r.createdAt && n.updatedAt == now && n.archivedAt == r.archivedAt
    && (Pending(r) && !Pending(n) ==> Reconciles(c, id))
    && ((c.Update? && c.id == id) || (c.Mark? && c.id == id && Pending(n)))
    && ExpectationMet(c, r)
  }

  /** A record that leaves the active root is final, with nothing left to reconcile. */
  predicate Finalised(r: TaskRecord, n: TaskRecord, now: int) {
    && ValidRecord(r) && IsTerminal(n.status) && n.archivedAt.Some? && !Pending(r) && !Pending(n)
    && n.id == r.id && n.createdAt == r.createdAt
    && (n == r || (n.revision == r.revision + 1 && n.updatedAt == now && n.archivedAt == Some(now)))
    && (IsTerminal(r.status) && r.archivedAt.Some? ==> n == r)
  }

  /** Everything one command can do to one task. */
  predicate EntryStep(a: Option<Entry>, b: Option<Entry>, held: Option<Lease>, now: int, c: Cmd, id: nat) {
    || b == a
    || (a.None? && b.Some? && c.Create? && c.freshId == id && b.value == Entry(NewRecord(c, now), false))
    || (a.Some? && b.Some? && !a.value.archived && Presents(c, id, held) &&
        if b.value.archived then
          Finalised(a.value.record, b.value.record, now)
          && (b.value.record != a.value.record ==> ExpectationMet(c, a.value.record))
        else Rewritten(a.value.record, b.value.record, now, c, id))
    || (a.Some? && b.None? && a.value.archived && IsTerminal(a.value.record.status) && c.Cleanup?)
  }

  // ---------- One command ----------

  lemma PlanFinal(r: TaskRecord, now: int, final: FinalStatus, expected: Option<int>, e: Edit)
    requires ValidRecord(r)
    ensures
      var plan := ActivePlan(r, now, final, expected, e);
      plan.Ok? ==> Finalised(r, plan.value.final, now) && (plan.value.final != r ==> !Stale(r, expected))
  {
    hide ValidContinuity, ValidHeader, DesiredCloseMatches;
  }

  /** A close either leaves the state alone or archives one readable active task, presenting its lease. */
  lemma CloseOutcome(s: State, now: int, id: nat, final: FinalStatus, expected: Option<int>, e: Edit, given: Option<nat>)
    requires WfState(s)
    ensures
      var o := CloseStep(s, now, id, final, expected, e, given);
      || o.state == s
      || (&& ReadActive(s, id).Ok? && id in s.tasks && !s.tasks[id].archived && o.reply.Record? && o.reply.record.id == id
          && o.state == ArchiveWith(s, o.reply.record)
          && (id in s.leases ==> given == Some(s.leases[id].leaseId))
          && Finalised(s.tasks[id].record, o.reply.record, now)
          && (o.reply.record != s.tasks[id].record ==> !Stale(s.tasks[id].record, expected)))
    ensures WfState(CloseStep(s, now, id, final, expected, e, given).state)
  {
    hide ValidContinuity, ValidHeader, DesiredCloseMatches, HasPending, ArchivedPlan, ActivePlan;
    if ReadActive(s, id).Ok? {
      PlanFinal(s.tasks[id].record, now, final, expected, e);
    }
  }

  lemma UpdateRewrites(r: TaskRecord, now: int, c: Cmd)
    requires c.Update? && (c.status.Some? ==> !IsTerminal(c.status.value)) && ValidRecord(r)
    ensures var n := UpdateRecord(r, now, c); n.Ok? ==> Rewritten(r, n.value, now, c, r.id) || c.id != r.id
    ensures var n := UpdateRecord(r, now, c); n.Ok? ==> n.value.id == r.id
  {
    hide ValidContinuity, HasPending;
  }

  lemma MarkRewrites(r: TaskRecord, now: int, purpose: string)
    requires ValidRecord(r) && !IsTerminal(r.status)
    ensures
      var n := Edited(r, now, NoEdit, None, r.continuity.(blockers := MarkedBlockers(r.continuity.blockers, purpose)), None);
      Pending(n) && Rewritten(r, n, now, Cmd.Mark(r.id, purpose, None), r.id)
  {
    hide ValidContinuity, HasPending;
  }

  /** An accepted rewrite replaces one active entry. */
  ghost predicate RewriteOutcome(s: State, o: Outcome, now: int, c: Cmd, id: nat) {
    || o.state == s
    || (&& id in s.tasks && !s.tasks[id].archived && o.reply.Record? && o.reply.record.id == id
        && o.state == WriteRecord(s, o.reply.record)
        && Presents(c, id, HeldAt(s, id)) && Rewritten(s.tasks[id].record, o.reply.record, now, c, id))
  }

  lemma UpdateOutcome(s: State, now: int, c: Cmd)
    requires WfState(s) && c.Update? && (c.status.Some? ==> !IsTerminal(c.status.value))
    ensures RewriteOutcome(s, Written(s, UpdateDecision(s, now, c)), now, c, c.id)
  {
    hide ValidContinuity, ValidHeader, HasPending, UpdateRecord, Rewritten;
    if ReadActive(s, c.id).Ok? {
      UpdateRewrites(s.tasks[c.id].record, now, c);
    }
  }

  lemma MarkOutcome(kind: LayoutKind, s: State, now: int, c: Cmd)
    requires WfState(s) && c.Mark?
    ensures RewriteOutcome(s, MarkStep(kind, s, now, c), now, c, c.id)
  {
    hide ValidContinuity, ValidHeader, HasPending, MarkedBlockers;
    if ReadActive(s, c.id).Ok? && !IsTerminal(s.tasks[c.id].record.status) {
      MarkRewrites(s.tasks[c.id].record, now, c.purpose);
    }
  }

  lemma CreateOutcome(s: State, now: int, c: Cmd)
    requires WfState(s) && c.Create?
    ensures
      var o := CreateStep(s, now, c);
      o.state == s || (c.freshId !in s.tasks && o == Outcome(WriteRecord(s, NewRecord(c, now)), Record(NewRecord(c, now))))
    ensures WfState(CreateStep(s, now, c).state)
  {
    hide ValidRecord, ScanEquivalent, IdentityOf, Sorted;
  }

  /** Repair closes each listed task at most once, and leaves the others alone. */
  lemma {:induction false} RepairOutcome(s: State, now: int, ids: seq<nat>, done: seq<nat>, k: nat)
    requires WfState(s) && Ascending(ids)
    ensures var o := RepairFrom(s, now, ids, done);
            && WfState(o.state)
            && EntryStep(EntryAt(s, k), EntryAt(o.state, k), HeldAt(s, k), now, Repair, k)
            && (k !in ids ==> EntryAt(o.state, k) == EntryAt(s, k))
            && (HeldAt(o.state, k) == HeldAt(s, k))
    decreases |ids|
  {
    hide ValidRecord, CloseDecision, Finalised;
    if ids != [] && GetRecord(s, ids[0]).Ok? {
      var r := GetRecord(s, ids[0]).value;
      if !IsTerminal(r.status) {
        RepairOutcome(s, now, ids[1..], done, k);
      } else {
        var o := CloseStep(s, now, ids[0], r.status, None, NoEdit, None);
        CloseOutcome(s, now, ids[0], r.status, None, NoEdit, None);
        assert ids[0] !in ids[1..];
        RepairOutcome(o.state, now, ids[1..], done + [ids[0]], k);
      }
    }
  }

  lemma CleanupOutcome(s: State, now: int, days: Option<nat>, k: nat)
    requires WfState(s)
    ensures var o := CleanupStep(s, now, days);
            && WfState(o.state)
            && EntryStep(EntryAt(s, k), EntryAt(o.state, k), HeldAt(s, k), now, Cleanup(days), k)
            && HeldAt(o.state, k) == HeldAt(s, k)
  {
    hide ValidRecord, Sorted;
  }

  lemma ArchiveOutcome(s: State, now: int, id: nat, k: nat)
    requires WfState(s)
    ensures var o := ArchiveStep(s, now, id);
            && WfState(o.state)
            && EntryStep(EntryAt(s, k), EntryAt(o.state, k), HeldAt(s, k), now, ArchiveTask(id), k)
            && HeldAt(o.state, k) == HeldAt(s, k)
  {
    hide ValidRecord, CloseDecision, Finalised;
    var r := GetRecord(s, id);
    if r.Ok? && IsTerminal(r.value.status) {
      CloseOutcome(s, now, id, r.value.status, None, NoEdit, None);
    }
  }

  lemma LeaseCommandsKeepTasks(s: State, now: int, c: Cmd)
    requires WfState(s)
    ensures c.Acquire? ==> WfState(AcquireStep(s, now, c).state) && AcquireStep(s, now, c).state.tasks == s.tasks
    ensures c.Refresh? ==> WfState(RefreshStep(s, now, c.id, c.held, c.seconds).state)
                           && RefreshStep(s, now, c.id, c.held, c.seconds).state.tasks == s.tasks
    ensures c.Release? ==> WfState(ReleaseStep(s, c.id, c.held).state) && ReleaseStep(s, c.id, c.held).state.tasks == s.tasks
    ensures c.Authorize? ==> AuthorizeStep(s, c.id, c.leaseId).state == s
  {
    hide ValidRecord;
  }

  lemma CloseEntry(s: State, now: int, id: nat, final: FinalStatus, expected: Option<int>, e: Edit, given: Option<nat>, c: Cmd, k: nat)
    requires WfState(s)
    requires c == Close(id, final, expected, e, given)
             || (c.Update? && c.id == id && c.expected == expected && c.leaseId == given)
    ensures
      var o := CloseStep(s, now, id, final, expected, e, given);
      WfState(o.state) && EntryStep(EntryAt(s, k), EntryAt(o.state, k), HeldAt(s, k), now, c, k)
  {
    CloseOutcome(s, now, id, final, expected, e, given);
    hide CloseStep, Finalised, ReadActive;
  }

  lemma RewriteEntry(s: State, o: Outcome, now: int, c: Cmd, id: nat, k: nat)
    requires WfState(s) && RewriteOutcome(s, o, now, c, id)
    ensures WfState(o.state) && EntryStep(EntryAt(s, k), EntryAt(o.state, k), HeldAt(s, k), now, c, k)
  {
    hide ValidRecord, Presents, HasPending;
  }

  lemma CreateEntry(s: State, now: int, c: Cmd, k: nat)
    requires WfState(s) && c.Create?
    ensures
      var o := CreateStep(s, now, c);
      WfState(o.state) && EntryStep(EntryAt(s, k), EntryAt(o.state, k), HeldAt(s, k), now, c, k)
  {
    CreateOutcome(s, now, c);
    hide CreateStep, ValidRecord;
  }

  /** The transition relation of one task, for every command of the store and both layouts. */
  lemma StepEntry(kind: LayoutKind, before: State, now: int, c: Cmd, k: nat)
    requires WfState(before)
    ensures
      var s, o := Expire(before, now), Step(kind, before, now, c);
      WfState(o.state) && EntryStep(EntryAt(before, k), EntryAt(o.state, k), HeldAt(s, k), now, c, k)
  {
    hide ValidRecord, CloseStep, UpdateDecision, MarkStep, CreateStep, RepairFrom, CleanupStep, ArchiveStep, LiveLeases, Sorted,
      EntryStep, WfState, RewriteOutcome, GetRecord, AcquireStep, RefreshStep, ReleaseStep, AuthorizeStep, Written, Expire;
    var s := Expire(before, now);
    ExpireWf(before, now);
    SameEntry(s, now, c, k);
    match c
    case Create(_, _, _, _, _, _, _) => CreateEntry(s, now, c, k);
    case Get(_) =>
    case Update(id, status, expected, edit, _, leaseId) =>
      if status.Some? && IsTerminal(status.value) {
        CloseEntry(s, now, id, status.value, expected, edit, leaseId, c, k);
      } else {
        UpdateOutcome(s, now, c);
        RewriteEntry(s, Written(s, UpdateDecision(s, now, c)), now, c, id, k);
      }
    case Mark(id, _, _) =>
      MarkOutcome(kind, s, now, c);
      RewriteEntry(s, MarkStep(kind, s, now, c), now, c, id, k);
    case Close(id, final, expected, edit, leaseId) => CloseEntry(s, now, id, final, expected, edit, leaseId, c, k);
    case ArchiveTask(id) => ArchiveOutcome(s, now, id, k);
    case Repair => RepairOutcome(s, now, Sorted(ActiveIds(s)), [], k);
    case Cleanup(days) => CleanupOutcome(s, now, days, k);
    case _ => LeaseCommandsKeepTasks(s, now, c);
  }

  lemma SameEntry(s: State, now: int, c: Cmd, k: nat)
    ensures forall t: State :: t.tasks == s.tasks ==> EntryStep(EntryAt(s, k), EntryAt(t, k), HeldAt(s, k), now, c, k)
  {
    hide ValidRecord, Presents;
  }

  lemma ExpireWf(s: State, now: int)
    requires WfState(s)
    ensures WfState(Expire(s, now)) && Expire(s, now).tasks == s.tasks
    ensures forall id :: id in Expire(s, now).leases <==> id in s.leases && s.leases[id].expiresAt > now
    ensures forall id :: id in Expire(s, now).leases ==> Expire(s, now).leases[id] == s.leases[id]
  {
  }

  /** Everything one command can do to one task's live lease. */
  predicate LeaseStep(a: Option<Lease>, b: Option<Lease>, now: int, c: Cmd, id: nat) {
    || b == a
    || (a.None? && b.Some? && c.Acquire? && c.id == id && ValidSeconds(c.seconds)
        && b.value == Lease(c.freshLease, c.executor, c.scope, now, now, now + c.seconds * SECOND))
    || (a.Some? && b.Some? && c.Refresh? && c.id == id && ValidSeconds(c.seconds) && c.held == a.value.leaseId
        && b.value == a.value.(refreshedAt := now, expiresAt := now + c.seconds * SECOND))
    || (a.Some? && b.None? && ((c.Release? && c.id == id && c.held == a.value.leaseId) || Presents(c, id, a)))
  }

  lemma StepLease(kind: LayoutKind, before: State, now: int, c: Cmd, k: nat)
    requires WfState(before)
    ensures LeaseStep(HeldAt(Expire(before, now), k), HeldAt(Step(kind, before, now, c).state, k), now, c, k)
  {
    hide ValidRecord, CloseDecision, Finalised, Rewritten, UpdateDecision, MarkStep, CreateStep, RepairFrom, CleanupStep,
      ArchiveStep, LiveLeases, Sorted, Expire, GetRecord, Written, CloseStep;
    var s := Expire(before, now);
    ExpireWf(before, now);
    match c
    case Create(_, _, _, _, _, _, _) => CreateOutcome(s, now, c);
    case Get(_) =>
    case Update(id, status, expected, edit, _, leaseId) =>
      if status.Some? && IsTerminal(status.value) {
        CloseOutcome(s, now, id, status.value, expected, edit, leaseId);
      } else {
        UpdateOutcome(s, now, c);
      }
    case Mark(_, _, _) => MarkOutcome(kind, s, now, c);
    case Close(id, final, expected, edit, leaseId) => CloseOutcome(s, now, id, final, expected, edit, leaseId);
    case ArchiveTask(id) => ArchiveOutcome(s, now, id, k);
    case Repair => RepairOutcome(s, now, Sorted(ActiveIds(s)), [], k);
    case Cleanup(days) => CleanupOutcome(s, now, days, k);
    case _ =>
  }

  /** Only an open task is given a lease or has one extended. */
  lemma StepLeaseNeedsOpen(kind: LayoutKind, before: State, now: int, c: Cmd, k: nat)
    requires WfState(before)
    ensures
      var a, b := HeldAt(Expire(before, now), k), HeldAt(Step(kind, before, now, c).state, k);
      b.Some? && b != a ==> k in before.tasks && !IsTerminal(before.tasks[k].record.status)
  {
    StepLease(kind, before, now, c, k);
    hide ValidRecord, CloseDecision, UpdateDecision, MarkStep, CreateStep, RepairFrom, CleanupStep, ArchiveStep, LiveLeases, Sorted;
    ExpireWf(before, now);
  }

  // ---------- Whole runs ----------

  /** The state before command i. */
  function StateAt(kind: LayoutKind, s: State, run: seq<Timed>, i: nat): State
    requires i <= |run|
  {
    if i == 0 then s else
      var before := StateAt(kind, s, run, i - 1);
      Step(kind, before, run[i - 1].now, run[i - 1].cmd).state
  }

  lemma {:induction false} StateAtWf(kind: LayoutKind, s: State, run: seq<Timed>, i: nat)
    requires WfState(s) && i <= |run|
    ensures WfState(StateAt(kind, s, run, i))
  {
    if i > 0 {
      StateAtWf(kind, s, run, i - 1);
      StepEntry(kind, StateAt(kind, s, run, i - 1), run[i - 1].now, run[i - 1].cmd, 0);
    }
  }

  /** Command i acts on the task through the transition relation. */
  lemma EntryMoves(kind: LayoutKind, s: State, run: seq<Timed>, i: nat, id: nat)
    requires WfState(s) && i < |run|
    ensures
      var before := StateAt(kind, s, run, i);
      EntryStep(EntryAt(before, id), EntryAt(StateAt(kind, s, run, i + 1), id), HeldAt(Expire(before, run[i].now), id),
                run[i].now, run[i].cmd, id)
  {
    StateAtWf(kind, s, run, i);
    StepEntry(kind, StateAt(kind, s, run, i), run[i].now, run[i].cmd, id);
  }

  /** Identifiers are unique: no create in the run draws this one. */
  ghost predicate NeverDrawn(run: seq<Timed>, id: nat) {
    forall k :: 0 <= k < |run| && run[k].cmd.Create? ==> run[k].cmd.freshId != id
  }

  predicate Committed(e: Option<Entry>) { e.Some? && IsTerminal(e.value.record.status) && e.value.record.archivedAt.Some? }

  /** Once a final record is committed, in whichever root, no later run changes it; retention may only remove it. */
  lemma {:induction false} CommittedForever(kind: LayoutKind, s: State, run: seq<Timed>, i: nat, j: nat, id: nat)
    requires WfState(s) && i <= j <= |run| && NeverDrawn(run, id)
    requires Committed(EntryAt(StateAt(kind, s, run, i), id))
    ensures
      var a, b := EntryAt(StateAt(kind, s, run, i), id), EntryAt(StateAt(kind, s, run, j), id);
      b.Some? ==> b.value.record == a.value.record && (a.value.archived ==> b.value.archived)
  {
    hide Step, ValidRecord, HasPending;
    if i < j {
      CommittedForever(kind, s, run, i, j - 1, id);
      EntryMoves(kind, s, run, j - 1, id);
    }
  }

  /** The revision never goes back, and a task found at the same revision is the very same record. */
  lemma {:induction false} RevisionIdentifiesRecord(kind: LayoutKind, s: State, run: seq<Timed>, i: nat, j: nat, id: nat)
    requires WfState(s) && i <= j <= |run| && NeverDrawn(run, id)
    ensures
      var a, b := EntryAt(StateAt(kind, s, run, i), id), EntryAt(StateAt(kind, s, run, j), id);
      && (b.Some? ==> a.Some? && a.value.record.revision <= b.value.record.revision)
      && (b.Some? && a.value.record.revision == b.value.record.revision ==> b.value.record == a.value.record)
  {
    hide Step, ValidRecord, HasPending;
    if i < j {
      RevisionIdentifiesRecord(kind, s, run, i, j - 1, id);
      EntryMoves(kind, s, run, j - 1, id);
    }
  }

  function Expectation(c: Cmd): Option<int> {
    match c
    case Update(_, _, expected, _, _, _) => expected
    case Close(_, _, expected, _, _) => expected
    case _ => None
  }

  /** Command i changed the task's record. */
  ghost predicate Changes(kind: LayoutKind, s: State, run: seq<Timed>, i: nat, id: nat)
    requires i < |run|
  {
    var a, b := EntryAt(StateAt(kind, s, run, i), id), EntryAt(StateAt(kind, s, run, i + 1), id);
    a.Some? && b.Some? && a.value.record != b.value.record
  }

  /** Compare and swap: of all callers that expect one revision of a task, at most one changes it. */
  lemma OneWinnerPerRevision(kind: LayoutKind, s: State, run: seq<Timed>, i: nat, j: nat, id: nat)
    requires WfState(s) && i < |run| && j < |run| && NeverDrawn(run, id)
    requires Changes(kind, s, run, i, id) && Changes(kind, s, run, j, id)
    requires Expectation(run[i].cmd).Some? && Expectation(run[i].cmd) == Expectation(run[j].cmd)
    ensures i == j
  {
    hide Step, ValidRecord, HasPending;
    if i != j {
      var m, n := if i < j then i else j, if i < j then j else i;
      EntryMoves(kind, s, run, m, id);
      EntryMoves(kind, s, run, n, id);
      RevisionIdentifiesRecord(kind, s, run, m + 1, n, id);
      assert false;
    }
  }

  /** A pending mutation is only ever cleared by an update that carries reconciliation evidence. */
  lemma {:induction false} PendingNeedsReconciliation(kind: LayoutKind, s: State, run: seq<Timed>, i: nat, j: nat, id: nat)
    requires WfState(s) && i <= j <= |run| && NeverDrawn(run, id)
    requires EntryAt(StateAt(kind, s, run, i), id).Some? && EntryAt(StateAt(kind, s, run, j), id).Some?
    requires Pending(EntryAt(StateAt(kind, s, run, i), id).value.record)
    requires !EntryAt(StateAt(kind, s, run, i), id).value.archived
    requires !Pending(EntryAt(StateAt(kind, s, run, j), id).value.record) || EntryAt(StateAt(kind, s, run, j), id).value.archived
    decreases j - i
    ensures exists k :: i <= k < j && Reconciles(run[k].cmd, id) && Changes(kind, s, run, k, id)
                        && !EntryAt(StateAt(kind, s, run, k + 1), id).value.archived
  {
    hide Step, ValidRecord, HasPending;
    assert i < j;
    EntryMoves(kind, s, run, i, id);
    RevisionIdentifiesRecord(kind, s, run, i + 1, j, id);
    var next := EntryAt(StateAt(kind, s, run, i + 1), id);
    if Pending(next.value.record) {
      PendingNeedsReconciliation(kind, s, run, i + 1, j, id);
    } else {
      assert Changes(kind, s, run, i, id);
    }
  }
}
