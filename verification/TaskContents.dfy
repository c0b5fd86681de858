/**
 * What every command stores, field by field: the record a reply carries and the entry the next state holds, in terms of the
 * command, the clock and the record before.
 */
module TaskContents {
  import opened Common
  import opened TaskModel
  import opened TaskSpec

  // ---------- Vocabulary ----------

  /** A supplied value is stored, an omitted one keeps what was there. */
  predicate Chosen<T(==)>(given: Option<T>, was: T, now: T) { if given.Some? then now == given.value else now == was }

  /** An optional field: cleared, replaced, or kept. */
  predicate Replaced(given: Option<string>, clear: bool, was: Option<string>, now: Option<string>) {
    if clear then now.None? else if given.Some? then now == given else now == was
  }

  /** The same list less its pending marks, in order. */
  function Unmarked(all: seq<string>): seq<string> {
    if all == [] then []
    else
      var n := |all| - 1;
      if PENDING_PREFIX <= all[n] then Unmarked(all[..n]) else Unmarked(all[..n]) + [all[n]]
  }

  predicate Marked(blockers: seq<string>) { exists i :: 0 <= i < |blockers| && PENDING_PREFIX <= blockers[i] }

  lemma {:induction false} UnmarkedConcat(a: seq<string>, b: seq<string>)
    ensures Unmarked(a + b) == Unmarked(a) + Unmarked(b)
  {
    if b == [] {
      assert a + b == a;
    } else {
      assert (a + b)[..|a| + |b| - 1] == a + b[..|b| - 1];
      UnmarkedConcat(a, b[..|b| - 1]);
    }
  }

  lemma {:induction false} NonPendingIsUnmarked(all: seq<string>)
    ensures NonPending(all) == Unmarked(all)
  {
    if all != [] {
      NonPendingIsUnmarked(all[1..]);
      assert all == [all[0]] + all[1..];
      UnmarkedConcat([all[0]], all[1..]);
      assert [all[0]][..0] == [];
      hide NonPending;
      NonPendingFirst(all);
    }
  }

  lemma NonPendingFirst(all: seq<string>)
    requires all != []
    ensures NonPending(all) == if PENDING_PREFIX <= all[0] then NonPending(all[1..]) else [all[0]] + NonPending(all[1..])
  {
  }

  // ---------- Continuity ----------

  /** A patch overwrites each field it supplies by its own name. */
  predicate Patched(was: Continuity, p: Option<Patch>, now: Continuity) {
    if p.None? then now == was
    else
      && Chosen(p.value.authorization, was.authorization, now.authorization) && Chosen(p.value.sources, was.sources, now.sources)
      && Chosen(p.value.completed, was.completed, now.completed) && Chosen(p.value.validation, was.validation, now.validation)
      && Chosen(p.value.cleanup, was.cleanup, now.cleanup) && Chosen(p.value.recovery, was.recovery, now.recovery)
      && Chosen(p.value.blockers, was.blockers, now.blockers) && Chosen(p.value.assumptions, was.assumptions, now.assumptions)
  }

  lemma PatchedMerge(was: Continuity, p: Patch, now: Continuity)
    ensures Patched(was, Some(p), now) <==> now == Merge(was, p)
  {
  }

  /** A reconciliation appends its evidence to the validation and drops the pending marks; no other field changes. */
  ghost predicate Settles(was: Continuity, evidence: Option<string>, now: Continuity) {
    && now.authorization == was.authorization && now.sources == was.sources && now.completed == was.completed
    && now.cleanup == was.cleanup && now.recovery == was.recovery && now.assumptions == was.assumptions
    && (evidence.None? ==> now.validation == was.validation && now.blockers == was.blockers)
    && (evidence.Some? ==>
          now.validation == was.validation + ["Mutation reconciliation: " + evidence.value] && now.blockers == Unmarked(was.blockers))
  }

  /** Patch, then settle. */
  ghost predicate Continues(was: Continuity, p: Option<Patch>, evidence: Option<string>, now: Continuity) {
    exists patched :: Patched(was, p, patched) && Settles(patched, evidence, now)
  }

  // ---------- The record ----------

  /** Title, objective, reference, next action and retention of an edit; identity and creation stay. */
  predicate EditedFields(a: TaskRecord, b: TaskRecord, now: int, e: Edit) {
    && b.id == a.id && b.schemaVersion == 2 && b.revision == a.revision + 1 && b.createdAt == a.createdAt && b.updatedAt == now
    && Chosen(e.title, a.title, b.title) && Chosen(e.objective, a.objective, b.objective)
    && Replaced(e.projectRef, e.clearProjectRef, a.projectRef, b.projectRef)
    && Replaced(e.nextAction, e.clearNextAction, a.nextAction, b.nextAction)
    && Chosen(e.retained, a.retained, b.retained)
  }

  /** What a non-closing update stores. */
  ghost predicate Updates(a: TaskRecord, b: TaskRecord, now: int, c: Cmd)
    requires c.Update?
  {
    && EditedFields(a, b, now, c.edit) && Chosen(c.status, a.status, b.status) && b.archivedAt == a.archivedAt
    && Continues(a.continuity, c.edit.continuity, c.reconcile, b.continuity)
  }

  /** What a first close stores. */
  predicate Closes(a: TaskRecord, b: TaskRecord, now: int, final: FinalStatus, e: Edit) {
    EditedFields(a, b, now, e) && b.status == final && b.archivedAt == Some(now) && Patched(a.continuity, e.continuity, b.continuity)
  }

  /** A lease that is live must be presented. */
  predicate MayWrite(s: State, now: int, id: nat, given: Option<nat>) {
    id in s.leases && now < s.leases[id].expiresAt ==> given == Some(s.leases[id].leaseId)
  }

  predicate OneOfEach(e: Edit) { !(e.clearProjectRef && e.projectRef.Some?) && !(e.clearNextAction && e.nextAction.Some?) }

  predicate OpenStatus(s: Status) { s.Active? || s.Partial? || s.Blocked? }

  /** An active task whose record can be read. */
  predicate ReadableActive(s: State, id: nat) { id in s.tasks && !s.tasks[id].archived && ValidRecord(s.tasks[id].record) }

  // ---------- Updates ----------

  ghost predicate UpdateAllowed(s: State, now: int, c: Cmd)
    requires c.Update?
  {
    && OneOfEach(c.edit) && ReadableActive(s, c.id) && MayWrite(s, now, c.id, c.leaseId)
    && var a := s.tasks[c.id].record;
       && OpenStatus(a.status) && (c.expected.Some? ==> a.revision == c.expected.value)
       && (c.reconcile.Some? ==> Marked(a.continuity.blockers))
       && exists patched ::
            && Patched(a.continuity, c.edit.continuity, patched) && ValidContinuity(patched)
            && (Marked(a.continuity.blockers) && !Marked(patched.blockers) ==> c.reconcile.Some?)
  }

  /** The continuity an accepted update writes, in both directions. */
  lemma ContinuesIff(a: TaskRecord, p: Option<Patch>, evidence: Option<string>, u: Continuity)
    requires ValidContinuity(a.continuity)
    ensures
      UpdatedContinuity(a, p, evidence) == Ok(u) <==>
        && ValidContinuity(u) && Continues(a.continuity, p, evidence, u)
        && (evidence.Some? ==> Marked(a.continuity.blockers))
        && exists patched ::
             && Patched(a.continuity, p, patched) && ValidContinuity(patched)
             && (Marked(a.continuity.blockers) && !Marked(patched.blockers) ==> evidence.Some?)
  {
    hide ValidContinuity, Merge;
    var merged := if p.None? then a.continuity else Merge(a.continuity, p.value);
    assert forall x :: Patched(a.continuity, p, x) <==> x == merged by {
      if p.Some? { forall x ensures Patched(a.continuity, p, x) <==> x == merged { PatchedMerge(a.continuity, p.value, x); } }
    }
    assert Marked(a.continuity.blockers) <==> HasPending(a.continuity.blockers);
    assert Marked(merged.blockers) <==> HasPending(merged.blockers);
    SettlesIff(merged, evidence, u);
    hide Patched, Settles, Marked, HasPending, Reconciled;
  }

  lemma SettlesIff(was: Continuity, evidence: Option<string>, now: Continuity)
    ensures Settles(was, evidence, now) <==> now == if evidence.Some? then Reconciled(was, evidence.value) else was
  {
    NonPendingIsUnmarked(was.blockers);
    hide Unmarked, NonPending;
  }

  /** The record an edit builds is the only one with these fields. */
  lemma EditedIff(a: TaskRecord, b: TaskRecord, now: int, e: Edit, status: Option<Status>, archivedAt: Option<int>)
    ensures
      b == Edited(a, now, e, status, b.continuity, archivedAt) <==>
        EditedFields(a, b, now, e) && Chosen(status, a.status, b.status)
        && b.archivedAt == if archivedAt.Some? then archivedAt else a.archivedAt
  {
  }

  lemma UpdateRecordIff(a: TaskRecord, b: TaskRecord, now: int, c: Cmd)
    requires c.Update? && ValidRecord(a) && OpenStatus(a.status) && (c.expected.Some? ==> a.revision == c.expected.value)
    ensures
      UpdateRecord(a, now, c) == Ok(b) <==> UpdatedContinuity(a, c.edit.continuity, c.reconcile) == Ok(b.continuity) && Updates(a, b, now, c) && ValidRecord(b)
  {
    hide ValidContinuity, UpdatedContinuity, Continues;
    EditedIff(a, b, now, c.edit, c.status, None);
    ContinuesIff(a, c.edit.continuity, c.reconcile, b.continuity);
    hide EditedFields, Edited, ValidHeader;
  }

  lemma UpdateDecisionIff(s: State, now: int, c: Cmd, b: TaskRecord)
    requires c.Update? && (c.status.Some? ==> OpenStatus(c.status.value))
    ensures
      UpdateDecision(Expire(s, now), now, c) == Ok(b) <==>
        UpdateAllowed(s, now, c) && Updates(s.tasks[c.id].record, b, now, c) && ValidRecord(b)
  {
    hide ValidRecord, UpdateRecord, UpdatedContinuity, Patched, Updates, Marked, ValidContinuity;
    if ReadableActive(s, c.id) && OpenStatus(s.tasks[c.id].record.status) {
      var a := s.tasks[c.id].record;
      if c.expected.Some? ==> a.revision == c.expected.value {
        UpdateRecordIff(a, b, now, c);
        ReadableContinuity(a);
        ReadableContinuity(b);
        ContinuesIff(a, c.edit.continuity, c.reconcile, b.continuity);
        UpdatesContinues(a, b, now, c);
      }
    }
    OpenOrNot(s, now, c);
  }

  lemma ReadableContinuity(a: TaskRecord)
    ensures ValidRecord(a) ==> ValidContinuity(a.continuity)
  {
  }

  lemma UpdatesContinues(a: TaskRecord, b: TaskRecord, now: int, c: Cmd)
    requires c.Update?
    ensures Updates(a, b, now, c) ==> Continues(a.continuity, c.edit.continuity, c.reconcile, b.continuity)
  {
  }

  lemma OpenOrNot(s: State, now: int, c: Cmd)
    requires c.Update? && (c.status.Some? ==> OpenStatus(c.status.value))
    ensures
      UpdateDecision(Expire(s, now), now, c).Ok? ==>
        && OneOfEach(c.edit) && ReadableActive(s, c.id) && MayWrite(s, now, c.id, c.leaseId)
        && OpenStatus(s.tasks[c.id].record.status) && (c.expected.Some? ==> s.tasks[c.id].record.revision == c.expected.value)
  {
    hide ValidRecord, UpdatedContinuity;
  }

  /** Leases that have run out are gone; the others are as they were. */
  ghost predicate OnlyLive(before: map<nat, Lease>, now: int, after: map<nat, Lease>) {
    && (forall id :: id in after <==> id in before && now < before[id].expiresAt)
    && forall id :: id in after ==> after[id] == before[id]
  }

  /**
   * A non-closing update is accepted exactly if it is allowed and some readable record has the fields it asks for; that record is
   * returned and stored, and nothing else changes. A refused one changes no task.
   */
  lemma UpdateStores(kind: LayoutKind, s: State, now: int, c: Cmd)
    requires WellKeyed(s) && c.Update? && (c.status.Some? ==> OpenStatus(c.status.value))
    ensures
      var o := Step(kind, s, now, c);
      && (o.reply.Record? <==>
            UpdateAllowed(s, now, c) && exists b :: Updates(s.tasks[c.id].record, b, now, c) && ValidRecord(b))
      && (o.reply.Record? ==>
            && Updates(s.tasks[c.id].record, o.reply.record, now, c) && ValidRecord(o.reply.record)
            && o.state.tasks == s.tasks[c.id := Entry(o.reply.record, false)])
      && (!o.reply.Record? ==> o.reply.Failed? && o.state.tasks == s.tasks) && OnlyLive(s.leases, now, o.state.leases)
  {
    hide UpdateDecision, UpdateAllowed, Updates, ValidRecord;
    var d := UpdateDecision(Expire(s, now), now, c);
    assert UpdateAllowed(s, now, c) ==> c.id in s.tasks by { if UpdateAllowed(s, now, c) { AllowedIsStored(s, now, c); } }
    forall b ensures d == Ok(b) <==> UpdateAllowed(s, now, c) && Updates(s.tasks[c.id].record, b, now, c) && ValidRecord(b) {
      UpdateDecisionIff(s, now, c, b);
    }
    if d.Ok? {
      AllowedIsStored(s, now, c);
      UpdatesKeepId(s.tasks[c.id].record, d.value, now, c);
    }
    hide Expire, LiveLeases, WriteRecord, WellKeyed;
    UpdateOutcome(kind, s, now, c);
  }

  lemma AllowedIsStored(s: State, now: int, c: Cmd)
    requires c.Update? && UpdateAllowed(s, now, c)
    ensures c.id in s.tasks
  {
  }

  lemma UpdatesKeepId(a: TaskRecord, b: TaskRecord, now: int, c: Cmd)
    requires c.Update? && Updates(a, b, now, c)
    ensures b.id == a.id
  {
  }

  lemma UpdateOutcome(kind: LayoutKind, s: State, now: int, c: Cmd)
    requires c.Update? && (c.status.Some? ==> OpenStatus(c.status.value))
    ensures
      var o, d := Step(kind, s, now, c), UpdateDecision(Expire(s, now), now, c);
      && OnlyLive(s.leases, now, o.state.leases)
      && (d.Err? ==> o.reply == Failed(d.error) && o.state.tasks == s.tasks)
      && (d.Ok? ==> o.reply == Record(d.value) && o.state.tasks == s.tasks[d.value.id := Entry(d.value, false)])
  {
    hide UpdateDecision;
  }

  // ---------- Closes ----------

  /** What stands in an active record is final already, and stamped: the rename of an earlier close is still to come. */
  predicate Committed(r: TaskRecord) { !OpenStatus(r.status) && r.archivedAt.Some? }

  ghost predicate CloseAllowed(s: State, now: int, id: nat, final: FinalStatus, expected: Option<int>, e: Edit, given: Option<nat>) {
    && OneOfEach(e) && ReadableActive(s, id) && MayWrite(s, now, id, given)
    && var a := s.tasks[id].record;
       && !Marked(a.continuity.blockers) && (OpenStatus(a.status) || a.status == final)
       && (expected.Some? ==> a.revision == expected.value)
  }

  /** A final record has no pending mark, and a completed one neither a next action nor blockers. */
  predicate MayBeFinal(b: TaskRecord) {
    !Marked(b.continuity.blockers) && (b.status.Completed? ==> b.nextAction.None? && b.continuity.blockers == [])
  }

  /** The parameters of a close, whichever command asks for it. */
  datatype CloseCall = CloseCall(id: nat, final: FinalStatus, expected: Option<int>, edit: Edit, given: Option<nat>)

  predicate Asks(c: Cmd, x: CloseCall) {
    || c == Cmd.Close(x.id, x.final, x.expected, x.edit, x.given)
    || c == Cmd.Update(x.id, Some(x.final), x.expected, x.edit, None, x.given)
  }

  lemma CommitIff(a: TaskRecord, b: TaskRecord, now: int, final: FinalStatus, expected: Option<int>, e: Edit)
    requires ValidRecord(a)
    ensures
      CommitDecision(a, now, final, expected, e) == Ok(Commit(b)) <==>
        (expected.Some? ==> a.revision == expected.value) && Closes(a, b, now, final, e) && ValidRecord(b) && MayBeFinal(b)
    ensures CommitDecision(a, now, final, expected, e).Ok? ==> CommitDecision(a, now, final, expected, e).value.Commit?
  {
    hide ValidContinuity, Merge;
    EditedIff(a, b, now, e, Some(final), Some(now));
    if e.continuity.Some? { PatchedMerge(a.continuity, e.continuity.value, b.continuity); }
    assert Marked(b.continuity.blockers) <==> HasPending(b.continuity.blockers);
    hide EditedFields, Patched, Edited, ValidHeader, Marked, HasPending;
  }

  /**
   * A close that does not meet a committed record is accepted exactly if it is allowed and some readable record has the fields it
   * asks for and may be final; that record is returned, stored in the archive, and the lease of the task is gone.
   */
  lemma CloseStores(kind: LayoutKind, s: State, now: int, c: Cmd, x: CloseCall)
    requires WellKeyed(s) && Asks(c, x) && x.id in s.tasks && !s.tasks[x.id].archived && !Committed(s.tasks[x.id].record)
    ensures
      var o, a := Step(kind, s, now, c), s.tasks[x.id].record;
      && (o.reply.Record? <==>
            && CloseAllowed(s, now, x.id, x.final, x.expected, x.edit, x.given)
            && exists b :: Closes(a, b, now, x.final, x.edit) && ValidRecord(b) && MayBeFinal(b))
      && (o.reply.Record? ==>
            && Closes(a, o.reply.record, now, x.final, x.edit) && ValidRecord(o.reply.record) && MayBeFinal(o.reply.record)
            && o.state.tasks == s.tasks[x.id := Entry(o.reply.record, true)]
            && OnlyLive(s.leases - {x.id}, now, o.state.leases))
      && (!o.reply.Record? ==> o.reply.Failed? && o.state.tasks == s.tasks && OnlyLive(s.leases, now, o.state.leases))
  {
    var a, d := s.tasks[x.id].record, CloseDecision(Expire(s, now), now, x.id, x.final, x.expected, x.edit, x.given);
    forall b ensures d == Ok(Commit(b)) <==>
        CloseAllowed(s, now, x.id, x.final, x.expected, x.edit, x.given) && Closes(a, b, now, x.final, x.edit) && ValidRecord(b) && MayBeFinal(b)
    {
      CloseDecisionIff(s, now, x, b);
    }
    DecisionCommits(s, now, x);
    CloseOutcome(kind, s, now, c, x);
    if d.Ok? { assert d.value.final.id == x.id by { ClosesKeepsId(a, d.value.final, now, x.final, x.edit); } }
    hide CloseDecision, CloseAllowed, Closes, ValidRecord, MayBeFinal, Step, Expire, Committed, Asks, WellKeyed;
  }

  lemma ClosesKeepsId(a: TaskRecord, b: TaskRecord, now: int, final: FinalStatus, e: Edit)
    requires Closes(a, b, now, final, e)
    ensures b.id == a.id
  {
  }

  lemma CloseDecisionIff(s: State, now: int, x: CloseCall, b: TaskRecord)
    requires x.id in s.tasks && !s.tasks[x.id].archived && !Committed(s.tasks[x.id].record)
    ensures
      CloseDecision(Expire(s, now), now, x.id, x.final, x.expected, x.edit, x.given) == Ok(Commit(b)) <==>
        && CloseAllowed(s, now, x.id, x.final, x.expected, x.edit, x.given)
        && Closes(s.tasks[x.id].record, b, now, x.final, x.edit) && ValidRecord(b) && MayBeFinal(b)
  {
    hide ValidRecord, CommitDecision, Closes, MayBeFinal;
    var a := s.tasks[x.id].record;
    if ValidRecord(a) { CommitIff(a, b, now, x.final, x.expected, x.edit); }
  }

  lemma DecisionCommits(s: State, now: int, x: CloseCall)
    requires x.id in s.tasks && !s.tasks[x.id].archived && !Committed(s.tasks[x.id].record)
    ensures
      var d := CloseDecision(Expire(s, now), now, x.id, x.final, x.expected, x.edit, x.given);
      d.Ok? ==> d.value.Commit?
  {
    hide ValidRecord, BuildUpdated, MergeValidated;
  }

  lemma CloseOutcome(kind: LayoutKind, s: State, now: int, c: Cmd, x: CloseCall)
    requires Asks(c, x)
    ensures
      var o, d := Step(kind, s, now, c), CloseDecision(Expire(s, now), now, x.id, x.final, x.expected, x.edit, x.given);
      && (d.Err? ==> o.reply.Failed? && o.state.tasks == s.tasks && OnlyLive(s.leases, now, o.state.leases))
      && (d.Ok? ==>
            && o.reply == Record(d.value.final)
            && (d.value.Replay? ==> o.state.tasks == s.tasks && OnlyLive(s.leases, now, o.state.leases))
            && (!d.value.Replay? ==>
                  && o.state.tasks == s.tasks[d.value.final.id := Entry(d.value.final, true)]
                  && OnlyLive(s.leases - {d.value.final.id}, now, o.state.leases)))
  {
    hide ActivePlan, ArchivedPlan, ValidRecord;
    var s' := Expire(s, now);
    assert OneOfEach(x.edit) <==> ExclusiveArgs(x.edit);
    assert !ExclusiveArgs(x.edit) ==> CloseDecision(s', now, x.id, x.final, x.expected, x.edit, x.given) == Err(MutuallyExclusive);
    hide CloseDecision;
  }

  /** A repeated close is accepted exactly if every field it supplies is what the stored final record has; the record stays. */
  predicate Repeats(r: TaskRecord, final: FinalStatus, e: Edit) {
    && r.status == final && Chosen(e.title, r.title, r.title) && Chosen(e.objective, r.objective, r.objective)
    && Replaced(e.projectRef, e.clearProjectRef, r.projectRef, r.projectRef)
    && Replaced(e.nextAction, e.clearNextAction, r.nextAction, r.nextAction)
    && Chosen(e.retained, r.retained, r.retained) && Patched(r.continuity, e.continuity, r.continuity)
  }

  lemma RepeatIff(r: TaskRecord, final: FinalStatus, e: Edit)
    requires OneOfEach(e) && ValidRecord(r)
    ensures DesiredCloseMatches(r, final, e) <==> Repeats(r, final, e)
  {
    hide ValidContinuity, Merge;
    if e.continuity.Some? { PatchedMerge(r.continuity, e.continuity.value, r.continuity); }
  }

  /** Closing a task that is committed already: in the active root it is moved, in the archive nothing changes. */
  lemma RepeatedCloseStores(kind: LayoutKind, s: State, now: int, c: Cmd, x: CloseCall)
    requires WellKeyed(s) && Asks(c, x) && x.id in s.tasks && (s.tasks[x.id].archived || Committed(s.tasks[x.id].record))
    ensures
      var o, r := Step(kind, s, now, c), s.tasks[x.id].record;
      && (o.reply.Record? <==>
            && OneOfEach(x.edit) && ValidRecord(r) && !Marked(r.continuity.blockers) && Repeats(r, x.final, x.edit)
            && (s.tasks[x.id].archived || MayWrite(s, now, x.id, x.given)))
      && (o.reply.Record? ==> o.reply.record == r && o.state.tasks == s.tasks[x.id := Entry(r, true)])
      && (!o.reply.Record? ==> o.reply.Failed? && o.state.tasks == s.tasks)
  {
    CloseOutcome(kind, s, now, c, x);
    var r := s.tasks[x.id].record;
    if OneOfEach(x.edit) && ValidRecord(r) { RepeatIff(r, x.final, x.edit); }
    assert Marked(r.continuity.blockers) <==> HasPending(r.continuity.blockers);
    hide Step, ValidRecord, Repeats, DesiredCloseMatches, Marked, HasPending;
  }

  // ---------- Creation and marks ----------

  /** Stripping takes white space off both ends and nothing else. */
  lemma {:induction false} StripTrims(s: string) returns (i: nat, j: nat)
    ensures i <= j <= |s| && Strip(s) == s[i..j]
    ensures forall k :: 0 <= k < |s| && !(i <= k < j) ==> IsSpace(s[k])
  {
    hide IsSpace;
    if s == "" {
      i, j := 0, 0;
    } else if IsSpace(s[0]) {
      i, j := StripTrims(s[1..]);
      i, j := i + 1, j + 1;
      assert forall k :: 0 < k < |s| ==> s[k] == s[1..][k - 1];
    } else if IsSpace(s[|s| - 1]) {
      i, j := StripTrims(s[..|s| - 1]);
      assert forall k :: 0 <= k < |s| - 1 ==> s[k] == s[..|s| - 1][k];
    } else {
      i, j := 0, |s|;
    }
  }

  /** Same title, objective and reference but for white space around them. */
  predicate SameWork(r: TaskRecord, title: string, objective: string, projectRef: Option<string>) {
    && Strip(r.title) == Strip(title) && Strip(r.objective) == Strip(objective) && (r.projectRef.Some? <==> projectRef.Some?)
    && (r.projectRef.Some? ==> Strip(r.projectRef.value) == Strip(projectRef.value))
  }

  /** An open task in the active root that does the work a creation asks for. */
  predicate Twin(s: State, id: nat, c: Cmd)
    requires c.Create?
  {
    id in s.tasks && !s.tasks[id].archived && OpenStatus(s.tasks[id].record.status)
    && SameWork(s.tasks[id].record, c.title, c.objective, c.projectRef)
  }

  /** What a new task holds. */
  predicate Creates(b: TaskRecord, now: int, c: Cmd)
    requires c.Create?
  {
    && b.id == c.freshId && b.title == c.title && b.objective == c.objective && b.projectRef == c.projectRef && b.status.Active?
    && b.nextAction == c.nextAction && b.continuity == c.continuity && b.retained == c.retained
    && b.createdAt == now == b.updatedAt && b.archivedAt.None? && b.revision == 1 && b.schemaVersion == 2
  }

  lemma NewRecordIff(b: TaskRecord, now: int, c: Cmd)
    requires c.Create?
    ensures b == NewRecord(c, now) <==> Creates(b, now, c)
  {
  }

  lemma TwinIff(s: State, id: nat, c: Cmd)
    requires c.Create? && id in s.tasks && !s.tasks[id].archived
    ensures MatchesOpen(s, id, IdentityOf(c.title, c.objective, c.projectRef)) <==> Twin(s, id, c)
  {
    hide Strip;
  }

  lemma ScanFirst(s: State, ids: seq<nat>, c: Cmd)
    requires c.Create? && ids != [] && forall id :: id in ids ==> id in s.tasks && !s.tasks[id].archived && ValidRecord(s.tasks[id].record)
    ensures
      var identity := IdentityOf(c.title, c.objective, c.projectRef);
      ScanEquivalent(s, ids, identity)
      == if Twin(s, ids[0], c) then Ok(Some(s.tasks[ids[0]].record)) else ScanEquivalent(s, ids[1..], identity)
  {
    assert ids[0] in ids;
    TwinIff(s, ids[0], c);
    hide Twin, ValidRecord, Strip, IdentityOf, RecordIdentity;
  }

  lemma {:induction false} ScanStopsAt(s: State, ids: seq<nat>, c: Cmd)
    requires c.Create? && Ascending(ids) && forall id :: id in ids ==> id in s.tasks && !s.tasks[id].archived && ValidRecord(s.tasks[id].record)
    ensures
      var found := ScanEquivalent(s, ids, IdentityOf(c.title, c.objective, c.projectRef));
      && found.Ok?
      && (found.value.None? <==> forall id :: id in ids ==> !Twin(s, id, c))
      && (found.value.Some? ==>
            exists id :: id in ids && Twin(s, id, c) && s.tasks[id].record == found.value.value && forall y :: y in ids && Twin(s, y, c) ==> id <= y)
  {
    hide Twin, ValidRecord;
    if ids != [] {
      ScanFirst(s, ids, c);
      hide ScanEquivalent;
      ScanStopsAt(s, ids[1..], c);
      assert ids == [ids[0]] + ids[1..];
      assert forall id :: id in ids[1..] ==> ids[0] < id;
      if Twin(s, ids[0], c) { assert ids[0] in ids; }
    }
  }

  /**
   * On readable active records a creation returns the least equivalent open task if there is one, unchanged. Otherwise it is
   * accepted exactly if the record with the requested fields is valid; that record is returned and stored, and nothing else changes.
   */
  lemma CreateStores(kind: LayoutKind, s: State, now: int, c: Cmd)
    requires c.Create? && c.freshId !in s.tasks
    requires forall id :: id in s.tasks && !s.tasks[id].archived ==> ValidRecord(s.tasks[id].record)
    ensures
      var o := Step(kind, s, now, c);
      if exists id :: Twin(s, id, c) then
        o.state.tasks == s.tasks && o.reply.Record?
        && exists id :: Twin(s, id, c) && o.reply.record == s.tasks[id].record && forall y :: Twin(s, y, c) ==> id <= y
      else
        && (o.reply.Record? <==> exists b :: Creates(b, now, c) && ValidRecord(b))
        && (o.reply.Record? ==> Creates(o.reply.record, now, c) && o.state.tasks == s.tasks[c.freshId := Entry(o.reply.record, false)])
        && (!o.reply.Record? ==> o.reply.Failed? && o.state.tasks == s.tasks)
    ensures OnlyLive(s.leases, now, Step(kind, s, now, c).state.leases)
  {
    hide ValidRecord, ScanEquivalent, Twin;
    var ids := Sorted(ActiveIds(s));
    ScanStopsAt(Expire(s, now), ids, c);
    forall id ensures Twin(Expire(s, now), id, c) <==> Twin(s, id, c) { TwinSame(s, now, id, c); }
    forall b ensures b == NewRecord(c, now) <==> Creates(b, now, c) { NewRecordIff(b, now, c); }
    forall id | Twin(s, id, c) ensures id in ids { TwinSame(s, now, id, c); }
    hide Creates, NewRecord, Sorted;
  }

  lemma TwinSame(s: State, now: int, id: nat, c: Cmd)
    requires c.Create?
    ensures Twin(Expire(s, now), id, c) <==> Twin(s, id, c)
    ensures Twin(s, id, c) ==> id in ActiveIds(s)
  {
  }

  /** A mark changes the blockers only: the pending ones give way to one that names the latest purpose. */
  predicate Marks(a: TaskRecord, b: TaskRecord, now: int, purpose: string) {
    && EditedFields(a, b, now, NoEdit) && b.status == a.status && b.archivedAt == a.archivedAt
    && b.continuity.authorization == a.continuity.authorization && b.continuity.sources == a.continuity.sources
    && b.continuity.completed == a.continuity.completed && b.continuity.validation == a.continuity.validation
    && b.continuity.cleanup == a.continuity.cleanup && b.continuity.recovery == a.continuity.recovery
    && b.continuity.assumptions == a.continuity.assumptions
    && b.continuity.blockers == Unmarked(a.continuity.blockers)
         + [PENDING_PREFIX + " Mutating execution requires " + "postcondition reconciliation before Task completion. Latest purpose: " + purpose]
  }

  predicate OpenTask(s: State, id: nat) { ReadableActive(s, id) && OpenStatus(s.tasks[id].record.status) }

  lemma MarkDecisionIff(s: State, now: int, c: Cmd, b: TaskRecord)
    requires c.Mark?
    ensures
      MarkDecision(Expire(s, now), now, c.id, c.purpose, c.leaseId) == Ok(b) <==>
        OpenTask(s, c.id) && MayWrite(s, now, c.id, c.leaseId) && Marks(s.tasks[c.id].record, b, now, c.purpose)
  {
    hide ValidContinuity, Marks, MarkedBlockers, Edited;
    if OpenTask(s, c.id) {
      MarksIff(s.tasks[c.id].record, b, now, c.purpose);
      EditedStaysValid(s.tasks[c.id].record, now, MarkedAs(s.tasks[c.id].record, c.purpose));
    }
  }

  function MarkedAs(a: TaskRecord, purpose: string): Continuity {
    a.continuity.(blockers := MarkedBlockers(a.continuity.blockers, purpose))
  }

  lemma MarksIff(a: TaskRecord, b: TaskRecord, now: int, purpose: string)
    ensures Marks(a, b, now, purpose) <==> b == Edited(a, now, NoEdit, None, MarkedAs(a, purpose), None)
  {
    NonPendingIsUnmarked(a.continuity.blockers);
    EditedIff(a, b, now, NoEdit, None, None);
    assert Edited(a, now, NoEdit, None, MarkedAs(a, purpose), None).continuity == MarkedAs(a, purpose);
    hide NonPending, Unmarked, EditedFields, Edited;
  }

  lemma EditedStaysValid(a: TaskRecord, now: int, continuity: Continuity)
    requires ValidHeader(a)
    ensures ValidHeader(Edited(a, now, NoEdit, None, continuity, None))
  {
  }

  /** A mark is accepted exactly on an open task under its lease, in the database only if the record stays valid. */
  lemma MarkStores(kind: LayoutKind, s: State, now: int, c: Cmd)
    requires WellKeyed(s) && c.Mark?
    ensures
      var o := Step(kind, s, now, c);
      && (o.reply.Record? <==>
            && OpenTask(s, c.id) && MayWrite(s, now, c.id, c.leaseId)
            && exists b :: Marks(s.tasks[c.id].record, b, now, c.purpose) && (kind.DatabaseLayout? ==> ValidRecord(b)))
      && (o.reply.Record? ==>
            && Marks(s.tasks[c.id].record, o.reply.record, now, c.purpose) && (kind.DatabaseLayout? ==> ValidRecord(o.reply.record))
            && o.state.tasks == s.tasks[c.id := Entry(o.reply.record, false)])
      && (!o.reply.Record? ==> o.reply.Failed? && o.state.tasks == s.tasks) && OnlyLive(s.leases, now, o.state.leases)
  {
    hide ValidRecord, MarkDecision, Marks;
    var d := MarkDecision(Expire(s, now), now, c.id, c.purpose, c.leaseId);
    forall b
      ensures d == Ok(b) <==> OpenTask(s, c.id) && MayWrite(s, now, c.id, c.leaseId) && Marks(s.tasks[c.id].record, b, now, c.purpose)
    {
      MarkDecisionIff(s, now, c, b);
    }
    if d.Ok? { MarksKeepsId(s.tasks[c.id].record, d.value, now, c.purpose); }
    hide MayWrite;
  }

  lemma MarksKeepsId(a: TaskRecord, b: TaskRecord, now: int, purpose: string)
    requires Marks(a, b, now, purpose)
    ensures b.id == a.id
  {
  }

  // ---------- Leases ----------

  predicate Held(s: State, now: int, id: nat) { id in s.leases && now < s.leases[id].expiresAt }

  ghost predicate Leases(s: State, now: int, id: nat, lease: Option<Lease>, after: State) {
    && after.tasks == s.tasks && (lease.Some? ==> id in after.leases && after.leases[id] == lease.value)
    && (lease.None? ==> id !in after.leases) && OnlyLive(s.leases - {id}, now, after.leases - {id})
  }

  /** Between half a minute and an hour, in microseconds. */
  predicate GoodTime(seconds: int) { 30 <= seconds <= 3600 }

  /**
   * A lease is asked for on an open task. If one is live the caller learns whose it is, and its identifier exactly if executor and
   * scope are the caller's own; otherwise a new one runs from now for the seconds asked. Other leases stay.
   */
  lemma AcquireStores(kind: LayoutKind, s: State, now: int, c: Cmd)
    requires c.Acquire?
    ensures
      var o := Step(kind, s, now, c);
      && (o.reply.LeaseState? <==>
            1 <= |c.executor| <= 256 && 1 <= |c.scope| <= 512 && GoodTime(c.seconds) && OpenTask(s, c.id))
      && (!o.reply.LeaseState? ==> o.reply.Failed? && o.state.tasks == s.tasks && OnlyLive(s.leases, now, o.state.leases))
      && (o.reply.LeaseState? && Held(s, now, c.id) ==>
            var held, own := s.leases[c.id], s.leases[c.id].executor == c.executor && s.leases[c.id].scope == c.scope;
            && Leases(s, now, c.id, Some(held), o.state) && o.reply.lease.owner == Some(held) && o.reply.lease.acquired == own
            && o.reply.lease.leaseId == (if own then Some(held.leaseId) else None) && (o.reply.lease.handoff.Owned? <==> own)
            && (o.reply.lease.handoff.Busy? <==> !own))
      && (o.reply.LeaseState? && !Held(s, now, c.id) ==>
            && o.reply.lease.owner.Some? && o.reply.lease.acquired && o.reply.lease.handoff.Granted?
            && var l := o.reply.lease.owner.value;
               && Leases(s, now, c.id, Some(l), o.state) && o.reply.lease.leaseId == Some(l.leaseId) && l.leaseId == c.freshLease
               && l.executor == c.executor && l.scope == c.scope && l.acquiredAt == now == l.refreshedAt
               && l.expiresAt == now + c.seconds * 1_000_000)
  {
    hide ValidRecord;
  }

  /** Only the live lease named by the caller is extended, from now; who holds it and since when stays. */
  lemma RefreshStores(kind: LayoutKind, s: State, now: int, c: Cmd)
    requires c.Refresh?
    ensures
      var o := Step(kind, s, now, c);
      && (o.reply.LeaseState? <==>
            GoodTime(c.seconds) && OpenTask(s, c.id) && Held(s, now, c.id) && s.leases[c.id].leaseId == c.held)
      && (!o.reply.LeaseState? ==> o.reply.Failed? && o.state.tasks == s.tasks && OnlyLive(s.leases, now, o.state.leases))
      && (o.reply.LeaseState? ==>
            && o.reply.lease.owner.Some? && o.reply.lease.acquired && o.reply.lease.leaseId == Some(c.held) && o.reply.lease.handoff.Refreshed?
            && var was, l := s.leases[c.id], o.reply.lease.owner.value;
               && Leases(s, now, c.id, Some(l), o.state) && l.leaseId == c.held && l.executor == was.executor && l.scope == was.scope
               && l.acquiredAt == was.acquiredAt && l.refreshedAt == now && l.expiresAt == now + c.seconds * 1_000_000)
  {
    hide ValidRecord;
  }

  /** A release ends the live lease it names, and is accepted when there is none. */
  lemma ReleaseStores(kind: LayoutKind, s: State, now: int, c: Cmd)
    requires c.Release?
    ensures
      var o := Step(kind, s, now, c);
      && (o.reply.LeaseState? <==> OpenTask(s, c.id) && (Held(s, now, c.id) ==> s.leases[c.id].leaseId == c.held))
      && (!o.reply.LeaseState? ==> o.reply.Failed? && o.state.tasks == s.tasks && OnlyLive(s.leases, now, o.state.leases))
      && (o.reply.LeaseState? ==>
            && Leases(s, now, c.id, None, o.state) && !o.reply.lease.acquired && o.reply.lease.leaseId.None? && o.reply.lease.handoff.Released?
            && o.reply.lease.owner == if Held(s, now, c.id) then Some(s.leases[c.id]) else None)
  {
    hide ValidRecord;
  }

  /** A check changes nothing and answers who holds the live lease, if the caller presents it. */
  lemma AuthorizeStores(kind: LayoutKind, s: State, now: int, c: Cmd)
    requires c.Authorize?
    ensures
      var o := Step(kind, s, now, c);
      && (o.reply.Authorized? <==> OpenTask(s, c.id) && MayWrite(s, now, c.id, c.leaseId)) && (!o.reply.Authorized? ==> o.reply.Failed?)
      && (o.reply.Authorized? ==> o.reply.holder == if Held(s, now, c.id) then Some(s.leases[c.id]) else None)
      && o.state.tasks == s.tasks && OnlyLive(s.leases, now, o.state.leases)
  {
    hide ValidRecord;
  }

  // ---------- Retention ----------

  /** Archived, completed or cancelled, not retained, and archived at least so many days ago. */
  predicate PastRetention(e: Entry, now: int, days: nat) {
    && e.archived && (e.record.status.Completed? || e.record.status.Cancelled?) && !e.record.retained
    && e.record.archivedAt.Some? && e.record.archivedAt.value + days * 86_400_000_000 <= now
  }

  /** Retention removes exactly those tasks, reports them in ascending order, and leaves every other task as it is. */
  lemma CleanupStores(kind: LayoutKind, s: State, now: int, days: nat)
    ensures
      var o := Step(kind, s, now, Cleanup(Some(days)));
      && o.reply.Ids? && Ascending(o.reply.ids)
      && (forall id :: id in o.reply.ids <==> id in s.tasks && PastRetention(s.tasks[id], now, days))
      && (forall id :: id in o.state.tasks <==> id in s.tasks && !PastRetention(s.tasks[id], now, days))
      && (forall id :: id in o.state.tasks ==> o.state.tasks[id] == s.tasks[id])
      && OnlyLive(s.leases - (set id | id in o.reply.ids), now, o.state.leases)
  {
    assert forall id :: id in s.tasks ==> (PastRetention(s.tasks[id], now, days) <==>
      s.tasks[id].archived && Removable(s.tasks[id].record, now - days * DAY));
    hide PastRetention, Removable;
  }
}
