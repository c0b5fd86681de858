/**
 * The task store: one class over both layouts, every method refining the abstract store.
 *
 * `durable` records each layout that a crash at that moment would leave on disk: every file-layout
 * step is durable by itself, while the database layout is durable only when its transaction commits.
 */
module TaskStores {
  import opened Common
  import opened TaskModel
  import opened TaskSpec
  import opened TaskLayout

  function AsReply(r: Result<TaskRecord, Error>): Reply { if r.Ok? then Record(r.value) else Failed(r.error) }

  function AsIds(r: Result<seq<nat>, Error>): Reply { if r.Ok? then Ids(r.value) else Failed(r.error) }

  function AsLeaseReply(r: Result<LeaseReply, Error>): Reply { if r.Ok? then LeaseState(r.value) else Failed(r.error) }

  lemma ScanRows(l: Layout, now: int, identity: Identity, matching: set<nat>)
    requires Valid(l) && l.Db?
    requires matching == set id | id in l.rows && l.rows[id].identity == identity && !l.rows[id].archived && !IsTerminal(l.rows[id].status)
    ensures var s := Abs(l, now);
            ScanEquivalent(s, Sorted(ActiveIds(s)), identity)
            == Ok(if matching == {} then None else Some(l.rows[Min(matching)].payload))
  {
    hide ValidRecord, LiveLeases, StoredLeases, Sorted, ScanEquivalent, RecordIdentity;
    var s := Abs(l, now);
    var ids := Sorted(ActiveIds(s));
    forall id | id in l.rows ensures s.tasks[id] == Entry(l.rows[id].payload, l.rows[id].archived)
      ensures l.rows[id].identity == RecordIdentity(l.rows[id].payload) && l.rows[id].status == l.rows[id].payload.status
    {
    }
    RowsActive(l, now);
    hide Valid, IndexRow;
    var inScan := set id | id in ids && MatchesOpen(s, id, identity);
    assert matching == inScan;
    ScanFindsLeast(s, ids, identity, inScan);
  }

  lemma RowsActive(l: Layout, now: int)
    requires Valid(l) && l.Db?
    ensures forall id :: id in ActiveIds(Abs(l, now)) <==> id in l.rows && !l.rows[id].archived
    ensures forall id :: id in l.rows ==> id in Abs(l, now).tasks && ValidRecord(Abs(l, now).tasks[id].record)
  {
    hide ValidRecord, LiveLeases, StoredLeases, RecordIdentity;
  }

  lemma CleanupAbs(l: Layout, now: int, gone: set<nat>)
    requires Valid(l) && forall id :: id in gone ==> DirectoryExists(l, true, id)
    ensures Valid(RemoveTasks(l, gone)) && Kind(RemoveTasks(l, gone)) == Kind(l)
    ensures Abs(RemoveTasks(l, gone), now) == State(Abs(l, now).tasks - gone, Abs(l, now).leases - gone)
    ensures StoredLeases(RemoveTasks(l, gone)) == StoredLeases(l) - gone
  {
    hide Valid, LiveLeases, StoredLeases, TasksOf;
    RemoveTasksAbs(l, gone);
    LiveMinus(StoredLeases(l), gone, now);
  }

  /** What retention selects, read from either layout. */
  lemma GoneArchived(l: Layout, now: int, cutoff: int)
    requires Valid(l)
    ensures
      var gone := RemovableIds(Abs(l, now), cutoff);
      && (forall id :: id in gone ==> DirectoryExists(l, true, id))
      && (l.Files? ==> forall id :: id in gone <==> id in l.archive && Removable(l.archive[id].record, cutoff))
      && (l.Db? ==> forall id :: id in gone <==> id in l.rows && l.rows[id].archived && Removable(l.rows[id].payload, cutoff))
  {
    hide ValidRecord, LiveLeases, StoredLeases;
  }

  /** No task in the active root is terminal. */
  ghost predicate NothingToRepair(s: State) {
    forall id :: id in s.tasks && !s.tasks[id].archived ==> !IsTerminal(s.tasks[id].record.status)
  }

  lemma RejectedMark(kind: LayoutKind, s: State, now: int, c: Cmd)
    requires c.Mark?
    ensures MarkStep(kind, s, now, c).reply.Failed? ==> MarkStep(kind, s, now, c).state == s
  {
  }

  /** Two layouts of the same kind that denote the same state at this clock value. */
  ghost predicate Same(a: Layout, b: Layout, now: int) {
    && Valid(b) && b.Files? == a.Files? && TasksOf(b) == TasksOf(a) && Abs(b, now) == Abs(a, now)
    && LeasesFrom(StoredLeases(a), StoredLeases(b), now)
  }

  /**
   * A layout that a crash inside a close may leave: nothing observable changed yet, or one of the
   * stages of committing the final record.
   */
  ghost predicate CrashPoint(l: Layout, c: Layout, now: int, r: Result<TaskRecord, Error>) {
    Same(l, c, now) || (r.Ok? && exists base :: Same(l, base, now) && c in CloseStages(base, r.value))
  }

  class TaskStore {
    var layout: Layout
    ghost var durable: seq<Layout>

    constructor (initial: Layout)
      requires Valid(initial)
      ensures layout == initial && durable == [initial]
    {
      layout, durable := initial, [initial];
    }

    /** The store did exactly what the abstract store does for this command. */
    ghost predicate Refines(before: Layout, now: int, c: Cmd, reply: Reply)
      reads this
    {
      && Valid(layout) && Kind(layout) == Kind(before)
      && Outcome(Abs(layout, now), reply) == Step(Kind(before), Abs(before, now), now, c)
      && LeasesFrom(StoredLeases(before), StoredLeases(layout), now)
    }

    // ---------- Durability ----------

    /** Apply one helper's change; only the file layout makes it durable at once. */
    method Persist(next: Layout)
      modifies this
      ensures layout == next
      ensures durable == if next.Files? then old(durable) + [next] else old(durable)
    {
      layout := next;
      if next.Files? { durable := durable + [next]; }
    }

    /** Leave the per-task lock: the database commits, or rolls back when the operation raised. */
    method Leave(before: Layout, raised: bool)
      requires layout.Files? == before.Files?
      modifies this
      ensures layout == if raised && before.Db? then before else old(layout)
      ensures durable == if before.Db? && !raised then old(durable) + [layout] else old(durable)
    {
      if before.Db? {
        if raised { layout := before; } else { durable := durable + [layout]; }
      }
    }

    // ---------- Lease helpers ----------

    /** The unexpired lease of an active task; an expired one is deleted on the way. */
    method ActiveExecutionLease(now: int, id: nat) returns (lease: Option<Lease>)
      requires Valid(layout) && DirectoryExists(layout, false, id)
      modifies this
      ensures Same(old(layout), layout, now) && DirectoryExists(layout, false, id)
      ensures DirectoryExists(layout, true, id) == DirectoryExists(old(layout), true, id)
      ensures ReadDir(layout, false, id) == ReadDir(old(layout), false, id)
      ensures lease == if id in Abs(layout, now).leases then Some(Abs(layout, now).leases[id]) else None
      ensures durable == old(durable) || durable == old(durable) + [layout]
    {
      ReadsAgree(layout, id);
      LeasesSame(StoredLeases(layout), now);
      lease := ReadLease(layout, id);
      if lease.Some? && lease.value.expiresAt <= now {
        DropLeaseAbs(layout, false, id);
        LiveWithout(StoredLeases(layout), id, now);
        LeasesMinus(StoredLeases(layout), StoredLeases(layout), {id}, now);
        Persist(DropLease(layout, false, id));
        lease := None;
      }
    }

    method RequireExecutionLease(now: int, id: nat, given: Option<nat>) returns (r: Result<Option<Lease>, Error>)
      requires Valid(layout) && DirectoryExists(layout, false, id)
      modifies this
      ensures Same(old(layout), layout, now) && DirectoryExists(layout, false, id)
      ensures DirectoryExists(layout, true, id) == DirectoryExists(old(layout), true, id)
      ensures ReadDir(layout, false, id) == ReadDir(old(layout), false, id)
      ensures r == LeaseGuard(Abs(layout, now), id, given)
      ensures durable == old(durable) || durable == old(durable) + [layout]
    {
      var lease := ActiveExecutionLease(now, id);
      if lease.None? { return Ok(None); }
      if given != Some(lease.value.leaseId) { return Err(LeaseRequired); }
      return Ok(lease);
    }

    // ---------- Reading and writing one record ----------

    /** The record of a present, unarchived task. */
    method Locate(now: int, id: nat) returns (r: Result<TaskRecord, Error>)
      requires Valid(layout)
      ensures r == ReadActive(Abs(layout, now), id)
      ensures r.Ok? ==> DirectoryExists(layout, false, id) && !DirectoryExists(layout, true, id) && r.value.id == id && ValidRecord(r.value)
                        && ReadDir(layout, false, id) == r
    {
      ReadsAgree(layout, id);
      assert !(DirectoryExists(layout, false, id) && DirectoryExists(layout, true, id));
      if DirectoryExists(layout, true, id) { return Err(ArchivedTask); }
      if !DirectoryExists(layout, false, id) { return Err(UnknownTask); }
      return ReadDir(layout, false, id);
    }

    /** Replace the record file or row of an active or new task. */
    method WriteActive(now: int, record: TaskRecord) returns (r: Result<TaskRecord, Error>)
      requires Valid(layout) && !DirectoryExists(layout, true, record.id)
      modifies this
      ensures Valid(layout) && Kind(layout) == Kind(old(layout))
      ensures durable == if layout.Files? && r.Ok? then old(durable) + [layout] else old(durable)
      ensures r == if layout.Db? && !ValidRecord(record) then Err(InvalidRecord) else Ok(record)
      ensures r.Err? ==> layout == old(layout)
      ensures r.Ok? ==> Abs(layout, now) == WriteRecord(Abs(old(layout), now), record)
      ensures r.Ok? ==> StoredLeases(layout) == StoredLeases(old(layout)) && layout == PutRecord(old(layout), record).value
    {
      var next := PutRecord(layout, record);
      if next.Err? { return Err(next.error); }
      PutRecordAbs(layout, record);
      Persist(next.value);
      return Ok(record);
    }

    // ---------- Marking a mutation pending ----------

    method MarkBody(now: int, id: nat, purpose: string, given: Option<nat>) returns (r: Result<TaskRecord, Error>)
      requires Valid(layout)
      modifies this
      ensures Valid(layout) && Kind(layout) == Kind(old(layout)) && old(durable) <= durable
      ensures LeasesFrom(StoredLeases(old(layout)), StoredLeases(layout), now)
      ensures Outcome(Abs(layout, now), AsReply(r))
              == MarkStep(Kind(layout), Abs(old(layout), now), now, Cmd.Mark(id, purpose, given))
    {
      hide Valid, TasksOf, StoredLeases, LiveLeases, ValidContinuity, ValidHeader, NonPending, PutRecord, MarkedBlockers,
        ReadDir, Edited, LeasesFrom;
      LeasesSame(StoredLeases(layout), now);
      var record :- Locate(now, id);
      var _ :- RequireExecutionLease(now, id, given);
      if IsTerminal(record.status) { return Err(TerminalTask); }
      var blockers := MarkedBlockers(record.continuity.blockers, purpose);
      var updated :- Checked(BuildUpdated(record, now, NoEdit, None, record.continuity.(blockers := blockers), None));
      r := WriteActive(now, updated);
    }

    method MarkMutationPending(now: int, id: nat, purpose: string, given: Option<nat>) returns (r: Result<TaskRecord, Error>)
      requires Valid(layout)
      modifies this
      ensures Refines(old(layout), now, Cmd.Mark(id, purpose, given), AsReply(r)) && old(durable) <= durable
    {
      hide TasksOf, StoredLeases, LiveLeases, Valid, LeasesFrom, MarkStep;
      ExpireAbs(layout, now);
      LeasesSame(StoredLeases(layout), now);
      RejectedMark(Kind(layout), Abs(layout, now), now, Cmd.Mark(id, purpose, given));
      var before := layout;
      r := MarkBody(now, id, purpose, given);
      Leave(before, r.Err?);
    }

    // ---------- Update ----------

    method UpdateBody(now: int, c: Cmd) returns (r: Result<TaskRecord, Error>)
      requires Valid(layout) && c.Update? && (c.status.Some? ==> !IsTerminal(c.status.value)) && ExclusiveArgs(c.edit)
      modifies this
      ensures Valid(layout) && Kind(layout) == Kind(old(layout)) && old(durable) <= durable
      ensures LeasesFrom(StoredLeases(old(layout)), StoredLeases(layout), now)
      ensures Outcome(Abs(layout, now), AsReply(r))
              == Written(Abs(old(layout), now), UpdateDecision(Abs(old(layout), now), now, c))
    {
      hide Valid, TasksOf, StoredLeases, LiveLeases, ValidRecord, DirectoryExists, ReadDir, PutRecord, UpdateRecord, LeasesFrom;
      LeasesSame(StoredLeases(layout), now);
      ArchiveLookup(layout, now, c.id);
      if DirectoryExists(layout, true, c.id) {
        var archived := ReadDir(layout, true, c.id);
        if c.status.Some? && c.status.value != archived.value.status { return Err(StatusChange); }
        return Err(ArchivedTask);
      }
      var record :- Locate(now, c.id);
      var _ :- RequireExecutionLease(now, c.id, c.leaseId);
      var updated :- EditRecord(record, now, c);
      r := WriteActive(now, updated);
    }

    /** The record an update writes, with the pending-mutation rules applied to the merged continuity. */
    method EditRecord(record: TaskRecord, now: int, c: Cmd) returns (r: Result<TaskRecord, Error>)
      requires c.Update? && (c.status.Some? ==> !IsTerminal(c.status.value)) && ValidRecord(record)
      ensures r == UpdateRecord(record, now, c)
      ensures r.Ok? ==> ValidRecord(r.value) && r.value.id == record.id
    {
      if IsTerminal(record.status) {
        if c.status.Some? && c.status.value != record.status { return Err(StatusChange); }
        return Err(TerminalTask);
      }
      if Stale(record, c.expected) { return Err(StaleRevision); }
      hide ValidContinuity, ValidHeader, NonPending, HasPending;
      var merged :- Checked(MergeValidated(record.continuity, c.edit.continuity));
      var hadPending := HasPending(record.continuity.blockers);
      if hadPending && !HasPending(merged.blockers) && c.reconcile.None? { return Err(ReconciliationRequired); }
      if c.reconcile.Some? {
        if !hadPending { return Err(NothingToReconcile); }
        var reconciled := Reconciled(merged, c.reconcile.value);
        if !ValidContinuity(reconciled) { return Err(Validation); }
        merged := reconciled;
      }
      r := Checked(BuildUpdated(record, now, c.edit, c.status, merged, None));
    }

    method Update(now: int, c: Cmd) returns (r: Result<TaskRecord, Error>)
      requires Valid(layout) && c.Update?
      modifies this
      ensures Refines(old(layout), now, c, AsReply(r)) && old(durable) <= durable
    {
      hide TasksOf, StoredLeases, LiveLeases, Valid, LeasesFrom, CloseStep, ReadStoredLease, CrashPoint, UpdateRecord;
      ExpireAbs(layout, now);
      LeasesSame(StoredLeases(layout), now);
      if !ExclusiveArgs(c.edit) { return Err(MutuallyExclusive); }
      if c.status.Some? && IsTerminal(c.status.value) {
        if c.reconcile.Some? { return Err(ReconcileBeforeClose); }
        r := CloseTask(now, c.id, c.status.value, c.expected, c.edit, c.leaseId);
        return;
      }
      var before := layout;
      r := UpdateBody(now, c);
      Leave(before, r.Err?);
    }

    // ---------- Close ----------

    /** Rename the directory and then unlink its lease: the last two durable steps of a close. */
    method MoveAndDropLease(now: int, id: nat) returns (final: TaskRecord)
      requires Valid(layout) && DirectoryExists(layout, false, id)
      requires ReadDir(layout, false, id).Ok? && ReadDir(layout, false, id).value.id == id
      modifies this
      ensures Valid(layout) && Kind(layout) == Kind(old(layout)) && DirectoryExists(layout, true, id)
      ensures final == ReadDir(old(layout), false, id).value && ReadDir(layout, true, id) == Ok(final)
      ensures Abs(layout, now) == ArchiveWith(Abs(old(layout), now), final)
      ensures ReadStoredLease(layout, id) == None
      ensures layout == DropLease(MoveToArchive(old(layout), id), true, id)
      ensures StoredLeases(layout) == StoredLeases(old(layout)) - {id}
      ensures durable == if layout.Files? then old(durable) + [MoveToArchive(old(layout), id), layout] else old(durable)
    {
      MoveAbs(layout, id);
      LiveMinus(StoredLeases(layout), {id}, now);
      Persist(MoveToArchive(layout, id));
      Persist(DropLease(layout, true, id));
      final := ReadDir(layout, true, id).value;
    }

    /** Close a task already archived: accept an equal request again and unlink a left-over lease. */
    method ReplayClose(now: int, id: nat, final: FinalStatus, e: Edit) returns (r: Result<TaskRecord, Error>)
      requires Valid(layout) && DirectoryExists(layout, true, id) && !DirectoryExists(layout, false, id)
      requires ReadDir(layout, true, id).Ok?
      modifies this
      ensures Same(old(layout), layout, now) && (durable == old(durable) || durable == old(durable) + [layout])
      ensures var plan := ArchivedPlan(ReadDir(old(layout), true, id).value, final, e);
              r == if plan.Ok? then Ok(plan.value.final) else Err(plan.error)
      ensures r.Ok? ==> DirectoryExists(layout, true, id) && ReadDir(layout, true, id) == r && ReadStoredLease(layout, id) == None
    {
      LeasesSame(StoredLeases(layout), now);
      var record := ReadDir(layout, true, id).value;
      if HasPending(record.continuity.blockers) { return Err(PendingAtClose); }
      if DesiredCloseMatches(record, final, e) {
        DropLeaseAbs(layout, true, id);
        Persist(DropLease(layout, true, id));
        return Ok(record);
      }
      return Err(if record.status != final then StatusChange else DifferentFinalState);
    }

    /** Close a task in the active root: commit its final record, or finish an interrupted close. */
    method CloseActive(now: int, record: TaskRecord, final: FinalStatus, expected: Option<int>, e: Edit)
      returns (r: Result<TaskRecord, Error>)
      requires Valid(layout) && DirectoryExists(layout, false, record.id) && !DirectoryExists(layout, true, record.id)
      requires ReadDir(layout, false, record.id) == Ok(record) && ValidRecord(record)
      modifies this
      ensures Valid(layout) && Kind(layout) == Kind(old(layout)) && old(durable) <= durable
      ensures layout.Files? ==> forall k :: |old(durable)| <= k < |durable| ==> r.Ok? && durable[k] in CloseStages(old(layout), r.value)
      ensures var plan := ActivePlan(record, now, final, expected, e);
              && r == (if plan.Ok? then Ok(plan.value.final) else Err(plan.error))
              && Abs(layout, now) == if plan.Ok? then ArchiveWith(Abs(old(layout), now), plan.value.final) else Abs(old(layout), now)
      ensures r.Ok? ==> DirectoryExists(layout, true, record.id) && ReadDir(layout, true, record.id) == r
                        && ReadStoredLease(layout, record.id) == None
      ensures StoredLeases(layout) == if r.Ok? then StoredLeases(old(layout)) - {record.id} else StoredLeases(old(layout))
    {
      hide Valid, TasksOf, StoredLeases, LiveLeases, ValidContinuity, ValidHeader, HasPending, DesiredCloseMatches, PutRecord,
        DropLease, MoveToArchive, Text, LeasesFrom;
      if HasPending(record.continuity.blockers) { return Err(PendingAtClose); }
      if IsTerminal(record.status) && record.status != final { return Err(StatusChange); }
      if IsTerminal(record.status) && record.archivedAt.Some? {
        if !DesiredCloseMatches(record, final, e) { return Err(DifferentFinalState); }
        RewriteSame(layout, record);
        var done := MoveAndDropLease(now, record.id);
        return Ok(done);
      }
      var plan :- CommitDecision(record, now, final, expected, e);
      CommitFinal(record, now, final, expected, e);
      r := CommitClose(now, record, plan.final);
    }

    /** Write the final record, rename, unlink: the durable order of a first close. */
    method CommitClose(now: int, record: TaskRecord, updated: TaskRecord) returns (r: Result<TaskRecord, Error>)
      requires Valid(layout) && DirectoryExists(layout, false, record.id) && !DirectoryExists(layout, true, record.id)
      requires updated.id == record.id && ValidRecord(updated)
      modifies this
      ensures Valid(layout) && Kind(layout) == Kind(old(layout))
      ensures r == Ok(updated) && Abs(layout, now) == ArchiveWith(Abs(old(layout), now), updated)
      ensures DirectoryExists(layout, true, record.id) && ReadDir(layout, true, record.id) == r
      ensures ReadStoredLease(layout, record.id) == None
      ensures layout == CloseStages(old(layout), updated)[2] && StoredLeases(layout) == StoredLeases(old(layout)) - {record.id}
      ensures layout.Files? ==> durable == old(durable) + CloseStages(old(layout), updated)
      ensures layout.Db? ==> durable == old(durable)
    {
      hide Valid, TasksOf, StoredLeases, LiveLeases, ValidRecord, PutRecord, DropLease, MoveToArchive, LeasesFrom, DirectoryExists, ReadDir,
        ReadStoredLease;
      ghost var start := Abs(layout, now);
      ReadWritten(layout, updated);
      var wrote := WriteActive(now, updated);
      assert wrote.Ok?;
      ArchiveAfterWrite(start, updated);
      var done := MoveAndDropLease(now, record.id);
      return Ok(done);
    }

    method CloseBody(now: int, id: nat, final: FinalStatus, expected: Option<int>, e: Edit, given: Option<nat>)
      returns (r: Result<TaskRecord, Error>)
      requires Valid(layout) && ExclusiveArgs(e)
      modifies this
      ensures Valid(layout) && Kind(layout) == Kind(old(layout)) && old(durable) <= durable
      ensures LeasesFrom(StoredLeases(old(layout)), StoredLeases(layout), now)
      ensures Outcome(Abs(layout, now), AsReply(r)) == CloseStep(Abs(old(layout), now), now, id, final, expected, e, given)
      ensures r.Ok? ==> DirectoryExists(layout, true, id) && ReadDir(layout, true, id) == r && ReadStoredLease(layout, id) == None
      ensures layout.Files? ==> forall k :: |old(durable)| <= k < |durable| ==> CrashPoint(old(layout), durable[k], now, r)
    {
      hide Valid, TasksOf, StoredLeases, LiveLeases, ValidRecord, ActivePlan, ArchivedPlan, ReadStoredLease, LeasesFrom,
        DirectoryExists, ReadDir, CloseStages;
      LeasesSame(StoredLeases(layout), now);
      ArchiveLookup(layout, now, id);
      if DirectoryExists(layout, true, id) {
        r := ReplayClose(now, id, final, e);
        return;
      }
      var record :- Locate(now, id);
      var _ :- RequireExecutionLease(now, id, given);
      LeasesMinus(StoredLeases(old(layout)), StoredLeases(layout), {record.id}, now);
      r := CloseActive(now, record, final, expected, e);
    }

    method CloseTask(now: int, id: nat, final: FinalStatus, expected: Option<int>, e: Edit, given: Option<nat>)
      returns (r: Result<TaskRecord, Error>)
      requires Valid(layout)
      modifies this
      ensures Refines(old(layout), now, Cmd.Close(id, final, expected, e, given), AsReply(r)) && old(durable) <= durable
      ensures r.Ok? ==> DirectoryExists(layout, true, id) && ReadDir(layout, true, id) == r
                        && ReadStoredLease(layout, id) == None
      ensures layout.Files? ==> forall k :: |old(durable)| <= k < |durable| ==> CrashPoint(old(layout), durable[k], now, r)
    {
      ExpireAbs(layout, now);
      LeasesSame(StoredLeases(layout), now);
      if !ExclusiveArgs(e) { return Err(MutuallyExclusive); }
      hide Valid, TasksOf, StoredLeases, LiveLeases, CloseStep, CrashPoint, ReadStoredLease, LeasesFrom;
      var before := layout;
      r := CloseBody(now, id, final, expected, e, given);
      Leave(before, r.Err?);
    }

    // ---------- Create ----------

    /** Search the active root, or the identity column, for an equivalent open task. */
    method FindEquivalentOpenTask(now: int, identity: Identity) returns (r: Result<Option<TaskRecord>, Error>)
      requires Valid(layout)
      ensures var s := Abs(layout, now); r == ScanEquivalent(s, Sorted(ActiveIds(s)), identity)
    {
      RootsAgree(layout, now);
      ghost var s := Abs(layout, now);
      match layout
      case Files(active, _) =>
        var ids := Sorted(active.Keys);
        var i := 0;
        while i < |ids|
          invariant 0 <= i <= |ids|
          invariant ScanEquivalent(s, ids, identity) == ScanEquivalent(s, ids[i..], identity)
        {
          assert ids[i] in active && ids[i..][1..] == ids[i + 1..];
          assert s.tasks[ids[i]] == Entry(active[ids[i]].record, false);
          var record :- ReadDir(layout, false, ids[i]);
          if !IsTerminal(record.status) && RecordIdentity(record) == identity { return Ok(Some(record)); }
          i := i + 1;
        }
        return Ok(None);
      case Db(rows, _) =>
        var matching := set id | id in rows && rows[id].identity == identity && !rows[id].archived && !IsTerminal(rows[id].status);
        ScanRows(layout, now, identity, matching);
        return Ok(if matching == {} then None else Some(rows[Min(matching)].payload));
    }

    method Create(now: int, c: Cmd) returns (r: Result<TaskRecord, Error>)
      requires Valid(layout) && c.Create?
      modifies this
      ensures Refines(old(layout), now, c, AsReply(r)) && old(durable) <= durable
    {
      ExpireAbs(layout, now);
      LeasesSame(StoredLeases(layout), now);
      var before := layout;
      var existing := FindEquivalentOpenTask(now, IdentityOf(c.title, c.objective, c.projectRef));
      hide ValidContinuity, ValidHeader, TasksOf, StoredLeases, LiveLeases, Valid, ScanEquivalent, Strip, IdentityOf, LeasesFrom;
      if existing.Err? { r := Err(existing.error); }
      else if existing.value.Some? { r := Ok(existing.value.value); }
      else { r := WriteNew(now, c); }
      Leave(before, r.Err?);
    }

    method WriteNew(now: int, c: Cmd) returns (r: Result<TaskRecord, Error>)
      requires Valid(layout) && c.Create?
      modifies this
      ensures Valid(layout) && Kind(layout) == Kind(old(layout)) && old(durable) <= durable
      ensures LeasesFrom(StoredLeases(old(layout)), StoredLeases(layout), now)
      ensures var record, s := NewRecord(c, now), Abs(old(layout), now);
              Outcome(Abs(layout, now), AsReply(r)) ==
                if !ValidRecord(record) then Outcome(s, Failed(Validation))
                else if record.id in s.tasks then Outcome(s, Failed(AlreadyExists))
                else Outcome(WriteRecord(s, record), Record(record))
    {
      LeasesSame(StoredLeases(layout), now);
      var record := NewRecord(c, now);
      if !ValidRecord(record) { return Err(Validation); }
      ReadsAgree(layout, record.id);
      if DirectoryExists(layout, false, record.id) || DirectoryExists(layout, true, record.id) { return Err(AlreadyExists); }
      r := WriteActive(now, record);
    }

    method GetTask(now: int, id: nat) returns (r: Result<TaskRecord, Error>)
      requires Valid(layout)
      ensures Refines(layout, now, Get(id), AsReply(r))
    {
      LeasesSame(StoredLeases(layout), now);
      ExpireAbs(layout, now);
      ReadsAgree(layout, id);
      assert !(DirectoryExists(layout, false, id) && DirectoryExists(layout, true, id));
      if DirectoryExists(layout, false, id) { return ReadDir(layout, false, id); }
      if DirectoryExists(layout, true, id) { return ReadDir(layout, true, id); }
      return Err(UnknownTask);
    }

    // ---------- Execution leases ----------

    method RequireOpenTask(now: int, id: nat) returns (r: Result<TaskRecord, Error>)
      requires Valid(layout)
      ensures r == RequireOpen(Abs(layout, now), id)
      ensures r.Ok? ==> DirectoryExists(layout, false, id)
    {
      var record :- Locate(now, id);
      if IsTerminal(record.status) { return Err(TerminalTask); }
      return Ok(record);
    }

    method WriteLease(now: int, id: nat, lease: Lease)
      requires Valid(layout) && DirectoryExists(layout, false, id) && lease.expiresAt > now
      modifies this
      ensures Valid(layout) && Kind(layout) == Kind(old(layout)) && old(durable) <= durable
      ensures Abs(layout, now) == State(Abs(old(layout), now).tasks, Abs(old(layout), now).leases[id := lease])
      ensures StoredLeases(layout) == StoredLeases(old(layout))[id := lease]
    {
      PutLeaseAbs(layout, id, lease);
      LiveUpdated(StoredLeases(layout), id, lease, now);
      Persist(PutLease(layout, id, lease));
    }

    method AcquireBody(now: int, c: Cmd) returns (r: Result<LeaseReply, Error>)
      requires Valid(layout) && c.Acquire? && Text(c.executor, 256) && Text(c.scope, 512) && ValidSeconds(c.seconds)
      modifies this
      ensures Valid(layout) && Kind(layout) == Kind(old(layout)) && old(durable) <= durable
      ensures LeasesFrom(StoredLeases(old(layout)), StoredLeases(layout), now)
      ensures Outcome(Abs(layout, now), AsLeaseReply(r)) == AcquireStep(Abs(old(layout), now), now, c)
    {
      hide TasksOf, StoredLeases, LiveLeases, Valid, ValidRecord, LeasesFrom;
      LeasesSame(StoredLeases(layout), now);
      var _ :- RequireOpenTask(now, c.id);
      var current := ActiveExecutionLease(now, c.id);
      if current.Some? {
        var held := current.value;
        var same := held.executor == c.executor && held.scope == c.scope;
        return Ok(LeaseReply(same, if same then Some(held.leaseId) else None, Some(held), if same then Owned else Busy));
      }
      var lease := Lease(c.freshLease, c.executor, c.scope, now, now, now + c.seconds * SECOND);
      LeasesPut(StoredLeases(old(layout)), StoredLeases(layout), c.id, lease, now);
      WriteLease(now, c.id, lease);
      return Ok(LeaseReply(true, Some(lease.leaseId), Some(lease), Granted));
    }

    method AcquireExecutionLease(now: int, c: Cmd) returns (r: Result<LeaseReply, Error>)
      requires Valid(layout) && c.Acquire?
      modifies this
      ensures Refines(old(layout), now, c, AsLeaseReply(r)) && old(durable) <= durable
    {
      ExpireAbs(layout, now);
      LeasesSame(StoredLeases(layout), now);
      if !Text(c.executor, 256) || !Text(c.scope, 512) || !ValidSeconds(c.seconds) { return Err(BadArgument); }
      var before := layout;
      r := AcquireBody(now, c);
      Leave(before, r.Err?);
    }

    method RefreshBody(now: int, id: nat, held: nat, seconds: int) returns (r: Result<LeaseReply, Error>)
      requires Valid(layout) && ValidSeconds(seconds)
      modifies this
      ensures Valid(layout) && Kind(layout) == Kind(old(layout)) && old(durable) <= durable
      ensures LeasesFrom(StoredLeases(old(layout)), StoredLeases(layout), now)
      ensures Outcome(Abs(layout, now), AsLeaseReply(r)) == RefreshStep(Abs(old(layout), now), now, id, held, seconds)
    {
      hide TasksOf, StoredLeases, LiveLeases, Valid, ValidRecord, LeasesFrom;
      LeasesSame(StoredLeases(layout), now);
      var _ :- RequireOpenTask(now, id);
      var current := ActiveExecutionLease(now, id);
      if current.None? { return Err(LeaseInactive); }
      if current.value.leaseId != held { return Err(LeaseMismatch); }
      var refreshed := current.value.(refreshedAt := now, expiresAt := now + seconds * SECOND);
      LeasesPut(StoredLeases(old(layout)), StoredLeases(layout), id, refreshed, now);
      WriteLease(now, id, refreshed);
      return Ok(LeaseReply(true, Some(held), Some(refreshed), Refreshed));
    }

    method RefreshExecutionLease(now: int, id: nat, held: nat, seconds: int) returns (r: Result<LeaseReply, Error>)
      requires Valid(layout)
      modifies this
      ensures Refines(old(layout), now, Cmd.Refresh(id, held, seconds), AsLeaseReply(r)) && old(durable) <= durable
    {
      hide TasksOf, LiveLeases, Valid, StoredLeases, RequireOpen, LeasesFrom;
      ExpireAbs(layout, now);
      LeasesSame(StoredLeases(layout), now);
      if !ValidSeconds(seconds) { return Err(BadArgument); }
      var before := layout;
      r := RefreshBody(now, id, held, seconds);
      Leave(before, r.Err?);
    }

    method ReleaseBody(now: int, id: nat, held: nat) returns (r: Result<LeaseReply, Error>)
      requires Valid(layout)
      modifies this
      ensures Valid(layout) && Kind(layout) == Kind(old(layout)) && old(durable) <= durable
      ensures LeasesFrom(StoredLeases(old(layout)), StoredLeases(layout), now)
      ensures Outcome(Abs(layout, now), AsLeaseReply(r)) == ReleaseStep(Abs(old(layout), now), id, held)
    {
      hide TasksOf, LiveLeases, Valid, ValidRecord, StoredLeases, LeasesFrom;
      LeasesSame(StoredLeases(layout), now);
      var _ :- RequireOpenTask(now, id);
      var current := ActiveExecutionLease(now, id);
      if current.None? { return Ok(LeaseReply(false, None, None, Released)); }
      if current.value.leaseId != held { return Err(LeaseMismatch); }
      DropLeaseAbs(layout, false, id);
      LiveMinus(StoredLeases(layout), {id}, now);
      LeasesMinus(StoredLeases(old(layout)), StoredLeases(layout), {id}, now);
      Persist(DropLease(layout, false, id));
      return Ok(LeaseReply(false, None, current, Released));
    }

    method ReleaseExecutionLease(now: int, id: nat, held: nat) returns (r: Result<LeaseReply, Error>)
      requires Valid(layout)
      modifies this
      ensures Refines(old(layout), now, Cmd.Release(id, held), AsLeaseReply(r)) && old(durable) <= durable
    {
      hide TasksOf, LiveLeases, Valid, StoredLeases, RequireOpen, LeasesFrom;
      ExpireAbs(layout, now);
      LeasesSame(StoredLeases(layout), now);
      var before := layout;
      r := ReleaseBody(now, id, held);
      Leave(before, r.Err?);
    }

    method AuthorizeBody(now: int, id: nat, given: Option<nat>) returns (r: Result<Option<Lease>, Error>)
      requires Valid(layout)
      modifies this
      ensures Valid(layout) && Kind(layout) == Kind(old(layout)) && old(durable) <= durable
      ensures LeasesFrom(StoredLeases(old(layout)), StoredLeases(layout), now)
      ensures Outcome(Abs(layout, now), if r.Ok? then Authorized(r.value) else Failed(r.error))
              == AuthorizeStep(Abs(old(layout), now), id, given)
    {
      hide TasksOf, LiveLeases, Valid, ValidRecord, StoredLeases, LeasesFrom;
      LeasesSame(StoredLeases(layout), now);
      var _ :- RequireOpenTask(now, id);
      r := RequireExecutionLease(now, id, given);
    }

    method AuthorizeExecutionLease(now: int, id: nat, given: Option<nat>) returns (r: Result<Option<Lease>, Error>)
      requires Valid(layout)
      modifies this
      ensures Refines(old(layout), now, Cmd.Authorize(id, given), if r.Ok? then Authorized(r.value) else Failed(r.error))
      ensures old(durable) <= durable
    {
      hide TasksOf, LiveLeases, Valid, StoredLeases, RequireOpen, LeasesFrom;
      ExpireAbs(layout, now);
      LeasesSame(StoredLeases(layout), now);
      var before := layout;
      r := AuthorizeBody(now, id, given);
      Leave(before, r.Err?);
    }

    method Archive(now: int, id: nat) returns (r: Result<TaskRecord, Error>)
      requires Valid(layout)
      modifies this
      ensures Refines(old(layout), now, ArchiveTask(id), AsReply(r)) && old(durable) <= durable
    {
      hide TasksOf, StoredLeases, LiveLeases, Valid, LeasesFrom, CloseStep, ReadStoredLease, CrashPoint;
      ExpireAbs(layout, now);
      var record :- GetTask(now, id);
      if !IsTerminal(record.status) { return Err(NotTerminal); }
      r := CloseTask(now, id, record.status, None, NoEdit, None);
    }

    // ---------- Repair and cleanup ----------

    method ActiveTaskIds(now: int) returns (ids: seq<nat>)
      requires Valid(layout)
      ensures ids == Sorted(ActiveIds(Abs(layout, now)))
    {
      RootsAgree(layout, now);
      match layout
      case Files(active, _) => ids := Sorted(active.Keys);
      case Db(rows, _) =>
        ids := Sorted(set id | id in rows && !rows[id].archived);
        AscendingUnique(ids, Sorted(ActiveIds(Abs(layout, now))));
    }

    /** Close every terminal task that an interrupted close left active. */
    method RepairAll(now: int) returns (r: Result<seq<nat>, Error>)
      requires Valid(layout)
      modifies this
      ensures Refines(old(layout), now, Repair, AsIds(r)) && old(durable) <= durable
      ensures NothingToRepair(Abs(old(layout), now)) ==> layout == old(layout)
    {
      hide TasksOf, StoredLeases, LiveLeases, Valid, ValidRecord, RepairFrom, LeasesFrom;
      ExpireAbs(layout, now);
      LeasesSame(StoredLeases(layout), now);
      var ids := ActiveTaskIds(now);
      r := RepairTasks(now, ids);
    }

    method RepairTasks(now: int, ids: seq<nat>) returns (r: Result<seq<nat>, Error>)
      requires Valid(layout) && ids == Sorted(ActiveIds(Abs(layout, now)))
      modifies this
      ensures Valid(layout) && Kind(layout) == Kind(old(layout)) && old(durable) <= durable
      ensures LeasesFrom(StoredLeases(old(layout)), StoredLeases(layout), now)
      ensures Outcome(Abs(layout, now), AsIds(r)) == RepairFrom(Abs(old(layout), now), now, ids, [])
      ensures NothingToRepair(Abs(old(layout), now)) ==> layout == old(layout)
    {
      hide TasksOf, StoredLeases, LiveLeases, Valid, ValidRecord, CloseStep, Sorted, IsTerminal, LeasesFrom;
      ghost var start := Abs(layout, now);
      LeasesSame(StoredLeases(layout), now);
      var repaired: seq<nat> := [];
      var i := 0;
      assert ids[0..] == ids;
      assert forall k :: 0 <= k < |ids| ==> ids[k] in ids;
      while i < |ids|
        invariant 0 <= i <= |ids|
        invariant Valid(layout) && Kind(layout) == Kind(old(layout)) && old(durable) <= durable
        invariant forall k :: i <= k < |ids| ==> ids[k] in Abs(layout, now).tasks && !Abs(layout, now).tasks[ids[k]].archived
        invariant RepairFrom(start, now, ids, []) == RepairFrom(Abs(layout, now), now, ids[i..], repaired)
        invariant NothingToRepair(start) ==> layout == old(layout)
        invariant LeasesFrom(StoredLeases(old(layout)), StoredLeases(layout), now)
      {
        ghost var s, stored := Abs(layout, now), StoredLeases(layout);
        AbsWellKeyed(layout, now);
        assert ids[i..][1..] == ids[i + 1..];
        var closed := RepairOne(now, ids[i]);
        LeasesTwice(StoredLeases(old(layout)), stored, StoredLeases(layout), now);
        if closed.Err? { return Err(closed.error); }
        if closed.value {
          CloseTouches(s, now, ids[i], s.tasks[ids[i]].record.status, None, NoEdit, None);
          repaired := repaired + [ids[i]];
        }
        i := i + 1;
      }
      return Ok(repaired);
    }

    /** Read one active task, and close it if it is already terminal; reports whether it was. */
    method RepairOne(now: int, id: nat) returns (r: Result<bool, Error>)
      requires Valid(layout) && id in Abs(layout, now).tasks && !Abs(layout, now).tasks[id].archived
      modifies this
      ensures Valid(layout) && Kind(layout) == Kind(old(layout)) && old(durable) <= durable
      ensures LeasesFrom(StoredLeases(old(layout)), StoredLeases(layout), now)
      ensures
        var s := Abs(old(layout), now);
        var record := GetRecord(s, id);
        if record.Err? then r == Err(record.error) && layout == old(layout)
        else if !IsTerminal(record.value.status) then r == Ok(false) && layout == old(layout)
        else
          var o := CloseStep(s, now, id, record.value.status, None, NoEdit, None);
          && record.value == s.tasks[id].record && Abs(layout, now) == o.state
          && (if o.reply.Failed? then r == Err(o.reply.error) else r == Ok(true))
    {
      hide TasksOf, StoredLeases, LiveLeases, Valid, ValidRecord, CloseStep, IsTerminal, LeasesFrom, CrashPoint;
      ExpireAbs(layout, now);
      LeasesSame(StoredLeases(layout), now);
      var record :- Locate(now, id);
      if !IsTerminal(record.status) { return Ok(false); }
      var closed := CloseTask(now, id, record.status, None, NoEdit, None);
      return if closed.Ok? then Ok(true) else Err(closed.error);
    }

    /** Remove archived terminal tasks past retention. */
    method CleanupAll(now: int, days: Option<nat>) returns (r: seq<nat>)
      requires Valid(layout)
      modifies this
      ensures Refines(old(layout), now, Cleanup(days), Ids(r)) && old(durable) <= durable
    {
      hide LiveLeases, StoredLeases, TasksOf, Valid, RemoveTasks, ValidRecord, RemovableIds, Sorted, Removable, LeasesFrom;
      ExpireAbs(layout, now);
      LeasesSame(StoredLeases(layout), now);
      if days.None? { return []; }
      var cutoff := now - days.value * DAY;
      ghost var gone := RemovableIds(Abs(layout, now), cutoff);
      GoneArchived(layout, now, cutoff);
      CleanupAbs(layout, now, gone);
      LeasesMinus(StoredLeases(layout), StoredLeases(layout), gone, now);
      if layout.Files? { r := CleanupDirectories(layout.archive, cutoff, gone); }
      else { r := CleanupRows(layout.rows, cutoff, gone); }
    }

    /** One DELETE over the rows the indexed columns select. */
    method CleanupRows(rows: map<nat, Row>, cutoff: int, ghost gone: set<nat>) returns (removed: seq<nat>)
      requires Valid(layout) && layout.Db? && layout.rows == rows
      requires forall id :: id in gone <==> id in rows && rows[id].archived && Removable(rows[id].payload, cutoff)
      modifies this
      ensures layout == RemoveTasks(old(layout), gone) && removed == Sorted(gone) && old(durable) <= durable
    {
      var ids := set id | id in rows && rows[id].archived && IsTerminal(rows[id].status) && !rows[id].retained
                          && rows[id].archivedAt.Some? && rows[id].archivedAt.value <= cutoff;
      assert ids == gone;
      var before := layout;
      layout := RemoveTasks(layout, ids);
      Leave(before, false);
      removed := Sorted(ids);
    }

    /** Remove directory after directory, in name order. */
    method CleanupDirectories(archive: map<nat, Dir>, cutoff: int, ghost gone: set<nat>) returns (removed: seq<nat>)
      requires Valid(layout) && layout.Files? && layout.archive == archive
      requires forall id :: id in gone <==> id in archive && Removable(archive[id].record, cutoff)
      modifies this
      ensures layout == RemoveTasks(old(layout), gone) && removed == Sorted(gone) && old(durable) <= durable
    {
      hide ValidRecord, Valid, RemoveTasks, Removable, ReadDir, DirectoryExists, Sorted;
      var ids := Sorted(archive.Keys);
      removed := [];
      ghost var out: set<nat> := {};
      var i := 0;
      RemoveNone(layout);
      while i < |ids|
        invariant 0 <= i <= |ids|
        invariant layout == RemoveTasks(old(layout), out) && out <= gone
        invariant forall x :: x in removed <==> x in out
        invariant forall k :: 0 <= k < i && ids[k] in gone ==> ids[k] in out
        invariant i < |ids| ==> forall x :: x in out ==> x < ids[i]
        invariant Ascending(removed) && old(durable) <= durable
      {
        assert ids[i] in ids && ids[i] !in out;
        RemovedRead(old(layout), out, ids[i]);
        var record := ReadDir(layout, true, ids[i]);
        if Removable(record.value, cutoff) {
          RemoveMore(old(layout), out, ids[i]);
          assert forall j :: 0 <= j < |removed| ==> removed[j] in removed;
          Persist(RemoveTasks(layout, {ids[i]}));
          removed := removed + [ids[i]];
          out := out + {ids[i]};
        }
        i := i + 1;
      }
      assert forall x :: x in gone ==> x in ids;
      assert out == gone;
      AscendingUnique(removed, Sorted(gone));
    }

    // ---------- Any command ----------

    method Execute(now: int, c: Cmd) returns (reply: Reply)
      requires Valid(layout)
      modifies this
      ensures Refines(old(layout), now, c, reply) && old(durable) <= durable
    {
      hide Valid, TasksOf, StoredLeases, LiveLeases, Step, LeasesFrom;
      match c
      case Create(_, _, _, _, _, _, _) => var r := Create(now, c); reply := AsReply(r);
      case Get(id) => var r := GetTask(now, id); reply := AsReply(r);
      case Update(_, _, _, _, _, _) => var r := Update(now, c); reply := AsReply(r);
      case Mark(id, purpose, leaseId) => var r := MarkMutationPending(now, id, purpose, leaseId); reply := AsReply(r);
      case Close(id, final, expected, edit, leaseId) =>
        var r := CloseTask(now, id, final, expected, edit, leaseId);
        reply := AsReply(r);
      case ArchiveTask(id) => var r := Archive(now, id); reply := AsReply(r);
      case Acquire(_, _, _, _, _) => var r := AcquireExecutionLease(now, c); reply := AsLeaseReply(r);
      case Refresh(id, held, seconds) => var r := RefreshExecutionLease(now, id, held, seconds); reply := AsLeaseReply(r);
      case Release(id, held) => var r := ReleaseExecutionLease(now, id, held); reply := AsLeaseReply(r);
      case Authorize(id, leaseId) =>
        var r := AuthorizeExecutionLease(now, id, leaseId);
        reply := if r.Ok? then Authorized(r.value) else Failed(r.error);
      case Repair => var r := RepairAll(now); reply := AsIds(r);
      case Cleanup(days) => var r := CleanupAll(now, days); reply := Ids(r);
    }
  }
}
