/**
 * The two storage layouts behind the store's helper interface, and the abstract state each denotes.
 *
 * Files keeps one directory per task in the active or the archive root; a directory carries the
 * record file and, optionally, a lease file. Db keeps typed index columns beside each payload.
 */
module TaskLayout {
  import opened Common
  import opened TaskModel
  import opened TaskSpec

  datatype Dir = Dir(record: TaskRecord, lease: Option<Lease>)

  datatype Row = Row(status: Status, revision: nat, archived: bool, createdAt: int, updatedAt: int,
                     archivedAt: Option<int>, projectRef: Option<string>, retained: bool, blocked: bool,
                     identity: Identity, payload: TaskRecord)

  datatype LeaseRow = LeaseRow(executor: string, expiresAt: int, payload: Lease)

  datatype Layout =
    | Files(active: map<nat, Dir>, archive: map<nat, Dir>)
    | Db(rows: map<nat, Row>, leaseRows: map<nat, LeaseRow>)

  function Kind(l: Layout): LayoutKind { if l.Files? then FileLayout else DatabaseLayout }

  // ---------- The helper interface ----------

  function IndexRow(r: TaskRecord, archived: bool): Row {
    Row(r.status, r.revision, archived, r.createdAt, r.updatedAt, r.archivedAt, r.projectRef, r.retained,
        r.continuity.blockers != [], RecordIdentity(r), r)
  }

  function IndexLease(lease: Lease): LeaseRow { LeaseRow(lease.executor, lease.expiresAt, lease) }

  predicate DirectoryExists(l: Layout, archived: bool, id: nat) {
    match l
    case Files(active, archive) => if archived then id in archive else id in active
    case Db(rows, _) => id in rows && rows[id].archived == archived
  }

  function ReadDir(l: Layout, archived: bool, id: nat): Result<TaskRecord, Error>
    requires DirectoryExists(l, archived, id)
  {
    match l
    case Files(active, archive) => Read(if archived then archive[id].record else active[id].record)
    case Db(rows, _) => Read(rows[id].payload)
  }

  function ReadLease(l: Layout, id: nat): Option<Lease> {
    match l
    case Files(active, _) => if id in active then active[id].lease else None
    case Db(_, leaseRows) => if id in leaseRows then Some(leaseRows[id].payload) else None
  }

  /** The lease stored with a task wherever it lives. */
  function ReadStoredLease(l: Layout, id: nat): Option<Lease> {
    match l
    case Files(active, archive) =>
      if id in active then active[id].lease else if id in archive then archive[id].lease else None
    case Db(_, leaseRows) => if id in leaseRows then Some(leaseRows[id].payload) else None
  }

  /** Write a record into the active root; the database layout decodes it again first. */
  function PutRecord(l: Layout, r: TaskRecord): Result<Layout, Error> {
    match l
    case Files(active, archive) => Ok(Files(active[r.id := Dir(r, ReadLease(l, r.id))], archive))
    case Db(rows, leaseRows) =>
      if ValidRecord(r) then Ok(Db(rows[r.id := IndexRow(r, false)], leaseRows)) else Err(InvalidRecord)
  }

  function PutLease(l: Layout, id: nat, lease: Lease): Layout {
    match l
    case Files(active, archive) =>
      if id in active then Files(active[id := active[id].(lease := Some(lease))], archive) else l
    case Db(rows, leaseRows) => Db(rows, leaseRows[id := IndexLease(lease)])
  }

  /** Unlink a lease file, if there is one, or delete the lease row. */
  function DropLease(l: Layout, archived: bool, id: nat): Layout {
    match l
    case Files(active, archive) =>
      if archived && id in archive then Files(active, archive[id := archive[id].(lease := None)])
      else if !archived && id in active then Files(active[id := active[id].(lease := None)], archive)
      else l
    case Db(rows, leaseRows) => Db(rows, leaseRows - {id})
  }

  /** A rename carries the whole directory, lease file included; the database flips one column. */
  function MoveToArchive(l: Layout, id: nat): Layout {
    match l
    case Files(active, archive) => if id in active then Files(active - {id}, archive[id := active[id]]) else l
    case Db(rows, leaseRows) => if id in rows then Db(rows[id := rows[id].(archived := true)], leaseRows) else l
  }

  /** The layouts a first close leaves behind, one durable step at a time. */
  function CloseStages(l: Layout, updated: TaskRecord): (stages: seq<Layout>)
    ensures |stages| == 3
  {
    var written := if PutRecord(l, updated).Ok? then PutRecord(l, updated).value else l;
    var moved := MoveToArchive(written, updated.id);
    [written, moved, DropLease(moved, true, updated.id)]
  }

  /** Delete archived tasks; the database cascades to their lease rows. */
  function RemoveTasks(l: Layout, ids: set<nat>): Layout {
    match l
    case Files(active, archive) => Files(active, archive - ids)
    case Db(rows, leaseRows) => Db(rows - ids, leaseRows - ids)
  }

  // ---------- Abstraction ----------

  function TasksOf(l: Layout): map<nat, Entry> {
    match l
    case Files(active, archive) =>
      map id | id in active.Keys + archive.Keys ::
        if id in active then Entry(active[id].record, false) else Entry(archive[id].record, true)
    case Db(rows, _) => map id | id in rows :: Entry(rows[id].payload, rows[id].archived)
  }

  function StoredLeases(l: Layout): map<nat, Lease> {
    match l
    case Files(active, _) => map id | id in active && active[id].lease.Some? :: active[id].lease.value
    case Db(rows, leaseRows) => map id | id in leaseRows && id in rows && !rows[id].archived :: leaseRows[id].payload
  }

  /** The abstract state a layout denotes at a clock value: an expired lease does not exist. */
  function Abs(l: Layout, now: int): State { State(TasksOf(l), LiveLeases(StoredLeases(l), now)) }

  // ---------- Invariants ----------

  /** No task is in both roots, names match records, archived records are readable, columns follow payloads. */
  ghost predicate Shaped(l: Layout) {
    match l
    case Files(active, archive) =>
      && active.Keys !! archive.Keys
      && (forall id :: id in active ==> active[id].record.id == id)
      && (forall id :: id in archive ==> archive[id].record.id == id && ValidRecord(archive[id].record))
    case Db(rows, leaseRows) =>
      && (forall id :: id in rows ==>
            rows[id] == IndexRow(rows[id].payload, rows[id].archived) && rows[id].payload.id == id && ValidRecord(rows[id].payload))
      && (forall id :: id in leaseRows ==> id in rows && leaseRows[id] == IndexLease(leaseRows[id].payload))
  }

  /** Between operations the database also keeps leases on active tasks only. */
  ghost predicate Valid(l: Layout) {
    Shaped(l) && (l.Db? ==> forall id :: id in l.leaseRows ==> !l.rows[id].archived)
  }

  // ---------- How each helper changes the abstract state ----------

  lemma PutRecordAbs(l: Layout, r: TaskRecord)
    requires Valid(l) && !DirectoryExists(l, true, r.id) && PutRecord(l, r).Ok?
    ensures Valid(PutRecord(l, r).value)
    ensures TasksOf(PutRecord(l, r).value) == TasksOf(l)[r.id := Entry(r, false)]
    ensures StoredLeases(PutRecord(l, r).value) == StoredLeases(l)
  {
    PutRecordTasks(l, r);
    PutRecordLeases(l, r);
    PutRecordValid(l, r);
  }

  lemma PutRecordValid(l: Layout, r: TaskRecord)
    requires Valid(l) && !DirectoryExists(l, true, r.id) && PutRecord(l, r).Ok?
    ensures Valid(PutRecord(l, r).value)
  {
  }

  lemma PutRecordTasks(l: Layout, r: TaskRecord)
    requires !DirectoryExists(l, true, r.id) && PutRecord(l, r).Ok?
    ensures TasksOf(PutRecord(l, r).value) == TasksOf(l)[r.id := Entry(r, false)]
  {
  }

  lemma PutRecordLeases(l: Layout, r: TaskRecord)
    requires !DirectoryExists(l, true, r.id) && PutRecord(l, r).Ok?
    requires l.Db? && r.id !in l.rows ==> r.id !in l.leaseRows
    ensures StoredLeases(PutRecord(l, r).value) == StoredLeases(l)
  {
  }

  lemma PutLeaseAbs(l: Layout, id: nat, lease: Lease)
    requires Valid(l) && DirectoryExists(l, false, id)
    ensures Valid(PutLease(l, id, lease))
    ensures TasksOf(PutLease(l, id, lease)) == TasksOf(l)
    ensures StoredLeases(PutLease(l, id, lease)) == StoredLeases(l)[id := lease]
  {
    PutLeaseMaps(l, id, lease);
    PutLeaseValid(l, id, lease);
  }

  lemma PutLeaseValid(l: Layout, id: nat, lease: Lease)
    requires Valid(l) && DirectoryExists(l, false, id)
    ensures Valid(PutLease(l, id, lease))
  {
  }

  lemma PutLeaseMaps(l: Layout, id: nat, lease: Lease)
    requires DirectoryExists(l, false, id)
    ensures TasksOf(PutLease(l, id, lease)) == TasksOf(l)
    ensures StoredLeases(PutLease(l, id, lease)) == StoredLeases(l)[id := lease]
  {
  }

  /** Dropping a lease in either root: only an active task's lease was part of the state. */
  lemma DropLeaseAbs(l: Layout, archived: bool, id: nat)
    requires Valid(l) && DirectoryExists(l, archived, id)
    ensures Valid(DropLease(l, archived, id))
    ensures TasksOf(DropLease(l, archived, id)) == TasksOf(l)
    ensures StoredLeases(DropLease(l, archived, id)) == StoredLeases(l) - {id}
    ensures archived ==> StoredLeases(DropLease(l, archived, id)) == StoredLeases(l)
    ensures DirectoryExists(DropLease(l, archived, id), archived, id)
    ensures ReadDir(DropLease(l, archived, id), archived, id) == ReadDir(l, archived, id)
    ensures archived && !DirectoryExists(l, false, id) ==> ReadStoredLease(DropLease(l, archived, id), id) == None
  {
    DropLeaseRead(l, archived, id);
    DropLeaseMaps(l, archived, id);
    DropLeaseShaped(l, archived, id);
  }

  lemma DropLeaseShaped(l: Layout, archived: bool, id: nat)
    requires Shaped(l) && DirectoryExists(l, archived, id)
    ensures Shaped(DropLease(l, archived, id)) && (Valid(l) ==> Valid(DropLease(l, archived, id)))
    ensures (l.Db? ==> forall k :: k in l.leaseRows && k != id ==> !l.rows[k].archived) ==> Valid(DropLease(l, archived, id))
  {
  }

  lemma DropLeaseMaps(l: Layout, archived: bool, id: nat)
    requires DirectoryExists(l, archived, id)
    requires l.Files? ==> l.active.Keys !! l.archive.Keys
    ensures TasksOf(DropLease(l, archived, id)) == TasksOf(l)
    ensures StoredLeases(DropLease(l, archived, id)) == StoredLeases(l) - {id}
    ensures archived ==> StoredLeases(l) - {id} == StoredLeases(l)
  {
  }

  lemma DropLeaseRead(l: Layout, archived: bool, id: nat)
    requires DirectoryExists(l, archived, id)
    ensures DirectoryExists(DropLease(l, archived, id), archived, id)
    ensures ReadDir(DropLease(l, archived, id), archived, id) == ReadDir(l, archived, id)
    ensures archived && !DirectoryExists(l, false, id) ==> ReadStoredLease(DropLease(l, archived, id), id) == None
  {
  }

  /** A rename archives the task and ends its lease; unlinking the moved lease file changes nothing more. */
  lemma MoveAbs(l: Layout, id: nat)
    requires Valid(l) && DirectoryExists(l, false, id) && ReadDir(l, false, id).Ok?
    ensures var m := MoveToArchive(l, id);
            Shaped(m) && (m.Files? ==> Valid(m)) && DirectoryExists(m, true, id) && !DirectoryExists(m, false, id)
    ensures TasksOf(MoveToArchive(l, id)) == TasksOf(l)[id := Entry(ReadDir(l, false, id).value, true)]
    ensures StoredLeases(MoveToArchive(l, id)) == StoredLeases(l) - {id}
    ensures var n := DropLease(MoveToArchive(l, id), true, id);
            Valid(n) && DirectoryExists(n, true, id) && ReadDir(n, true, id) == ReadDir(l, false, id)
    ensures TasksOf(DropLease(MoveToArchive(l, id), true, id)) == TasksOf(l)[id := Entry(ReadDir(l, false, id).value, true)]
    ensures StoredLeases(DropLease(MoveToArchive(l, id), true, id)) == StoredLeases(l) - {id}
    ensures ReadStoredLease(DropLease(MoveToArchive(l, id), true, id), id) == None
  {
    MoveMaps(l, id);
    MoveShaped(l, id);
    DropLeaseRead(MoveToArchive(l, id), true, id);
    DropLeaseShaped(MoveToArchive(l, id), true, id);
    DropLeaseMaps(MoveToArchive(l, id), true, id);
  }

  lemma MoveShaped(l: Layout, id: nat)
    requires Valid(l) && DirectoryExists(l, false, id) && ReadDir(l, false, id).Ok?
    ensures var m := MoveToArchive(l, id);
            && Shaped(m) && (m.Files? ==> Valid(m)) && DirectoryExists(m, true, id) && !DirectoryExists(m, false, id)
            && (m.Db? ==> forall k :: k in m.leaseRows && k != id ==> !m.rows[k].archived)
            && ReadDir(m, true, id) == ReadDir(l, false, id)
            && (m.Files? ==> m.active.Keys !! m.archive.Keys)
  {
  }

  lemma MoveMaps(l: Layout, id: nat)
    requires DirectoryExists(l, false, id) && !DirectoryExists(l, true, id) && ReadDir(l, false, id).Ok?
    ensures TasksOf(MoveToArchive(l, id)) == TasksOf(l)[id := Entry(ReadDir(l, false, id).value, true)]
    ensures StoredLeases(MoveToArchive(l, id)) == StoredLeases(l) - {id}
  {
  }

  lemma RemoveTasksAbs(l: Layout, ids: set<nat>)
    requires Valid(l) && forall id :: id in ids ==> DirectoryExists(l, true, id)
    ensures Valid(RemoveTasks(l, ids))
    ensures TasksOf(RemoveTasks(l, ids)) == TasksOf(l) - ids
    ensures StoredLeases(RemoveTasks(l, ids)) == StoredLeases(l) - ids
    ensures Kind(RemoveTasks(l, ids)) == Kind(l)
  {
    RemoveTasksMaps(l, ids);
    RemoveTasksValid(l, ids);
  }

  lemma RemoveTasksValid(l: Layout, ids: set<nat>)
    requires Valid(l)
    ensures Valid(RemoveTasks(l, ids))
  {
  }

  lemma RemoveTasksMaps(l: Layout, ids: set<nat>)
    requires forall id :: id in ids ==> DirectoryExists(l, true, id)
    requires l.Files? ==> l.active.Keys !! l.archive.Keys
    ensures TasksOf(RemoveTasks(l, ids)) == TasksOf(l) - ids
    ensures StoredLeases(RemoveTasks(l, ids)) == StoredLeases(l) - ids
  {
  }

  /** What the helpers read agrees with the abstract state. */
  lemma ReadsAgree(l: Layout, id: nat)
    requires l.Files? ==> l.active.Keys !! l.archive.Keys
    ensures DirectoryExists(l, true, id) <==> id in TasksOf(l) && TasksOf(l)[id].archived
    ensures DirectoryExists(l, false, id) <==> id in TasksOf(l) && !TasksOf(l)[id].archived
    ensures DirectoryExists(l, true, id) ==> ReadDir(l, true, id) == Read(TasksOf(l)[id].record)
    ensures DirectoryExists(l, false, id) ==> ReadDir(l, false, id) == Read(TasksOf(l)[id].record)
    ensures DirectoryExists(l, false, id) ==>
              ReadLease(l, id) == if id in StoredLeases(l) then Some(StoredLeases(l)[id]) else None
  {
  }

  lemma AbsWellKeyed(l: Layout, now: int)
    requires Valid(l)
    ensures WellKeyed(Abs(l, now))
  {
  }

  lemma RemovedRead(l: Layout, ids: set<nat>, id: nat)
    requires Valid(l) && l.Files? && id in l.archive && id !in ids
    ensures DirectoryExists(RemoveTasks(l, ids), true, id) && RemoveTasks(l, ids).Files?
    ensures ReadDir(RemoveTasks(l, ids), true, id) == Ok(l.archive[id].record)
  {
  }

  lemma RemoveNone(l: Layout)
    ensures RemoveTasks(l, {}) == l
  {
    match l
    case Files(active, archive) => assert archive - {} == archive;
    case Db(rows, leaseRows) => assert rows - {} == rows && leaseRows - {} == leaseRows;
  }

  lemma RemoveMore(l: Layout, ids: set<nat>, id: nat)
    ensures RemoveTasks(RemoveTasks(l, ids), {id}) == RemoveTasks(l, ids + {id})
  {
    match l
    case Files(active, archive) => assert archive - ids - {id} == archive - (ids + {id});
    case Db(rows, leaseRows) =>
      assert rows - ids - {id} == rows - (ids + {id}) && leaseRows - ids - {id} == leaseRows - (ids + {id});
  }

  /** Writing the record a directory already holds changes nothing, so finishing a close repeats its last stages. */
  lemma RewriteSame(l: Layout, r: TaskRecord)
    requires Valid(l) && DirectoryExists(l, false, r.id) && ReadDir(l, false, r.id) == Ok(r)
    ensures PutRecord(l, r) == Ok(l)
    ensures CloseStages(l, r)[1] == MoveToArchive(l, r.id)
    ensures CloseStages(l, r)[2] == DropLease(MoveToArchive(l, r.id), true, r.id)
  {
    hide ValidContinuity, ValidHeader;
    match l
    case Files(active, archive) => assert active[r.id := Dir(r, active[r.id].lease)] == active;
    case Db(rows, leaseRows) => assert rows[r.id := IndexRow(r, false)] == rows;
  }

  /** What a close learns by looking in the archive root first. */
  lemma ArchiveLookup(l: Layout, now: int, id: nat)
    requires Valid(l)
    ensures DirectoryExists(l, true, id) <==> id in Abs(l, now).tasks && Abs(l, now).tasks[id].archived
    ensures DirectoryExists(l, true, id) ==>
              ReadDir(l, true, id).Ok? && !DirectoryExists(l, false, id) && ReadDir(l, true, id) == Read(Abs(l, now).tasks[id].record)
  {
    ReadsAgree(l, id);
  }

  lemma ReadWritten(l: Layout, r: TaskRecord)
    requires ValidRecord(r)
    ensures PutRecord(l, r).Ok? && DirectoryExists(PutRecord(l, r).value, false, r.id)
    ensures ReadDir(PutRecord(l, r).value, false, r.id) == Ok(r)
    ensures l.Files? ==> DirectoryExists(PutRecord(l, r).value, true, r.id) == DirectoryExists(l, true, r.id)
  {
  }

  lemma ExpireAbs(l: Layout, now: int)
    ensures Expire(Abs(l, now), now) == Abs(l, now)
  {
  }

  lemma LiveWithout(leases: map<nat, Lease>, id: nat, now: int)
    requires id in leases ==> leases[id].expiresAt <= now
    ensures LiveLeases(leases - {id}, now) == LiveLeases(leases, now)
  {
  }

  /** An expired lease row or file can be deleted without any later command noticing. */
  lemma ExpiredLeaseUnobservable(l: Layout, now: int, id: nat, later: int)
    requires Valid(l) && DirectoryExists(l, false, id)
    requires id in StoredLeases(l) && StoredLeases(l)[id].expiresAt <= now <= later
    ensures Abs(DropLease(l, false, id), later) == Abs(l, later)
  {
    DropLeaseAbs(l, false, id);
    LiveWithout(StoredLeases(l), id, later);
  }

  /** Live leases after a lease is written, ended, or removed with its task. */
  lemma LiveUpdated(leases: map<nat, Lease>, id: nat, lease: Lease, now: int)
    requires lease.expiresAt > now
    ensures LiveLeases(leases[id := lease], now) == LiveLeases(leases, now)[id := lease]
    ensures LiveLeases(leases - {id}, now) == LiveLeases(leases, now) - {id}
  {
  }

  lemma LiveMinus(leases: map<nat, Lease>, ids: set<nat>, now: int)
    ensures LiveLeases(leases - ids, now) == LiveLeases(leases, now) - ids
  {
  }

  /** The roots enumerate the same identifiers as the abstract state. */
  lemma RootsAgree(l: Layout, now: int)
    requires Valid(l)
    ensures ActiveIds(Abs(l, now)) == set id | id in TasksOf(l) && DirectoryExists(l, false, id)
    ensures ArchivedIds(Abs(l, now)) == set id | id in TasksOf(l) && DirectoryExists(l, true, id)
    ensures l.Files? ==> ActiveIds(Abs(l, now)) == l.active.Keys && ArchivedIds(Abs(l, now)) == l.archive.Keys
  {
    assert forall id :: id in ActiveIds(Abs(l, now)) <==> id in TasksOf(l) && DirectoryExists(l, false, id);
    assert forall id :: id in ArchivedIds(Abs(l, now)) <==> id in TasksOf(l) && DirectoryExists(l, true, id);
  }

  // ---------- Where stored leases come from ----------

  /** Every lease in b was stored before, or was written as an unexpired one. */
  ghost predicate LeasesFrom(a: map<nat, Lease>, b: map<nat, Lease>, now: int) {
    forall id :: id in b ==> (id in a && a[id] == b[id]) || b[id].expiresAt > now
  }

  lemma LeasesSame(a: map<nat, Lease>, now: int)
    ensures LeasesFrom(a, a, now)
  {
  }

  lemma LeasesPut(a: map<nat, Lease>, b: map<nat, Lease>, id: nat, lease: Lease, now: int)
    requires LeasesFrom(a, b, now) && lease.expiresAt > now
    ensures LeasesFrom(a, b[id := lease], now)
  {
  }

  lemma LeasesMinus(a: map<nat, Lease>, b: map<nat, Lease>, ids: set<nat>, now: int)
    requires LeasesFrom(a, b, now)
    ensures LeasesFrom(a, b - ids, now)
  {
  }

  lemma LeasesTwice(a: map<nat, Lease>, b: map<nat, Lease>, c: map<nat, Lease>, now: int)
    requires LeasesFrom(a, b, now) && LeasesFrom(b, c, now)
    ensures LeasesFrom(a, c, now)
  {
  }
}
