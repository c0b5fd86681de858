/**
 * What the columns of every table hold, in terms of the fields of the record beside them: in what the stores write, in what
 * inspection accepts, and in what migration and rollback publish.
 */
module IndexColumns {
  import opened Common
  import opened TaskModel
  import S = TaskSpec
  import T = TaskLayout
  import R = Runs
  import RS = RunStores
  import C = Candidates
  import N = NameOrder
  import M = Migration

  // ---------- Columns ----------

  predicate LegacyColumns(row: M.LegacyRow, r: R.RunRecord) {
    && row.status == r.core.status && row.taskId == r.core.taskId && row.mode == r.mode && row.retained == r.core.retained
    && row.ambiguous == r.core.ambiguous && row.endedAt == r.core.endedAt
  }

  predicate RunColumns(row: RS.RunRow, r: R.RunRecord) {
    && row.status == r.core.status && row.taskId == r.core.taskId && row.mode == r.mode && row.retained == r.core.retained
    && row.ambiguous == r.core.ambiguous && row.endedAt == r.core.endedAt && row.target == r.core.target
    && row.operation == r.core.operation && row.class_ == r.class_ && row.startedAt == r.core.startedAt
  }

  predicate TaskColumns(row: T.Row, r: TaskRecord) {
    && row.status == r.status && row.revision == r.revision && row.createdAt == r.createdAt && row.updatedAt == r.updatedAt
    && row.archivedAt == r.archivedAt && row.projectRef == r.projectRef && row.retained == r.retained
    && (row.blocked <==> r.continuity.blockers != []) && row.identity.title == Strip(r.title)
    && row.identity.objective == Strip(r.objective) && (row.identity.projectRef.Some? <==> r.projectRef.Some?)
    && (r.projectRef.Some? ==> row.identity.projectRef.value == Strip(r.projectRef.value))
  }

  predicate LeaseColumns(row: T.LeaseRow, l: S.Lease) { row.executor == l.executor && row.expiresAt == l.expiresAt }

  predicate CandidateColumns(row: C.CandidateRow, c: C.Candidate) {
    && row.status == c.promotion.state && row.revision == c.revision && row.recurrenceCount == c.problem.recurrenceCount
    && row.ownerId == c.ownerId && row.createdAt == c.createdAt && row.updatedAt == c.updatedAt
  }

  // ---------- What the stores write ----------

  /** The run store keeps every row in step with its payload. */
  lemma StoredRunColumns(rows: map<nat, RS.RunRow>, id: nat)
    requires RS.ValidRows(rows) && id in rows
    ensures id in RS.RunsOf(rows) && RunColumns(rows[id], RS.RunsOf(rows)[id]) && rows[id].payload == R.Serialize(RS.RunsOf(rows)[id])
  {
    RS.RowReads(rows, id);
    hide RS.ValidRows, RS.RunsOf, R.Serialize;
  }

  lemma StoredTaskColumns(l: T.Layout, id: nat)
    requires T.Valid(l) && l.Db? && id in l.rows
    ensures id in T.TasksOf(l) && TaskColumns(l.rows[id], T.TasksOf(l)[id].record) && l.rows[id].archived == T.TasksOf(l)[id].archived
    ensures l.rows[id].payload == T.TasksOf(l)[id].record
  {
    hide ValidRecord, Strip;
  }

  lemma StoredLeaseColumns(l: T.Layout, id: nat)
    requires T.Valid(l) && l.Db? && id in l.leaseRows
    ensures id in T.StoredLeases(l) && LeaseColumns(l.leaseRows[id], T.StoredLeases(l)[id]) && l.leaseRows[id].payload == T.StoredLeases(l)[id]
  {
    hide ValidRecord, RecordIdentity;
  }

  lemma StoredCandidateColumns(rows: map<string, C.CandidateRow>, id: string)
    requires C.ValidCandidateRows(rows) && id in rows
    ensures id in C.CandidatesOf(rows) && CandidateColumns(rows[id], C.CandidatesOf(rows)[id]) && rows[id].payload == C.CandidatesOf(rows)[id]
  {
    hide C.ValidCandidate;
  }

  // ---------- What inspection accepts ----------

  predicate EndsLater(r: R.RunRecord) { r.core.endedAt.Some? ==> r.core.startedAt <= r.core.endedAt.value }

  /** A row of the legacy run table: a readable payload under its own identifier, the columns of its record, ordered times. */
  predicate LegacyRowAccepted(id: nat, row: M.LegacyRow) {
    var p := R.Parse(row.payload);
    p.Ok? && p.value.core.id == id && LegacyColumns(row, p.value) && EndsLater(p.value)
  }

  predicate RunRowAccepted(id: nat, row: RS.RunRow) {
    var p := R.Parse(row.payload);
    p.Ok? && p.value.core.id == id && RunColumns(row, p.value) && EndsLater(p.value)
  }

  /** A valid record under its own identifier, created first; archived exactly if completed or cancelled, unstamped while active. */
  predicate TaskFits(id: nat, r: TaskRecord, archived: bool) {
    && ValidRecord(r) && r.id == id && r.createdAt <= r.updatedAt && (r.archivedAt.Some? ==> r.createdAt <= r.archivedAt.value)
    && (archived <==> r.status.Completed? || r.status.Cancelled?) && (!archived ==> r.archivedAt.None?)
  }

  predicate TaskRowAccepted(id: nat, row: T.Row) { TaskFits(id, row.payload, row.archived) && TaskColumns(row, row.payload) }

  predicate LeaseFits(l: S.Lease) { l.acquiredAt <= l.refreshedAt && l.refreshedAt <= l.expiresAt }

  predicate LeaseRowAccepted(tasks: map<nat, T.Row>, id: nat, row: T.LeaseRow) {
    LeaseFits(row.payload) && id in tasks && !tasks[id].archived && LeaseColumns(row, row.payload)
  }

  predicate CandidateFits(id: string, c: C.Candidate) { C.ValidCandidate(c) && c.id == id && c.createdAt <= c.updatedAt }

  predicate CandidateRowAccepted(id: string, row: C.CandidateRow) { CandidateFits(id, row.payload) && CandidateColumns(row, row.payload) }

  /** A task directory without unknown files, with a lease file only while the task is active. */
  predicate DirectoryAccepted(id: nat, d: M.TaskDir, archived: bool) {
    && !d.unknown && TaskFits(id, d.content.record, archived)
    && (d.content.lease.Some? ==> !archived && LeaseFits(d.content.lease.value))
  }

  lemma LegacyRowIff(id: nat, row: M.LegacyRow)
    ensures M.LegacyRunOk(id, row) <==> LegacyRowAccepted(id, row)
  {
    hide R.Parse, R.Serialize;
  }

  lemma RunRowIff(id: nat, row: RS.RunRow)
    ensures M.DatabaseRunOk(id, row) <==> RunRowAccepted(id, row)
  {
    hide R.Parse, R.Serialize;
  }

  lemma TaskRowIff(id: nat, row: T.Row)
    ensures M.TaskRowOk(id, row) <==> TaskRowAccepted(id, row)
  {
    hide ValidRecord, Strip;
  }

  lemma LeaseRowIff(tasks: map<nat, T.Row>, id: nat, row: T.LeaseRow)
    ensures M.LeaseRowOk(tasks, id, row) <==> LeaseRowAccepted(tasks, id, row)
  {
  }

  lemma CandidateRowIff(id: string, row: C.CandidateRow)
    ensures M.CandidateRowOk(id, row) <==> CandidateRowAccepted(id, row)
  {
    hide C.ValidCandidate;
  }

  lemma DirectoryIff(id: nat, d: M.TaskDir, archived: bool)
    ensures M.DirOk(id, d, archived) <==> DirectoryAccepted(id, d, archived)
  {
    hide ValidRecord;
  }

  function Rows<K, V>(table: Option<map<K, V>>): map<K, V> { if table.Some? then table.value else map[] }

  /** The legacy states that inspection accepts, root by root and column by column. */
  lemma LegacyAcceptedIff(l: M.Legacy)
    ensures
      M.LegacyOk(l) <==>
        && (l.runs.Some? ==> forall id :: id in l.runs.value.rows ==> LegacyRowAccepted(id, l.runs.value.rows[id]))
        && (forall id :: id in Rows(l.active) ==> DirectoryAccepted(id, Rows(l.active)[id], false))
        && (forall id :: id in Rows(l.archive) ==> DirectoryAccepted(id, Rows(l.archive)[id], true))
        && (forall id :: id in Rows(l.active) ==> id !in Rows(l.archive))
        && (forall name :: name in Rows(l.candidates) ==>
              name == Rows(l.candidates)[name].id + ".yaml" && CandidateFits(Rows(l.candidates)[name].id, Rows(l.candidates)[name]))
  {
    LegacyRunsIff(l);
    RootIff(Rows(l.active), false);
    RootIff(Rows(l.archive), true);
    CandidateFilesIff(Rows(l.candidates));
    assert Rows(l.active) == M.RootOf(l.active) && Rows(l.archive) == M.RootOf(l.archive);
    assert M.RootOf(l.active).Keys !! M.RootOf(l.archive).Keys <==> forall id :: id in Rows(l.active) ==> id !in Rows(l.archive);
    hide LegacyRowAccepted, M.LegacyRunOk, DirectoryAccepted, M.RootOk, M.CandidateFileOk, CandidateFits;
  }

  lemma LegacyRunsIff(l: M.Legacy)
    ensures
      l.runs.Some? ==>
        ((forall id :: id in l.runs.value.rows ==> M.LegacyRunOk(id, l.runs.value.rows[id])) <==>
         forall id :: id in l.runs.value.rows ==> LegacyRowAccepted(id, l.runs.value.rows[id]))
  {
    hide M.LegacyRunOk, LegacyRowAccepted;
    if l.runs.Some? {
      forall id | id in l.runs.value.rows ensures M.LegacyRunOk(id, l.runs.value.rows[id]) <==> LegacyRowAccepted(id, l.runs.value.rows[id]) {
        LegacyRowIff(id, l.runs.value.rows[id]);
      }
    }
  }

  lemma RootIff(root: M.TaskRoot, archived: bool)
    ensures M.RootOk(root, archived) <==> forall id :: id in root ==> DirectoryAccepted(id, root[id], archived)
  {
    hide M.DirOk, DirectoryAccepted;
    forall id | id in root ensures M.DirOk(id, root[id], archived) <==> DirectoryAccepted(id, root[id], archived) {
      DirectoryIff(id, root[id], archived);
    }
  }

  lemma CandidateFilesIff(files: map<string, C.Candidate>)
    ensures
      (forall name :: name in files ==> M.CandidateFileOk(name, files[name])) <==>
      forall name :: name in files ==> name == files[name].id + ".yaml" && CandidateFits(files[name].id, files[name])
  {
    hide C.ValidCandidate;
  }

  /** The databases that inspection accepts, table by table and column by column. */
  lemma DatabaseAcceptedIff(d: M.Database)
    ensures
      M.DatabaseOk(d) <==>
        && (d.meta.authority == Some("true") || (d.meta.authority == Some("false") && d.candidates == map[]))
        && (forall id :: id in d.runs ==> RunRowAccepted(id, d.runs[id]))
        && (forall id :: id in d.tasks ==> TaskRowAccepted(id, d.tasks[id]))
        && (forall id :: id in d.leases ==> LeaseRowAccepted(d.tasks, id, d.leases[id]))
        && (forall id :: id in d.candidates ==> CandidateRowAccepted(id, d.candidates[id]))
  {
    hide M.DatabaseRunOk, RunRowAccepted, M.TaskRowOk, TaskRowAccepted, M.LeaseRowOk, LeaseRowAccepted, M.CandidateRowOk, CandidateRowAccepted;
    forall id | id in d.runs ensures M.DatabaseRunOk(id, d.runs[id]) <==> RunRowAccepted(id, d.runs[id]) { RunRowIff(id, d.runs[id]); }
    forall id | id in d.tasks ensures M.TaskRowOk(id, d.tasks[id]) <==> TaskRowAccepted(id, d.tasks[id]) { TaskRowIff(id, d.tasks[id]); }
    forall id | id in d.leases ensures M.LeaseRowOk(d.tasks, id, d.leases[id]) <==> LeaseRowAccepted(d.tasks, id, d.leases[id]) {
      LeaseRowIff(d.tasks, id, d.leases[id]);
    }
    forall id | id in d.candidates ensures M.CandidateRowOk(id, d.candidates[id]) <==> CandidateRowAccepted(id, d.candidates[id]) {
      CandidateRowIff(id, d.candidates[id]);
    }
  }

  // ---------- What migration and rollback publish ----------

  /** The run table a migration publishes: the record of each legacy row, and its columns. */
  lemma MigratedRuns(l: M.Legacy, id: nat)
    requires M.LegacyOk(l) && M.Readable(l) && l.runs.Some? && id in l.runs.value.rows
    ensures
      var d := M.Build(M.InspectLegacy(l));
      && id in d.runs && R.Parse(d.runs[id].payload) == R.Parse(l.runs.value.rows[id].payload)
      && R.Parse(d.runs[id].payload).Ok? && RunColumns(d.runs[id], R.Parse(d.runs[id].payload).value)
  {
    hide M.Readable, M.InspectLegacy, M.Build, R.Parse;
    M.MigrationRoundTripIff(l);
    LegacyAcceptedIff(l);
    var d := M.Build(M.InspectLegacy(l));
    DatabaseAcceptedIff(d);
    hide M.LegacyOk, M.DatabaseOk;
    assert M.RunsIn(d.runs) == M.LegacyRuns(l) by { hide *; SameRuns(d, l); }
    assert id in M.RunsIn(d.runs) && M.RunsIn(d.runs)[id] == M.LegacyRuns(l)[id];
  }

  lemma SameRuns(d: M.Database, l: M.Legacy)
    requires M.LegacyOk(l) && M.Readable(l) && M.DatabaseContents(d) == M.LegacyContents(l)
    ensures M.RunsIn(d.runs) == M.LegacyRuns(l) && M.TasksIn(d.tasks) == M.LegacyTasks(l)
    ensures M.LeasesIn(d.leases) == M.LegacyLeases(l) && M.CandidatesIn(d.candidates) == M.LegacyCandidates(l)
  {
    hide M.LegacyOk, M.Readable, M.RunsIn, M.TasksIn, M.LeasesIn, M.CandidatesIn, M.LegacyRuns, M.LegacyTasks, M.LegacyLeases,
      M.LegacyCandidates, M.LegacyEvidence, M.EvidenceOf;
  }

  /** The run table a rollback publishes. */
  lemma ExportedRuns(d: M.Database, id: nat)
    requires M.DatabaseOk(d) && id in d.runs
    ensures
      var l := M.ExportOf(M.InspectDatabase(d));
      && l.runs.Some? && id in l.runs.value.rows && R.Parse(l.runs.value.rows[id].payload) == R.Parse(d.runs[id].payload)
      && R.Parse(d.runs[id].payload).Ok? && LegacyColumns(l.runs.value.rows[id], R.Parse(d.runs[id].payload).value)
  {
    hide M.Readable, M.InspectDatabase, R.Parse;
    M.RollbackRoundTripIff(d);
    DatabaseAcceptedIff(d);
    var l := M.ExportOf(M.InspectDatabase(d));
    LegacyAcceptedIff(l);
    hide M.LegacyOk, M.DatabaseOk, M.ExportOf;
    assert M.RunsIn(d.runs) == M.LegacyRuns(l) by { hide *; SameExported(d, l); }
    assert id in M.LegacyRuns(l) && M.LegacyRuns(l)[id] == M.RunsIn(d.runs)[id];
  }

  lemma SameExported(d: M.Database, l: M.Legacy)
    requires M.LegacyOk(l) && M.Readable(l) && exists e :: M.LegacyContents(l) == M.DatabaseContents(d).(evidence := e)
    ensures M.RunsIn(d.runs) == M.LegacyRuns(l) && M.TasksIn(d.tasks) == M.LegacyTasks(l)
    ensures M.LeasesIn(d.leases) == M.LegacyLeases(l) && M.CandidatesIn(d.candidates) == M.LegacyCandidates(l)
  {
    hide M.LegacyOk, M.Readable, M.RunsIn, M.TasksIn, M.LeasesIn, M.CandidatesIn, M.LegacyRuns, M.LegacyTasks, M.LegacyLeases,
      M.LegacyCandidates, M.LegacyEvidence, M.EvidenceOf;
  }

  /** A directory and the rows that stand for it: same record, root, lease file and lease row, columns in step. */
  predicate SameTask(dir: M.TaskDir, archived: bool, d: M.Database, id: nat) {
    && id in d.tasks && d.tasks[id].payload == dir.content.record && d.tasks[id].archived == archived && TaskColumns(d.tasks[id], dir.content.record)
    && (id in d.leases <==> dir.content.lease.Some?)
    && (id in d.leases ==> d.leases[id].payload == dir.content.lease.value && LeaseColumns(d.leases[id], dir.content.lease.value))
  }

  predicate SameCandidate(file: C.Candidate, d: M.Database) {
    file.id in d.candidates && d.candidates[file.id].payload == file && CandidateColumns(d.candidates[file.id], file)
  }

  /** Equal contents are equal task by task, lease by lease and candidate by candidate. */
  lemma SameEverything(l: M.Legacy, d: M.Database)
    requires M.LegacyOk(l) && M.DatabaseOk(d)
    requires M.TasksIn(d.tasks) == M.LegacyTasks(l) && M.LeasesIn(d.leases) == M.LegacyLeases(l) && M.CandidatesIn(d.candidates) == M.LegacyCandidates(l)
    ensures forall id :: id in Rows(l.active) ==> SameTask(Rows(l.active)[id], false, d, id)
    ensures forall id :: id in Rows(l.archive) ==> SameTask(Rows(l.archive)[id], true, d, id)
    ensures forall id :: id in d.tasks ==> id in Rows(if d.tasks[id].archived then l.archive else l.active)
    ensures forall name :: name in Rows(l.candidates) ==> SameCandidate(Rows(l.candidates)[name], d)
    ensures forall id :: id in d.candidates ==> (id + ".yaml") in Rows(l.candidates)
  {
    LegacyAcceptedIff(l);
    DatabaseAcceptedIff(d);
    hide M.LegacyOk, M.DatabaseOk, RunRowAccepted, LegacyRowAccepted, TaskColumns, LeaseColumns, CandidateColumns, ValidRecord, C.ValidCandidate;
    SameTasks(l, d);
    SameCandidates(l, d);
    hide M.TasksIn, M.LegacyTasks, M.LeasesIn, M.LegacyLeases, M.CandidatesIn, M.LegacyCandidates, SameTask, SameCandidate, DirectoryAccepted,
      TaskRowAccepted, LeaseRowAccepted, CandidateFits, CandidateRowAccepted;
  }

  lemma SameTasks(l: M.Legacy, d: M.Database)
    requires M.TasksIn(d.tasks) == M.LegacyTasks(l) && M.LeasesIn(d.leases) == M.LegacyLeases(l)
    requires forall id :: id in Rows(l.active) ==> id !in Rows(l.archive)
    requires forall id :: id in Rows(l.archive) ==> DirectoryAccepted(id, Rows(l.archive)[id], true)
    requires forall id :: id in d.tasks ==> TaskColumns(d.tasks[id], d.tasks[id].payload)
    requires forall id :: id in d.leases ==> LeaseColumns(d.leases[id], d.leases[id].payload)
    ensures forall id :: id in Rows(l.active) ==> SameTask(Rows(l.active)[id], false, d, id)
    ensures forall id :: id in Rows(l.archive) ==> SameTask(Rows(l.archive)[id], true, d, id)
    ensures forall id :: id in d.tasks ==> id in Rows(if d.tasks[id].archived then l.archive else l.active)
  {
    hide TaskColumns, LeaseColumns, TaskFits, LeaseFits;
    var tasks, leases := M.LegacyTasks(l), M.LegacyLeases(l);
    assert tasks.Keys == Rows(l.active).Keys + Rows(l.archive).Keys;
    assert forall id :: id in d.tasks ==> id in M.TasksIn(d.tasks) && M.TasksIn(d.tasks)[id] == S.Entry(d.tasks[id].payload, d.tasks[id].archived);
    assert forall id :: id in tasks ==> id in d.tasks;
    assert forall id :: id in d.leases ==> id in M.LeasesIn(d.leases) && M.LeasesIn(d.leases)[id] == M.LeaseItem(id, d.leases[id].payload);
    assert forall id :: id in leases ==> id in d.leases;
  }

  lemma SameCandidates(l: M.Legacy, d: M.Database)
    requires M.CandidatesIn(d.candidates) == M.LegacyCandidates(l)
    requires forall name :: name in Rows(l.candidates) ==> name == Rows(l.candidates)[name].id + ".yaml"
    requires forall id :: id in d.candidates ==> CandidateColumns(d.candidates[id], d.candidates[id].payload)
    ensures forall name :: name in Rows(l.candidates) ==> SameCandidate(Rows(l.candidates)[name], d)
    ensures forall id :: id in d.candidates ==> (id + ".yaml") in Rows(l.candidates)
  {
    hide CandidateColumns;
    var files := Rows(l.candidates);
    assert files == M.FilesOf(l);
    forall name | name in files ensures SameCandidate(files[name], d) {
      var id := files[name].id;
      assert id in M.FileIds(files) && N.FileName(id) == name;
      assert id in M.LegacyCandidates(l) && M.LegacyCandidates(l)[id] == files[name];
      assert id in M.CandidatesIn(d.candidates);
    }
    forall id | id in d.candidates ensures (id + ".yaml") in files {
      assert id in M.CandidatesIn(d.candidates);
      assert N.FileName(id) in files;
    }
  }

  /** What a migration publishes is the legacy state, directory by directory and file by file. */
  lemma MigratedTasks(l: M.Legacy)
    requires M.LegacyOk(l) && M.Readable(l)
    ensures
      var d := M.Build(M.InspectLegacy(l));
      && (forall id :: id in Rows(l.active) ==> SameTask(Rows(l.active)[id], false, d, id))
      && (forall id :: id in Rows(l.archive) ==> SameTask(Rows(l.archive)[id], true, d, id))
      && (forall id :: id in d.tasks ==> id in Rows(if d.tasks[id].archived then l.archive else l.active))
      && (forall name :: name in Rows(l.candidates) ==> SameCandidate(Rows(l.candidates)[name], d))
      && (forall id :: id in d.candidates ==> (id + ".yaml") in Rows(l.candidates))
  {
    hide *;
    M.MigrationRoundTripIff(l);
    SameRuns(M.Build(M.InspectLegacy(l)), l);
    SameEverything(l, M.Build(M.InspectLegacy(l)));
  }

  /** What a rollback publishes is the database, directory by directory and file by file. */
  lemma ExportedTasks(d: M.Database)
    requires M.DatabaseOk(d)
    ensures
      var l := M.ExportOf(M.InspectDatabase(d));
      && (forall id :: id in Rows(l.active) ==> SameTask(Rows(l.active)[id], false, d, id))
      && (forall id :: id in Rows(l.archive) ==> SameTask(Rows(l.archive)[id], true, d, id))
      && (forall id :: id in d.tasks ==> id in Rows(if d.tasks[id].archived then l.archive else l.active))
      && (forall name :: name in Rows(l.candidates) ==> SameCandidate(Rows(l.candidates)[name], d))
      && (forall id :: id in d.candidates ==> (id + ".yaml") in Rows(l.candidates))
  {
    hide *;
    M.RollbackRoundTripIff(d);
    SameExported(d, M.ExportOf(M.InspectDatabase(d)));
    SameEverything(M.ExportOf(M.InspectDatabase(d)), d);
  }
}
