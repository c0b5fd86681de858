/**
 * Offline migration and rollback between the file-and-JSON layout and the unified database.
 *
 * Inspection of either side succeeds exactly on the states LegacyOk and DatabaseOk describe, and returns a snapshot.
 * Receipts are compared for equality, so a receipt is its snapshot here.
 */
module Migration {
  import opened Common
  import opened TaskModel
  import S = TaskSpec
  import T = TaskLayout
  import R = Runs
  import RS = RunStores
  import C = Candidates
  import N = NameOrder
  import E = EvidenceTexts
  import V = EvidenceTree

  // ---------- The two layouts ----------

  datatype TaskDir = TaskDir(content: T.Dir, unknown: bool, evidence: Option<V.Tree>)

  type TaskRoot = map<nat, TaskDir>

  datatype LegacyRow = LegacyRow(
    status: R.RunStatus, taskId: Option<nat>, mode: R.Mode, retained: bool, ambiguous: bool, endedAt: Option<int>, payload: R.Payload)

  datatype RunDatabase = RunDatabase(rows: map<nat, LegacyRow>, metadata: map<string, string>)

  /** Candidate files are keyed by file name; a root that is not configured is None. */
  datatype Legacy = Legacy(
    runs: Option<RunDatabase>, active: Option<TaskRoot>, archive: Option<TaskRoot>, candidates: Option<map<string, C.Candidate>>)

  datatype LeaseItem = LeaseItem(taskId: nat, lease: S.Lease)

  datatype Snapshot = Snapshot(
    runs: seq<R.RunRecord>, tasks: seq<S.Entry>, leases: seq<LeaseItem>, candidates: seq<C.Candidate>, authority: bool,
    runMetadata: map<string, string>, evidence: map<nat, E.Files>)

  datatype Meta = Meta(
    authority: Option<string>, runMetadata: Option<map<string, string>>, evidence: Option<map<nat, E.Files>>, migration: Option<Snapshot>)

  datatype Database = Database(
    runs: map<nat, RS.RunRow>, tasks: map<nat, T.Row>, leases: map<nat, T.LeaseRow>, candidates: map<string, C.CandidateRow>, meta: Meta)

  // ---------- Checks ----------

  predicate RunTimes(c: R.RunCore) { c.endedAt.Some? ==> c.startedAt <= c.endedAt.value }

  predicate TaskTimes(r: TaskRecord) { r.createdAt <= r.updatedAt && (r.archivedAt.Some? ==> r.createdAt <= r.archivedAt.value) }

  /** Archived tasks are terminal; active ones are neither terminal nor stamped as archived. */
  predicate Lifecycle(r: TaskRecord, archived: bool) {
    if archived then IsTerminal(r.status) else !IsTerminal(r.status) && r.archivedAt.None?
  }

  predicate LeaseTimes(l: S.Lease) { l.acquiredAt <= l.refreshedAt <= l.expiresAt }

  predicate TaskAccepted(id: nat, r: TaskRecord, archived: bool) {
    ValidRecord(r) && r.id == id && TaskTimes(r) && Lifecycle(r, archived)
  }

  predicate CandidateAccepted(id: string, c: C.Candidate) { C.ValidCandidate(c) && c.id == id && c.createdAt <= c.updatedAt }

  function LegacyIndex(r: R.RunRecord): LegacyRow {
    LegacyRow(r.core.status, r.core.taskId, r.mode, r.core.retained, r.core.ambiguous, r.core.endedAt, R.Serialize(r))
  }

  predicate LegacyRunOk(id: nat, row: LegacyRow) {
    var p := R.Parse(row.payload);
    p.Ok? && p.value.core.id == id && row == LegacyIndex(p.value).(payload := row.payload) && RunTimes(p.value.core)
  }

  predicate DatabaseRunOk(id: nat, row: RS.RunRow) {
    var p := R.Parse(row.payload);
    p.Ok? && p.value.core.id == id && row == RS.IndexRun(p.value).(payload := row.payload) && RunTimes(p.value.core)
  }

  predicate DirOk(id: nat, d: TaskDir, archived: bool) {
    && !d.unknown && TaskAccepted(id, d.content.record, archived)
    && (d.content.lease.Some? ==> !archived && LeaseTimes(d.content.lease.value))
  }

  ghost predicate RootOk(root: TaskRoot, archived: bool) { forall id :: id in root ==> DirOk(id, root[id], archived) }

  predicate CandidateFileOk(name: string, c: C.Candidate) { name == N.FileName(c.id) && CandidateAccepted(c.id, c) }

  function RootOf(root: Option<TaskRoot>): TaskRoot { Or(root, map[]) }

  /** The legacy states inspection accepts. */
  ghost predicate LegacyOk(l: Legacy) {
    && (l.runs.Some? ==> forall id :: id in l.runs.value.rows ==> LegacyRunOk(id, l.runs.value.rows[id]))
    && RootOk(RootOf(l.active), false) && RootOk(RootOf(l.archive), true)
    && RootOf(l.active).Keys !! RootOf(l.archive).Keys
    && (l.candidates.Some? ==> forall name :: name in l.candidates.value ==> CandidateFileOk(name, l.candidates.value[name]))
  }

  /** What any file system guarantees of the evidence directories. */
  ghost predicate TreesOk(root: TaskRoot) {
    forall id :: id in root && root[id].evidence.Some? ==> V.TreeOk(root[id].evidence.value)
  }

  ghost predicate Readable(l: Legacy) { TreesOk(RootOf(l.active)) && TreesOk(RootOf(l.archive)) }

  predicate TaskRowOk(id: nat, row: T.Row) {
    TaskAccepted(id, row.payload, row.archived) && row == T.IndexRow(row.payload, row.archived)
  }

  predicate LeaseRowOk(tasks: map<nat, T.Row>, id: nat, row: T.LeaseRow) {
    LeaseTimes(row.payload) && id in tasks && !tasks[id].archived && row == T.IndexLease(row.payload)
  }

  predicate CandidateRowOk(id: string, row: C.CandidateRow) {
    CandidateAccepted(id, row.payload) && row == C.IndexCandidate(row.payload)
  }

  ghost predicate RunTableOk(runs: map<nat, RS.RunRow>) { forall id :: id in runs ==> DatabaseRunOk(id, runs[id]) }

  ghost predicate TaskTableOk(tasks: map<nat, T.Row>) { forall id :: id in tasks ==> TaskRowOk(id, tasks[id]) }

  ghost predicate LeaseTableOk(tasks: map<nat, T.Row>, leases: map<nat, T.LeaseRow>) {
    forall id :: id in leases ==> LeaseRowOk(tasks, id, leases[id])
  }

  ghost predicate CandidateTableOk(candidates: map<string, C.CandidateRow>) {
    forall id :: id in candidates ==> CandidateRowOk(id, candidates[id])
  }

  predicate AuthorityOk(d: Database) {
    d.meta.authority == Some("true") || (d.meta.authority == Some("false") && d.candidates == map[])
  }

  /** The database states inspection accepts. */
  ghost predicate DatabaseOk(d: Database) {
    AuthorityOk(d) && RunTableOk(d.runs) && TaskTableOk(d.tasks) && LeaseTableOk(d.tasks, d.leases) && CandidateTableOk(d.candidates)
  }

  // ---------- Snapshots ----------

  function Values<K, V>(ids: seq<K>, m: map<K, V>): (vs: seq<V>)
    requires forall i :: 0 <= i < |ids| ==> ids[i] in m
    ensures |vs| == |ids| && forall i :: 0 <= i < |ids| ==> vs[i] == m[ids[i]]
  {
    seq(|ids|, i requires 0 <= i < |ids| => m[ids[i]])
  }

  function Parsed(p: R.Payload): R.RunRecord {
    var r := R.Parse(p);
    if r.Ok? then r.value else RS.Assemble(p)
  }

  /** What a state holds, whichever layout it is in. */
  datatype Contents = Contents(
    runs: map<nat, R.RunRecord>, tasks: map<nat, S.Entry>, leases: map<nat, LeaseItem>, candidates: map<string, C.Candidate>,
    authority: bool, runMetadata: map<string, string>, evidence: map<nat, E.Files>)

  /** The snapshot of some contents, with the candidates in a given order. */
  function SnapshotOf(c: Contents, order: seq<string>): Snapshot
    requires forall i :: 0 <= i < |order| ==> order[i] in c.candidates
  {
    var rs, ts, ls := Sorted(c.runs.Keys), Sorted(c.tasks.Keys), Sorted(c.leases.Keys);
    assert forall i :: 0 <= i < |rs| ==> rs[i] in rs;
    assert forall i :: 0 <= i < |ts| ==> ts[i] in ts;
    assert forall i :: 0 <= i < |ls| ==> ls[i] in ls;
    Snapshot(Values(rs, c.runs), Values(ts, c.tasks), Values(ls, c.leases), Values(order, c.candidates), c.authority,
             c.runMetadata, c.evidence)
  }

  function LegacyRuns(l: Legacy): map<nat, R.RunRecord> {
    if l.runs.None? then map[] else map id | id in l.runs.value.rows :: Parsed(l.runs.value.rows[id].payload)
  }

  function LegacyTasks(l: Legacy): map<nat, S.Entry> {
    var active, archive := RootOf(l.active), RootOf(l.archive);
    map id | id in active.Keys + archive.Keys ::
      if id in active then S.Entry(active[id].content.record, false) else S.Entry(archive[id].content.record, true)
  }

  function LegacyLeases(l: Legacy): map<nat, LeaseItem> {
    var active := RootOf(l.active);
    map id | id in active && active[id].content.lease.Some? :: LeaseItem(id, active[id].content.lease.value)
  }

  function EvidenceIn(root: TaskRoot): map<nat, E.Files>
    requires TreesOk(root)
  {
    map id | id in root && root[id].evidence.Some? :: E.Flatten(root[id].evidence.value)
  }

  function LegacyEvidence(l: Legacy): map<nat, E.Files>
    requires Readable(l)
  {
    EvidenceIn(RootOf(l.active)) + EvidenceIn(RootOf(l.archive))
  }

  function FilesOf(l: Legacy): map<string, C.Candidate> { Or(l.candidates, map[]) }

  function FileIds(files: map<string, C.Candidate>): set<string> { set name | name in files :: files[name].id }

  function CandidatesFrom(files: map<string, C.Candidate>): map<string, C.Candidate> {
    map id | id in FileIds(files) && N.FileName(id) in files :: files[N.FileName(id)]
  }

  function LegacyCandidates(l: Legacy): map<string, C.Candidate> { CandidatesFrom(FilesOf(l)) }

  function LegacyContents(l: Legacy): Contents
    requires LegacyOk(l) && Readable(l)
  {
    Contents(LegacyRuns(l), LegacyTasks(l), LegacyLeases(l), LegacyCandidates(l), l.candidates.Some?,
             if l.runs.Some? then l.runs.value.metadata else map[], LegacyEvidence(l))
  }

  /** The candidate identifiers in the order their files are listed. */
  function FileOrder(files: map<string, C.Candidate>): (order: seq<string>)
    ensures |order| == |N.Listing(files.Keys)|
    ensures forall i :: 0 <= i < |order| ==>
              N.Listing(files.Keys)[i] in files && order[i] == files[N.Listing(files.Keys)[i]].id && order[i] in FileIds(files)
  {
    var names := N.Listing(files.Keys);
    assert forall i :: 0 <= i < |names| ==> names[i] in names;
    seq(|names|, i requires 0 <= i < |names| => files[names[i]].id)
  }

  function InspectLegacy(l: Legacy): Snapshot
    requires LegacyOk(l) && Readable(l)
  {
    SnapshotOf(LegacyContents(l), FileOrder(FilesOf(l)))
  }

  function RunsIn(runs: map<nat, RS.RunRow>): map<nat, R.RunRecord> { map id | id in runs :: Parsed(runs[id].payload) }

  function TasksIn(tasks: map<nat, T.Row>): map<nat, S.Entry> { map id | id in tasks :: S.Entry(tasks[id].payload, tasks[id].archived) }

  function LeasesIn(leases: map<nat, T.LeaseRow>): map<nat, LeaseItem> { map id | id in leases :: LeaseItem(id, leases[id].payload) }

  function CandidatesIn(candidates: map<string, C.CandidateRow>): map<string, C.Candidate> {
    map id | id in candidates :: candidates[id].payload
  }

  /** Evidence of removed tasks is not part of the state. */
  function EvidenceOf(evidence: map<nat, E.Files>, ids: set<nat>): map<nat, E.Files> {
    map id | id in evidence && id in ids :: evidence[id]
  }

  function DatabaseContents(d: Database): Contents {
    Contents(RunsIn(d.runs), TasksIn(d.tasks), LeasesIn(d.leases), CandidatesIn(d.candidates), d.meta.authority == Some("true"),
             Or(d.meta.runMetadata, map[]), EvidenceOf(Or(d.meta.evidence, map[]), d.tasks.Keys))
  }

  function InspectDatabase(d: Database): Snapshot {
    var c := DatabaseContents(d);
    var order := N.Listing(c.candidates.Keys);
    assert forall i :: 0 <= i < |order| ==> order[i] in order;
    SnapshotOf(c, order)
  }

  // ---------- Building a database from a snapshot ----------

  /** Insert the rows of a list one after another. */
  function Table<K(==), V, W>(vs: seq<V>, key: V -> K, row: V -> W): map<K, W> {
    if vs == [] then map[] else Table(vs[..|vs| - 1], key, row)[key(vs[|vs| - 1]) := row(vs[|vs| - 1])]
  }

  const RunKey := (r: R.RunRecord) => r.core.id
  const RunRowOf := (r: R.RunRecord) => RS.IndexRun(r)
  const TaskKey := (e: S.Entry) => e.record.id
  const TaskRowOf := (e: S.Entry) => T.IndexRow(e.record, e.archived)
  const LeaseKey := (i: LeaseItem) => i.taskId
  const LeaseRowOf := (i: LeaseItem) => T.IndexLease(i.lease)
  const CandidateKey := (c: C.Candidate) => c.id
  const CandidateRowOf := (c: C.Candidate) => C.IndexCandidate(c)

  function Build(s: Snapshot): Database {
    Database(Table(s.runs, RunKey, RunRowOf), Table(s.tasks, TaskKey, TaskRowOf), Table(s.leases, LeaseKey, LeaseRowOf),
             Table(s.candidates, CandidateKey, CandidateRowOf),
             MetaOf(s))
  }

  function MetaOf(s: Snapshot): Meta {
    Meta(Some(if s.authority then "true" else "false"), Some(s.runMetadata), Some(s.evidence), Some(s))
  }

  // ---------- Writing the legacy layout from a snapshot ----------

  const LegacyRowOf := (r: R.RunRecord) => LegacyIndex(r)
  const Same := (e: S.Entry) => e
  const LeaseOf := (i: LeaseItem) => i.lease
  const FileKey := (c: C.Candidate) => N.FileName(c.id)
  const Itself := (c: C.Candidate) => c

  /** A map's entries in the order its canonical text lists them. */
  function Items(m: E.Files): (items: seq<(string, Option<string>)>)
    ensures E.Enumerates(items, m)
  {
    var keys := N.Listing(m.Keys);
    assert forall i :: 0 <= i < |keys| ==> keys[i] in keys;
    var items := seq(|keys|, i requires 0 <= i < |keys| => (keys[i], m[keys[i]]));
    assert forall k :: k in m ==> k in keys;
    assert forall i :: 0 <= i < |items| ==> items[i].0 == keys[i];
    items
  }

  ghost predicate Rebuildable(s: Snapshot) {
    forall id :: id in s.evidence ==> E.Rebuild(Items(s.evidence[id])).Some?
  }

  function RootFrom(archived: bool, tasks: map<nat, S.Entry>, leases: map<nat, S.Lease>, evidence: map<nat, E.Files>): TaskRoot {
    map id | id in tasks && tasks[id].archived == archived ::
      TaskDir(T.Dir(tasks[id].record, if !archived && id in leases then Some(leases[id]) else None), false,
              if id in evidence then E.Rebuild(Items(evidence[id])) else None)
  }

  function ExportOf(s: Snapshot): Legacy {
    var tasks, leases := Table(s.tasks, TaskKey, Same), Table(s.leases, LeaseKey, LeaseOf);
    Legacy(Some(RunDatabase(Table(s.runs, RunKey, LegacyRowOf), s.runMetadata)),
           Some(RootFrom(false, tasks, leases, s.evidence)), Some(RootFrom(true, tasks, leases, s.evidence)),
           if s.authority then Some(Table(s.candidates, FileKey, Itself)) else None)
  }

  // ---------- Tables and lists are inverse ----------

  ghost predicate Distinct<K>(ids: seq<K>) { forall i, j :: 0 <= i < j < |ids| ==> ids[i] != ids[j] }

  lemma {:induction false} TableOfValues<K, V, W>(ids: seq<K>, m: map<K, V>, key: V -> K, row: V -> W)
    requires Distinct(ids) && forall i :: 0 <= i < |ids| ==> ids[i] in m && key(m[ids[i]]) == ids[i]
    ensures Table(Values(ids, m), key, row).Keys == set k | k in ids
    ensures forall i :: 0 <= i < |ids| ==> Table(Values(ids, m), key, row)[ids[i]] == row(m[ids[i]])
  {
    if ids != [] {
      var n := |ids| - 1;
      assert Values(ids, m)[..n] == Values(ids[..n], m);
      TableOfValues(ids[..n], m, key, row);
      var before := Table(Values(ids[..n], m), key, row);
      assert ids == ids[..n] + [ids[n]];
      assert forall i :: 0 <= i < n ==> ids[..n][i] == ids[i];
    }
  }

  /** Inserting every value of a map, keyed by itself, gives the map of rows. */
  lemma TableOfMap<K, V, W>(ids: seq<K>, m: map<K, V>, key: V -> K, row: V -> W)
    requires Distinct(ids) && (forall k :: k in ids <==> k in m) && forall k :: k in m ==> key(m[k]) == k
    ensures (forall i :: 0 <= i < |ids| ==> ids[i] in m)
    ensures Table(Values(ids, m), key, row) == map k | k in m :: row(m[k])
  {
    assert forall i :: 0 <= i < |ids| ==> ids[i] in ids;
    TableOfValues(ids, m, key, row);
    var t := Table(Values(ids, m), key, row);
    forall k | k in m ensures k in t && t[k] == row(m[k]) {
      assert k in ids;
      var i :| 0 <= i < |ids| && ids[i] == k;
    }
  }

  ghost predicate Keyed(c: Contents) {
    && (forall id :: id in c.runs ==> c.runs[id].core.id == id && R.ValidRun(c.runs[id]))
    && (forall id :: id in c.tasks ==> c.tasks[id].record.id == id)
    && (forall id :: id in c.leases ==> c.leases[id].taskId == id)
    && (forall id :: id in c.candidates ==> c.candidates[id].id == id)
    && c.evidence.Keys <= c.tasks.Keys
  }

  ghost predicate Orders(order: seq<string>, c: Contents) { Distinct(order) && forall id :: id in order <==> id in c.candidates }

  lemma InOrder(order: seq<string>, c: Contents)
    requires Orders(order, c)
    ensures forall i :: 0 <= i < |order| ==> order[i] in c.candidates
  {
    assert forall i :: 0 <= i < |order| ==> order[i] in order;
  }

  lemma AscendingDistinct(ids: seq<nat>)
    requires Ascending(ids)
    ensures Distinct(ids)
  {
  }

  lemma SortedTable<V, W>(m: map<nat, V>, key: V -> nat, row: V -> W)
    requires forall k :: k in m ==> key(m[k]) == k
    ensures forall i :: 0 <= i < |Sorted(m.Keys)| ==> Sorted(m.Keys)[i] in m
    ensures Table(Values(Sorted(m.Keys), m), key, row) == map k | k in m :: row(m[k])
  {
    AscendingDistinct(Sorted(m.Keys));
    TableOfMap(Sorted(m.Keys), m, key, row);
  }

  // ---------- Rows from records, and back ----------

  function RunRows(m: map<nat, R.RunRecord>): map<nat, RS.RunRow> { map id | id in m :: RunRowOf(m[id]) }
  function TaskRows(m: map<nat, S.Entry>): map<nat, T.Row> { map id | id in m :: TaskRowOf(m[id]) }
  function LeaseRows(m: map<nat, LeaseItem>): map<nat, T.LeaseRow> { map id | id in m :: LeaseRowOf(m[id]) }
  function CandidateRows(m: map<string, C.Candidate>): map<string, C.CandidateRow> { map id | id in m :: CandidateRowOf(m[id]) }

  lemma RunRowsRead(m: map<nat, R.RunRecord>)
    requires forall id :: id in m ==> m[id].core.id == id && R.ValidRun(m[id])
    ensures RunsIn(RunRows(m)) == m
    ensures (forall id :: id in m ==> RunTimes(m[id].core)) ==> RunTableOk(RunRows(m))
  {
    forall id | id in m
      ensures R.Parse(RunRowOf(m[id]).payload) == Ok(m[id]) && RunRowOf(m[id]) == RS.IndexRun(m[id])
    {
      R.CodecRoundTripIff(m[id]);
    }
    hide R.ValidRun, RS.IndexRun, R.Parse, RunTimes;
  }

  lemma TaskRowsRead(m: map<nat, S.Entry>)
    ensures TasksIn(TaskRows(m)) == m
    ensures (forall id :: id in m ==> TaskAccepted(id, m[id].record, m[id].archived)) ==> TaskTableOk(TaskRows(m))
  {
    hide TaskAccepted, RecordIdentity;
  }

  lemma LeaseRowsRead(tasks: map<nat, S.Entry>, m: map<nat, LeaseItem>)
    requires forall id :: id in m ==> m[id].taskId == id
    ensures LeasesIn(LeaseRows(m)) == m
    ensures (forall id :: id in m ==> LeaseTimes(m[id].lease) && id in tasks && !tasks[id].archived)
            ==> LeaseTableOk(TaskRows(tasks), LeaseRows(m))
  {
    hide LeaseTimes, RecordIdentity;
  }

  lemma CandidateRowsRead(m: map<string, C.Candidate>)
    ensures CandidatesIn(CandidateRows(m)) == m
    ensures (forall id :: id in m ==> CandidateAccepted(id, m[id])) ==> CandidateTableOk(CandidateRows(m))
  {
    hide CandidateAccepted;
  }

  lemma RunTable(m: map<nat, R.RunRecord>)
    requires forall id :: id in m ==> m[id].core.id == id
    ensures forall i :: 0 <= i < |Sorted(m.Keys)| ==> Sorted(m.Keys)[i] in m
    ensures Table(Values(Sorted(m.Keys), m), RunKey, RunRowOf) == RunRows(m)
  {
    SortedTable(m, RunKey, RunRowOf);
  }

  lemma TaskTable(m: map<nat, S.Entry>)
    requires forall id :: id in m ==> m[id].record.id == id
    ensures forall i :: 0 <= i < |Sorted(m.Keys)| ==> Sorted(m.Keys)[i] in m
    ensures Table(Values(Sorted(m.Keys), m), TaskKey, TaskRowOf) == TaskRows(m)
  {
    SortedTable(m, TaskKey, TaskRowOf);
  }

  lemma LeaseTable(m: map<nat, LeaseItem>)
    requires forall id :: id in m ==> m[id].taskId == id
    ensures forall i :: 0 <= i < |Sorted(m.Keys)| ==> Sorted(m.Keys)[i] in m
    ensures Table(Values(Sorted(m.Keys), m), LeaseKey, LeaseRowOf) == LeaseRows(m)
  {
    SortedTable(m, LeaseKey, LeaseRowOf);
  }

  lemma CandidateTable(order: seq<string>, m: map<string, C.Candidate>)
    requires Distinct(order) && (forall id :: id in order <==> id in m) && forall id :: id in m ==> m[id].id == id
    requires forall i :: 0 <= i < |order| ==> order[i] in m
    ensures Table(Values(order, m), CandidateKey, CandidateRowOf) == CandidateRows(m)
  {
    TableOfMap(order, m, CandidateKey, CandidateRowOf);
  }

  function DatabaseOf(c: Contents, s: Snapshot): Database {
    Database(RunRows(c.runs), TaskRows(c.tasks), LeaseRows(c.leases), CandidateRows(c.candidates), MetaOf(s))
  }

  /** The database built from a snapshot, table by table. */
  lemma BuildTables(c: Contents, order: seq<string>)
    requires Keyed(c) && Orders(order, c) && (forall i :: 0 <= i < |order| ==> order[i] in c.candidates)
    ensures Build(SnapshotOf(c, order)) == DatabaseOf(c, SnapshotOf(c, order))
  {
    RunTable(c.runs);
    TaskTable(c.tasks);
    LeaseTable(c.leases);
    CandidateTable(order, c.candidates);
    hide Keyed, Orders, RunRows, TaskRows, LeaseRows, CandidateRows, Table, MetaOf;
  }

  lemma MetaReads(c: Contents, order: seq<string>)
    requires forall i :: 0 <= i < |order| ==> order[i] in c.candidates
    ensures var m := MetaOf(SnapshotOf(c, order));
            && (m.authority == Some("true") <==> c.authority) && (m.authority == Some("false") <==> !c.authority)
            && m.runMetadata == Some(c.runMetadata) && m.evidence == Some(c.evidence)
  {
    assert "true" != "false" by { assert |"true"| == 4 && |"false"| == 5; }
  }

  lemma EvidenceKept(c: Contents)
    requires Keyed(c)
    ensures EvidenceOf(c.evidence, TaskRows(c.tasks).Keys) == c.evidence
  {
    assert TaskRows(c.tasks).Keys == c.tasks.Keys;
  }

  /** Reading back the database built from a snapshot gives the contents of the snapshot. */
  lemma BuiltContents(c: Contents, order: seq<string>)
    requires Keyed(c) && Orders(order, c) && (forall i :: 0 <= i < |order| ==> order[i] in c.candidates)
    ensures DatabaseContents(Build(SnapshotOf(c, order))) == c
  {
    BuildTables(c, order);
    RunRowsRead(c.runs);
    TaskRowsRead(c.tasks);
    LeaseRowsRead(c.tasks, c.leases);
    CandidateRowsRead(c.candidates);
    MetaReads(c, order);
    EvidenceKept(c);
    hide Keyed, Orders, RunRows, TaskRows, LeaseRows, CandidateRows, RunsIn, TasksIn, LeasesIn, CandidatesIn, EvidenceOf, Build,
      SnapshotOf, MetaOf, RunTableOk, TaskTableOk, LeaseTableOk, CandidateTableOk;
  }

  // ---------- Migration ----------

  lemma CandidateKeys(l: Legacy)
    requires LegacyOk(l)
    ensures forall id :: id in LegacyCandidates(l) ==> LegacyCandidates(l)[id].id == id && CandidateAccepted(id, LegacyCandidates(l)[id])
    ensures FilesOf(l).Keys == N.FileNames(FileIds(FilesOf(l))) && LegacyCandidates(l).Keys == FileIds(FilesOf(l))
    ensures l.candidates.None? ==> LegacyCandidates(l) == map[]
  {
    hide C.ValidCandidate;
    var files := FilesOf(l);
    forall id | id in FileIds(files) ensures N.FileName(id) in files && files[N.FileName(id)].id == id && CandidateAccepted(id, files[N.FileName(id)]) {
      var name :| name in files && files[name].id == id;
      assert CandidateFileOk(name, files[name]);
    }
    forall name | name in files ensures name in N.FileNames(FileIds(files)) {
      assert CandidateFileOk(name, files[name]);
      assert files[name].id in FileIds(files);
    }
  }

  lemma SuffixInjective(a: string, b: string)
    requires N.FileName(a) == N.FileName(b)
    ensures a == b
  {
    assert N.FileName(a)[..|a|] == a && N.FileName(b)[..|b|] == b;
  }

  lemma IncreasingDistinct(names: seq<string>)
    requires N.Increasing(names)
    ensures Distinct(names)
  {
    forall i, j | 0 <= i < j < |names| ensures names[i] != names[j] { N.LessAsymmetric(names[i], names[j]); }
  }

  lemma FileOrderOrders(l: Legacy)
    requires LegacyOk(l) && Readable(l)
    ensures Orders(FileOrder(FilesOf(l)), LegacyContents(l))
    ensures N.WithSuffix(FileOrder(FilesOf(l))) == N.Listing(FilesOf(l).Keys)
  {
    CandidateKeys(l);
    assert LegacyContents(l).candidates.Keys == FileIds(FilesOf(l));
    assert forall name :: name in FilesOf(l) ==> name == N.FileName(FilesOf(l)[name].id);
    hide LegacyOk, LegacyContents;
    FileOrderLists(FilesOf(l));
  }

  lemma FileOrderLists(files: map<string, C.Candidate>)
    requires forall name :: name in files ==> name == N.FileName(files[name].id)
    ensures Distinct(FileOrder(files)) && forall id :: id in FileOrder(files) <==> id in FileIds(files)
    ensures N.WithSuffix(FileOrder(files)) == N.Listing(files.Keys)
  {
    var order, names := FileOrder(files), N.Listing(files.Keys);
    hide N.Less;
    IncreasingDistinct(names);
    assert forall i :: 0 <= i < |names| ==> names[i] == N.FileName(order[i]);
    forall id | id in FileIds(files) ensures id in order {
      var name :| name in files && files[name].id == id;
      assert name in names;
      var i :| 0 <= i < |names| && names[i] == name;
      assert order[i] == id;
    }
  }

  lemma LegacyRunsOk(l: Legacy)
    requires LegacyOk(l)
    ensures forall id :: id in LegacyRuns(l) ==>
              LegacyRuns(l)[id].core.id == id && R.ValidRun(LegacyRuns(l)[id]) && RunTimes(LegacyRuns(l)[id].core)
  {
    if l.runs.Some? {
      forall id | id in l.runs.value.rows ensures LegacyRunOk(id, l.runs.value.rows[id]) {}
    }
    hide R.ValidRun;
    assert forall p: R.Payload :: R.Parse(p).Ok? ==> R.ValidRun(R.Parse(p).value);
  }

  lemma LegacyTasksOk(l: Legacy)
    requires LegacyOk(l)
    ensures forall id :: id in LegacyTasks(l) ==> TaskAccepted(id, LegacyTasks(l)[id].record, LegacyTasks(l)[id].archived)
    ensures forall id :: id in LegacyLeases(l) ==>
              LegacyLeases(l)[id].taskId == id && LeaseTimes(LegacyLeases(l)[id].lease) && id in LegacyTasks(l) && !LegacyTasks(l)[id].archived
  {
    hide TaskAccepted, LeaseTimes;
    var active, archive := RootOf(l.active), RootOf(l.archive);
    assert forall id :: id in active ==> DirOk(id, active[id], false);
    assert forall id :: id in archive ==> DirOk(id, archive[id], true);
  }

  lemma LegacyKeyed(l: Legacy)
    requires LegacyOk(l) && Readable(l)
    ensures Keyed(LegacyContents(l))
  {
    LegacyRunsOk(l);
    LegacyTasksOk(l);
    CandidateKeys(l);
    EvidenceKeys(l);
    hide LegacyOk, R.ValidRun, C.ValidCandidate, ValidRecord, LegacyRuns, LegacyTasks, LegacyLeases, LegacyCandidates, LegacyEvidence,
      Readable, FileIds, FilesOf, N.FileNames;
  }

  lemma EvidenceKeys(l: Legacy)
    requires Readable(l)
    ensures LegacyEvidence(l).Keys <= LegacyTasks(l).Keys
  {
  }

  /** Every table of the built database passes inspection. */
  lemma BuiltAccepted(c: Contents, order: seq<string>)
    requires Keyed(c) && Orders(order, c) && (forall i :: 0 <= i < |order| ==> order[i] in c.candidates)
    requires Acceptable(c)
    ensures DatabaseOk(Build(SnapshotOf(c, order)))
  {
    hide R.ValidRun, RunRows, TaskRows, LeaseRows, CandidateRows, RunsIn, TasksIn, LeasesIn, CandidatesIn, Build, SnapshotOf, MetaOf,
      RunTableOk, TaskTableOk, LeaseTableOk, CandidateTableOk, TaskAccepted, CandidateAccepted, Orders;
    BuildTables(c, order);
    RunRowsRead(c.runs);
    TaskRowsRead(c.tasks);
    LeaseRowsRead(c.tasks, c.leases);
    CandidateRowsRead(c.candidates);
    MetaReads(c, order);
    NoRows(c.candidates);
  }

  lemma NoRows(m: map<string, C.Candidate>)
    ensures m == map[] ==> CandidateRows(m) == map[]
  {
  }

  /** The checks both inspections make, said of the contents. */
  ghost predicate Acceptable(c: Contents) {
    && (forall id :: id in c.runs ==> RunTimes(c.runs[id].core))
    && (forall id :: id in c.tasks ==> TaskAccepted(id, c.tasks[id].record, c.tasks[id].archived))
    && (forall id :: id in c.leases ==> LeaseTimes(c.leases[id].lease) && id in c.tasks && !c.tasks[id].archived)
    && (forall id :: id in c.candidates ==> CandidateAccepted(id, c.candidates[id]))
    && (!c.authority ==> c.candidates == map[])
  }

  lemma LegacyAcceptable(l: Legacy)
    requires LegacyOk(l) && Readable(l)
    ensures Acceptable(LegacyContents(l))
  {
    LegacyRunsOk(l);
    LegacyTasksOk(l);
    CandidateKeys(l);
    hide LegacyOk, R.ValidRun, TaskAccepted, CandidateAccepted, LegacyRuns, LegacyTasks, LegacyLeases, LegacyCandidates, LegacyEvidence;
  }

  /** Two orders of the same candidates give the same snapshot only if they are the same order. */
  lemma SnapshotOrder(c: Contents, a: seq<string>, b: seq<string>)
    requires Keyed(c) && Orders(a, c) && Orders(b, c)
    requires forall i :: 0 <= i < |a| ==> a[i] in c.candidates
    requires forall i :: 0 <= i < |b| ==> b[i] in c.candidates
    ensures SnapshotOf(c, a) == SnapshotOf(c, b) <==> a == b
  {
    if SnapshotOf(c, a) == SnapshotOf(c, b) {
      var va, vb := Values(a, c.candidates), Values(b, c.candidates);
      assert va == vb;
      forall i | 0 <= i < |a| ensures a[i] == b[i] { assert va[i].id == a[i] && vb[i].id == b[i]; }
    }
  }

  ghost function CandidateIds(l: Legacy): set<string> { FileIds(FilesOf(l)) }

  lemma FileOrderIsListingIff(l: Legacy)
    requires LegacyOk(l) && Readable(l)
    ensures FileOrder(FilesOf(l)) == N.Listing(CandidateIds(l)) <==> N.NoDashExtension(CandidateIds(l))
  {
    CandidateKeys(l);
    FileOrderOrders(l);
    var ids, order := CandidateIds(l), FileOrder(FilesOf(l));
    forall id | id in ids ensures C.ValidCandidateId(id) { assert CandidateAccepted(id, LegacyCandidates(l)[id]); }
    hide LegacyOk, C.ValidCandidate, C.ValidCandidateId, LegacyCandidates, Orders, N.Listing, N.FileNames, Readable, FileIds, FileOrder;
    N.ListingsAgreeIff(ids);
    if N.WithSuffix(order) == N.WithSuffix(N.Listing(ids)) { SameWithSuffix(order, N.Listing(ids)); }
  }

  lemma SameWithSuffix(a: seq<string>, b: seq<string>)
    requires N.WithSuffix(a) == N.WithSuffix(b)
    ensures a == b
  {
    assert |N.WithSuffix(a)| == |a| && |N.WithSuffix(b)| == |b|;
    forall i | 0 <= i < |a| ensures a[i] == b[i] {
      assert N.WithSuffix(a)[i] == N.FileName(a[i]) && N.WithSuffix(b)[i] == N.FileName(b[i]);
      SuffixInjective(a[i], b[i]);
    }
  }

  /** The listing of the candidate table, as inspection reads it. */
  lemma ListingOrders(c: Contents)
    requires Keyed(c)
    ensures Orders(N.Listing(c.candidates.Keys), c)
  {
    IncreasingDistinct(N.Listing(c.candidates.Keys));
  }

  /**
   * For every accepted legacy state the built database is accepted and holds the same contents; its inspection equals the
   * legacy one exactly when no candidate identifier dash-extends another.
   */
  lemma MigrationRoundTripIff(l: Legacy)
    requires LegacyOk(l) && Readable(l)
    ensures
      var d := Build(InspectLegacy(l));
      && DatabaseOk(d) && DatabaseContents(d) == LegacyContents(l)
      && (InspectDatabase(d) == InspectLegacy(l) <==> N.NoDashExtension(CandidateIds(l)))
  {
    var c, order := LegacyContents(l), FileOrder(FilesOf(l));
    LegacyKeyed(l);
    FileOrderOrders(l);
    CandidateKeys(l);
    assert c.candidates.Keys == CandidateIds(l);
    assert InspectLegacy(l) == SnapshotOf(c, order);
    LegacyAcceptable(l);
    FileOrderIsListingIff(l);
    hide LegacyOk, Readable, LegacyContents, Keyed, Orders, Acceptable, DatabaseOk, Build, SnapshotOf, DatabaseContents, FileOrder,
      N.Listing, N.NoDashExtension, CandidateIds;
    InOrder(order, c);
    BuiltContents(c, order);
    BuiltAccepted(c, order);
    ListingOrders(c);
    InOrder(N.Listing(c.candidates.Keys), c);
    SnapshotOrder(c, order, N.Listing(c.candidates.Keys));
  }

  // ---------- Rollback ----------

  lemma RunTableHolds(runs: map<nat, RS.RunRow>)
    requires RunTableOk(runs)
    ensures forall id :: id in RunsIn(runs) ==>
              RunsIn(runs)[id].core.id == id && R.ValidRun(RunsIn(runs)[id]) && RunTimes(RunsIn(runs)[id].core)
  {
    assert forall p: R.Payload :: R.Parse(p).Ok? ==> R.ValidRun(R.Parse(p).value);
    hide R.ValidRun, R.Parse, RunTimes, RS.IndexRun;
  }

  lemma TaskTableHolds(tasks: map<nat, T.Row>)
    requires TaskTableOk(tasks)
    ensures forall id :: id in TasksIn(tasks) ==> TaskAccepted(id, TasksIn(tasks)[id].record, TasksIn(tasks)[id].archived)
    ensures TasksIn(tasks).Keys == tasks.Keys
  {
    hide TaskAccepted;
  }

  lemma LeaseTableHolds(tasks: map<nat, T.Row>, leases: map<nat, T.LeaseRow>)
    requires LeaseTableOk(tasks, leases)
    ensures forall id :: id in LeasesIn(leases) ==>
              LeasesIn(leases)[id].taskId == id && LeaseTimes(LeasesIn(leases)[id].lease) && id in TasksIn(tasks) && !TasksIn(tasks)[id].archived
  {
    hide LeaseTimes;
  }

  lemma CandidateTableHolds(candidates: map<string, C.CandidateRow>)
    requires CandidateTableOk(candidates)
    ensures forall id :: id in CandidatesIn(candidates) ==> CandidateAccepted(id, CandidatesIn(candidates)[id])
    ensures CandidatesIn(candidates).Keys == candidates.Keys
  {
    hide C.ValidCandidate;
  }

  lemma DatabaseKeyed(d: Database)
    requires DatabaseOk(d)
    ensures Keyed(DatabaseContents(d)) && Acceptable(DatabaseContents(d))
  {
    hide RunsIn, TasksIn, LeasesIn, CandidatesIn, EvidenceOf, RunTableOk, TaskTableOk, LeaseTableOk, CandidateTableOk,
      R.ValidRun, C.ValidCandidate, ValidRecord, TaskTimes, Lifecycle, RunTimes, LeaseTimes;
    RunTableHolds(d.runs);
    TaskTableHolds(d.tasks);
    LeaseTableHolds(d.tasks, d.leases);
    CandidateTableHolds(d.candidates);
    EvidenceWithin(Or(d.meta.evidence, map[]), d.tasks.Keys);
    NoCandidates(d);
    assert Keyed(DatabaseContents(d));
  }

  lemma NoCandidates(d: Database)
    requires AuthorityOk(d)
    ensures d.meta.authority != Some("true") ==> CandidatesIn(d.candidates) == map[]
  {
  }

  lemma EvidenceWithin(evidence: map<nat, E.Files>, ids: set<nat>)
    ensures EvidenceOf(evidence, ids).Keys <= ids
  {
  }

  function LegacyRows(m: map<nat, R.RunRecord>): map<nat, LegacyRow> { map id | id in m :: LegacyRowOf(m[id]) }

  function PlainLeases(m: map<nat, LeaseItem>): map<nat, S.Lease> { map id | id in m :: LeaseOf(m[id]) }

  function Stem(name: string): string { if |name| < |N.SUFFIX| then name else name[..|name| - |N.SUFFIX|] }

  function CandidateFiles(m: map<string, C.Candidate>): map<string, C.Candidate> {
    map name | name in N.FileNames(m.Keys) && Stem(name) in m :: m[Stem(name)]
  }

  lemma StemOfFile(id: string)
    ensures Stem(N.FileName(id)) == id
  {
  }

  lemma CandidateFilesAt(m: map<string, C.Candidate>)
    ensures forall id :: id in m ==> N.FileName(id) in CandidateFiles(m) && CandidateFiles(m)[N.FileName(id)] == m[id]
    ensures forall name :: name in CandidateFiles(m) ==> exists id :: id in m && name == N.FileName(id)
  {
    forall id | id in m ensures N.FileName(id) in CandidateFiles(m) && CandidateFiles(m)[N.FileName(id)] == m[id] {
      StemOfFile(id);
      assert N.FileName(id) in N.FileNames(m.Keys);
    }
  }

  lemma LegacyRunTable(m: map<nat, R.RunRecord>)
    requires forall id :: id in m ==> m[id].core.id == id
    ensures forall i :: 0 <= i < |Sorted(m.Keys)| ==> Sorted(m.Keys)[i] in m
    ensures Table(Values(Sorted(m.Keys), m), RunKey, LegacyRowOf) == LegacyRows(m)
  {
    SortedTable(m, RunKey, LegacyRowOf);
  }

  lemma SameTable(m: map<nat, S.Entry>)
    requires forall id :: id in m ==> m[id].record.id == id
    ensures forall i :: 0 <= i < |Sorted(m.Keys)| ==> Sorted(m.Keys)[i] in m
    ensures Table(Values(Sorted(m.Keys), m), TaskKey, Same) == m
  {
    SortedTable(m, TaskKey, Same);
  }

  lemma PlainLeaseTable(m: map<nat, LeaseItem>)
    requires forall id :: id in m ==> m[id].taskId == id
    ensures forall i :: 0 <= i < |Sorted(m.Keys)| ==> Sorted(m.Keys)[i] in m
    ensures Table(Values(Sorted(m.Keys), m), LeaseKey, LeaseOf) == PlainLeases(m)
  {
    SortedTable(m, LeaseKey, LeaseOf);
  }

  lemma SuffixedDistinct(order: seq<string>)
    requires Distinct(order)
    ensures Distinct(N.WithSuffix(order))
  {
    var names := N.WithSuffix(order);
    forall i, j | 0 <= i < j < |names| ensures names[i] != names[j] {
      if names[i] == names[j] { SuffixInjective(order[i], order[j]); }
    }
  }

  lemma SuffixedCovers(order: seq<string>, m: map<string, C.Candidate>)
    requires forall id :: id in order <==> id in m
    ensures forall name :: name in N.WithSuffix(order) <==> name in CandidateFiles(m)
  {
    var names, files := N.WithSuffix(order), CandidateFiles(m);
    CandidateFilesAt(m);
    hide CandidateFiles, N.FileName;
    forall name ensures name in names <==> name in files {
      if name in files {
        var id :| id in m && name == N.FileName(id);
        assert id in order;
        var i :| 0 <= i < |order| && order[i] == id;
        assert names[i] == name;
      }
    }
  }

  lemma FileTable(order: seq<string>, m: map<string, C.Candidate>)
    requires Distinct(order) && (forall id :: id in order <==> id in m) && forall id :: id in m ==> m[id].id == id
    requires forall i :: 0 <= i < |order| ==> order[i] in m
    ensures Table(Values(order, m), FileKey, Itself) == CandidateFiles(m)
  {
    hide Distinct, CandidateFiles, N.FileName, N.WithSuffix, Table, Values;
    var names, files := N.WithSuffix(order), CandidateFiles(m);
    SuffixedDistinct(order);
    SuffixedCovers(order, m);
    FilesKeyed(m);
    SameValues(order, m);
    TableOfMap(names, files, FileKey, Itself);
    ItselfAll(files);
  }

  lemma ItselfAll(files: map<string, C.Candidate>)
    ensures (map k | k in files :: Itself(files[k])) == files
  {
  }

  lemma FilesKeyed(m: map<string, C.Candidate>)
    requires forall id :: id in m ==> m[id].id == id
    ensures forall name :: name in CandidateFiles(m) ==> FileKey(CandidateFiles(m)[name]) == name
  {
    CandidateFilesAt(m);
    hide CandidateFiles, N.FileName;
    forall name | name in CandidateFiles(m) ensures FileKey(CandidateFiles(m)[name]) == name {
      var id :| id in m && name == N.FileName(id);
    }
  }

  lemma SameValues(order: seq<string>, m: map<string, C.Candidate>)
    requires forall i :: 0 <= i < |order| ==> order[i] in m
    ensures forall i :: 0 <= i < |order| ==> N.WithSuffix(order)[i] in CandidateFiles(m)
    ensures Values(N.WithSuffix(order), CandidateFiles(m)) == Values(order, m)
  {
    CandidateFilesAt(m);
    hide CandidateFiles;
  }

  function LegacyOf(c: Contents): Legacy {
    Legacy(Some(RunDatabase(LegacyRows(c.runs), c.runMetadata)),
           Some(RootFrom(false, c.tasks, PlainLeases(c.leases), c.evidence)),
           Some(RootFrom(true, c.tasks, PlainLeases(c.leases), c.evidence)),
           if c.authority then Some(CandidateFiles(c.candidates)) else None)
  }

  /** The exported layout, root by root. */
  lemma ExportTables(c: Contents, order: seq<string>)
    requires Keyed(c) && Orders(order, c) && (forall i :: 0 <= i < |order| ==> order[i] in c.candidates)
    ensures ExportOf(SnapshotOf(c, order)) == LegacyOf(c)
  {
    LegacyRunTable(c.runs);
    SameTable(c.tasks);
    PlainLeaseTable(c.leases);
    FileTable(order, c.candidates);
    hide Keyed, Orders, LegacyRows, PlainLeases, CandidateFiles, RootFrom, Table;
  }

  // ---------- Reading the exported layout back ----------

  ghost predicate AllClosed(evidence: map<nat, E.Files>) { forall id :: id in evidence ==> E.Closed(evidence[id]) }

  ghost predicate AllRebuild(evidence: map<nat, E.Files>) { forall id :: id in evidence ==> E.Rebuild(Items(evidence[id])).Some? }

  lemma LegacyRowsRead(m: map<nat, R.RunRecord>)
    requires forall id :: id in m ==> m[id].core.id == id && R.ValidRun(m[id]) && RunTimes(m[id].core)
    ensures forall id :: id in LegacyRows(m) ==> LegacyRunOk(id, LegacyRows(m)[id])
    ensures (map id | id in LegacyRows(m) :: Parsed(LegacyRows(m)[id].payload)) == m
  {
    forall id | id in m ensures R.Parse(LegacyRowOf(m[id]).payload) == Ok(m[id]) && LegacyRowOf(m[id]) == LegacyIndex(m[id]) {
      R.CodecRoundTripIff(m[id]);
    }
    hide R.ValidRun, LegacyIndex, R.Parse, RunTimes;
  }

  lemma RootsAccepted(c: Contents)
    requires Keyed(c) && Acceptable(c)
    ensures RootOk(RootFrom(false, c.tasks, PlainLeases(c.leases), c.evidence), false)
    ensures RootOk(RootFrom(true, c.tasks, PlainLeases(c.leases), c.evidence), true)
  {
    hide TaskAccepted, CandidateAccepted, R.ValidRun, LeaseTimes, RunTimes, Items;
  }

  lemma RebuiltTreeOk(m: E.Files)
    ensures E.Rebuild(Items(m)).Some? ==> V.TreeOk(E.Rebuild(Items(m)).value)
    ensures E.Rebuild(Items(m)).Some? ==> (E.Flatten(E.Rebuild(Items(m)).value) == m <==> E.Closed(m))
    ensures E.Closed(m) ==> E.Rebuild(Items(m)).Some?
  {
    if E.Rebuild(Items(m)).Some? { E.RebuildOk(Items(m)); }
    E.RebuildIff(Items(m), m);
  }

  lemma RootsReadable(c: Contents)
    ensures TreesOk(RootFrom(false, c.tasks, PlainLeases(c.leases), c.evidence))
    ensures TreesOk(RootFrom(true, c.tasks, PlainLeases(c.leases), c.evidence))
  {
    forall id | id in c.evidence { RebuiltTreeOk(c.evidence[id]); }
    hide V.TreeOk, E.Rebuild, Items;
  }

  lemma ExportAccepted(c: Contents)
    requires Keyed(c) && Acceptable(c)
    ensures LegacyOk(LegacyOf(c)) && Readable(LegacyOf(c))
  {
    LegacyRowsRead(c.runs);
    RootsAccepted(c);
    RootsReadable(c);
    RootsApart(c);
    FilesAccepted(c);
    hide Keyed, Acceptable, RootOk, TreesOk, LegacyRunOk, CandidateFileOk, LegacyRows, CandidateFiles, RootFrom, PlainLeases;
  }

  lemma RootsApart(c: Contents)
    ensures RootFrom(false, c.tasks, PlainLeases(c.leases), c.evidence).Keys !! RootFrom(true, c.tasks, PlainLeases(c.leases), c.evidence).Keys
  {
    hide E.Rebuild, Items, PlainLeases;
  }

  lemma FilesAccepted(c: Contents)
    requires Acceptable(c)
    ensures forall name :: name in CandidateFiles(c.candidates) ==> CandidateFileOk(name, CandidateFiles(c.candidates)[name])
  {
    CandidateFilesAt(c.candidates);
    hide CandidateFiles, C.ValidCandidate, N.FileName, TaskAccepted, RunTimes;
  }

  /** The evidence that comes back: rebuilt, then flattened again. */
  ghost function Returned(evidence: map<nat, E.Files>): map<nat, E.Files> {
    map id | id in evidence && E.Rebuild(Items(evidence[id])).Some? && V.TreeOk(E.Rebuild(Items(evidence[id])).value) ::
      E.Flatten(E.Rebuild(Items(evidence[id])).value)
  }

  ghost function ReturnedIn(c: Contents, archived: bool): map<nat, E.Files> {
    map id | id in Returned(c.evidence) && id in c.tasks && c.tasks[id].archived == archived :: Returned(c.evidence)[id]
  }

  lemma RootEvidenceAt(c: Contents, archived: bool, id: nat)
    requires TreesOk(RootFrom(archived, c.tasks, PlainLeases(c.leases), c.evidence))
    ensures
      var e := EvidenceIn(RootFrom(archived, c.tasks, PlainLeases(c.leases), c.evidence));
      (id in e <==> id in ReturnedIn(c, archived)) && (id in e && id in ReturnedIn(c, archived) ==> e[id] == ReturnedIn(c, archived)[id])
  {
    hide V.TreeOk, E.Rebuild, Items, E.Flatten, PlainLeases, E.Closed;
    if id in c.evidence { RebuiltTreeOk(c.evidence[id]); }
  }

  lemma RootEvidence(c: Contents, archived: bool)
    requires TreesOk(RootFrom(archived, c.tasks, PlainLeases(c.leases), c.evidence))
    ensures EvidenceIn(RootFrom(archived, c.tasks, PlainLeases(c.leases), c.evidence)) == ReturnedIn(c, archived)
  {
    hide *;
    forall id { RootEvidenceAt(c, archived, id); }
  }

  lemma ReturnedSplits(c: Contents)
    requires c.evidence.Keys <= c.tasks.Keys
    ensures ReturnedIn(c, false) + ReturnedIn(c, true) == Returned(c.evidence)
  {
    assert Returned(c.evidence).Keys <= c.evidence.Keys;
    hide Returned;
  }

  lemma EvidenceReturns(c: Contents)
    requires Keyed(c) && Readable(LegacyOf(c))
    ensures LegacyEvidence(LegacyOf(c)) == Returned(c.evidence)
  {
    ReturnedSplits(c);
    hide Keyed, TreesOk, ReturnedIn, Returned, RootFrom, EvidenceIn, PlainLeases, LegacyRows, CandidateFiles;
    RootEvidence(c, false);
    RootEvidence(c, true);
  }

  lemma ReturnedAt(evidence: map<nat, E.Files>, id: nat)
    requires id in evidence
    ensures E.Closed(evidence[id]) <==> id in Returned(evidence) && Returned(evidence)[id] == evidence[id]
    ensures E.Closed(evidence[id]) ==> E.Rebuild(Items(evidence[id])).Some?
  {
    RebuiltTreeOk(evidence[id]);
    hide V.TreeOk, E.Rebuild, Items, E.Flatten, E.Closed;
  }

  lemma ReturnedIff(evidence: map<nat, E.Files>)
    ensures Returned(evidence) == evidence <==> AllClosed(evidence)
    ensures AllClosed(evidence) ==> AllRebuild(evidence)
  {
    assert Returned(evidence).Keys <= evidence.Keys;
    forall id | id in evidence { ReturnedAt(evidence, id); }
    hide Returned, E.Rebuild, Items, E.Closed;
  }

  lemma TasksReturn(c: Contents)
    requires Keyed(c)
    ensures LegacyTasks(LegacyOf(c)) == c.tasks
  {
  }

  lemma LeasesReturn(c: Contents)
    requires Keyed(c) && Acceptable(c)
    ensures LegacyLeases(LegacyOf(c)) == c.leases
  {
    hide TaskAccepted, CandidateAccepted, R.ValidRun, LeaseTimes, RunTimes, E.Rebuild, Items;
  }

  lemma IdsOfFiles(m: map<string, C.Candidate>)
    requires forall id :: id in m ==> m[id].id == id
    ensures FileIds(CandidateFiles(m)) == m.Keys
  {
    CandidateFilesAt(m);
    var files := CandidateFiles(m);
    hide CandidateFiles, N.FileName, C.ValidCandidate;
    forall id ensures id in FileIds(files) <==> id in m {
      if id in FileIds(files) {
        var name :| name in files && files[name].id == id;
        var x :| x in m && name == N.FileName(x);
      }
      if id in m { assert files[N.FileName(id)].id == id; }
    }
  }

  lemma FilesReturn(m: map<string, C.Candidate>)
    requires forall id :: id in m ==> m[id].id == id
    ensures CandidatesFrom(CandidateFiles(m)) == m
  {
    CandidateFilesAt(m);
    IdsOfFiles(m);
    hide CandidateFiles, N.FileName, FileIds;
  }

  lemma NoFiles()
    ensures CandidatesFrom(map[]) == map[]
  {
  }

  lemma LegacyFiles(c: Contents)
    ensures FilesOf(LegacyOf(c)) == if c.authority then CandidateFiles(c.candidates) else map[]
  {
    hide CandidateFiles, LegacyRows, RootFrom, PlainLeases;
  }

  lemma CandidatesReturn(c: Contents)
    requires forall id :: id in c.candidates ==> c.candidates[id].id == id
    requires !c.authority ==> c.candidates == map[]
    ensures LegacyCandidates(LegacyOf(c)) == c.candidates
  {
    hide CandidateFiles, CandidatesFrom, LegacyOf, FilesOf;
    LegacyFiles(c);
    FilesReturn(c.candidates);
    NoFiles();
  }

  lemma RunsReturn(c: Contents)
    requires Keyed(c) && Acceptable(c)
    ensures LegacyRuns(LegacyOf(c)) == c.runs
  {
    LegacyRowsRead(c.runs);
    hide LegacyRows, Parsed, LegacyRunOk, RootFrom, CandidateFiles;
  }

  /** The exported layout holds the same contents, with the evidence as it can be rebuilt. */
  lemma ExportContents(c: Contents)
    requires Keyed(c) && Acceptable(c)
    ensures LegacyOk(LegacyOf(c)) && Readable(LegacyOf(c))
    ensures LegacyContents(LegacyOf(c)) == c.(evidence := Returned(c.evidence))
  {
    ExportAccepted(c);
    RunsReturn(c);
    TasksReturn(c);
    LeasesReturn(c);
    assert !c.authority ==> c.candidates == map[];
    CandidatesReturn(c);
    EvidenceReturns(c);
    hide Keyed, Acceptable, LegacyOk, Readable, LegacyRows, RootFrom, LegacyRuns, LegacyTasks, LegacyLeases, LegacyCandidates,
      LegacyEvidence, Returned, CandidateFiles;
  }

  /**
   * For every accepted database the export is accepted again and holds the same contents, whatever was written after the
   * migration; its inspection equals the database's exactly when all evidence describes trees and no candidate identifier
   * dash-extends another.
   */
  lemma RollbackRoundTripIff(d: Database)
    requires DatabaseOk(d)
    ensures
      var s := InspectDatabase(d);
      var l := ExportOf(s);
      && LegacyOk(l) && Readable(l)
      && LegacyContents(l) == DatabaseContents(d).(evidence := Returned(s.evidence))
      && ((Rebuildable(s) && InspectLegacy(l) == s) <==> AllClosed(s.evidence) && N.NoDashExtension(d.candidates.Keys))
  {
    hide DatabaseOk, LegacyOk, Readable, LegacyContents, DatabaseContents, Keyed, Acceptable, SnapshotOf, ExportOf, LegacyOf, Orders, Returned,
      AllClosed, AllRebuild, InspectLegacy, InspectDatabase, N.NoDashExtension, N.Listing, Rebuildable;
    var c := DatabaseContents(d);
    DatabaseKeyed(d);
    ListingOrders(c);
    InOrder(N.Listing(c.candidates.Keys), c);
    ExportTables(c, N.Listing(c.candidates.Keys));
    ExportContents(c);
    InspectsContents(d);
    ReturnedIff(c.evidence);
    SameSnapshotIff(c, LegacyOf(c));
  }

  lemma InspectsContents(d: Database)
    ensures
      var c, s := DatabaseContents(d), InspectDatabase(d);
      && (forall i :: 0 <= i < |N.Listing(c.candidates.Keys)| ==> N.Listing(c.candidates.Keys)[i] in c.candidates)
      && s == SnapshotOf(c, N.Listing(c.candidates.Keys)) && s.evidence == c.evidence && c.candidates.Keys == d.candidates.Keys
      && (Rebuildable(s) <==> AllRebuild(c.evidence))
  {
    hide E.Rebuild, Items, RunsIn, TasksIn, LeasesIn, EvidenceOf, Parsed;
    var order := N.Listing(DatabaseContents(d).candidates.Keys);
    assert forall i :: 0 <= i < |order| ==> order[i] in order;
  }

  /** What a legacy state holding these contents lists, and in which order. */
  lemma LegacyLists(c: Contents, l: Legacy)
    requires LegacyOk(l) && Readable(l) && LegacyContents(l).candidates == c.candidates
    ensures Orders(FileOrder(FilesOf(l)), c)
    ensures FileOrder(FilesOf(l)) == N.Listing(c.candidates.Keys) <==> N.NoDashExtension(c.candidates.Keys)
  {
    CandidateKeys(l);
    FileOrderOrders(l);
    FileOrderIsListingIff(l);
    assert CandidateIds(l) == c.candidates.Keys;
    hide LegacyOk, Readable, FileIds, FilesOf, FileOrder, N.Listing, N.NoDashExtension, LegacyCandidates;
  }

  lemma SameSnapshotIff(c: Contents, l: Legacy)
    requires Keyed(c) && LegacyOk(l) && Readable(l) && LegacyContents(l) == c.(evidence := Returned(c.evidence))
    requires forall i :: 0 <= i < |N.Listing(c.candidates.Keys)| ==> N.Listing(c.candidates.Keys)[i] in c.candidates
    ensures InspectLegacy(l) == SnapshotOf(c, N.Listing(c.candidates.Keys))
            <==> Returned(c.evidence) == c.evidence && N.NoDashExtension(c.candidates.Keys)
  {
    LegacyLists(c, l);
    ListingOrders(c);
    hide LegacyOk, Readable, LegacyContents, FileOrder, N.Listing, N.NoDashExtension, Returned, Keyed, Orders, SnapshotOf;
    var order, listing := FileOrder(FilesOf(l)), N.Listing(c.candidates.Keys);
    InOrder(order, c);
    SnapshotOrder(c, order, listing);
    EvidenceOnly(c, Returned(c.evidence), order);
    EvidenceOnly(c, c.evidence, listing);
    EvidenceDecides(SnapshotOf(c, order), SnapshotOf(c, listing), Returned(c.evidence));
  }

  lemma EvidenceDecides(a: Snapshot, b: Snapshot, evidence: map<nat, E.Files>)
    requires a.evidence == b.evidence
    ensures a.(evidence := evidence) == b <==> evidence == b.evidence && a == b
  {
  }

  lemma EvidenceOnly(c: Contents, evidence: map<nat, E.Files>, order: seq<string>)
    requires forall i :: 0 <= i < |order| ==> order[i] in c.candidates
    ensures SnapshotOf(c.(evidence := evidence), order) == SnapshotOf(c, order).(evidence := evidence)
    ensures SnapshotOf(c, order).evidence == c.evidence
  {
  }
}
