/** The whole way: migrate a legacy state, let the stores work on the database, and roll back. */
module MigrationCycle {
  import opened Common
  import opened TaskModel
  import opened TaskLayout
  import M = Migration
  import G = Migrator
  import H = MigrationReach
  import TS = TaskStores
  import RS = RunStores
  import R = Runs
  import C = Candidates
  import N = NameOrder
  import E = EvidenceTexts
  import V = EvidenceTree

  /** Evidence that came from a file system describes trees, and stays so when tasks are removed. */
  lemma MigratedEvidence(l: M.Legacy, ids: set<nat>)
    requires M.Readable(l)
    ensures M.AllClosed(M.EvidenceOf(M.LegacyEvidence(l), ids))
  {
    hide E.Closed, E.Flatten, V.TreeOk;
    FlattenedClosed(M.RootOf(l.active));
    FlattenedClosed(M.RootOf(l.archive));
    var evidence := M.LegacyEvidence(l);
    assert forall id :: id in evidence ==> evidence[id] == (if id in M.EvidenceIn(M.RootOf(l.archive)) then M.EvidenceIn(M.RootOf(l.archive))[id] else M.EvidenceIn(M.RootOf(l.active))[id]);
  }

  lemma FlattenedClosed(root: M.TaskRoot)
    requires M.TreesOk(root)
    ensures forall id :: id in M.EvidenceIn(root) ==> E.Closed(M.EvidenceIn(root)[id])
  {
    forall id | id in M.EvidenceIn(root) ensures E.Closed(M.EvidenceIn(root)[id]) { E.FlattenClosed(root[id].evidence.value); }
    hide E.Closed, E.Flatten, V.TreeOk;
  }

  /** The database that a migration publishes, in the state the stores take over. */
  lemma MigratedIsGood(l: M.Legacy, now: int)
    requires M.LegacyOk(l) && M.Readable(l) && H.NotFuture(M.Build(M.InspectLegacy(l)), now)
    ensures
      var d := M.Build(M.InspectLegacy(l));
      && H.TasksGood(Db(d.tasks, d.leases), now) && H.RunsGood(d.runs, now) && H.CandidatesGood(d.candidates, now)
      && Or(d.meta.evidence, map[]) == M.LegacyEvidence(l)
      && d.meta.authority == (if l.candidates.Some? then Some("true") else Some("false"))
      && (l.candidates.None? ==> d.candidates == map[])
  {
    hide M.LegacyOk, M.Readable, M.InspectLegacy, M.Build, M.DatabaseOk, H.NotFuture, H.PayloadsWritten, H.TasksGood, H.RunsGood,
      H.CandidatesGood, M.LegacyContents, M.DatabaseContents, N.NoDashExtension;
    M.MigrationRoundTripIff(l);
    MigratedPayloads(l);
    MigratedMeta(l);
    H.AcceptedIsGood(M.Build(M.InspectLegacy(l)), now);
  }

  lemma MigratedPayloads(l: M.Legacy)
    requires M.LegacyOk(l) && M.Readable(l)
    ensures H.PayloadsWritten(M.Build(M.InspectLegacy(l)).runs)
  {
    var c, order := M.LegacyContents(l), M.FileOrder(M.FilesOf(l));
    M.LegacyKeyed(l);
    M.FileOrderOrders(l);
    M.CandidateKeys(l);
    hide M.LegacyOk, M.Readable, M.LegacyContents, M.Orders, M.Build, M.FileOrder;
    assert M.InspectLegacy(l) == M.SnapshotOf(c, order);
    M.BuildTables(c, order);
    RowsWritten(c.runs);
  }

  lemma RowsWritten(m: map<nat, R.RunRecord>)
    requires forall id :: id in m ==> R.ValidRun(m[id])
    ensures H.PayloadsWritten(M.RunRows(m))
  {
    forall id | id in m ensures R.Parse(R.Serialize(m[id])) == Ok(m[id]) { R.CodecRoundTripIff(m[id]); }
    hide R.Parse, R.Serialize, R.ValidRun;
  }

  lemma MigratedMeta(l: M.Legacy)
    requires M.LegacyOk(l) && M.Readable(l)
    ensures
      var d := M.Build(M.InspectLegacy(l));
      && Or(d.meta.evidence, map[]) == M.LegacyEvidence(l)
      && d.meta.authority == (if l.candidates.Some? then Some("true") else Some("false"))
      && (l.candidates.None? ==> d.candidates == map[])
  {
    var c, order := M.LegacyContents(l), M.FileOrder(M.FilesOf(l));
    M.LegacyKeyed(l);
    M.FileOrderOrders(l);
    M.CandidateKeys(l);
    hide M.LegacyOk, M.Readable, M.Orders, M.Build, M.FileOrder;
    assert M.InspectLegacy(l) == M.SnapshotOf(c, order);
    M.BuildTables(c, order);
  }

  /**
   * Migrate, serve any requests, and roll back. The rollback succeeds iff no candidate identifier then extends another with a
   * dash; and what it publishes reads as the database does, requests served included.
   */
  method MigrateServeRollBack(l: M.Legacy, work: seq<H.Request>, start: int) returns (d: M.Database, published: Option<M.Legacy>)
    requires M.LegacyOk(l) && M.Readable(l) && N.NoDashExtension(M.CandidateIds(l))
    requires H.NotFuture(M.Build(M.InspectLegacy(l)), start) && H.GoodRequests(start, work)
    requires l.candidates.None? ==> forall i :: 0 <= i < |work| ==> !work[i].cmd.OnCandidates?
    ensures M.DatabaseOk(d)
    ensures published.Some? <==> N.NoDashExtension(d.candidates.Keys)
    ensures published.Some? ==> M.LegacyOk(published.value) && M.Readable(published.value)
    ensures published.Some? ==> M.InspectLegacy(published.value) == M.InspectDatabase(d)
  {
    hide M.LegacyOk, M.Readable, M.InspectLegacy, M.InspectDatabase, M.Build, M.DatabaseOk, H.NotFuture, H.TasksGood, H.RunsGood,
      H.CandidatesGood, N.NoDashExtension, M.AllClosed, M.LegacyEvidence, M.EvidenceOf, H.GoodRequests, M.ExportOf;
    var destination := new G.Destination(None);
    var receipt := destination.Migrate(l, l);
    var built := destination.published.value;
    MigratedIsGood(l, start);
    GoodParts(Db(built.tasks, built.leases), built.runs, built.candidates, start);
    var tasks := new TS.TaskStore(Db(built.tasks, built.leases));
    var runs := new RS.RunStore();
    var candidates := new C.CandidateStore();
    runs.rows, candidates.rows := built.runs, built.candidates;
    H.ServeAll(tasks, runs, candidates, work, start);
    d := H.SharedDatabase(tasks.layout, runs.rows, candidates.rows, built.meta);
    assert H.Granted(built.meta, candidates.rows);
    MigratedEvidence(l, d.tasks.Keys);
    EvidenceRead(d);
    var rollback := new G.Export();
    var ok := rollback.Run(d);
    published := rollback.published;
    if ok { M.RollbackRoundTripIff(d); }
  }

  lemma GoodParts(l: Layout, runs: map<nat, RS.RunRow>, candidates: map<string, C.CandidateRow>, now: int)
    requires H.TasksGood(l, now) && H.RunsGood(runs, now) && H.CandidatesGood(candidates, now)
    ensures Valid(l)
  {
  }

  lemma EvidenceRead(d: M.Database)
    ensures M.InspectDatabase(d).evidence == M.EvidenceOf(Or(d.meta.evidence, map[]), d.tasks.Keys)
  {
    hide M.EvidenceOf, M.RunsIn, M.TasksIn, M.LeasesIn, M.CandidatesIn;
  }
}
