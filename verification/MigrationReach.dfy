/** The migrator accepts what the stores produce, and what it refuses after an interrupted close. */
module MigrationReach {
  import opened Common
  import opened TaskModel
  import opened TaskSpec
  import opened TaskLayout
  import H = TaskHistory
  import F = TaskRefinement
  import TS = TaskStores
  import RS = RunStores
  import RH = RunHistory
  import R = Runs
  import C = Candidates
  import M = Migration

  // ---------- Tasks ----------

  predicate EntryTimed(e: Entry, now: int) {
    M.TaskTimes(e.record) && M.Lifecycle(e.record, e.archived) && e.record.updatedAt <= now
  }

  predicate LeaseTimed(l: Lease, now: int) { M.LeaseTimes(l) && l.refreshedAt <= now }

  ghost predicate TimedState(s: State, now: int) {
    && (forall id :: id in s.tasks ==> EntryTimed(s.tasks[id], now))
    && (forall id :: id in s.leases ==> LeaseTimed(s.leases[id], now))
  }

  lemma EntryStaysTimed(a: Option<Entry>, b: Option<Entry>, held: Option<Lease>, before: int, now: int, c: Cmd, id: nat)
    requires H.EntryStep(a, b, held, now, c, id) && before <= now && (a.Some? ==> EntryTimed(a.value, before))
    ensures b.Some? ==> EntryTimed(b.value, now)
  {
    hide ValidRecord, HasPending, H.Presents, H.ExpectationMet;
  }

  lemma LeaseStaysTimed(a: Option<Lease>, b: Option<Lease>, before: int, now: int, c: Cmd, id: nat)
    requires H.LeaseStep(a, b, now, c, id) && before <= now && (a.Some? ==> LeaseTimed(a.value, before))
    ensures b.Some? ==> LeaseTimed(b.value, now)
  {
    hide H.Presents;
  }

  lemma StepTimed(kind: LayoutKind, s: State, before: int, now: int, c: Cmd)
    requires H.WfState(s) && TimedState(s, before) && before <= now
    ensures TimedState(Step(kind, s, now, c).state, now)
  {
    var t := Step(kind, s, now, c).state;
    hide Step, H.EntryStep, H.LeaseStep, EntryTimed, LeaseTimed;
    H.ExpireWf(s, now);
    forall id | id in t.tasks ensures EntryTimed(t.tasks[id], now) {
      H.StepEntry(kind, s, now, c, id);
      EntryStaysTimed(H.EntryAt(s, id), H.EntryAt(t, id), H.HeldAt(Expire(s, now), id), before, now, c, id);
    }
    forall id | id in t.leases ensures LeaseTimed(t.leases[id], now) {
      H.StepLease(kind, s, now, c, id);
      LeaseStaysTimed(H.HeldAt(Expire(s, now), id), H.HeldAt(t, id), before, now, c, id);
    }
  }

  function ClockAt(start: int, run: seq<Timed>, i: nat): int
    requires i <= |run|
  {
    if i == 0 then start else run[i - 1].now
  }

  /** In every reachable state times are ordered and a task is archived exactly when it is terminal. */
  lemma {:induction false} EveryStateTimed(kind: LayoutKind, s: State, start: int, run: seq<Timed>, i: nat)
    requires H.WfState(s) && TimedState(s, start) && Monotone(run) && i <= |run|
    requires forall k :: 0 <= k < |run| ==> start <= run[k].now
    ensures TimedState(H.StateAt(kind, s, run, i), ClockAt(start, run, i)) && H.WfState(H.StateAt(kind, s, run, i))
  {
    hide Step, TimedState, H.WfState;
    if i > 0 {
      EveryStateTimed(kind, s, start, run, i - 1);
      H.StateAtWf(kind, s, run, i);
      StepTimed(kind, H.StateAt(kind, s, run, i - 1), ClockAt(start, run, i - 1), run[i - 1].now, run[i - 1].cmd);
    }
  }

  // ---------- What the three stores keep ----------

  /** Stored lease rows, expired ones included, carry ordered times. */
  ghost predicate RowsTimed(leases: map<nat, Lease>) { forall id :: id in leases ==> M.LeaseTimes(leases[id]) }

  ghost predicate TasksGood(l: Layout, now: int) {
    l.Db? && Valid(l) && RowsTimed(StoredLeases(l)) && TimedState(Abs(l, now), now)
  }

  predicate RunTimed(r: R.RunRecord, now: int) { M.RunTimes(r.core) && r.core.startedAt <= now }

  ghost predicate RunsTimed(s: RS.RunState, now: int) { forall id :: id in s ==> RunTimed(s[id], now) }

  ghost predicate RunsGood(rows: map<nat, RS.RunRow>, now: int) {
    RS.ValidRows(rows) && RunsTimed(RS.RunsOf(rows), now) && RH.AllReadable(RS.RunsOf(rows))
  }

  ghost predicate CandidatesGood(rows: map<string, C.CandidateRow>, now: int) {
    C.ValidCandidateRows(rows) && C.Wf(C.CandidatesOf(rows), now)
  }

  /** A lease row that was not just written is an old row, so its times stay ordered after it expires. */
  lemma RowsStayTimed(a: map<nat, Lease>, b: map<nat, Lease>, now: int)
    requires RowsTimed(a) && LeasesFrom(a, b, now)
    requires forall id :: id in LiveLeases(b, now) ==> LeaseTimed(LiveLeases(b, now)[id], now)
    ensures RowsTimed(b)
  {
    assert forall id :: id in b && b[id].expiresAt > now ==> id in LiveLeases(b, now);
  }

  lemma TasksStayGood(a: Layout, b: Layout, before: int, now: int, c: Cmd)
    requires TasksGood(a, before) && before <= now && Valid(b) && Kind(b) == Kind(a)
    requires Abs(b, now) == Step(Kind(a), Abs(a, now), now, c).state && LeasesFrom(StoredLeases(a), StoredLeases(b), now)
    ensures TasksGood(b, now)
  {
    hide Step, Valid, RowsTimed, TimedState, LeasesFrom, TasksOf, StoredLeases, LiveLeases, H.WfState;
    F.StepExpires(Kind(a), a, before, now, c);
    F.AbsWf(a, before);
    StepTimed(Kind(a), Abs(a, before), before, now, c);
    LiveTimed(Abs(b, now), now);
    RowsStayTimed(StoredLeases(a), StoredLeases(b), now);
  }

  lemma LiveTimed(s: State, now: int)
    requires TimedState(s, now)
    ensures forall id :: id in s.leases ==> LeaseTimed(s.leases[id], now)
  {
  }

  lemma NewTimed(q: RS.Request, id: nat, now: int)
    ensures RS.NewRun(q, id, now).Ok? ==> RunTimed(RS.NewRun(q, id, now).value, now)
  {
    hide R.NormalizeOptional;
  }

  lemma MoveTimed(a: R.RunRecord, b: R.RunRecord, before: int, now: int)
    requires RunTimed(a, before) && before <= now && RH.RunMoves(Some(a), Some(b), now)
    ensures RunTimed(b, now)
  {
  }

  /** No command of the run store puts times out of order, whatever the runs it found. */
  lemma RunStepTimed(s: RS.RunState, before: int, now: int, c: RS.RunCmd)
    requires RunsTimed(s, before) && before <= now
    ensures RunsTimed(RS.RunStep(s, now, c).state, now)
  {
    var t := RS.RunStep(s, now, c).state;
    if c.Start? {
      NewTimed(c.request, c.freshId, now);
      hide RS.NewRun;
    } else {
      forall id | id in t ensures RunTimed(t[id], now) {
        RH.StepMoves(s, now, c, id);
        RH.NewIdIsStart(s, now, c, id);
        hide RS.RunStep, RunTimed, RH.RunMoves;
        MoveTimed(s[id], t[id], before, now);
      }
      hide RS.RunStep;
    }
  }

  /** One request to one of the stores. */
  datatype StoreCmd = OnTasks(task: Cmd) | OnRuns(run: RS.RunCmd) | OnCandidates(candidate: C.CandidateCmd)

  datatype Request = Request(now: int, cmd: StoreCmd)

  ghost predicate GoodRequests(start: int, work: seq<Request>) {
    && (forall i :: 0 <= i < |work| ==> start <= work[i].now)
    && (forall i, j :: 0 <= i < j < |work| ==> work[i].now <= work[j].now)
    && (forall i :: 0 <= i < |work| && work[i].cmd.OnRuns? && work[i].cmd.run.EndWithout? ==>
          R.Printable(R.Clip(work[i].cmd.run.errorType, 200)))
  }

  /** The stores share one database; serve one request. */
  method Serve(tasks: TS.TaskStore, runs: RS.RunStore, candidates: C.CandidateStore, r: Request, ghost before: int)
    requires TasksGood(tasks.layout, before) && RunsGood(runs.rows, before) && CandidatesGood(candidates.rows, before)
    requires before <= r.now && (r.cmd.OnRuns? && r.cmd.run.EndWithout? ==> R.Printable(R.Clip(r.cmd.run.errorType, 200)))
    modifies tasks, runs, candidates
    ensures TasksGood(tasks.layout, r.now) && RunsGood(runs.rows, r.now) && CandidatesGood(candidates.rows, r.now)
    ensures !r.cmd.OnCandidates? ==> candidates.rows == old(candidates.rows)
  {
    hide Step, RS.RunStep, C.Next, Valid, Abs, StoredLeases, RowsTimed, TimedState, RunsTimed, RH.AllReadable, C.Wf, LeasesFrom;
    TasksLater(tasks.layout, before, r.now);
    RunsLater(runs.rows, before, r.now);
    CandidatesLater(candidates.rows, before, r.now);
    match r.cmd
    case OnTasks(c) =>
      ghost var was := tasks.layout;
      var _ := tasks.Execute(r.now, c);
      TasksStayGood(was, tasks.layout, before, r.now, c);
    case OnRuns(c) =>
      RunStepTimed(runs.Runs(), before, r.now, c);
      RH.StepReadable(runs.Runs(), r.now, c);
      var _ := runs.Execute(r.now, c);
    case OnCandidates(c) =>
      C.StepKeepsWf(candidates.Contents(), before, r.now, c);
      var _ := candidates.Perform(r.now, c);
  }

  lemma TasksLater(l: Layout, before: int, now: int)
    requires TasksGood(l, before) && before <= now
    ensures TasksGood(l, now)
  {
    hide Valid, TasksOf, StoredLeases, LiveLeases, M.LeaseTimes, M.TaskTimes, M.Lifecycle;
    var s := Abs(l, now);
    assert s.tasks == Abs(l, before).tasks;
    forall id | id in s.leases ensures LeaseTimed(s.leases[id], now) { F.LiveLater(l, before, now, id); }
  }

  lemma RunsLater(rows: map<nat, RS.RunRow>, before: int, now: int)
    requires RunsGood(rows, before) && before <= now
    ensures RunsGood(rows, now)
  {
    hide RS.Storable, R.ValidRun, RS.ValidRows, M.RunTimes;
  }

  lemma CandidatesLater(rows: map<string, C.CandidateRow>, before: int, now: int)
    requires CandidatesGood(rows, before) && before <= now
    ensures CandidatesGood(rows, now)
  {
    hide C.ValidCandidate, C.ValidCandidateRows;
  }

  /** Whatever is asked of the three stores, in any order, the database they share stays acceptable to the migrator. */
  method ServeAll(tasks: TS.TaskStore, runs: RS.RunStore, candidates: C.CandidateStore, work: seq<Request>, ghost start: int)
    requires TasksGood(tasks.layout, start) && RunsGood(runs.rows, start) && CandidatesGood(candidates.rows, start)
    requires GoodRequests(start, work)
    modifies tasks, runs, candidates
    ensures tasks.layout.Db?
    ensures (forall i :: 0 <= i < |work| ==> !work[i].cmd.OnCandidates?) ==> candidates.rows == old(candidates.rows)
    ensures forall meta: M.Meta :: Granted(meta, candidates.rows) ==> M.DatabaseOk(SharedDatabase(tasks.layout, runs.rows, candidates.rows, meta))
  {
    hide TasksGood, RunsGood, CandidatesGood, M.DatabaseOk;
    ghost var clock := start;
    for i := 0 to |work|
      invariant TasksGood(tasks.layout, clock) && RunsGood(runs.rows, clock) && CandidatesGood(candidates.rows, clock)
      invariant clock == if i == 0 then start else work[i - 1].now
      invariant (forall j :: 0 <= j < i ==> !work[j].cmd.OnCandidates?) ==> candidates.rows == old(candidates.rows)
    {
      Serve(tasks, runs, candidates, work[i], clock);
      clock := work[i].now;
    }
    GoodIsDb(tasks.layout, clock);
    forall meta: M.Meta | Granted(meta, candidates.rows) ensures M.DatabaseOk(SharedDatabase(tasks.layout, runs.rows, candidates.rows, meta)) {
      EverythingProducedIsAccepted(tasks.layout, runs.rows, candidates.rows, meta, clock);
    }
  }

  lemma GoodIsDb(l: Layout, now: int)
    requires TasksGood(l, now)
    ensures l.Db?
  {
  }

  lemma EmptyIsGood(now: int)
    ensures TasksGood(Db(map[], map[]), now) && RunsGood(map[], now) && CandidatesGood(map[], now)
    ensures Valid(Db(map[], map[]))
  {
  }

  /**
   * A new database has no metadata. Whatever is asked of it, inspection takes its tables once the candidate authority is recorded,
   * and refuses it before.
   */
  method ServeNew(work: seq<Request>, start: int) returns (d: M.Database)
    requires GoodRequests(start, work)
    ensures d.meta == M.Meta(None, None, None, None) && !M.DatabaseOk(d)
    ensures forall meta: M.Meta :: Granted(meta, d.candidates) ==> M.DatabaseOk(d.(meta := meta))
  {
    hide TasksGood, RunsGood, CandidatesGood, GoodRequests, Valid, RS.RunsOf, RS.ValidRows, C.CandidatesOf, C.ValidCandidateRows,
      M.RunTableOk, M.TaskTableOk, M.LeaseTableOk, M.CandidateTableOk;
    EmptyIsGood(start);
    var tasks := new TS.TaskStore(Db(map[], map[]));
    var runs := new RS.RunStore();
    var candidates := new C.CandidateStore();
    runs.rows, candidates.rows := map[], map[];
    ServeAll(tasks, runs, candidates, work, start);
    d := SharedDatabase(tasks.layout, runs.rows, candidates.rows, M.Meta(None, None, None, None));
    hide M.DatabaseOk, Granted;
    assert forall meta: M.Meta :: d.(meta := meta) == SharedDatabase(tasks.layout, runs.rows, candidates.rows, meta);
  }

  // ---------- Acceptance ----------

  /** Candidates are read only where the database has authority over them. */
  predicate Granted(meta: M.Meta, candidates: map<string, C.CandidateRow>) {
    meta.authority == Some("true") || (meta.authority == Some("false") && candidates == map[])
  }

  function SharedDatabase(l: Layout, runs: map<nat, RS.RunRow>, candidates: map<string, C.CandidateRow>, meta: M.Meta): M.Database
    requires l.Db?
  {
    M.Database(runs, l.rows, l.leaseRows, candidates, meta)
  }

  /** Index columns, lifecycle, times and lease ownership: the task tables of a reachable database pass inspection. */
  lemma TaskTablesAccepted(l: Layout, now: int)
    requires TasksGood(l, now)
    ensures M.TaskTableOk(l.rows) && M.LeaseTableOk(l.rows, l.leaseRows)
  {
    hide ValidRecord, LiveLeases, M.TaskTimes, M.Lifecycle, M.LeaseTimes, IndexRow;
    forall id | id in l.rows ensures M.TaskRowOk(id, l.rows[id]) {
      assert TasksOf(l)[id] == Entry(l.rows[id].payload, l.rows[id].archived);
      assert EntryTimed(Abs(l, now).tasks[id], now);
    }
    assert forall id :: id in l.leaseRows ==> id in StoredLeases(l) && StoredLeases(l)[id] == l.leaseRows[id].payload;
  }

  lemma RunTableAccepted(rows: map<nat, RS.RunRow>, now: int)
    requires RunsGood(rows, now)
    ensures M.RunTableOk(rows)
  {
    forall id | id in rows ensures M.DatabaseRunOk(id, rows[id]) {
      var r := RS.RunsOf(rows)[id];
      RS.RowReads(rows, id);
      assert RunTimed(r, now) && R.ValidRun(r);
      hide R.ValidRun, RS.Storable, R.Parse;
      assert R.Parse(rows[id].payload) == Ok(r);
    }
  }

  lemma CandidateTableAccepted(rows: map<string, C.CandidateRow>, now: int)
    requires CandidatesGood(rows, now)
    ensures M.CandidateTableOk(rows)
  {
    hide C.ValidCandidate;
    assert forall id :: id in rows ==> C.CandidatesOf(rows)[id] == rows[id].payload;
  }

  /** Whatever the three stores can have written, with candidate authority granted, is accepted for rollback. */
  lemma EverythingProducedIsAccepted(l: Layout, runs: map<nat, RS.RunRow>, candidates: map<string, C.CandidateRow>, meta: M.Meta, now: int)
    requires TasksGood(l, now) && RunsGood(runs, now) && CandidatesGood(candidates, now) && Granted(meta, candidates)
    ensures M.DatabaseOk(SharedDatabase(l, runs, candidates, meta))
  {
    hide M.TaskTableOk, M.LeaseTableOk, M.RunTableOk, M.CandidateTableOk, RunsGood, CandidatesGood, Valid, RowsTimed, TimedState;
    TaskTablesAccepted(l, now);
    RunTableAccepted(runs, now);
    CandidateTableAccepted(candidates, now);
  }

  // ---------- What an interrupted close leaves for the migrator ----------

  /** A task root of the file layout, as the migrator finds it. */
  function RootOf(dirs: map<nat, Dir>): M.TaskRoot { map id | id in dirs :: M.TaskDir(dirs[id], false, None) }

  ghost predicate RootsAccepted(l: Layout)
    requires l.Files?
  {
    M.RootOk(RootOf(l.active), false) && M.RootOk(RootOf(l.archive), true)
  }

  lemma StageDirs(l: Layout, u: TaskRecord, k: nat)
    requires l.Files? && u.id in l.active && u.id !in l.archive && k < 3
    ensures
      var c := CloseStages(l, u)[k];
      && c.Files?
      && c.active == (if k == 0 then l.active[u.id := Dir(u, l.active[u.id].lease)] else l.active - {u.id})
      && c.archive == (if k == 0 then l.archive
                       else l.archive[u.id := Dir(u, if k == 1 then l.active[u.id].lease else None)])
  {
    assert l.active[u.id := Dir(u, l.active[u.id].lease)] - {u.id} == l.active - {u.id};
    assert forall d :: l.archive[u.id := d][u.id := d.(lease := None)] == l.archive[u.id := d.(lease := None)];
  }

  lemma RootOkIff(dirs: map<nat, Dir>, archived: bool)
    ensures M.RootOk(RootOf(dirs), archived) <==> forall id :: id in dirs ==> M.DirOk(id, M.TaskDir(dirs[id], false, None), archived)
  {
    hide M.DirOk;
    var root := RootOf(dirs);
    assert forall id :: id in dirs ==> root[id] == M.TaskDir(dirs[id], false, None);
  }

  /** Adding the moved directory to an acceptable archive. */
  lemma ArchiveWithIff(archive: map<nat, Dir>, u: TaskRecord, lease: Option<Lease>)
    requires M.RootOk(RootOf(archive), true) && ValidRecord(u) && IsTerminal(u.status) && M.TaskTimes(u)
    ensures M.RootOk(RootOf(archive[u.id := Dir(u, lease)]), true) <==> lease.None?
  {
    var added := archive[u.id := Dir(u, lease)];
    RootOkIff(archive, true);
    RootOkIff(added, true);
    assert M.DirOk(u.id, M.TaskDir(added[u.id], false, None), true) <==> lease.None?;
    hide ValidRecord, M.DirOk, M.RootOk;
    assert forall id :: id in added && id != u.id ==> added[id] == archive[id];
  }

  lemma ActiveWithoutOk(active: map<nat, Dir>, id: nat)
    requires M.RootOk(RootOf(active), false)
    ensures M.RootOk(RootOf(active - {id}), false)
  {
    RootOkIff(active, false);
    RootOkIff(active - {id}, false);
    hide M.DirOk, M.RootOk;
  }

  lemma ActiveRefusesTerminal(active: map<nat, Dir>, id: nat)
    requires id in active && IsTerminal(active[id].record.status)
    ensures !M.RootOk(RootOf(active), false)
  {
    RootOkIff(active, false);
    hide ValidRecord, M.RootOk;
    assert !M.DirOk(id, M.TaskDir(active[id], false, None), false);
  }

  /**
   * A crash inside a first close of an acceptable store leaves something the migrator takes iff the directory was renamed
   * and carries no lease file; repair looks at active tasks only, so a moved lease waits for the close to be repeated.
   */
  lemma InterruptedCloseAcceptedIff(l: Layout, u: TaskRecord, k: nat)
    requires Valid(l) && l.Files? && RootsAccepted(l) && u.id in l.active && k < 3
    requires ValidRecord(u) && IsTerminal(u.status) && M.TaskTimes(u)
    ensures CloseStages(l, u)[k].Files?
    ensures RootsAccepted(CloseStages(l, u)[k]) <==> k == 2 || (k == 1 && l.active[u.id].lease.None?)
  {
    StageDirs(l, u, k);
    var c := CloseStages(l, u)[k];
    ActiveWithoutOk(l.active, u.id);
    ArchiveWithIff(l.archive, u, if k == 1 then l.active[u.id].lease else None);
    hide ValidRecord, M.TaskTimes, CloseStages, Valid, RootOf, M.RootOk;
    if k == 0 { ActiveRefusesTerminal(c.active, u.id); }
  }

  // ---------- What the migrator accepts, the stores can take over ----------

  /** Nothing in the database is dated after this clock value. */
  ghost predicate NotFuture(d: M.Database, now: int) {
    && (forall id :: id in M.RunsIn(d.runs) ==> M.RunsIn(d.runs)[id].core.startedAt <= now)
    && (forall id :: id in d.tasks ==> d.tasks[id].payload.updatedAt <= now)
    && (forall id :: id in d.leases ==> d.leases[id].payload.refreshedAt <= now)
    && (forall id :: id in d.candidates ==> d.candidates[id].payload.updatedAt <= now)
  }

  /** Run payloads are written as the store writes them. */
  ghost predicate PayloadsWritten(runs: map<nat, RS.RunRow>) {
    forall id :: id in runs && R.Parse(runs[id].payload).Ok? ==> runs[id].payload == R.Serialize(R.Parse(runs[id].payload).value)
  }

  lemma TasksTaken(d: M.Database, now: int)
    requires M.TaskTableOk(d.tasks) && M.LeaseTableOk(d.tasks, d.leases) && NotFuture(d, now)
    ensures TasksGood(Db(d.tasks, d.leases), now)
  {
    var l := Db(d.tasks, d.leases);
    hide ValidRecord, RecordIdentity;
    assert Valid(l);
    forall id | id in TasksOf(l) ensures EntryTimed(TasksOf(l)[id], now) { assert M.TaskRowOk(id, d.tasks[id]); }
    forall id | id in StoredLeases(l) ensures M.LeaseTimes(StoredLeases(l)[id]) && LeaseTimed(StoredLeases(l)[id], now) {
      assert M.LeaseRowOk(d.tasks, id, d.leases[id]);
    }
  }

  lemma RunsTaken(runs: map<nat, RS.RunRow>, now: int)
    requires M.RunTableOk(runs) && PayloadsWritten(runs) && forall id :: id in M.RunsIn(runs) ==> M.RunsIn(runs)[id].core.startedAt <= now
    ensures RunsGood(runs, now)
  {
    forall id | id in runs
      ensures RS.Storable(RS.RunsOf(runs)[id]) && runs[id] == RS.IndexRun(RS.RunsOf(runs)[id]) && RS.RunsOf(runs)[id].core.id == id
      ensures RunTimed(RS.RunsOf(runs)[id], now) && R.ValidRun(RS.RunsOf(runs)[id])
    {
      RunTaken(runs, id, now);
    }
    hide RS.Storable, R.ValidRun, RS.IndexRun, RunTimed, RS.Assemble;
  }

  lemma RunTaken(runs: map<nat, RS.RunRow>, id: nat, now: int)
    requires M.RunTableOk(runs) && PayloadsWritten(runs) && id in runs
    requires forall x :: x in M.RunsIn(runs) ==> M.RunsIn(runs)[x].core.startedAt <= now
    ensures
      var r := RS.RunsOf(runs)[id];
      RS.Storable(r) && runs[id] == RS.IndexRun(r) && r.core.id == id && RunTimed(r, now) && R.ValidRun(r)
  {
    assert M.DatabaseRunOk(id, runs[id]);
    var p := R.Parse(runs[id].payload).value;
    R.ParseIsStable(runs[id].payload);
    R.CodecRoundTripIff(p);
    RS.ValidStorable(p);
    RS.StoredReads(p);
    assert M.RunsIn(runs)[id] == p;
    hide R.ValidRun, RS.Storable, R.Parse, R.Serialize;
  }

  lemma CandidatesTaken(candidates: map<string, C.CandidateRow>, now: int)
    requires M.CandidateTableOk(candidates) && forall id :: id in candidates ==> candidates[id].payload.updatedAt <= now
    ensures CandidatesGood(candidates, now)
  {
    hide C.ValidCandidate;
    forall id | id in candidates ensures M.CandidateRowOk(id, candidates[id]) {}
  }

  /** The stores can take over any database the migrator accepts, provided nothing in it is dated in the future. */
  lemma AcceptedIsGood(d: M.Database, now: int)
    requires M.DatabaseOk(d) && PayloadsWritten(d.runs) && NotFuture(d, now)
    ensures TasksGood(Db(d.tasks, d.leases), now) && RunsGood(d.runs, now) && CandidatesGood(d.candidates, now)
  {
    hide M.RunTableOk, M.TaskTableOk, M.LeaseTableOk, M.CandidateTableOk, PayloadsWritten, TasksGood, RunsGood, CandidatesGood;
    TasksTaken(d, now);
    RunsTaken(d.runs, now);
    CandidatesTaken(d.candidates, now);
  }
}
