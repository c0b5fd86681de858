/**
 * Where the two layouts agree, what happens where they do not, and what a crash during close leaves behind.
 */
module TaskRefinement {
  import opened Common
  import opened TaskModel
  import opened TaskSpec
  import opened TaskLayout
  import opened TaskHistory
  import opened TaskRepair
  import opened TaskStores

  // ---------- The two layouts behave alike exactly while marked records fit ----------

  ghost predicate StepFits(s: State, now: int, c: Cmd) { c.Mark? ==> MarkFits(s, now, c) }

  lemma StepAgreesIff(s: State, now: int, c: Cmd)
    ensures Step(FileLayout, s, now, c) == Step(DatabaseLayout, s, now, c) <==> StepFits(s, now, c)
    ensures Step(FileLayout, s, now, c).reply == Step(DatabaseLayout, s, now, c).reply <==> StepFits(s, now, c)
  {
    hide ValidRecord, MarkDecision;
  }

  /** Every mark of the run, met in the state the file layout has reached, keeps its record within bounds. */
  ghost predicate RunFits(s: State, run: seq<Timed>)
    decreases |run|
  {
    run != [] ==>
      StepFits(s, run[0].now, run[0].cmd) && RunFits(Step(FileLayout, s, run[0].now, run[0].cmd).state, run[1..])
  }

  /** Both layouts answer every command of a run alike, and end in the same state, iff every mark fits. */
  lemma {:induction false} LayoutsAgreeIff(s: State, run: seq<Timed>)
    ensures Replies(FileLayout, s, run) == Replies(DatabaseLayout, s, run) <==> RunFits(s, run)
    ensures RunFits(s, run) ==> Run(FileLayout, s, run) == Run(DatabaseLayout, s, run)
    decreases |run|
  {
    hide Step, StepFits;
    if run != [] {
      var f, d := Step(FileLayout, s, run[0].now, run[0].cmd), Step(DatabaseLayout, s, run[0].now, run[0].cmd);
      StepAgreesIff(s, run[0].now, run[0].cmd);
      LayoutsAgreeIff(f.state, run[1..]);
      var fs, ds := Replies(FileLayout, s, run), Replies(DatabaseLayout, s, run);
      assert fs[0] == f.reply && ds[0] == d.reply;
      assert fs[1..] == Replies(FileLayout, f.state, run[1..]);
      assert ds[1..] == Replies(DatabaseLayout, d.state, run[1..]);
      assert fs == [fs[0]] + fs[1..] && ds == [ds[0]] + ds[1..];
    }
  }

  const MAX_MARK_PURPOSE := 878

  lemma MarkTextLength(purpose: string)
    ensures |MarkText(purpose)| == 122 + |purpose|
  {
  }

  /** An accepted mark fits iff fewer than 25 other blockers stand and the purpose leaves room for the notice. */
  lemma MarkFitsIff(s: State, now: int, c: Cmd)
    requires c.Mark? && MarkDecision(Expire(s, now), now, c.id, c.purpose, c.leaseId).Ok?
    ensures
      var blockers := s.tasks[c.id].record.continuity.blockers;
      MarkFits(s, now, c) <==> |NonPending(blockers)| < 25 && |c.purpose| <= MAX_MARK_PURPOSE
  {
    var r := s.tasks[c.id].record;
    var marked := MarkedBlockers(r.continuity.blockers, c.purpose);
    var kept := NonPending(r.continuity.blockers);
    MarkTextLength(c.purpose);
    hide MarkText, NonPending, HasPending, ValidHeader;
    assert marked == kept + [MarkText(c.purpose)];
    assert forall b :: b in kept ==> Text(b, 1000);
    assert forall i :: 0 <= i < |kept| ==> kept[i] in kept;
    assert marked[|kept|] == MarkText(c.purpose);
    assert Texts(marked, 25, 1000) <==> |kept| < 25 && |c.purpose| <= MAX_MARK_PURPOSE;
  }

  predicate Unreadable(s: State, id: nat) { id in s.tasks && !s.tasks[id].archived && !ValidRecord(s.tasks[id].record) }

  /** The file layout accepts an overfull mark and from then on no command of any run can read or change that task. */
  lemma {:induction false} OverfullMarkIsPermanent(s: State, run: seq<Timed>, i: nat, j: nat, id: nat)
    requires WfState(s) && i <= j <= |run|
    requires Unreadable(StateAt(FileLayout, s, run, i), id)
    ensures EntryAt(StateAt(FileLayout, s, run, j), id) == EntryAt(StateAt(FileLayout, s, run, i), id)
  {
    hide Step, ValidRecord, HasPending;
    if i < j {
      OverfullMarkIsPermanent(s, run, i, j - 1, id);
      EntryMoves(FileLayout, s, run, j - 1, id);
    }
  }

  /** One unreadable record also stops repair, which runs at every start. */
  lemma {:induction false} UnreadableStopsRepair(s: State, now: int, ids: seq<nat>, done: seq<nat>, id: nat)
    requires WfState(s) && Ascending(ids) && id in ids && Unreadable(s, id)
    ensures RepairFrom(s, now, ids, done).reply.Failed?
    decreases |ids|
  {
    hide ValidRecord, CloseDecision, Finalised;
    if id != ids[0] && GetRecord(s, ids[0]).Ok? {
      var r := GetRecord(s, ids[0]).value;
      assert id in ids[1..];
      if !IsTerminal(r.status) {
        UnreadableStopsRepair(s, now, ids[1..], done, id);
      } else {
        var o := CloseStep(s, now, ids[0], r.status, None, NoEdit, None);
        CloseOutcome(s, now, ids[0], r.status, None, NoEdit, None);
        if !o.reply.Failed? { UnreadableStopsRepair(o.state, now, ids[1..], done + [ids[0]], id); }
      }
    }
  }

  /** ... and every create whose scan reaches it, so no further task can be added after a smaller identifier matches none. */
  lemma {:induction false} UnreadableStopsCreate(s: State, ids: seq<nat>, identity: Identity, id: nat)
    requires (forall x :: x in ids ==> x in s.tasks) && Ascending(ids) && id in ids && Unreadable(s, id)
    requires forall x :: x in ids && x < id ==> !MatchesOpen(s, x, identity)
    ensures ScanEquivalent(s, ids, identity) == Err(InvalidRecord)
    decreases |ids|
  {
    hide ValidRecord, RecordIdentity;
    if id != ids[0] && ValidRecord(s.tasks[ids[0]].record) {
      assert id in ids[1..] && ids[0] < id;
      UnreadableStopsCreate(s, ids[1..], identity, id);
    }
  }

  /** The replies of a three-command run, one command at a time. */
  lemma ThreeReplies(kind: LayoutKind, s: State, run: seq<Timed>)
    requires |run| == 3
    ensures
      var a := Step(kind, s, run[0].now, run[0].cmd);
      var b := Step(kind, a.state, run[1].now, run[1].cmd);
      Replies(kind, s, run) == [a.reply, b.reply, Step(kind, b.state, run[2].now, run[2].cmd).reply]
  {
    hide Step;
    var a := Step(kind, s, run[0].now, run[0].cmd);
    var b := Step(kind, a.state, run[1].now, run[1].cmd);
    assert run[1..][1..] == [run[2]];
    assert Replies(kind, b.state, [run[2]]) == [Step(kind, b.state, run[2].now, run[2].cmd).reply] + [];
    assert Replies(kind, a.state, run[1..]) == [b.reply] + Replies(kind, b.state, run[1..][1..]);
    assert Replies(kind, s, run) == [a.reply] + Replies(kind, a.state, run[1..]);
  }

  /** Create a task with 25 ordinary blockers, mark it, read it back. */
  function OverfullRun(): seq<Timed> {
    var full := EmptyContinuity.(blockers := seq(25, (i: nat) => "b"));
    [At(0, Create("t", "o", None, None, full, false, 7)), At(1, Cmd.Mark(7, "p", None)), At(2, Get(7))]
  }

  lemma OverfullRecord()
    ensures OverfullRun()[0].cmd.Create?
    ensures
      var r := NewRecord(OverfullRun()[0].cmd, 0);
      && ValidRecord(r) && !IsTerminal(r.status) && r.id == 7 && |r.continuity.blockers| == 25
      && forall i :: 0 <= i < 25 ==> |r.continuity.blockers[i]| == 1
  {
    var c := OverfullRun()[0].cmd;
    assert forall i :: 0 <= i < 25 ==> Text(c.continuity.blockers[i], 1000);
  }

  /** A reachable run on which the layouts part. */
  lemma OverfullMarkExample()
    ensures
      var start := State(map[], map[]);
      && !RunFits(start, OverfullRun())
      && Replies(FileLayout, start, OverfullRun())[1].Record?
      && Replies(FileLayout, start, OverfullRun())[2] == Failed(InvalidRecord)
      && Replies(DatabaseLayout, start, OverfullRun())[1] == Failed(InvalidRecord)
      && Replies(DatabaseLayout, start, OverfullRun())[2].Record?
  {
    var start := State(map[], map[]);
    var run := OverfullRun();
    OverfullRecord();
    hide Step, ValidRecord, MarkDecision, Replies, RunFits, NewRecord;
    FirstCreate(run[0].cmd);
    OverfullSteps(NewRecord(run[0].cmd, 0), "p");
    ThreeReplies(FileLayout, start, run);
    ThreeReplies(DatabaseLayout, start, run);
    LayoutsAgreeIff(start, run);
  }

  /** A mark on a readable open record that already carries 25 ordinary blockers. */
  lemma OverfullSteps(r: TaskRecord, purpose: string)
    requires ValidRecord(r) && !IsTerminal(r.status) && |r.continuity.blockers| == 25
    requires forall i :: 0 <= i < 25 ==> |r.continuity.blockers[i]| == 1
    ensures
      var one := WriteRecord(State(map[], map[]), r);
      var m := Cmd.Mark(r.id, purpose, None);
      var f := Step(FileLayout, one, 1, m);
      && f.reply.Record? && Step(FileLayout, f.state, 2, Get(r.id)).reply == Failed(InvalidRecord)
      && Step(DatabaseLayout, one, 1, m) == Outcome(one, Failed(InvalidRecord))
      && Step(DatabaseLayout, one, 2, Get(r.id)).reply == Record(r)
  {
    var one := WriteRecord(State(map[], map[]), r);
    var m := Cmd.Mark(r.id, purpose, None);
    assert Expire(one, 1) == one && Expire(one, 2) == one;
    PlainBlockers(r.continuity.blockers);
    hide ValidContinuity, ValidHeader, MarkText, NonPending, HasPending;
    assert ReadActive(one, r.id) == Ok(r);
    var d := MarkDecision(one, 1, r.id, purpose, None);
    MarkRewrites(r, 1, purpose);
    assert d.Ok? && d.value.id == r.id by { BuildKeepsHeader(r, 1, MarkedBlockers(r.continuity.blockers, purpose)); }
    MarkFitsIff(one, 1, m);
    var f := Step(FileLayout, one, 1, m);
    assert f == Outcome(WriteRecord(one, d.value), Record(d.value));
    assert Expire(f.state, 2).tasks == f.state.tasks;
  }

  lemma BuildKeepsHeader(r: TaskRecord, now: int, blockers: seq<string>)
    requires ValidRecord(r)
    ensures BuildUpdated(r, now, NoEdit, None, r.continuity.(blockers := blockers), None).Ok?
  {
  }

  lemma FirstCreate(c: Cmd)
    requires c.Create? && ValidRecord(NewRecord(c, 0))
    ensures forall kind :: Step(kind, State(map[], map[]), 0, c)
                           == Outcome(WriteRecord(State(map[], map[]), NewRecord(c, 0)), Record(NewRecord(c, 0)))
  {
    hide ValidContinuity, ValidHeader, IdentityOf;
    var start := State(map[], map[]);
    assert Expire(start, 0) == start;
    assert ActiveIds(start) == {};
    assert Sorted(ActiveIds(start)) == [];
  }

  lemma PlainBlockers(blockers: seq<string>)
    requires forall i :: 0 <= i < |blockers| ==> |blockers[i]| == 1
    ensures NonPending(blockers) == blockers
  {
    assert forall i :: 0 <= i < |blockers| ==> !IsPending(blockers[i]);
  }

  // ---------- Crash-safe close ----------

  /** Merging a patch twice is merging it once, so a committed close matches its own request. */
  lemma CommitMatches(r: TaskRecord, now: int, final: FinalStatus, expected: Option<int>, e: Edit, u: TaskRecord)
    requires ValidRecord(r) && ExclusiveArgs(e) && CommitDecision(r, now, final, expected, e) == Ok(Commit(u))
    ensures DesiredCloseMatches(u, final, e) && !HasPending(u.continuity.blockers) && ValidRecord(u)
    ensures u.status == final && u.archivedAt == Some(now) && u.id == r.id && u.revision == r.revision + 1
  {
    hide ValidHeader, HasPending;
    if e.continuity.Some? {
      assert Merge(Merge(r.continuity, e.continuity.value), e.continuity.value) == Merge(r.continuity, e.continuity.value);
    }
  }

  lemma OneRoot(l: Layout, id: nat)
    requires Valid(l) && l.Files? && id in l.active
    ensures id !in l.archive
  {
  }

  lemma StageRoots(l: Layout, u: TaskRecord, k: nat)
    requires l.Files? && u.id in l.active && u.id !in l.archive && k < 3
    ensures var c := CloseStages(l, u)[k]; c.Files? && (u.id in c.active <==> k == 0) && (u.id in c.archive <==> k > 0)
  {
    hide ValidRecord;
  }

  /** Every stage keeps the task in exactly one root, with the committed record. */
  lemma StageState(l: Layout, u: TaskRecord, k: nat)
    requires Valid(l) && l.Files? && u.id in l.active && ValidRecord(u) && k < 3
    ensures
      var c := CloseStages(l, u)[k];
      && Valid(c) && c.Files? && (u.id in c.active <==> k == 0) && (u.id in c.archive <==> k > 0)
      && TasksOf(c) == TasksOf(l)[u.id := Entry(u, k > 0)]
      && StoredLeases(c) == (if k == 0 then StoredLeases(l) else StoredLeases(l) - {u.id})
  {
    hide Valid, TasksOf, StoredLeases, ValidRecord, ReadDir, MoveToArchive, DropLease;
    assert l.Files? && u.id in l.active;
    ReadWritten(l, u);
    var written := PutRecord(l, u).value;
    OneRoot(l, u.id);
    PutRecordAbs(l, u);
    StageRoots(l, u, k);
    if k > 0 {
      MoveAbs(written, u.id);
      assert TasksOf(l)[u.id := Entry(u, false)][u.id := Entry(u, true)] == TasksOf(l)[u.id := Entry(u, true)];
    }
  }

  /**
   * Crash after any durable step of a close, at any point of it: sending the same request again later
   * returns the record that was committed, and ends in the state an undisturbed close would have reached.
   */
  lemma RetryAfterCrash(l: Layout, now: int, id: nat, final: FinalStatus, expected: Option<int>, e: Edit, given: Option<nat>,
                        u: TaskRecord, k: nat, later: int)
    requires Valid(l) && l.Files? && now <= later && k < 3
    requires CloseDecision(Abs(l, now), now, id, final, expected, e, given) == Ok(Commit(u))
    ensures
      var c := CloseStages(l, u)[k];
      && Valid(c) && (id in c.active <==> id !in c.archive)
      && CloseStep(Abs(c, later), later, id, final, expected, e, given)
         == Outcome(ArchiveWith(Abs(l, later), u), Record(u))
  {
    CloseCommitted(l, now, id, final, expected, e, given, u);
    StageState(l, u, k);
    hide Valid, TasksOf, StoredLeases, ValidContinuity, ValidHeader, DesiredCloseMatches, HasPending, CommitDecision;
    var c := CloseStages(l, u)[k];
    LiveLater(l, now, later, id);
    LiveMinus(StoredLeases(l), {id}, later);
    var s := Abs(c, later);
    if k == 0 {
      assert ReadActive(s, id) == Ok(u);
      assert s.leases == Abs(l, later).leases;
      assert LeaseGuard(s, id, given).Ok?;
      ArchiveAfterWrite(Abs(l, later), u);
    } else {
      assert s == ArchiveWith(Abs(l, later), u);
    }
  }

  /** What an accepted first close says about the layout it meets. */
  lemma CloseCommitted(l: Layout, now: int, id: nat, final: FinalStatus, expected: Option<int>, e: Edit, given: Option<nat>,
                       u: TaskRecord)
    requires Valid(l) && l.Files?
    requires CloseDecision(Abs(l, now), now, id, final, expected, e, given) == Ok(Commit(u))
    ensures id in l.active && u.id == id && ValidRecord(u) && u.status == final && u.archivedAt.Some?
    ensures DesiredCloseMatches(u, final, e) && !HasPending(u.continuity.blockers) && ExclusiveArgs(e)
    ensures LeaseGuard(Abs(l, now), id, given).Ok?
  {
    hide DesiredCloseMatches, HasPending, ValidContinuity, ValidHeader, StoredLeases, LiveLeases;
    ReadsAgree(l, id);
    var r := TasksOf(l)[id].record;
    hide CommitDecision;
    assert CommitDecision(r, now, final, expected, e) == Ok(Commit(u));
    CommitMatches(r, now, final, expected, e, u);
  }

  lemma LiveLater(l: Layout, now: int, later: int, id: nat)
    requires now <= later
    ensures id in Abs(l, later).leases ==> id in Abs(l, now).leases && Abs(l, now).leases[id] == Abs(l, later).leases[id]
  {
  }

  /**
   * Repair after a crash inside a close. Before the rename it finishes the close, with the record and location of the
   * original request, iff this task has no unexpired lease and repair stops at no smaller active task; otherwise the committed
   * record stays active. After the rename there is nothing left to finish.
   */
  lemma RepairAfterCrash(l: Layout, now: int, id: nat, final: FinalStatus, expected: Option<int>, e: Edit, given: Option<nat>,
                         u: TaskRecord, k: nat, later: int)
    requires Valid(l) && l.Files? && now <= later && k < 3
    requires CloseDecision(Abs(l, now), now, id, final, expected, e, given) == Ok(Commit(u))
    ensures
      var s := Abs(l, later);
      var after := EntryAt(Step(FileLayout, Abs(CloseStages(l, u)[k], later), later, Repair).state, id);
      && (k == 0 ==> (after == Some(Entry(u, true)) <==> id !in s.leases && forall x: nat :: x < id ==> !Stops(s, x)))
      && (k == 0 ==> after == Some(Entry(u, true)) || after == Some(Entry(u, false)))
      && (k > 0 ==> after == Some(Entry(u, true)))
  {
    hide Valid, TasksOf, StoredLeases, LiveLeases, ValidRecord, HasPending, CloseDecision, Step, CloseStages, Due, Stops,
      DesiredCloseMatches;
    CloseCommitted(l, now, id, final, expected, e, given, u);
    StageState(l, u, k);
    var c := CloseStages(l, u)[k];
    var t := Abs(c, later);
    AbsWf(c, later);
    ExpireAbs(c, later);
    RepairExactly(FileLayout, t, later);
    assert t.tasks[id] == Entry(u, k > 0);
    if k == 0 {
      StopsElsewhere(Abs(l, later), t, u);
      DueCommitted(Abs(l, later), t, u);
    } else {
      ArchivedNotDue(t, id);
    }
  }

  lemma ArchivedNotDue(t: State, id: nat)
    ensures Due(t, id) ==> !t.tasks[id].archived
  {
    hide Stops;
  }

  lemma StopsElsewhere(s: State, t: State, u: TaskRecord)
    requires t.tasks == s.tasks[u.id := Entry(u, false)] && t.leases == s.leases
    ensures forall x: nat :: x != u.id ==> Stops(t, x) == Stops(s, x)
  {
    hide ValidRecord, HasPending;
  }

  lemma DueCommitted(s: State, t: State, u: TaskRecord)
    requires t.tasks == s.tasks[u.id := Entry(u, false)] && t.leases == s.leases
    requires ValidRecord(u) && IsTerminal(u.status) && u.archivedAt.Some? && !HasPending(u.continuity.blockers)
    requires forall x: nat :: x != u.id ==> Stops(t, x) == Stops(s, x)
    ensures Due(t, u.id) <==> u.id !in s.leases && forall x: nat :: x < u.id ==> !Stops(s, x)
    ensures RepairedRecord(u, 0) == u && forall now :: RepairedRecord(u, now) == u
  {
    hide ValidRecord, HasPending;
    assert Stops(t, u.id) <==> u.id in s.leases;
    hide Stops;
  }

  /** No command gives a final record a lease: what is still held is the lease the close was made under. */
  lemma {:induction false} NoLeaseForFinal(s: State, run: seq<Timed>, j: nat, id: nat)
    requires WfState(s) && j <= |run| && NeverDrawn(run, id) && Committed(EntryAt(s, id))
    ensures HeldAt(StateAt(FileLayout, s, run, j), id).Some? ==> HeldAt(StateAt(FileLayout, s, run, j), id) == HeldAt(s, id)
  {
    hide Step, ValidRecord, HasPending;
    if j > 0 {
      NoLeaseForFinal(s, run, j - 1, id);
      StateAtWf(FileLayout, s, run, j - 1);
      CommittedForever(FileLayout, s, run, 0, j - 1, id);
      var before := StateAt(FileLayout, s, run, j - 1);
      ExpireWf(before, run[j - 1].now);
      StepLeaseNeedsOpen(FileLayout, before, run[j - 1].now, run[j - 1].cmd, id);
    }
  }

  /**
   * Crash at any stage of a close, then any run of other commands: unless retention removed the task,
   * repeating the request returns the very record that was committed, with the revision bumped once.
   */
  lemma RetryAfterAnything(l: Layout, now: int, id: nat, final: FinalStatus, expected: Option<int>, e: Edit, given: Option<nat>,
                           u: TaskRecord, k: nat, run: seq<Timed>, later: int)
    requires Valid(l) && l.Files? && k < 3 && NeverDrawn(run, id)
    requires CloseDecision(Abs(l, now), now, id, final, expected, e, given) == Ok(Commit(u))
    ensures
      var after := StateAt(FileLayout, Abs(CloseStages(l, u)[k], now), run, |run|);
      id in after.tasks ==>
        Step(FileLayout, after, later, Close(id, final, expected, e, given)).reply == Record(u)
        && u.revision == TasksOf(l)[id].record.revision + 1
  {
    CloseCommitted(l, now, id, final, expected, e, given, u);
    CommitRevision(l, now, id, final, expected, e, given, u);
    StageState(l, u, k);
    var start := Abs(CloseStages(l, u)[k], now);
    AbsWf(CloseStages(l, u)[k], now);
    hide Valid, TasksOf, StoredLeases, LiveLeases, ValidContinuity, ValidHeader, HasPending, DesiredCloseMatches, Step;
    assert EntryAt(start, id) == Some(Entry(u, k > 0));
    CommittedForever(FileLayout, start, run, 0, |run|, id);
    NoLeaseForFinal(start, run, |run|, id);
    StateAtWf(FileLayout, start, run, |run|);
    var after := StateAt(FileLayout, start, run, |run|);
    LeaseOfStage(l, u, now, k, id);
    if id in after.tasks {
      RetryFinal(after, later, final, expected, e, given, u);
    }
  }

  lemma LeaseOfStage(l: Layout, u: TaskRecord, now: int, k: nat, id: nat)
    requires Valid(l) && l.Files? && u.id in l.active && ValidRecord(u) && k < 3 && u.id == id
    ensures HeldAt(Abs(CloseStages(l, u)[k], now), id).Some? ==> HeldAt(Abs(CloseStages(l, u)[k], now), id) == HeldAt(Abs(l, now), id)
  {
    StageState(l, u, k);
    hide Valid, TasksOf, StoredLeases;
    LiveMinus(StoredLeases(l), {id}, now);
  }

  lemma CommitRevision(l: Layout, now: int, id: nat, final: FinalStatus, expected: Option<int>, e: Edit, given: Option<nat>,
                       u: TaskRecord)
    requires Valid(l) && l.Files?
    requires CloseDecision(Abs(l, now), now, id, final, expected, e, given) == Ok(Commit(u))
    ensures id in TasksOf(l) && u.revision == TasksOf(l)[id].record.revision + 1
  {
    hide DesiredCloseMatches, HasPending, ValidContinuity, ValidHeader, StoredLeases, LiveLeases;
    ReadsAgree(l, id);
    hide CommitDecision;
    CommitMatches(TasksOf(l)[id].record, now, final, expected, e, u);
  }

  lemma RetryFinal(s: State, later: int, final: FinalStatus, expected: Option<int>, e: Edit, given: Option<nat>, u: TaskRecord)
    requires WfState(s) && u.id in s.tasks && s.tasks[u.id].record == u && ValidRecord(u)
    requires u.status == final && u.archivedAt.Some? && ExclusiveArgs(e)
    requires DesiredCloseMatches(u, final, e) && !HasPending(u.continuity.blockers)
    requires HeldAt(s, u.id).Some? ==> given == Some(HeldAt(s, u.id).value.leaseId)
    ensures Step(FileLayout, s, later, Close(u.id, final, expected, e, given)).reply == Record(u)
  {
    hide ValidContinuity, ValidHeader, HasPending, DesiredCloseMatches, CommitDecision;
    ExpireWf(s, later);
  }

  lemma AbsWf(l: Layout, now: int)
    requires Valid(l)
    ensures WfState(Abs(l, now))
  {
  }

  // ---------- The implementation over whole runs ----------

  lemma StepExpires(kind: LayoutKind, l: Layout, clock: int, now: int, c: Cmd)
    requires clock <= now
    ensures Step(kind, Abs(l, clock), now, c) == Step(kind, Abs(l, now), now, c)
  {
    assert Expire(Abs(l, clock), now) == Abs(l, now) == Expire(Abs(l, now), now);
    hide CloseStep, UpdateStep, CreateStep, MarkStep, RepairFrom, CleanupStep, AcquireStep, RefreshStep, ReleaseStep, ArchiveStep,
      AuthorizeStep, GetRecord, Abs, Expire;
  }

  /** The store, of either layout, answers a timed sequence of commands as the abstract store does. */
  method RunCommands(store: TaskStore, run: seq<Timed>, ghost start: int) returns (replies: seq<Reply>)
    requires Valid(store.layout) && Monotone(run) && forall i :: 0 <= i < |run| ==> start <= run[i].now
    modifies store
    ensures Valid(store.layout) && Kind(store.layout) == Kind(old(store.layout))
    ensures replies == Replies(Kind(store.layout), Abs(old(store.layout), start), run)
    ensures run != [] ==> Abs(store.layout, run[|run| - 1].now) == Run(Kind(store.layout), Abs(old(store.layout), start), run)
  {
    hide Valid, Abs, Step;
    replies := [];
    var i := 0;
    ghost var clock := start;
    ghost var kind, first := Kind(store.layout), Abs(store.layout, start);
    assert run[0..] == run;
    while i < |run|
      invariant 0 <= i <= |run| && clock == if i == 0 then start else run[i - 1].now
      invariant Valid(store.layout) && Kind(store.layout) == kind
      invariant replies + Replies(kind, Abs(store.layout, clock), run[i..]) == Replies(kind, first, run)
      invariant Run(kind, Abs(store.layout, clock), run[i..]) == Run(kind, first, run)
    {
      ghost var s := Abs(store.layout, clock);
      StepExpires(kind, store.layout, clock, run[i].now, run[i].cmd);
      var reply := store.Execute(run[i].now, run[i].cmd);
      assert run[i..][1..] == run[i + 1..];
      assert Replies(kind, s, run[i..]) == [reply] + Replies(kind, Abs(store.layout, run[i].now), run[i + 1..]);
      replies := replies + [reply];
      clock := run[i].now;
      i := i + 1;
    }
    assert run[i..] == [];
  }

  /** A file store and a database store that start alike reply alike to a whole run iff every mark fits. */
  method RunBoth(files: TaskStore, database: TaskStore, run: seq<Timed>, ghost start: int)
    returns (fileReplies: seq<Reply>, databaseReplies: seq<Reply>)
    requires files != database && files.layout.Files? && database.layout.Db?
    requires Valid(files.layout) && Valid(database.layout) && Abs(files.layout, start) == Abs(database.layout, start)
    requires Monotone(run) && forall i :: 0 <= i < |run| ==> start <= run[i].now
    modifies files, database
    ensures fileReplies == databaseReplies <==> RunFits(Abs(old(files.layout), start), run)
    ensures fileReplies == databaseReplies && run != [] ==>
              Abs(files.layout, run[|run| - 1].now) == Abs(database.layout, run[|run| - 1].now)
  {
    hide Valid, Abs, Step;
    LayoutsAgreeIff(Abs(files.layout, start), run);
    fileReplies := RunCommands(files, run, start);
    databaseReplies := RunCommands(database, run, start);
  }
}
