/**
 * The server glue around the task store: a task is marked pending before a mutating run is created.
 *
 * A segment is what one request does between two suspension points of the event loop, so segments
 * never interleave with each other. Dispatch is the in-process path, where preparing the task and creating
 * the run share one segment. Prepare and Accept are the two halves of the socket path, where the
 * executor creates the run later, in a process of its own, without looking at the task again.
 */
module Reconciliation {
  import opened Common
  import opened TaskModel
  import opened TaskSpec
  import opened TaskHistory
  import opened TaskPending

  /** Where a dispatch can fail: before the task is touched, after it was marked, or nowhere. */
  datatype Fault = BeforeMark | AfterMark | NoFault

  datatype Submission = Submission(task: Option<nat>, mutates: bool, purpose: string, leaseId: Option<nat>)

  datatype Segment =
    | TaskRequest(cmd: Cmd)
    | Dispatch(submission: Submission, runId: nat, fault: Fault)
    | Prepare(submission: Submission)
    | Accept(waiting: nat, runId: nat)

  datatype Sys = Sys(tasks: State, runs: map<nat, Submission>, waiting: seq<Submission>)

  datatype Tick = Tick(now: int, segment: Segment)

  /** Tools reach the store through every command but the mark, which only the glue issues. */
  predicate WellFormed(t: Tick) { t.segment.TaskRequest? ==> !t.segment.cmd.Mark? }

  /** What preparing a submission asks of the task store; a read-only one just looks at the task. */
  function PrepareCmd(sub: Submission): Cmd {
    if sub.task.None? then Get(0)
    else if sub.mutates then Cmd.Mark(sub.task.value, sub.purpose, sub.leaseId)
    else Get(sub.task.value)
  }

  function CmdOf(segment: Segment): Cmd {
    match segment
    case TaskRequest(cmd) => cmd
    case Dispatch(submission, _, fault) => if fault.BeforeMark? then Get(0) else PrepareCmd(submission)
    case Prepare(submission) => PrepareCmd(submission)
    case Accept(_, _) => Get(0)
  }

  /** Preparation raised nothing, so the submission goes on to the executor. */
  predicate Prepared(kind: LayoutKind, s: State, now: int, sub: Submission) {
    || sub.task.None?
    || (sub.mutates && !Step(kind, s, now, PrepareCmd(sub)).reply.Failed?)
    || (!sub.mutates && RequireOpen(s, sub.task.value).Ok?)
  }

  function SysStep(kind: LayoutKind, y: Sys, t: Tick): Sys {
    var tasks := Step(kind, y.tasks, t.now, CmdOf(t.segment)).state;
    match t.segment
    case TaskRequest(_) => y.(tasks := tasks)
    case Dispatch(sub, runId, fault) =>
      if fault.NoFault? && Prepared(kind, y.tasks, t.now, sub) && runId !in y.runs then
        Sys(tasks, y.runs[runId := sub], y.waiting)
      else y.(tasks := tasks)
    case Prepare(sub) =>
      if Prepared(kind, y.tasks, t.now, sub) then Sys(tasks, y.runs, y.waiting + [sub]) else y.(tasks := tasks)
    case Accept(n, runId) =>
      if n < |y.waiting| && runId !in y.runs then
        Sys(tasks, y.runs[runId := y.waiting[n]], y.waiting[..n] + y.waiting[n + 1..])
      else y.(tasks := tasks)
  }

  function SysAt(kind: LayoutKind, y: Sys, trace: seq<Tick>, i: nat): Sys
    requires i <= |trace|
  {
    if i == 0 then y else SysStep(kind, SysAt(kind, y, trace, i - 1), trace[i - 1])
  }

  function Commands(trace: seq<Tick>): (run: seq<Timed>)
    ensures |run| == |trace|
  {
    seq(|trace|, i requires 0 <= i < |trace| => At(trace[i].now, CmdOf(trace[i].segment)))
  }

  /** The tasks of the system move exactly as the task store does under the projected commands. */
  lemma {:induction false} TasksProject(kind: LayoutKind, y: Sys, trace: seq<Tick>, i: nat)
    requires i <= |trace|
    ensures SysAt(kind, y, trace, i).tasks == StateAt(kind, y.tasks, Commands(trace), i)
  {
    hide Step, Prepared;
    if i > 0 { TasksProject(kind, y, trace, i - 1); }
  }

  /** Segment i created this run. */
  ghost predicate Creates(kind: LayoutKind, y: Sys, trace: seq<Tick>, i: nat, runId: nat)
    requires i < |trace|
  {
    runId !in SysAt(kind, y, trace, i).runs && runId in SysAt(kind, y, trace, i + 1).runs
  }

  ghost predicate InProcess(trace: seq<Tick>) {
    forall i :: 0 <= i < |trace| ==> !trace[i].segment.Prepare? && !trace[i].segment.Accept?
  }

  /** A run once created stays recorded with its submission, and some segment created it. */
  lemma {:induction false} RunCreatedOnce(kind: LayoutKind, y: Sys, trace: seq<Tick>, j: nat, runId: nat) returns (i: nat)
    requires j <= |trace| && runId !in y.runs && runId in SysAt(kind, y, trace, j).runs
    ensures i < j && Creates(kind, y, trace, i, runId)
    ensures SysAt(kind, y, trace, i + 1).runs[runId] == SysAt(kind, y, trace, j).runs[runId]
  {
    hide Step, Prepared;
    if runId in SysAt(kind, y, trace, j - 1).runs {
      i := RunCreatedOnce(kind, y, trace, j - 1, runId);
    } else {
      i := j - 1;
    }
  }

  predicate OpenEntry(e: Option<Entry>) { e.Some? && !e.value.archived && !IsTerminal(e.value.record.status) }

  /** An accepted mark leaves the task open and pending. */
  lemma MarkAccepted(kind: LayoutKind, s: State, now: int, c: Cmd)
    requires WfState(s) && c.Mark? && !Step(kind, s, now, c).reply.Failed?
    ensures OpenEntry(EntryAt(s, c.id)) && OpenPending(EntryAt(Step(kind, s, now, c).state, c.id))
  {
    hide ValidContinuity, ValidHeader, HasPending, MarkedBlockers, LiveLeases, Rewritten;
    ExpireWf(s, now);
    var x := Expire(s, now);
    if ReadActive(x, c.id).Ok? && !IsTerminal(x.tasks[c.id].record.status) {
      MarkRewrites(x.tasks[c.id].record, now, c.purpose);
    }
  }

  /** A task open in the active root is, as long as it exists, either still open there or archived. */
  lemma {:induction false} OpenUntilArchived(kind: LayoutKind, s: State, run: seq<Timed>, i: nat, j: nat, id: nat)
    requires WfState(s) && i <= j <= |run| && NeverDrawn(run, id)
    requires OpenEntry(EntryAt(StateAt(kind, s, run, i), id))
    ensures var b := EntryAt(StateAt(kind, s, run, j), id); b.Some? ==> OpenEntry(b) || b.value.archived
  {
    hide Step, ValidRecord, HasPending;
    if i < j {
      OpenUntilArchived(kind, s, run, i, j - 1, id);
      EntryMoves(kind, s, run, j - 1, id);
      RevisionIdentifiesRecord(kind, s, run, j - 1, j, id);
    }
  }

  lemma {:induction false} ArchivingStep(kind: LayoutKind, s: State, run: seq<Timed>, i: nat, j: nat, id: nat) returns (m: nat)
    requires WfState(s) && i <= j <= |run| && NeverDrawn(run, id)
    requires EntryAt(StateAt(kind, s, run, i), id).Some? && !EntryAt(StateAt(kind, s, run, i), id).value.archived
    requires EntryAt(StateAt(kind, s, run, j), id).Some? && EntryAt(StateAt(kind, s, run, j), id).value.archived
    ensures i <= m < j && ArchivesAt(kind, s, run, m, id)
    decreases j - i
  {
    hide Step, ValidRecord, HasPending;
    RevisionIdentifiesRecord(kind, s, run, i + 1, j, id);
    if EntryAt(StateAt(kind, s, run, i + 1), id).value.archived {
      m := i;
    } else {
      m := ArchivingStep(kind, s, run, i + 1, j, id);
    }
  }

  /** Command m moves the task from the active root to the archive. */
  ghost predicate ArchivesAt(kind: LayoutKind, s: State, run: seq<Timed>, m: nat, id: nat)
    requires m < |run|
  {
    var a, b := EntryAt(StateAt(kind, s, run, m), id), EntryAt(StateAt(kind, s, run, m + 1), id);
    a.Some? && b.Some? && !a.value.archived && b.value.archived
  }

  /**
   * Whole-system safety. In every interleaving of in-process requests, if a task is terminal then each
   * mutating run linked to it was created by a segment that found the task open and left it pending,
   * later an update carrying reconciliation evidence was accepted, and only after that was the task closed.
   */
  lemma TerminalMeansReconciled(kind: LayoutKind, y: Sys, trace: seq<Tick>, j: nat, id: nat, runId: nat)
    returns (created: nat, reconciled: nat, closed: nat)
    requires WfState(y.tasks) && y.runs == map[] && j <= |trace|
    requires (forall i :: 0 <= i < |trace| ==> WellFormed(trace[i])) && InProcess(trace) && NeverDrawn(Commands(trace), id)
    requires
      var now := SysAt(kind, y, trace, j);
      && runId in now.runs && now.runs[runId].mutates && now.runs[runId].task == Some(id)
      && id in now.tasks.tasks && IsTerminal(now.tasks.tasks[id].record.status)
    ensures created < reconciled < closed < j && Creates(kind, y, trace, created, runId)
    ensures OpenEntry(EntryAt(SysAt(kind, y, trace, created).tasks, id))
    ensures OpenPending(EntryAt(SysAt(kind, y, trace, created + 1).tasks, id))
    ensures trace[reconciled].segment.TaskRequest? && Reconciles(trace[reconciled].segment.cmd, id)
    ensures Changes(kind, y.tasks, Commands(trace), reconciled, id)
    ensures ArchivesAt(kind, y.tasks, Commands(trace), closed, id)
  {
    hide Step, ValidRecord, HasPending, Prepared, EntryAt, OpenEntry, OpenPending, Changes, ArchivesAt;
    created := RunCreatedOnce(kind, y, trace, j, runId);
    TasksProject(kind, y, trace, created);
    TasksProject(kind, y, trace, created + 1);
    TasksProject(kind, y, trace, j);
    StateAtWf(kind, y.tasks, Commands(trace), created);
    DispatchMarks(kind, SysAt(kind, y, trace, created), trace[created], runId, id);
    reconciled, closed := ReconciledThenClosed(kind, y.tasks, Commands(trace), created + 1, j, id);
    OnlyRequestsReconcile(trace[reconciled].segment, id);
  }

  lemma OnlyRequestsReconcile(segment: Segment, id: nat)
    ensures Reconciles(CmdOf(segment), id) ==> segment.TaskRequest? && segment.cmd == CmdOf(segment)
  {
  }

  /** Between an open pending task and the same task terminal lie a reconciliation and then a close. */
  lemma ReconciledThenClosed(kind: LayoutKind, s: State, run: seq<Timed>, i: nat, j: nat, id: nat) returns (k: nat, m: nat)
    requires WfState(s) && i <= j <= |run| && NeverDrawn(run, id)
    requires OpenPending(EntryAt(StateAt(kind, s, run, i), id))
    requires id in StateAt(kind, s, run, j).tasks && IsTerminal(StateAt(kind, s, run, j).tasks[id].record.status)
    ensures i <= k < m < j && Reconciles(run[k].cmd, id) && Changes(kind, s, run, k, id) && ArchivesAt(kind, s, run, m, id)
  {
    hide Step, StateAt, ValidRecord, HasPending;
    OpenUntilArchived(kind, s, run, i, j, id);
    PendingNeedsReconciliation(kind, s, run, i, j, id);
    k :| i <= k < j && Reconciles(run[k].cmd, id) && Changes(kind, s, run, k, id)
      && !EntryAt(StateAt(kind, s, run, k + 1), id).value.archived;
    m := ArchivingStep(kind, s, run, k + 1, j, id);
  }

  /** The in-process segment that creates a mutating run for a task is the one that marks it. */
  lemma DispatchMarks(kind: LayoutKind, y: Sys, t: Tick, runId: nat, id: nat)
    requires WfState(y.tasks) && !t.segment.Accept?
    requires
      var n := SysStep(kind, y, t);
      runId !in y.runs && runId in n.runs && n.runs[runId].mutates && n.runs[runId].task == Some(id)
    ensures OpenEntry(EntryAt(y.tasks, id)) && OpenPending(EntryAt(SysStep(kind, y, t).tasks, id))
  {
    hide Step;
    MarkAccepted(kind, y.tasks, t.now, PrepareCmd(t.segment.submission));
  }

  /**
   * On the socket path the run is created later. At that moment its task is open and pending exactly when some command accepted
   * since the preparation, that one included, raised the flag and no reconciling update of the task has been accepted after it.
   */
  lemma AcceptedWhilePending(kind: LayoutKind, y: Sys, trace: seq<Tick>, p: nat, a: nat, id: nat)
    requires WfState(y.tasks) && p < a <= |trace| && NeverDrawn(Commands(trace), id)
    requires trace[p].segment.Prepare? && trace[p].segment.submission.mutates && trace[p].segment.submission.task == Some(id)
    requires Prepared(kind, SysAt(kind, y, trace, p).tasks, trace[p].now, trace[p].segment.submission)
    ensures OpenPending(EntryAt(SysAt(kind, y, trace, a).tasks, id))
            <==> exists m :: p <= m < a && RaisedSince(kind, y.tasks, Commands(trace), m, a, id)
  {
    hide Step, ValidRecord, HasPending, EntryAt, OpenEntry, OpenPending, Changes, Raises, Reconciles, StateAt, SysAt, Prepared;
    var run := Commands(trace);
    TasksProject(kind, y, trace, p);
    TasksProject(kind, y, trace, a);
    PreparedRaises(kind, y, trace, p, id);
    PendingIff(kind, y.tasks, run, p, a, id);
    if Unreconciled(kind, y.tasks, run, p, a, id) {
      assert Unreconciled(kind, y.tasks, run, p + 1, a, id);
      assert RaisedSince(kind, y.tasks, run, p, a, id);
    }
  }

  /** An accepted preparation of a mutating submission is an accepted mark. */
  lemma PreparedRaises(kind: LayoutKind, y: Sys, trace: seq<Tick>, p: nat, id: nat)
    requires WfState(y.tasks) && p < |trace|
    requires trace[p].segment.Prepare? && trace[p].segment.submission.mutates && trace[p].segment.submission.task == Some(id)
    requires Prepared(kind, SysAt(kind, y, trace, p).tasks, trace[p].now, trace[p].segment.submission)
    ensures Raises(Commands(trace)[p].cmd, id) && Changes(kind, y.tasks, Commands(trace), p, id)
  {
    hide Step, ValidRecord, HasPending, MarkedBlockers;
    TasksProject(kind, y, trace, p);
    TasksProject(kind, y, trace, p + 1);
    StateAtWf(kind, y.tasks, Commands(trace), p);
    MarkChanges(kind, SysAt(kind, y, trace, p).tasks, trace[p].now, PrepareCmd(trace[p].segment.submission));
  }

  lemma MarkChanges(kind: LayoutKind, s: State, now: int, c: Cmd)
    requires WfState(s) && c.Mark? && !Step(kind, s, now, c).reply.Failed?
    ensures
      var t := Step(kind, s, now, c).state;
      c.id in s.tasks && c.id in t.tasks && t.tasks[c.id].record.revision == s.tasks[c.id].record.revision + 1
  {
    hide ValidContinuity, ValidHeader, HasPending, MarkedBlockers, LiveLeases;
    ExpireWf(s, now);
  }

  // ---------- The socket path can accept a run after its task was closed ----------

  const PLAIN := TaskRecord(2, 1, 7, "t", "o", None, Active, None, EmptyContinuity, false, 0, 0, None)

  const MARKED := PLAIN.(revision := 2, updatedAt := 1, continuity := EmptyContinuity.(blockers := [MarkText("p")]))

  const RECONCILED := PLAIN.(revision := 3, updatedAt := 2,
                             continuity := EmptyContinuity.(validation := ["Mutation reconciliation: " + "seen"]))

  const CLOSED := RECONCILED.(revision := 4, status := Completed, updatedAt := 3, archivedAt := Some(3))

  function Holding(r: TaskRecord, archived: bool): State { State(map[7 := Entry(r, archived)], map[]) }

  lemma LateMark()
    ensures Step(FileLayout, Holding(PLAIN, false), 1, Cmd.Mark(7, "p", None)) == Outcome(Holding(MARKED, false), Record(MARKED))
  {
    var s := Holding(PLAIN, false);
    assert Expire(s, 1) == s;
    assert NonPending([]) == [];
    assert MarkedBlockers([], "p") == [MarkText("p")];
    assert WriteRecord(s, MARKED) == Holding(MARKED, false);
  }

  lemma LateReconcile()
    ensures Step(FileLayout, Holding(MARKED, false), 2, Update(7, None, None, NoEdit, Some("seen"), None))
            == Outcome(Holding(RECONCILED, false), Record(RECONCILED))
  {
    var s := Holding(MARKED, false);
    var b := MARKED.continuity.blockers;
    assert Expire(s, 2) == s;
    assert |MarkText("p")| == 123;
    hide MarkText;
    assert IsPending(b[0]) by { assert IsPending(MarkedBlockers([], "p")[0]); }
    assert HasPending(b) && NonPending(b) == [] by { assert NonPending(b[1..]) == []; }
    assert ValidContinuity(MARKED.continuity) && ValidContinuity(RECONCILED.continuity);
    assert MARKED.continuity.validation + RECONCILED.continuity.validation == RECONCILED.continuity.validation;
    assert Reconciled(MARKED.continuity, "seen") == RECONCILED.continuity;
    assert WriteRecord(s, RECONCILED) == Holding(RECONCILED, false);
  }

  lemma LateClose()
    ensures Step(FileLayout, Holding(RECONCILED, false), 3, Close(7, Completed, None, NoEdit, None))
            == Outcome(Holding(CLOSED, true), Record(CLOSED))
  {
    var s := Holding(RECONCILED, false);
    assert Expire(s, 3) == s;
    assert !HasPending([]);
    assert ArchiveWith(s, CLOSED) == Holding(CLOSED, true);
  }

  /** Prepare, reconcile, close, accept: a mutating run appears for a task that is already archived. */
  lemma SocketAcceptanceCanComeLate()
    ensures
      var sub := Submission(Some(7), true, "p", None);
      var start := Sys(Holding(PLAIN, false), map[], []);
      var trace := [Tick(1, Prepare(sub)), Tick(2, TaskRequest(Update(7, None, None, NoEdit, Some("seen"), None))),
                    Tick(3, TaskRequest(Close(7, Completed, None, NoEdit, None))), Tick(4, Accept(0, 1))];
      && Creates(FileLayout, start, trace, 3, 1) && SysAt(FileLayout, start, trace, 4).runs[1] == sub
      && !OpenEntry(EntryAt(SysAt(FileLayout, start, trace, 3).tasks, 7))
  {
    var sub := Submission(Some(7), true, "p", None);
    var start := Sys(Holding(PLAIN, false), map[], []);
    var update, close := Update(7, None, None, NoEdit, Some("seen"), None), Close(7, Completed, None, NoEdit, None);
    var trace := [Tick(1, Prepare(sub)), Tick(2, TaskRequest(update)), Tick(3, TaskRequest(close)), Tick(4, Accept(0, 1))];
    LateMark();
    LateReconcile();
    LateClose();
    hide Step;
    assert SysAt(FileLayout, start, trace, 1) == Sys(Holding(MARKED, false), map[], [sub]);
    assert SysAt(FileLayout, start, trace, 2) == Sys(Holding(RECONCILED, false), map[], [sub]);
    assert SysAt(FileLayout, start, trace, 3) == Sys(Holding(CLOSED, true), map[], [sub]);
  }
}
