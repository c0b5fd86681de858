/** What holds of every Run over every sequence of store commands. */
module RunHistory {
  import opened Common
  import opened TaskSpec
  import opened Runs
  import opened RunStores

  datatype RunAt = RunAt(now: int, cmd: RunCmd)

  /** The state after the first i commands. */
  function RunsAfter(s: RunState, run: seq<RunAt>, i: nat): RunState
    requires i <= |run|
  {
    if i == 0 then s else RunStep(RunsAfter(s, run, i - 1), run[i - 1].now, run[i - 1].cmd).state
  }

  // ---------- The invariant of a stored record ----------

  predicate RunWf(r: RunRecord, id: nat, now: int) {
    && Storable(r) && r.core.id == id
    && (r.core.ambiguous <==> r.core.mayMutate && IsAmbiguousStatus(r.core.status))
    && (r.core.endedAt.Some? <==> !r.core.status.Running?)
    && r.core.startedAt <= now
    && (r.core.endedAt.Some? ==> r.core.startedAt <= r.core.endedAt.value <= now)
  }

  ghost predicate Wf(s: RunState, now: int) { forall id :: id in s ==> RunWf(s[id], id, now) }

  /** Identifiers are drawn fresh and the clock does not run backwards. */
  ghost predicate GoodRun(s: RunState, start: int, run: seq<RunAt>) {
    && (forall i :: 0 <= i < |run| ==> start <= run[i].now)
    && (forall i, j :: 0 <= i < j < |run| ==> run[i].now <= run[j].now)
    && (forall i :: 0 <= i < |run| && run[i].cmd.Start? ==> run[i].cmd.freshId !in s)
    && (forall i, j :: 0 <= i < j < |run| && run[i].cmd.Start? && run[j].cmd.Start? ==>
          run[i].cmd.freshId != run[j].cmd.freshId)
  }

  function ClockAt(start: int, run: seq<RunAt>, i: nat): int
    requires i <= |run|
  {
    if i == 0 then start else run[i - 1].now
  }

  // ---------- One step, seen from one Run ----------

  function At(s: RunState, id: nat): Option<RunRecord> { if id in s then Some(s[id]) else None }

  /** The two records describe the same execution request. */
  predicate SameRequest(a: RunRecord, b: RunRecord) {
    && a.mode == b.mode && a.class_ == b.class_ && a.purpose == b.purpose && a.resultRef == b.resultRef
    && b.core == a.core.(retained := b.core.retained, endedAt := b.core.endedAt, status := b.core.status,
                         ambiguous := b.core.ambiguous, exitCode := b.core.exitCode, timedOut := b.core.timedOut,
                         durationMs := b.core.durationMs, stdoutBytes := b.core.stdoutBytes, stderrBytes := b.core.stderrBytes,
                         stdoutTruncated := b.core.stdoutTruncated, stderrTruncated := b.core.stderrTruncated,
                         errorType := b.core.errorType)
  }

  predicate Begins(b: RunRecord, now: int) { b.core.status.Running? && b.core.startedAt == now && !b.core.retained }

  predicate Ends(a: RunRecord, b: RunRecord, now: int) {
    a.core.status.Running? && !b.core.status.Running? && SameRequest(a, b) && b.core.retained == a.core.retained
    && b.core.endedAt == Some(now)
  }

  predicate RunMoves(a: Option<RunRecord>, b: Option<RunRecord>, now: int) {
    || a == b
    || (a.None? && b.Some? && Begins(b.value, now))
    || (a.Some? && b.Some? && Ends(a.value, b.value, now))
    || (a.Some? && b.Some? && b.value == Retained(a.value, b.value.core.retained))
    || (a.Some? && b.None? && IsCleanupStatus(a.value.core.status) && !a.value.core.retained && !a.value.core.ambiguous)
  }

  lemma FinishMoves(a: RunRecord, now: int, e: Execution)
    requires a.core.status.Running? && IsExecutionStatus(e.status)
    ensures Ends(a, Finished(a, now, e), now)
  {
    hide ExecutionSummary;
  }

  lemma EndMoves(a: RunRecord, now: int, status: Ending, errorType: string)
    requires a.core.status.Running?
    ensures Ends(a, EndedWithout(a, now, status, errorType), now)
  {
    hide InternalSummary;
  }

  lemma BeginMoves(q: Request, id: nat, now: int)
    ensures NewRun(q, id, now).Ok? ==> Begins(NewRun(q, id, now).value, now)
  {
    hide NormalizeOptional;
  }

  lemma StepMoves(s: RunState, now: int, c: RunCmd, id: nat)
    requires c.Start? ==> c.freshId !in s
    ensures RunMoves(At(s, id), At(RunStep(s, now, c).state, id), now)
  {
    match c
    case Start(q, x) => BeginMoves(q, x, now); hide NewRun, Begins;
    case Finish(x, e) =>
      if x in s && s[x].core.status.Running? && IsExecutionStatus(e.status) { FinishMoves(s[x], now, e); }
      hide Finished, ValidRun, Ends;
    case EndWithout(x, status, errorType) =>
      if x in s && s[x].core.status.Running? { EndMoves(s[x], now, status, errorType); }
      hide EndedWithout, ValidRun, Ends;
    case Retain(x, flag) => hide ValidRun;
    case Reconcile(modes) =>
      if id in s && s[id].core.status.Running? { EndMoves(s[id], now, Interrupted, RestartError(s[id].mode)); }
      hide EndedWithout, Ends;
    case Purge(days) =>
  }

  // ---------- The invariant holds in every reachable state ----------

  lemma EndedWf(a: RunRecord, id: nat, now: int, status: Ending, errorType: string)
    requires RunWf(a, id, now) && a.core.status.Running?
    ensures RunWf(EndedWithout(a, now, status, errorType), id, now)
  {
    EndedStorable(a, now, status, errorType);
    hide InternalSummary, Storable;
  }

  lemma FinishedWf(a: RunRecord, id: nat, now: int, e: Execution)
    requires RunWf(a, id, now) && a.core.status.Running? && ValidRun(a) && IsExecutionStatus(e.status)
    ensures RunWf(Finished(a, now, e), id, now)
  {
    FinishKeepsValid(a, now, e);
    ValidStorable(Finished(a, now, e));
    hide ExecutionSummary, Storable, ValidRun;
  }

  lemma RetainedWf(a: RunRecord, id: nat, now: int, flag: bool)
    requires RunWf(a, id, now) && ValidRun(a)
    ensures RunWf(Retained(a, flag), id, now)
  {
    RetainKeepsValid(a, flag);
    ValidStorable(Retained(a, flag));
    hide Storable, ValidRun;
  }

  lemma NewWf(q: Request, id: nat, now: int)
    ensures NewRun(q, id, now).Ok? ==> RunWf(NewRun(q, id, now).value, id, now)
  {
    NewRunStorable(q, id, now);
    hide Storable, NormalizeOptional;
  }

  lemma StepKeepsWf(s: RunState, before: int, now: int, c: RunCmd)
    requires Wf(s, before) && before <= now
    ensures Wf(RunStep(s, now, c).state, now)
  {
    var t := RunStep(s, now, c).state;
    forall id | id in t ensures RunWf(t[id], id, now) {
      hide Storable, ValidRun;
      assert id in s ==> RunWf(s[id], id, now);
      match c
      case Start(q, x) => NewWf(q, x, now);
      case Finish(x, e) =>
        if x in s && ValidRun(s[x]) && s[x].core.status.Running? && IsExecutionStatus(e.status) {
          assert RunWf(s[x], x, now);
          FinishedWf(s[x], x, now, e);
        }
      case EndWithout(x, status, errorType) =>
        if x in s && s[x].core.status.Running? {
          assert RunWf(s[x], x, now);
          EndedWf(s[x], x, now, status, errorType);
        }
      case Retain(x, flag) =>
        if x in s && ValidRun(s[x]) {
          assert RunWf(s[x], x, now);
          RetainedWf(s[x], x, now, flag);
        }
      case Reconcile(modes) =>
        if s[id].core.status.Running? { EndedWf(s[id], id, now, Interrupted, RestartError(s[id].mode)); }
      case Purge(days) =>
    }
  }

  /** In every reachable state a Run is ambiguous exactly when it may mutate and its status is, and its times are ordered. */
  lemma {:induction false} EveryStateWf(s: RunState, start: int, run: seq<RunAt>, i: nat)
    requires Wf(s, start) && GoodRun(s, start, run) && i <= |run|
    ensures Wf(RunsAfter(s, run, i), ClockAt(start, run, i))
  {
    hide Wf, RunStep;
    if i > 0 {
      EveryStateWf(s, start, run, i - 1);
      StepKeepsWf(RunsAfter(s, run, i - 1), ClockAt(start, run, i - 1), run[i - 1].now, run[i - 1].cmd);
    }
  }

  // ---------- A Run leaves running at most once ----------

  lemma {:induction false} IdsFresh(s: RunState, start: int, run: seq<RunAt>, i: nat, id: nat)
    requires GoodRun(s, start, run) && i <= |run|
    ensures id in RunsAfter(s, run, i) ==> id in s || exists k :: 0 <= k < i && run[k].cmd.Start? && run[k].cmd.freshId == id
  {
    hide RunStep;
    if i > 0 {
      IdsFresh(s, start, run, i - 1, id);
      NewIdIsStart(RunsAfter(s, run, i - 1), run[i - 1].now, run[i - 1].cmd, id);
    }
  }

  lemma NewIdIsStart(s: RunState, now: int, c: RunCmd, id: nat)
    ensures id in RunStep(s, now, c).state ==> id in s || (c.Start? && c.freshId == id)
  {
    hide NewRun, ValidRun, Finished, EndedWithout;
  }

  /** Each command of a run moves one Run by at most one of the five moves. */
  lemma RunMovesAt(s: RunState, start: int, run: seq<RunAt>, i: nat, id: nat)
    requires GoodRun(s, start, run) && i < |run|
    ensures RunMoves(At(RunsAfter(s, run, i), id), At(RunsAfter(s, run, i + 1), id), run[i].now)
    ensures id in RunsAfter(s, run, i + 1) && id !in RunsAfter(s, run, i) ==> run[i].cmd.Start? && run[i].cmd.freshId == id
  {
    if run[i].cmd.Start? { IdsFresh(s, start, run, i, run[i].cmd.freshId); }
    hide RunStep, RunMoves;
    StepMoves(RunsAfter(s, run, i), run[i].now, run[i].cmd, id);
    NewIdIsStart(RunsAfter(s, run, i), run[i].now, run[i].cmd, id);
  }

  /** A Run that was once in the store and left it never comes back. */
  lemma {:induction false} GoneForever(s: RunState, start: int, run: seq<RunAt>, i: nat, j: nat, id: nat)
    requires GoodRun(s, start, run) && i < j <= |run|
    requires id in RunsAfter(s, run, i) && id !in RunsAfter(s, run, i + 1)
    ensures id !in RunsAfter(s, run, j)
  {
    hide RunStep, RunMoves;
    if i + 1 < j {
      GoneForever(s, start, run, i, j - 1, id);
      IdsFresh(s, start, run, i, id);
      RunMovesAt(s, start, run, j - 1, id);
    }
  }

  /** Once a Run has ended, nothing of it but the retained flag ever changes; in particular it never runs again. */
  lemma {:induction false} EndedIsFrozen(s: RunState, start: int, run: seq<RunAt>, i: nat, j: nat, id: nat)
    requires GoodRun(s, start, run) && i <= j <= |run|
    requires id in RunsAfter(s, run, i) && !RunsAfter(s, run, i)[id].core.status.Running?
    ensures id in RunsAfter(s, run, j) ==>
              RunsAfter(s, run, j)[id] == Retained(RunsAfter(s, run, i)[id], RunsAfter(s, run, j)[id].core.retained)
  {
    hide RunStep;
    if i < j {
      EndedIsFrozen(s, start, run, i, j - 1, id);
      RunMovesAt(s, start, run, j - 1, id);
      if id !in RunsAfter(s, run, j - 1) { LeavesOnce(s, start, run, i, j - 1, id); }
    }
  }

  lemma {:induction false} LeavesOnce(s: RunState, start: int, run: seq<RunAt>, i: nat, j: nat, id: nat)
    requires GoodRun(s, start, run) && i <= j < |run|
    requires id in RunsAfter(s, run, i) && id !in RunsAfter(s, run, j)
    ensures id !in RunsAfter(s, run, j + 1)
  {
    hide RunStep, RunMoves;
    if id in RunsAfter(s, run, j - 1) {
      GoneForever(s, start, run, j - 1, j + 1, id);
    } else {
      LeavesOnce(s, start, run, i, j - 1, id);
      IdsFresh(s, start, run, i, id);
      RunMovesAt(s, start, run, j, id);
    }
  }

  ghost predicate EndsAt(s: RunState, run: seq<RunAt>, i: nat, id: nat)
    requires i < |run|
  {
    && id in RunsAfter(s, run, i) && RunsAfter(s, run, i)[id].core.status.Running?
    && id in RunsAfter(s, run, i + 1) && !RunsAfter(s, run, i + 1)[id].core.status.Running?
  }

  lemma EndsOnce(s: RunState, start: int, run: seq<RunAt>, i: nat, j: nat, id: nat)
    requires GoodRun(s, start, run) && i < |run| && j < |run| && EndsAt(s, run, i, id) && EndsAt(s, run, j, id)
    ensures i == j
  {
    hide RunStep, RunsAfter;
    if i < j { EndedIsFrozen(s, start, run, i + 1, j, id); }
    if j < i { EndedIsFrozen(s, start, run, j + 1, i, id); }
  }

  // ---------- Cleanup ----------

  /** What cleanup removes, said without the ambiguous flag: certain outcomes only, and never a mutating lost one. */
  predicate Settled(c: RunCore, cutoff: int) {
    && !c.retained && c.endedAt.Some? && c.endedAt.value <= cutoff
    && (c.status.Succeeded? || c.status.RemoteError? || c.status.LocalError?
        || ((c.status.TransportError? || c.status.TimedOut?) && !c.mayMutate))
  }

  lemma PurgeRemovesIff(s: RunState, start: int, now: int, days: nat, id: nat)
    requires Wf(s, start) && id in s
    ensures id !in RunStep(s, now, Purge(Some(days))).state <==> Settled(s[id].core, now - days * DAY)
  {
    hide Storable;
  }

  /** Nothing but cleanup removes a Run. */
  lemma StepRemovesIff(s: RunState, start: int, now: int, c: RunCmd, id: nat)
    requires Wf(s, start) && id in s
    ensures id !in RunStep(s, now, c).state <==> c.Purge? && c.days.Some? && Settled(s[id].core, now - c.days.value * DAY)
  {
    match c
    case Purge(days) => if days.Some? { PurgeRemovesIff(s, start, now, days.value, id); } hide Wf, Settled;
    case _ => hide Wf, Storable, NewRun, ValidRun, Finished, EndedWithout, Retained;
  }

  predicate RemovesAt(s: RunState, run: seq<RunAt>, k: nat, id: nat)
    requires k < |run|
  {
    var before := RunsAfter(s, run, k);
    id in before && run[k].cmd.Purge? && run[k].cmd.days.Some? && Settled(before[id].core, run[k].now - run[k].cmd.days.value * DAY)
  }

  /** A Run that was there is gone exactly if some cleanup since found it settled and past its cutoff. */
  lemma {:induction false} RemovedIff(s: RunState, start: int, run: seq<RunAt>, i: nat, j: nat, id: nat)
    requires Wf(s, start) && GoodRun(s, start, run) && i <= j <= |run| && id in RunsAfter(s, run, i)
    ensures id !in RunsAfter(s, run, j) <==> exists k :: i <= k < j && RemovesAt(s, run, k, id)
  {
    hide RunStep, Settled, Wf, RemovesAt;
    if i < j {
      RemovedIff(s, start, run, i, j - 1, id);
      if id in RunsAfter(s, run, j - 1) {
        RemovesNow(s, start, run, j - 1, id);
      } else {
        var k :| i <= k < j - 1 && RemovesAt(s, run, k, id);
        RemovesNow(s, start, run, k, id);
        GoneForever(s, start, run, k, j, id);
      }
    }
  }

  lemma RemovesNow(s: RunState, start: int, run: seq<RunAt>, k: nat, id: nat)
    requires Wf(s, start) && GoodRun(s, start, run) && k < |run|
    ensures RemovesAt(s, run, k, id) <==> id in RunsAfter(s, run, k) && id !in RunsAfter(s, run, k + 1)
  {
    hide RunStep, Settled, Wf;
    if id in RunsAfter(s, run, k) {
      EveryStateWf(s, start, run, k);
      StepRemovesIff(RunsAfter(s, run, k), ClockAt(start, run, k), run[k].now, run[k].cmd, id);
    }
  }

  /** Outcomes an operator still has to look into. */
  predicate Unsettled(c: RunCore) {
    c.status.Interrupted? || c.status.UnknownOutcome? || (c.mayMutate && (c.status.TransportError? || c.status.TimedOut?))
  }

  /** No run of commands ever loses an unsettled Run. */
  lemma {:induction false} UnsettledIsKept(s: RunState, start: int, run: seq<RunAt>, i: nat, j: nat, id: nat)
    requires Wf(s, start) && GoodRun(s, start, run) && i <= j <= |run|
    requires id in RunsAfter(s, run, i) && Unsettled(RunsAfter(s, run, i)[id].core)
    ensures id in RunsAfter(s, run, j)
    ensures RunsAfter(s, run, j)[id] == Retained(RunsAfter(s, run, i)[id], RunsAfter(s, run, j)[id].core.retained)
  {
    hide RunStep, Storable;
    if i < j {
      UnsettledIsKept(s, start, run, i, j - 1, id);
      EveryStateWf(s, start, run, j - 1);
      RunMovesAt(s, start, run, j - 1, id);
    }
  }

  // ---------- Restart ----------

  /** The two owners reconcile disjoint Runs, and together exactly what one pass over both modes does. */
  lemma OwnersAreDisjoint(s: RunState, now: int)
    ensures Incomplete(s, {Sync}) !! Incomplete(s, {Async})
    ensures var one := RunStep(s, now, Reconcile({Sync})).state;
            RunStep(one, now, Reconcile({Async})).state == RunStep(s, now, Reconcile({Sync, Async})).state
    ensures var one := RunStep(s, now, Reconcile({Async})).state;
            RunStep(one, now, Reconcile({Sync})).state == RunStep(s, now, Reconcile({Sync, Async})).state
  {
    RestartTwice(s, now, {Sync}, {Async});
    RestartTwice(s, now, {Async}, {Sync});
    assert {Sync} + {Async} == {Sync, Async} && {Async} + {Sync} == {Sync, Async};
    hide RestartedIn;
  }

  lemma RestartTwice(s: RunState, now: int, a: set<Mode>, b: set<Mode>)
    requires a !! b
    ensures var one := ReconcileStep(s, now, a).state;
            ReconcileStep(one, now, b).state == ReconcileStep(s, now, a + b).state
  {
    assert forall r: RunRecord :: Restarted(r, now).mode == r.mode && !Restarted(r, now).core.status.Running?;
    hide Restarted;
  }

  /** After a restart nothing of the reconciled modes is running. */
  lemma NothingLeftRunning(s: RunState, now: int, modes: set<Mode>)
    ensures Incomplete(RunStep(s, now, Reconcile(modes)).state, modes) == {}
  {
    assert forall r: RunRecord :: Restarted(r, now).mode == r.mode && !Restarted(r, now).core.status.Running?;
    hide Restarted;
  }

  // ---------- Readability ----------

  ghost predicate AllReadable(s: RunState) { forall id :: id in s ==> ValidRun(s[id]) }

  /** The commands name printable error types, as exception class names are. */
  ghost predicate PrintableErrors(run: seq<RunAt>) {
    forall i :: 0 <= i < |run| && run[i].cmd.EndWithout? ==> Printable(Clip(run[i].cmd.errorType, 200))
  }

  lemma RestartReadable(r: RunRecord, now: int)
    requires ValidRun(r)
    ensures ValidRun(Restarted(r, now))
  {
    EndingKeepsValidIff(r, now, Interrupted, RestartError(r.mode));
    assert Printable("ExecutorRestart") && Printable("ServerRestart");
    hide EndedWithout, ValidRun;
  }

  lemma {:induction false} StaysReadable(s: RunState, start: int, run: seq<RunAt>, i: nat)
    requires AllReadable(s) && Wf(s, start) && PrintableErrors(run) && GoodRun(s, start, run) && i <= |run|
    ensures AllReadable(RunsAfter(s, run, i))
  {
    hide ValidRun, Printable, Finished, EndedWithout, NewRun;
    if i > 0 {
      StaysReadable(s, start, run, i - 1);
      var t, now, c := RunsAfter(s, run, i - 1), run[i - 1].now, run[i - 1].cmd;
      StepReadable(t, now, c);
    }
  }

  lemma StepReadable(t: RunState, now: int, c: RunCmd)
    requires AllReadable(t) && (c.EndWithout? ==> Printable(Clip(c.errorType, 200)))
    ensures AllReadable(RunStep(t, now, c).state)
  {
    hide ValidRun, Printable, Finished, EndedWithout, NewRun;
    match c
    case Start(q, id) => NewReadable(q, id, now);
    case Finish(id, e) =>
      if id in t && IsExecutionStatus(e.status) { FinishKeepsValid(t[id], now, e); }
    case EndWithout(id, status, errorType) =>
      if id in t { EndingKeepsValidIff(t[id], now, status, errorType); }
    case Retain(id, flag) => if id in t { RetainKeepsValid(t[id], flag); }
    case Reconcile(modes) => forall id | id in t { RestartReadable(t[id], now); }
    case Purge(days) =>
  }

  lemma NewReadable(q: Request, id: nat, now: int)
    ensures NewRun(q, id, now).Ok? ==> ValidRun(NewRun(q, id, now).value)
  {
    NewRunStorable(q, id, now);
    hide ValidRun, NormalizeOptional;
  }
}
