/**
 * What every command of the run store records, field by field: the run a reply carries and the next state holds, in terms of
 * the request or the execution, the clock and the run before.
 */
module RunContents {
  import opened Common
  import opened Decimal
  import opened TaskModel
  import opened Runs
  import opened RunStores

  /** The part of a record that its request fixed. */
  predicate SameRequest(a: RunRecord, b: RunRecord) {
    && b.core.schemaVersion == a.core.schemaVersion && b.core.id == a.core.id && b.core.operation == a.core.operation
    && b.core.target == a.core.target && b.core.taskId == a.core.taskId && b.core.scriptId == a.core.scriptId
    && b.core.scriptSource == a.core.scriptSource && b.core.scriptSha256 == a.core.scriptSha256
    && b.core.argumentNames == a.core.argumentNames && b.core.timeoutSeconds == a.core.timeoutSeconds
    && b.core.mayMutate == a.core.mayMutate && b.core.idempotent == a.core.idempotent && b.core.startedAt == a.core.startedAt
    && b.mode == a.mode && b.class_ == a.class_ && b.purpose == a.purpose && b.resultRef == a.resultRef
  }

  /** What only an execution reports. */
  predicate SameResult(a: RunRecord, b: RunRecord) {
    && b.core.exitCode == a.core.exitCode && b.core.timedOut == a.core.timedOut && b.core.durationMs == a.core.durationMs
    && b.core.stdoutBytes == a.core.stdoutBytes && b.core.stdoutTruncated == a.core.stdoutTruncated
    && b.core.stderrBytes == a.core.stderrBytes && b.core.stderrTruncated == a.core.stderrTruncated
  }

  /** What an operator has to look into. */
  predicate Uncertain(r: RunRecord) {
    r.core.mayMutate && (r.core.status.TransportError? || r.core.status.TimedOut? || r.core.status.Interrupted? || r.core.status.UnknownOutcome?)
  }

  /** Only one run of the table has changed. */
  ghost predicate Rewrites(s: RunState, t: RunState, id: nat, b: RunRecord) {
    t.Keys == s.Keys + {id} && t[id] == b && forall x :: x in s && x != id ==> t[x] == s[x]
  }

  predicate Trimmed(given: Option<string>, stored: Option<string>) {
    (given.Some? <==> stored.Some?) && (given.Some? ==> stored.value == Strip(given.value))
  }

  /** One printable line of at most 512 characters, once trimmed; or nothing. */
  predicate OneLine(given: Option<string>) {
    given.Some? ==> 1 <= |Strip(given.value)| <= 512 && Printable(Strip(given.value))
  }

  // ---------- Start ----------

  /** What a new run records: its request, that it is running since now, and no result. */
  predicate Starts(b: RunRecord, now: int, q: Request, id: nat) {
    && b.core.schemaVersion == 4 && b.core.id == id && b.core.operation == q.operation && b.core.target == q.target
    && b.core.taskId == q.taskId && b.core.scriptId == q.scriptId && b.core.scriptSource == q.scriptSource
    && b.core.scriptSha256 == q.scriptSha256 && b.core.argumentNames == q.argumentNames && b.core.timeoutSeconds == q.timeoutSeconds
    && b.core.mayMutate == q.mayMutate && b.core.idempotent == q.idempotent && b.mode == q.mode && b.class_ == q.class_
    && Trimmed(q.purpose, b.purpose) && Trimmed(q.resultRef, b.resultRef)
    && b.core.startedAt == now && b.core.status.Running? && b.core.endedAt.None? && !b.core.retained && !b.core.ambiguous
    && b.core.exitCode.None? && b.core.timedOut.None? && b.core.durationMs.None? && b.core.stdoutBytes.None?
    && b.core.stderrBytes.None? && b.core.stdoutTruncated.None? && b.core.stderrTruncated.None? && b.core.errorType.None?
    && b.resultSummary.None?
  }

  /** A start is accepted exactly if purpose and reference are lines and the timeout is between 1 and 900 seconds. */
  lemma StartStores(s: RunState, now: int, q: Request, id: nat)
    ensures
      var o := RunStep(s, now, Start(q, id));
      && (o.reply.Returned? <==> OneLine(q.purpose) && OneLine(q.resultRef) && 1 <= q.timeoutSeconds <= 900)
      && (o.reply.Returned? ==>
            Starts(o.reply.record, now, q, id) && Rewrites(s, o.state, id, o.reply.record) && ReadRun(o.state, id) == Ok(o.reply.record))
      && (!o.reply.Returned? ==> o.reply.Refused? && o.state == s)
  {
    if NewRun(q, id, now).Ok? { NewRunReads(q, id, now); }
    hide Strip, Printable, ValidRun;
  }

  lemma NewRunReads(q: Request, id: nat, now: int)
    requires NewRun(q, id, now).Ok?
    ensures ValidRun(NewRun(q, id, now).value)
  {
    NewRunStorable(q, id, now);
    hide NormalizeOptional, VersionRules;
  }

  // ---------- Results ----------

  function Shown(n: Option<int>): string { if n.None? then "None" else IntText(n.value) }

  function ShownBool(b: Option<bool>): string { if b.None? then "None" else if b.value then "True" else "False" }

  /** How the execution went, what each stream held, and a warning if the outcome is uncertain. */
  function Told(timeout: int, e: Execution, ambiguous: bool): string {
    var lead :=
      if e.status.Succeeded? then SUCCEEDED + (Shown(e.exitCode) + ".")
      else if e.status.RemoteError? then FAILED + (Shown(e.exitCode) + ".")
      else if e.status.TimedOut? then "Execution timed out after " + (IntText(timeout) + " seconds.")
      else TRANSPORT_FAILED;
    var bytes := (OUTPUT + Shown(e.stdoutBytes)) + (", stderr_bytes=" + Shown(e.stderrBytes));
    var cut := (", stdout_truncated=" + ShownBool(e.stdoutTruncated)) + (", stderr_truncated=" + ShownBool(e.stderrTruncated));
    (lead + ((bytes + cut) + ".")) + if ambiguous then MUTATING else ""
  }

  /** What a run records of its execution: every reported value under its own name, the status, and when it ended. */
  predicate Finishes(a: RunRecord, b: RunRecord, now: int, e: Execution) {
    && SameRequest(a, b) && b.core.retained == a.core.retained && b.core.errorType == a.core.errorType
    && b.core.endedAt == Some(now) && b.core.status == e.status && (b.core.ambiguous <==> Uncertain(b))
    && b.core.exitCode == e.exitCode && b.core.timedOut == Some(e.timedOut) && b.core.durationMs == e.durationMs
    && b.core.stdoutBytes == e.stdoutBytes && b.core.stdoutTruncated == e.stdoutTruncated
    && b.core.stderrBytes == e.stderrBytes && b.core.stderrTruncated == e.stderrTruncated
    && (a.core.schemaVersion == 1 ==> b.resultSummary == a.resultSummary)
    && (a.core.schemaVersion >= 2 ==> b.resultSummary == Some(Bounded(Told(a.core.timeoutSeconds, e, b.core.ambiguous))))
  }

  lemma ShownLines(e: Execution, timeout: int)
    ensures IntLine(timeout) == IntText(timeout) && IntOr(e.exitCode) == Shown(e.exitCode)
    ensures NatOr(e.stdoutBytes) == Shown(e.stdoutBytes) && NatOr(e.stderrBytes) == Shown(e.stderrBytes)
    ensures BoolOr(e.stdoutTruncated) == ShownBool(e.stdoutTruncated) && BoolOr(e.stderrTruncated) == ShownBool(e.stderrTruncated)
  {
    hide Printable, NatText;
  }

  lemma SummaryTold(c: RunCore, e: Execution)
    requires IsExecutionStatus(e.status)
    ensures ExecutionSummary(c, e) == Bounded(Told(c.timeoutSeconds, e, c.mayMutate && IsAmbiguousStatus(e.status)))
  {
    ShownLines(e, c.timeoutSeconds);
    hide Printable, NatText, Bounded, Shown, ShownBool, IntLine, IntOr, NatOr, BoolOr, IntText;
  }

  lemma FinishedFields(a: RunRecord, now: int, e: Execution)
    requires IsExecutionStatus(e.status)
    ensures Finishes(a, Finished(a, now, e), now, e)
  {
    SummaryTold(a.core, e);
    hide Told, ExecutionSummary, Bounded;
  }

  /** A result is accepted exactly for a readable running run and a status of an execution; no other run changes. */
  lemma FinishStores(s: RunState, now: int, id: nat, e: Execution)
    ensures
      var o := RunStep(s, now, Finish(id, e));
      && (o.reply.Returned? <==>
            && id in s && ValidRun(s[id]) && s[id].core.status.Running?
            && (e.status.Succeeded? || e.status.RemoteError? || e.status.TransportError? || e.status.TimedOut?))
      && (o.reply.Returned? ==>
            && Finishes(s[id], o.reply.record, now, e) && Rewrites(s, o.state, id, o.reply.record)
            && ReadRun(o.state, id) == Ok(o.reply.record))
      && (!o.reply.Returned? ==> o.reply.Refused? && o.state == s)
  {
    if id in s && IsExecutionStatus(e.status) {
      FinishedFields(s[id], now, e);
      if ValidRun(s[id]) { FinishKeepsValid(s[id], now, e); }
    }
    hide Finished, Finishes, ValidRun;
  }

  // ---------- Endings without a result ----------

  /** What a run that was ended without a result records: status, end, and at most 200 characters of the error type. */
  predicate EndsWithout(a: RunRecord, b: RunRecord, now: int, status: RunStatus, errorType: string) {
    && SameRequest(a, b) && SameResult(a, b) && b.core.retained == a.core.retained
    && b.core.endedAt == Some(now) && b.core.status == status && (b.core.ambiguous <==> Uncertain(b))
    && b.core.errorType.Some? && |b.core.errorType.value| <= 200 && b.core.errorType.value <= errorType
    && (|b.core.errorType.value| < 200 ==> b.core.errorType.value == errorType)
    && (a.core.schemaVersion == 1 ==> b.resultSummary == a.resultSummary)
    && (a.core.schemaVersion >= 2 ==> b.resultSummary == Some(Notice(status, b.core.errorType.value, b.core.ambiguous)))
  }

  /** The notice about such a run. */
  function Notice(status: RunStatus, errorType: string, ambiguous: bool): string {
    (if status.LocalError? then LOCAL else if status.Interrupted? then INTERRUPTED else UNKNOWN) + errorType + DISCLAIMER
    + if ambiguous then MUTATING else ""
  }

  lemma EndedFields(a: RunRecord, now: int, status: Ending, errorType: string)
    ensures EndsWithout(a, EndedWithout(a, now, status, errorType), now, status, errorType)
  {
    EndingNeverTruncated(a.core, status, Clip(errorType, 200));
    hide InternalSummary, Printable;
  }

  /** A run that has ended already is returned as it is; a running one ends; an unreadable or unknown one is refused. */
  lemma EndStores(s: RunState, now: int, id: nat, status: Ending, errorType: string)
    ensures
      var o := RunStep(s, now, EndWithout(id, status, errorType));
      && (o.reply.Returned? <==> id in s && ValidRun(s[id])) && (!o.reply.Returned? ==> o.reply.Refused? && o.state == s)
      && (o.reply.Returned? && !s[id].core.status.Running? ==> o.reply.record == s[id] && o.state == s)
      && (o.reply.Returned? && s[id].core.status.Running? ==>
            EndsWithout(s[id], o.reply.record, now, status, errorType) && Rewrites(s, o.state, id, o.reply.record))
  {
    if id in s { EndedFields(s[id], now, status, errorType); }
    hide EndedWithout, EndsWithout, ValidRun;
  }

  /** A restart ends the running runs of the modes it owns, each under the name of its mode, and no other. */
  lemma ReconcileStores(s: RunState, now: int, modes: set<Mode>, id: nat)
    requires id in s
    ensures
      var t := RunStep(s, now, Reconcile(modes)).state;
      && t.Keys == s.Keys
      && if s[id].core.status.Running? && s[id].mode in modes then
           EndsWithout(s[id], t[id], now, Interrupted, if s[id].mode.Async? then "ExecutorRestart" else "ServerRestart")
         else t[id] == s[id]
  {
    EndedFields(s[id], now, Interrupted, RestartError(s[id].mode));
    hide EndedWithout, EndsWithout;
  }

  // ---------- Retention ----------

  /** Retaining sets one flag of one readable run. */
  lemma RetainStores(s: RunState, now: int, id: nat, flag: bool)
    ensures
      var o := RunStep(s, now, Retain(id, flag));
      && (o.reply.Returned? <==> id in s && ValidRun(s[id])) && (!o.reply.Returned? ==> o.reply.Refused? && o.state == s)
      && (o.reply.Returned? ==>
            var a, b := s[id], o.reply.record;
            && SameRequest(a, b) && SameResult(a, b) && b.core.retained == flag && b.core.endedAt == a.core.endedAt
            && b.core.status == a.core.status && b.core.ambiguous == a.core.ambiguous && b.core.errorType == a.core.errorType
            && b.resultSummary == a.resultSummary && Rewrites(s, o.state, id, b))
  {
    hide ValidRun;
  }

  /** Ended with an outcome nobody has to look into, not retained, and ended at least so many days ago. */
  predicate PastRetention(r: RunRecord, now: int, days: nat) {
    && !r.core.retained && !r.core.ambiguous && r.core.endedAt.Some? && r.core.endedAt.value + days * 86_400_000_000 <= now
    && (r.core.status.Succeeded? || r.core.status.RemoteError? || r.core.status.TransportError? || r.core.status.TimedOut? || r.core.status.LocalError?)
  }

  /** Cleanup removes exactly those runs, reports them in ascending order, and leaves the others as they are. */
  lemma CleanupStores(s: RunState, now: int, days: nat)
    ensures
      var o := RunStep(s, now, Purge(Some(days)));
      && o.reply.Removed? && Ascending(o.reply.ids)
      && (forall id :: id in o.reply.ids <==> id in s && PastRetention(s[id], now, days))
      && (forall id :: id in o.state <==> id in s && !PastRetention(s[id], now, days))
      && forall id :: id in o.state ==> o.state[id] == s[id]
  {
    assert forall id :: id in s ==> (PastRetention(s[id], now, days) <==> Purgeable(s[id].core, now - days * 86_400_000_000));
    hide PastRetention, Purgeable;
  }

  // ---------- Payloads ----------

  predicate Holds<T(==)>(key: Field<T>, written: bool, value: T) { if written then key == Present(value) else key.Absent? }

  /** Which keys a schema version writes: those it knows, each with the field of its own name. */
  lemma PayloadKeys(r: RunRecord)
    ensures
      var p, v := Serialize(r), r.core.schemaVersion;
      && p.core == r.core && Holds(p.mode, v >= 3, r.mode) && Holds(p.class_, v >= 4, r.class_) && Holds(p.purpose, v != 1, r.purpose)
      && Holds(p.resultSummary, v != 1, r.resultSummary) && Holds(p.resultRef, v >= 4, r.resultRef)
  {
  }

  predicate ReadAs<T(==)>(key: Field<T>, missing: T, value: T) { if key.Present? then value == key.value else value == missing }

  /** What a payload reads as: a missing key takes its default, purpose and reference are trimmed, and the whole is valid. */
  lemma PayloadReads(p: Payload, r: RunRecord)
    ensures
      Parse(p) == Ok(r) <==>
        && ValidRun(r) && r.core == p.core && ReadAs(p.mode, Sync, r.mode) && ReadAs(p.class_, Normal, r.class_)
        && ReadAs(p.resultSummary, None, r.resultSummary)
        && Trimmed(OrNone(p.purpose), r.purpose) && OneLine(OrNone(p.purpose))
        && Trimmed(OrNone(p.resultRef), r.resultRef) && OneLine(OrNone(p.resultRef))
  {
    hide Strip, Printable, ValidRun;
  }

  function OrNone(key: Field<Option<string>>): Option<string> { if key.Present? then key.value else None }
}
