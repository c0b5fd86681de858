/** Run records, their versioned payload codec and the bounded result summaries. */
module Runs {
  import opened Common
  import opened Decimal
  import opened TaskModel

  datatype RunStatus =
    | Running | Succeeded | RemoteError | TransportError | TimedOut | LocalError | Interrupted | UnknownOutcome

  datatype Operation = RunCommand | RunShell | RunScript
  datatype Mode = Sync | Async
  datatype ExecutionClass = Normal | Heavy

  datatype RunError = NotRunning | UnknownRun | UnsupportedStatus | InvalidRun

  /** The fields every schema version persists. */
  datatype RunCore = RunCore(
    schemaVersion: nat, id: nat, operation: Operation, target: string, taskId: Option<nat>, scriptId: Option<string>,
    scriptSource: Option<string>, scriptSha256: Option<string>, argumentNames: seq<string>, timeoutSeconds: int,
    mayMutate: bool, idempotent: Option<bool>, retained: bool, startedAt: int, endedAt: Option<int>, status: RunStatus,
    ambiguous: bool, exitCode: Option<int>, timedOut: Option<bool>, durationMs: Option<nat>, stdoutBytes: Option<nat>,
    stderrBytes: Option<nat>, stdoutTruncated: Option<bool>, stderrTruncated: Option<bool>, errorType: Option<string>)

  datatype RunRecord = RunRecord(
    core: RunCore, mode: Mode, class_: ExecutionClass, purpose: Option<string>, resultSummary: Option<string>,
    resultRef: Option<string>)

  /** A key of the persisted object that an old schema may not have. */
  datatype Field<T> = Absent | Present(value: T)

  datatype Payload = Payload(
    core: RunCore, mode: Field<Mode>, class_: Field<ExecutionClass>, purpose: Field<Option<string>>,
    resultSummary: Field<Option<string>>, resultRef: Field<Option<string>>)

  // ---------- Validation ----------

  predicate PrintableChar(c: char) {
    var n := c as int;
    32 <= n && !(127 <= n <= 160) && n != 0x2028 && n != 0x2029
  }

  predicate Printable(s: string) { forall i :: 0 <= i < |s| ==> PrintableChar(s[i]) }

  /** Trim, then require one non-empty printable line within the bound. */
  function Normalize(s: string, max: nat): Result<string, ()> {
    var t := Strip(s);
    if Text(t, max) && Printable(t) then Ok(t) else Err(())
  }

  function NormalizeOptional(s: Option<string>, max: nat): Result<Option<string>, ()> {
    if s.None? then Ok(None)
    else
      var t :- Normalize(s.value, max);
      Ok(Some(t))
  }

  /** The fields a schema version may carry with a value of its own. */
  predicate VersionRules(r: RunRecord) {
    && (r.core.schemaVersion == 1 ==> r.purpose.None? && r.resultSummary.None?)
    && (r.core.schemaVersion < 3 ==> r.mode == Sync)
    && (r.core.schemaVersion < 4 ==> r.resultRef.None? && r.class_ == Normal)
  }

  predicate ValidCore(c: RunCore) {
    1 <= c.schemaVersion <= 4 && 1 <= c.timeoutSeconds <= 900 && (c.errorType.Some? ==> |c.errorType.value| <= 200)
  }

  predicate ValidRun(r: RunRecord) {
    && ValidCore(r.core) && VersionRules(r)
    && NormalizeOptional(r.purpose, 512) == Ok(r.purpose)
    && NormalizeOptional(r.resultRef, 512) == Ok(r.resultRef)
    && (r.resultSummary.Some? ==> Text(r.resultSummary.value, 512) && Printable(r.resultSummary.value))
  }

  // ---------- Versioned codec ----------

  function Serialize(r: RunRecord): Payload {
    var v := r.core.schemaVersion;
    Payload(r.core,
            if v < 3 then Absent else Present(r.mode),
            if v < 4 then Absent else Present(r.class_),
            if v == 1 then Absent else Present(r.purpose),
            if v == 1 then Absent else Present(r.resultSummary),
            if v < 4 then Absent else Present(r.resultRef))
  }

  function OrDefault<T>(f: Field<T>, d: T): T { if f.Present? then f.value else d }

  /** Missing keys take their defaults; the assembled record is then validated. */
  function Parse(p: Payload): Result<RunRecord, RunError> {
    var purpose, ref := NormalizeOptional(OrDefault(p.purpose, None), 512), NormalizeOptional(OrDefault(p.resultRef, None), 512);
    if purpose.Err? || ref.Err? then Err(InvalidRun)
    else
      var r := RunRecord(p.core, OrDefault(p.mode, Sync), OrDefault(p.class_, Normal), purpose.value,
                         OrDefault(p.resultSummary, None), ref.value);
      if ValidRun(r) then Ok(r) else Err(InvalidRun)
  }

  /** The codec is lossless on a record exactly when the record is valid for its own version. */
  lemma CodecRoundTripIff(r: RunRecord)
    ensures Parse(Serialize(r)) == Ok(r) <==> ValidRun(r)
  {
    hide Printable, Strip;
  }

  /** Parsing normalises once and for all: whatever was read can be written and read back unchanged. */
  lemma ParseIsStable(p: Payload)
    ensures Parse(p).Ok? ==> Parse(Serialize(Parse(p).value)) == Ok(Parse(p).value)
  {
    if Parse(p).Ok? { CodecRoundTripIff(Parse(p).value); }
  }

  // ---------- Terminal updates ----------

  const SUMMARY_MAX := 512
  const TRUNCATED := " [truncated]"

  function Bounded(s: string): (t: string)
    ensures |t| <= SUMMARY_MAX && (|s| <= SUMMARY_MAX ==> t == s)
    ensures |s| > SUMMARY_MAX ==> |t| == SUMMARY_MAX && t[..SUMMARY_MAX - |TRUNCATED|] == s[..SUMMARY_MAX - |TRUNCATED|]
  {
    if |s| <= SUMMARY_MAX then s else s[..SUMMARY_MAX - |TRUNCATED|] + TRUNCATED
  }

  lemma PrintableBounded(s: string)
    requires Printable(s)
    ensures Printable(Bounded(s))
  {
    if |s| > SUMMARY_MAX { PrintableConcat(s[..SUMMARY_MAX - |TRUNCATED|], TRUNCATED); }
  }

  /** What an ended SSH execution reports. */
  datatype Execution = Execution(
    status: RunStatus, exitCode: Option<int>, timedOut: bool, durationMs: Option<nat>, stdoutBytes: Option<nat>,
    stderrBytes: Option<nat>, stdoutTruncated: Option<bool>, stderrTruncated: Option<bool>)

  predicate IsAmbiguousStatus(s: RunStatus) { s.TransportError? || s.TimedOut? || s.Interrupted? || s.UnknownOutcome? }

  predicate IsExecutionStatus(s: RunStatus) { s.Succeeded? || s.RemoteError? || s.TransportError? || s.TimedOut? }

  /** The statuses given without an execution result. */
  type Ending = s: RunStatus | s.LocalError? || s.Interrupted? || s.UnknownOutcome? witness LocalError

  type Line = s: string | Printable(s) witness ""

  /** Concatenation of printable lines; the texts below are built from it piece by piece. */
  function Plus(a: Line, b: Line): (c: Line)
    ensures c == a + b
  {
    PrintableConcat(a, b);
    a + b
  }

  lemma PrintableConcat(a: string, b: string)
    ensures Printable(a + b) <==> Printable(a) && Printable(b)
  {
    var ab := a + b;
    assert forall i :: 0 <= i < |a| ==> ab[i] == a[i];
    assert forall i :: 0 <= i < |b| ==> ab[|a| + i] == b[i];
  }

  function NatLine(n: nat): Line { NatText(n) }

  function IntLine(n: int): Line { if n < 0 then Plus("-", NatLine(-n)) else NatLine(n) }

  function IntOr(n: Option<int>): Line { if n.None? then "None" else IntLine(n.value) }

  function NatOr(n: Option<nat>): Line { if n.None? then "None" else NatLine(n.value) }

  function BoolOr(b: Option<bool>): Line { if b.None? then "None" else if b.value then "True" else "False" }

  const SUCCEEDED: Line := Plus("Execution succeeded with ", "exit_code=")
  const FAILED: Line := Plus("Remote execution failed ", "with exit_code=")
  const NO_TRANSPORT: Line := Plus("SSH transport failed ", "before a trustworthy ")
  const NO_RESULT: Line := Plus("remote result ", "was available.")
  const TRANSPORT_FAILED: Line := Plus(NO_TRANSPORT, NO_RESULT)
  const NOT_KEPT: Line := Plus(" Output content was not ", "persisted; observed ")
  const OUTPUT: Line := Plus(NOT_KEPT, "stdout_bytes=")
  const MAY_BE: Line := Plus("may have an ", "ambiguous outcome.")
  const MUTATING: Line := Plus(" A mutating operation ", MAY_BE)
  const LOCAL: Line := Plus("Execution failed locally ", "before a remote result (")
  const INTERRUPTED: Line := Plus("Execution was ", "interrupted (")
  const UNKNOWN: Line := Plus("Execution outcome ", "is unknown (")
  const NO_COMMAND: Line := Plus("). No command, script, ", "argument values, ")
  const NO_ENVIRONMENT: Line := Plus("environment values, ", "or output content ")
  const DISCLAIMER: Line := Plus(Plus(NO_COMMAND, NO_ENVIRONMENT), "were persisted.")

  function ExecutionLead(c: RunCore, e: Execution): Line
    requires IsExecutionStatus(e.status)
  {
    match e.status
    case Succeeded => Plus(SUCCEEDED, Plus(IntOr(e.exitCode), "."))
    case RemoteError => Plus(FAILED, Plus(IntOr(e.exitCode), "."))
    case TransportError => TRANSPORT_FAILED
    case TimedOut => Plus("Execution timed out after ", Plus(IntLine(c.timeoutSeconds), " seconds."))
  }

  function StreamText(e: Execution): Line {
    var bytes := Plus(Plus(OUTPUT, NatOr(e.stdoutBytes)), Plus(", stderr_bytes=", NatOr(e.stderrBytes)));
    var truncated := Plus(Plus(", stdout_truncated=", BoolOr(e.stdoutTruncated)), Plus(", stderr_truncated=", BoolOr(e.stderrTruncated)));
    Plus(Plus(bytes, truncated), ".")
  }

  function AmbiguityText(ambiguous: bool): Line { if ambiguous then MUTATING else "" }

  function ExecutionSummary(c: RunCore, e: Execution): (s: Line)
    requires IsExecutionStatus(e.status)
    ensures Text(s, SUMMARY_MAX)
  {
    var s := Plus(Plus(ExecutionLead(c, e), StreamText(e)), AmbiguityText(c.mayMutate && IsAmbiguousStatus(e.status)));
    PrintableBounded(s);
    Bounded(s)
  }

  function EndingLead(status: Ending): Line {
    match status
    case LocalError => LOCAL
    case Interrupted => INTERRUPTED
    case UnknownOutcome => UNKNOWN
  }

  function InternalSummary(c: RunCore, status: Ending, errorType: string): string {
    Bounded(EndingLead(status) + errorType + DISCLAIMER + AmbiguityText(c.mayMutate && IsAmbiguousStatus(status)))
  }

  function Finished(r: RunRecord, now: int, e: Execution): RunRecord
    requires IsExecutionStatus(e.status)
  {
    r.(core := r.core.(endedAt := Some(now), status := e.status,
                       ambiguous := r.core.mayMutate && IsAmbiguousStatus(e.status), exitCode := e.exitCode,
                       timedOut := Some(e.timedOut), durationMs := e.durationMs, stdoutBytes := e.stdoutBytes,
                       stderrBytes := e.stderrBytes, stdoutTruncated := e.stdoutTruncated,
                       stderrTruncated := e.stderrTruncated),
       resultSummary := if r.core.schemaVersion >= 2 then Some(ExecutionSummary(r.core, e)) else r.resultSummary)
  }

  function Clip(s: string, n: nat): string { if |s| <= n then s else s[..n] }

  function EndedWithout(r: RunRecord, now: int, status: Ending, errorType: string): RunRecord {
    var safe := Clip(errorType, 200);
    r.(core := r.core.(endedAt := Some(now), status := status,
                       ambiguous := r.core.mayMutate && IsAmbiguousStatus(status), errorType := Some(safe)),
       resultSummary := if r.core.schemaVersion >= 2 then Some(InternalSummary(r.core, status, safe)) else r.resultSummary)
  }

  function Retained(r: RunRecord, flag: bool): RunRecord { r.(core := r.core.(retained := flag)) }

  // ---------- Terminal updates keep a record valid for its own version ----------

  /** Recording an execution result keeps a record valid for its own schema version. */
  lemma FinishKeepsValid(r: RunRecord, now: int, e: Execution)
    requires ValidRun(r) && IsExecutionStatus(e.status)
    ensures ValidRun(Finished(r, now, e))
  {
    hide ExecutionSummary, Printable, Normalize;
  }

  /** The internal notices always fit, so no error type is ever cut off in the summary. */
  lemma EndingNeverTruncated(c: RunCore, status: Ending, errorType: string)
    requires |errorType| <= 200
    ensures InternalSummary(c, status, errorType)
            == EndingLead(status) + errorType + DISCLAIMER + AmbiguityText(c.mayMutate && IsAmbiguousStatus(status))
    ensures Printable(InternalSummary(c, status, errorType)) <==> Printable(errorType)
    ensures InternalSummary(c, status, errorType) != ""
  {
    var lead, tail := EndingLead(status), AmbiguityText(c.mayMutate && IsAmbiguousStatus(status));
    hide Printable;
    assert 0 < |lead| <= 60 && |DISCLAIMER| <= 120 && |tail| <= 60;
    PrintableConcat(lead, errorType);
    PrintableConcat(lead + errorType, DISCLAIMER);
    PrintableConcat(lead + errorType + DISCLAIMER, tail);
  }

  /** Ending a run without a result keeps its record readable iff the recorded error type is printable (or no summary is kept). */
  lemma EndingKeepsValidIff(r: RunRecord, now: int, status: Ending, errorType: string)
    requires ValidRun(r)
    ensures ValidRun(EndedWithout(r, now, status, errorType)) <==> r.core.schemaVersion == 1 || Printable(Clip(errorType, 200))
  {
    EndingNeverTruncated(r.core, status, Clip(errorType, 200));
    hide InternalSummary, Printable, Normalize;
  }

  lemma RetainKeepsValid(r: RunRecord, flag: bool)
    ensures ValidRun(Retained(r, flag)) <==> ValidRun(r)
  {
    hide Printable, Normalize;
  }
}
