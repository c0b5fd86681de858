/** The run store: an abstract state machine, and the class over indexed rows that refines it. */
module RunStores {
  import opened Common
  import opened TaskSpec
  import opened Runs

  type RunState = map<nat, RunRecord>

  datatype Request = Request(
    operation: Operation, target: string, mode: Mode, class_: ExecutionClass, purpose: Option<string>,
    resultRef: Option<string>, taskId: Option<nat>, scriptId: Option<string>, scriptSource: Option<string>,
    scriptSha256: Option<string>, argumentNames: seq<string>, timeoutSeconds: int, mayMutate: bool, idempotent: Option<bool>)

  datatype RunCmd =
    | Start(request: Request, freshId: nat)
    | Finish(id: nat, execution: Execution)
    | EndWithout(id: nat, status: Ending, errorType: string)
    | Retain(id: nat, flag: bool)
    | Reconcile(modes: set<Mode>)
    | Purge(days: Option<nat>)

  datatype RunReply = Returned(record: RunRecord) | Counted(count: nat) | Removed(ids: seq<nat>) | Refused(error: RunError)

  datatype RunOutcome = RunOutcome(state: RunState, reply: RunReply)

  // ---------- Abstract steps ----------

  /** The record a request describes, validated: purpose and reference are normalised. */
  function NewRun(q: Request, id: nat, now: int): Result<RunRecord, RunError> {
    var purpose, ref := NormalizeOptional(q.purpose, 512), NormalizeOptional(q.resultRef, 512);
    var core := RunCore(4, id, q.operation, q.target, q.taskId, q.scriptId, q.scriptSource, q.scriptSha256,
                        q.argumentNames, q.timeoutSeconds, q.mayMutate, q.idempotent, false, now, None, Running, false,
                        None, None, None, None, None, None, None, None);
    if purpose.Err? || ref.Err? || !ValidCore(core) then Err(InvalidRun)
    else Ok(RunRecord(core, q.mode, q.class_, purpose.value, None, ref.value))
  }

  function StartStep(s: RunState, now: int, q: Request, id: nat): RunOutcome {
    var r := NewRun(q, id, now);
    if r.Err? then RunOutcome(s, Refused(r.error)) else RunOutcome(s[id := r.value], Returned(r.value))
  }

  function ReadRun(s: RunState, id: nat): Result<RunRecord, RunError> {
    if id !in s then Err(UnknownRun) else if ValidRun(s[id]) then Ok(s[id]) else Err(InvalidRun)
  }

  function FinishStep(s: RunState, now: int, id: nat, e: Execution): RunOutcome {
    var r := ReadRun(s, id);
    if r.Err? then RunOutcome(s, Refused(r.error))
    else if !r.value.core.status.Running? then RunOutcome(s, Refused(NotRunning))
    else if !IsExecutionStatus(e.status) then RunOutcome(s, Refused(UnsupportedStatus))
    else RunOutcome(s[id := Finished(r.value, now, e)], Returned(Finished(r.value, now, e)))
  }

  /** Ending a run that already ended returns it unchanged. */
  function EndStep(s: RunState, now: int, id: nat, status: Ending, errorType: string): RunOutcome {
    var r := ReadRun(s, id);
    if r.Err? then RunOutcome(s, Refused(r.error))
    else if !r.value.core.status.Running? then RunOutcome(s, Returned(r.value))
    else
      var ended := EndedWithout(r.value, now, status, errorType);
      RunOutcome(s[id := ended], Returned(ended))
  }

  function RetainStep(s: RunState, id: nat, flag: bool): RunOutcome {
    var r := ReadRun(s, id);
    if r.Err? then RunOutcome(s, Refused(r.error))
    else RunOutcome(s[id := Retained(r.value, flag)], Returned(Retained(r.value, flag)))
  }

  function RestartError(mode: Mode): string { if mode.Async? then "ExecutorRestart" else "ServerRestart" }

  function Incomplete(s: RunState, modes: set<Mode>): set<nat> {
    set id | id in s && s[id].core.status.Running? && s[id].mode in modes
  }

  function Restarted(r: RunRecord, now: int): RunRecord { EndedWithout(r, now, Interrupted, RestartError(r.mode)) }

  function RestartedIn(s: RunState, now: int, due: set<nat>): RunState {
    map id | id in s :: if id in due then Restarted(s[id], now) else s[id]
  }

  /** A restart interrupts every running run of the given modes and touches nothing else. */
  function ReconcileStep(s: RunState, now: int, modes: set<Mode>): RunOutcome {
    RunOutcome(RestartedIn(s, now, Incomplete(s, modes)), Counted(|Incomplete(s, modes)|))
  }

  predicate IsCleanupStatus(s: RunStatus) {
    s.Succeeded? || s.RemoteError? || s.TransportError? || s.TimedOut? || s.LocalError?
  }

  predicate Purgeable(c: RunCore, cutoff: int) {
    !c.retained && !c.ambiguous && c.endedAt.Some? && c.endedAt.value <= cutoff && IsCleanupStatus(c.status)
  }

  function Old(s: RunState, cutoff: int): set<nat> { set id | id in s && Purgeable(s[id].core, cutoff) }

  function PurgeStep(s: RunState, now: int, days: Option<nat>): RunOutcome {
    if days.None? then RunOutcome(s, Removed([]))
    else
      var old_ := Old(s, now - days.value * DAY);
      RunOutcome(s - old_, Removed(Sorted(old_)))
  }

  function RunStep(s: RunState, now: int, c: RunCmd): RunOutcome {
    match c
    case Start(q, id) => StartStep(s, now, q, id)
    case Finish(id, e) => FinishStep(s, now, id, e)
    case EndWithout(id, status, errorType) => EndStep(s, now, id, status, errorType)
    case Retain(id, flag) => RetainStep(s, id, flag)
    case Reconcile(modes) => ReconcileStep(s, now, modes)
    case Purge(days) => PurgeStep(s, now, days)
  }

  // ---------- Rows ----------

  /** One database row: typed index columns beside the serialised payload. */
  datatype RunRow = RunRow(
    status: RunStatus, taskId: Option<nat>, mode: Mode, retained: bool, ambiguous: bool, endedAt: Option<int>,
    target: string, operation: Operation, class_: ExecutionClass, startedAt: int, payload: Payload)

  function IndexRun(r: RunRecord): RunRow {
    RunRow(r.core.status, r.core.taskId, r.mode, r.core.retained, r.core.ambiguous, r.core.endedAt, r.core.target,
           r.core.operation, r.class_, r.core.startedAt, Serialize(r))
  }

  /** The record a payload stands for, before validation. */
  function Assemble(p: Payload): RunRecord {
    RunRecord(p.core, OrDefault(p.mode, Sync), OrDefault(p.class_, Normal), OrDefault(p.purpose, None),
              OrDefault(p.resultSummary, None), OrDefault(p.resultRef, None))
  }

  /** What every record in the store satisfies; only an ended one may have become unreadable. */
  predicate Storable(r: RunRecord) {
    && VersionRules(r) && NormalizeOptional(r.purpose, 512) == Ok(r.purpose) && NormalizeOptional(r.resultRef, 512) == Ok(r.resultRef)
    && (r.core.status.Running? ==> ValidRun(r))
  }

  lemma StoredReads(r: RunRecord)
    requires Storable(r)
    ensures Assemble(Serialize(r)) == r
    ensures Parse(Serialize(r)) == if ValidRun(r) then Ok(r) else Err(InvalidRun)
  {
    hide Normalize, Printable;
  }

  lemma NewRunStorable(q: Request, id: nat, now: int)
    ensures NewRun(q, id, now).Ok? ==> Storable(NewRun(q, id, now).value) && NewRun(q, id, now).value.core.id == id
  {
    if NewRun(q, id, now).Ok? {
      NormalizeStable(q.purpose);
      NormalizeStable(q.resultRef);
    }
    hide Normalize, Printable;
  }

  lemma NormalizeStable(s: Option<string>)
    requires NormalizeOptional(s, 512).Ok?
    ensures NormalizeOptional(NormalizeOptional(s, 512).value, 512) == NormalizeOptional(s, 512)
  {
  }

  lemma EndedStorable(r: RunRecord, now: int, status: Ending, errorType: string)
    requires Storable(r)
    ensures Storable(EndedWithout(r, now, status, errorType)) && EndedWithout(r, now, status, errorType).core.id == r.core.id
  {
    hide Normalize, InternalSummary;
  }

  ghost predicate ValidRows(rows: map<nat, RunRow>) {
    forall id :: id in rows ==>
      var r := Assemble(rows[id].payload);
      Storable(r) && rows[id] == IndexRun(r) && r.core.id == id
  }

  ghost function RunsOf(rows: map<nat, RunRow>): RunState { map id | id in rows :: Assemble(rows[id].payload) }

  /** What a query by columns or a read of one row learns. */
  lemma RowReads(rows: map<nat, RunRow>, id: nat)
    requires ValidRows(rows)
    ensures id in rows <==> id in RunsOf(rows)
    ensures id in rows ==>
              var r := RunsOf(rows)[id];
              rows[id] == IndexRun(r) && rows[id].mode == r.mode && r.core.id == id && Storable(r) && Parse(rows[id].payload) == ReadRun(RunsOf(rows), id)
  {
    if id in rows { StoredReads(Assemble(rows[id].payload)); }
    assert forall r :: IndexRun(r).mode == r.mode;
    hide Storable, IndexRun, Assemble, Parse, ValidRun;
  }

  lemma PutRow(rows: map<nat, RunRow>, r: RunRecord)
    requires ValidRows(rows) && Storable(r)
    ensures ValidRows(rows[r.core.id := IndexRun(r)])
    ensures RunsOf(rows[r.core.id := IndexRun(r)]) == RunsOf(rows)[r.core.id := r]
  {
    StoredReads(r);
    assert IndexRun(r).payload == Serialize(r);
    hide Storable, IndexRun, Assemble, Serialize;
  }

  lemma RemoveRows(rows: map<nat, RunRow>, ids: set<nat>)
    requires ValidRows(rows)
    ensures ValidRows(rows - ids) && RunsOf(rows - ids) == RunsOf(rows) - ids
  {
    hide Storable, IndexRun, Assemble;
  }

  /** The two queries by columns. */
  function OldRows(rows: map<nat, RunRow>, cutoff: int): set<nat> {
    set id | id in rows && !rows[id].retained && !rows[id].ambiguous && rows[id].endedAt.Some?
             && rows[id].endedAt.value <= cutoff && IsCleanupStatus(rows[id].status)
  }

  function RunningRows(rows: map<nat, RunRow>): set<nat> { set id | id in rows && rows[id].status.Running? }

  /** The columns select the same runs as the payloads would. */
  lemma ColumnsSelect(rows: map<nat, RunRow>, cutoff: int)
    requires ValidRows(rows)
    ensures OldRows(rows, cutoff) == Old(RunsOf(rows), cutoff)
  {
    hide ValidRows, RunsOf, IsCleanupStatus, Storable, Parse;
    forall id ensures id in RunsOf(rows) <==> id in rows
      ensures id in rows ==> rows[id] == IndexRun(RunsOf(rows)[id])
    {
      RowReads(rows, id);
    }
  }

  lemma ColumnsRunning(rows: map<nat, RunRow>)
    requires ValidRows(rows)
    ensures RunningRows(rows) == set id | id in RunsOf(rows) && RunsOf(rows)[id].core.status.Running?
  {
    hide ValidRows, RunsOf, Storable, Parse;
    forall id ensures id in RunsOf(rows) <==> id in rows
      ensures id in rows ==> rows[id] == IndexRun(RunsOf(rows)[id])
    {
      RowReads(rows, id);
    }
  }

  // ---------- The store ----------

  function AsReply(r: Result<RunRecord, RunError>): RunReply { if r.Ok? then Returned(r.value) else Refused(r.error) }

  class RunStore {
    var rows: map<nat, RunRow>

    ghost predicate Valid()
      reads this
    {
      ValidRows(rows)
    }

    /** The abstract state: each row stands for the record its payload holds. */
    ghost function Runs(): RunState
      reads this
    {
      RunsOf(rows)
    }

    constructor ()
      ensures Valid() && Runs() == map[]
    {
      rows := map[];
    }

    method Get(id: nat) returns (r: Result<RunRecord, RunError>)
      requires Valid()
      ensures r == ReadRun(Runs(), id)
      ensures r.Ok? ==> r.value.core.id == id && Storable(r.value) && ValidRun(r.value)
    {
      RowReads(rows, id);
      hide ValidRows, RunsOf, Storable, ValidRun, Parse;
      if id !in rows { return Err(UnknownRun); }
      r := Parse(rows[id].payload);
    }

    method Put(r: RunRecord)
      requires Valid() && Storable(r)
      modifies this
      ensures Valid() && Runs() == old(Runs())[r.core.id := r]
    {
      PutRow(rows, r);
      hide ValidRows, RunsOf, Storable;
      rows := rows[r.core.id := IndexRun(r)];
    }

    method Create(now: int, q: Request, freshId: nat) returns (r: Result<RunRecord, RunError>)
      requires Valid()
      modifies this
      ensures Valid() && RunOutcome(Runs(), AsReply(r)) == StartStep(old(Runs()), now, q, freshId)
    {
      NewRunStorable(q, freshId, now);
      hide NewRun, Storable, ValidRows, RunsOf;
      var record :- NewRun(q, freshId, now);
      Put(record);
      r := Ok(record);
    }

    method FinishRun(now: int, id: nat, e: Execution) returns (r: Result<RunRecord, RunError>)
      requires Valid()
      modifies this
      ensures Valid() && RunOutcome(Runs(), AsReply(r)) == FinishStep(old(Runs()), now, id, e)
    {
      hide ValidRun, Storable, ValidRows, RunsOf;
      var record :- Get(id);
      if !record.core.status.Running? { return Err(NotRunning); }
      if !IsExecutionStatus(e.status) { return Err(UnsupportedStatus); }
      var updated := Finished(record, now, e);
      FinishKeepsValid(record, now, e);
      ValidStorable(updated);
      Put(updated);
      r := Ok(updated);
    }

    method FinishWithoutExecution(now: int, id: nat, status: Ending, errorType: string) returns (r: Result<RunRecord, RunError>)
      requires Valid()
      modifies this
      ensures Valid() && RunOutcome(Runs(), AsReply(r)) == EndStep(old(Runs()), now, id, status, errorType)
    {
      hide ValidRun, Storable, ValidRows, RunsOf;
      var record :- Get(id);
      if !record.core.status.Running? { return Ok(record); }
      var updated := EndedWithout(record, now, status, errorType);
      EndedStorable(record, now, status, errorType);
      Put(updated);
      r := Ok(updated);
    }

    method SetRetained(id: nat, flag: bool) returns (r: Result<RunRecord, RunError>)
      requires Valid()
      modifies this
      ensures Valid() && RunOutcome(Runs(), AsReply(r)) == RetainStep(old(Runs()), id, flag)
    {
      hide ValidRun, Storable, ValidRows, RunsOf;
      var record :- Get(id);
      RetainKeepsValid(record, flag);
      ValidStorable(Retained(record, flag));
      Put(Retained(record, flag));
      r := Ok(Retained(record, flag));
    }

    /** Select the running rows by their columns in id order, then interrupt each owned one through the ordinary path. */
    method ReconcileIncomplete(now: int, modes: set<Mode>) returns (count: nat)
      requires Valid()
      modifies this
      ensures Valid() && RunOutcome(Runs(), Counted(count)) == ReconcileStep(old(Runs()), now, modes)
    {
      ColumnsRunning(rows);
      hide ValidRows, RunsOf, RunningRows, OwnedIn, RestartedIn, Incomplete;
      var ids := Sorted(RunningRows(rows));
      OwnedAll(Runs(), ids, modes);
      count := RestartOwned(now, ids, modes);
    }

    method RestartOwned(now: int, ids: seq<nat>, modes: set<Mode>) returns (count: nat)
      requires Valid() && Ascending(ids) && forall id :: id in ids ==> id in Runs() && Runs()[id].core.status.Running?
      modifies this
      ensures Valid() && Runs() == RestartedIn(old(Runs()), now, OwnedIn(old(Runs()), ids[..|ids|], modes))
      ensures count == |OwnedIn(old(Runs()), ids[..|ids|], modes)|
    {
      ghost var before := Runs();
      RestartedNone(before, now, ids, modes);
      hide ValidRun, Storable, ValidRows, RunsOf, Parse, EndedWithout, EndStep, OwnedIn, Restarted, RestartedIn, Ascending;
      count := 0;
      for i := 0 to |ids|
        invariant Valid() && Runs() == RestartedIn(before, now, OwnedIn(before, ids[..i], modes))
        invariant count == |OwnedIn(before, ids[..i], modes)|
      {
        var id := ids[i];
        RowReads(rows, id);
        OwnedMore(before, ids, i, modes);
        NotYetRestarted(before, now, OwnedIn(before, ids[..i], modes), id);
        RestartNext(before, now, OwnedIn(before, ids[..i], modes), id);
        if rows[id].mode in modes {
          var error := RestartError(rows[id].mode);
          var _ := FinishWithoutExecution(now, id, Interrupted, error);
          count := count + 1;
        }
      }
    }

    method Cleanup(now: int, days: Option<nat>) returns (removed: seq<nat>)
      requires Valid()
      modifies this
      ensures Valid() && RunOutcome(Runs(), Removed(removed)) == PurgeStep(old(Runs()), now, days)
    {
      if days.None? { return []; }
      hide ValidRows, RunsOf, Old, OldRows;
      var cutoff := now - days.value * DAY;
      ColumnsSelect(rows, cutoff);
      var gone := OldRows(rows, cutoff);
      RemoveRows(rows, gone);
      rows := rows - gone;
      removed := Sorted(gone);
    }

    /** Any command: the store takes exactly the abstract step. */
    method Execute(now: int, c: RunCmd) returns (reply: RunReply)
      requires Valid()
      modifies this
      ensures Valid() && RunOutcome(Runs(), reply) == RunStep(old(Runs()), now, c)
    {
      hide ValidRows, RunsOf, StartStep, FinishStep, EndStep, RetainStep, ReconcileStep, PurgeStep;
      match c
      case Start(q, id) => var r := Create(now, q, id); reply := AsReply(r);
      case Finish(id, e) => var r := FinishRun(now, id, e); reply := AsReply(r);
      case EndWithout(id, status, errorType) =>
        var r := FinishWithoutExecution(now, id, status, errorType);
        reply := AsReply(r);
      case Retain(id, flag) => var r := SetRetained(id, flag); reply := AsReply(r);
      case Reconcile(modes) => var n := ReconcileIncomplete(now, modes); reply := Counted(n);
      case Purge(days) => var removed := Cleanup(now, days); reply := Removed(removed);
    }
  }

  /** The runs of the given modes among some identifiers. */
  ghost function OwnedIn(s: RunState, ids: seq<nat>, modes: set<Mode>): set<nat> {
    set id | id in ids && id in s && s[id].mode in modes
  }

  lemma OwnedMore(s: RunState, ids: seq<nat>, i: nat, modes: set<Mode>)
    requires i < |ids| && Ascending(ids) && ids[i] in s
    ensures ids[i] !in OwnedIn(s, ids[..i], modes)
    ensures OwnedIn(s, ids[..i + 1], modes)
            == if s[ids[i]].mode in modes then OwnedIn(s, ids[..i], modes) + {ids[i]} else OwnedIn(s, ids[..i], modes)
  {
    assert ids[..i + 1] == ids[..i] + [ids[i]];
    assert forall j :: 0 <= j < i ==> ids[j] < ids[i];
  }

  lemma OwnedAll(s: RunState, ids: seq<nat>, modes: set<Mode>)
    requires forall id :: id in ids <==> id in s && s[id].core.status.Running?
    ensures OwnedIn(s, ids[..|ids|], modes) == Incomplete(s, modes)
    ensures forall id :: id in ids ==> id in s && s[id].core.status.Running?
  {
    assert ids[..|ids|] == ids;
  }

  lemma RestartedNone(s: RunState, now: int, ids: seq<nat>, modes: set<Mode>)
    ensures OwnedIn(s, ids[..0], modes) == {} && RestartedIn(s, now, OwnedIn(s, ids[..0], modes)) == s
  {
  }

  lemma NotYetRestarted(s: RunState, now: int, done: set<nat>, id: nat)
    requires id in s && id !in done
    ensures id in RestartedIn(s, now, done) && RestartedIn(s, now, done)[id] == s[id]
  {
  }

  /** Interrupting one more running run through the ordinary path. */
  lemma RestartNext(s: RunState, now: int, done: set<nat>, id: nat)
    requires id in s && id !in done && s[id].core.status.Running? && Storable(s[id])
    ensures EndStep(RestartedIn(s, now, done), now, id, Interrupted, RestartError(s[id].mode)).state
            == RestartedIn(s, now, done + {id})
  {
    hide EndedWithout, ValidRun;
    var t := RestartedIn(s, now, done);
    assert t[id] == s[id] && ReadRun(t, id) == Ok(s[id]);
    assert t[id := Restarted(s[id], now)] == RestartedIn(s, now, done + {id});
  }

  lemma ValidStorable(r: RunRecord)
    requires ValidRun(r)
    ensures Storable(r)
  {
  }
}
