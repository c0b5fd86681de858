/**
 * The abstract task store: what both storage layouts must do.
 *
 * A state holds every task with its archive flag and the leases that are still live.
 * Step gives the reply and the next state for one command at one clock value, Run folds
 * it over a timed sequence of commands.
 */
module TaskSpec {
  import opened Common
  import opened TaskModel

  const SECOND := 1_000_000
  const DAY := 86_400 * SECOND

  datatype Error =
    | MutuallyExclusive | ReconcileBeforeClose | ArchivedTask | UnknownTask | TerminalTask | StatusChange
    | LeaseRequired | LeaseMismatch | LeaseInactive | StaleRevision | ReconciliationRequired
    | NothingToReconcile | PendingAtClose | DifferentFinalState | NextActionRetained | BlockersRetained
    | Validation | InvalidRecord | AlreadyExists | BadArgument | NotTerminal

  datatype Lease = Lease(leaseId: nat, executor: string, scope: string, acquiredAt: int, refreshedAt: int, expiresAt: int)

  datatype Entry = Entry(record: TaskRecord, archived: bool)

  datatype State = State(tasks: map<nat, Entry>, leases: map<nat, Lease>)

  /** The layouts differ in one place: whether a marked record is validated again before it is written. */
  datatype LayoutKind = FileLayout | DatabaseLayout

  datatype Handoff = Owned | Busy | Granted | Refreshed | Released

  datatype LeaseReply = LeaseReply(acquired: bool, leaseId: Option<nat>, owner: Option<Lease>, handoff: Handoff)

  datatype Reply =
    | Record(record: TaskRecord)
    | LeaseState(lease: LeaseReply)
    | Authorized(holder: Option<Lease>)
    | Ids(ids: seq<nat>)
    | Failed(error: Error)

  datatype Outcome = Outcome(state: State, reply: Reply)

  datatype Cmd =
    | Create(title: string, objective: string, projectRef: Option<string>, nextAction: Option<string>,
             continuity: Continuity, retained: bool, freshId: nat)
    | Get(id: nat)
    | Update(id: nat, status: Option<Status>, expected: Option<int>, edit: Edit, reconcile: Option<string>,
             leaseId: Option<nat>)
    | Mark(id: nat, purpose: string, leaseId: Option<nat>)
    | Close(id: nat, final: FinalStatus, expected: Option<int>, edit: Edit, leaseId: Option<nat>)
    | ArchiveTask(id: nat)
    | Acquire(id: nat, executor: string, scope: string, seconds: int, freshLease: nat)
    | Refresh(id: nat, held: nat, seconds: int)
    | Release(id: nat, held: nat)
    | Authorize(id: nat, leaseId: Option<nat>)
    | Repair
    | Cleanup(archivedDays: Option<nat>)

  // ---------- Reading ----------

  function LiveLeases(leases: map<nat, Lease>, now: int): map<nat, Lease> {
    map id | id in leases && leases[id].expiresAt > now :: leases[id]
  }

  function Expire(s: State, now: int): State { State(s.tasks, LiveLeases(s.leases, now)) }

  function ActiveIds(s: State): set<nat> { set id | id in s.tasks && !s.tasks[id].archived }

  function ArchivedIds(s: State): set<nat> { set id | id in s.tasks && s.tasks[id].archived }

  function Read(r: TaskRecord): Result<TaskRecord, Error> { if ValidRecord(r) then Ok(r) else Err(InvalidRecord) }

  function GetRecord(s: State, id: nat): Result<TaskRecord, Error> {
    if id !in s.tasks then Err(UnknownTask) else Read(s.tasks[id].record)
  }

  /** The record of a task that is present and not archived. */
  function ReadActive(s: State, id: nat): Result<TaskRecord, Error> {
    if id !in s.tasks then Err(UnknownTask)
    else if s.tasks[id].archived then Err(ArchivedTask)
    else Read(s.tasks[id].record)
  }

  function RequireOpen(s: State, id: nat): Result<TaskRecord, Error> {
    var r :- ReadActive(s, id);
    if IsTerminal(r.status) then Err(TerminalTask) else Ok(r)
  }

  function LeaseGuard(s: State, id: nat, given: Option<nat>): Result<Option<Lease>, Error> {
    if id !in s.leases then Ok(None)
    else if given == Some(s.leases[id].leaseId) then Ok(Some(s.leases[id]))
    else Err(LeaseRequired)
  }

  function Stale(r: TaskRecord, expected: Option<int>): bool { expected.Some? && r.revision != expected.value }

  function Checked<T>(r: Result<T, ()>): Result<T, Error> { if r.Ok? then Ok(r.value) else Err(Validation) }

  function WriteRecord(s: State, r: TaskRecord): State { State(s.tasks[r.id := Entry(r, false)], s.leases) }

  // ---------- Create ----------

  /** The first open task with this identity; an unreadable record met on the way stops the scan. */
  function ScanEquivalent(s: State, ids: seq<nat>, identity: Identity): Result<Option<TaskRecord>, Error>
    requires forall id :: id in ids ==> id in s.tasks
  {
    if ids == [] then Ok(None)
    else
      var r :- Read(s.tasks[ids[0]].record);
      if !IsTerminal(r.status) && RecordIdentity(r) == identity then Ok(Some(r))
      else ScanEquivalent(s, ids[1..], identity)
  }

  predicate MatchesOpen(s: State, id: nat, identity: Identity)
    requires id in s.tasks
  {
    !IsTerminal(s.tasks[id].record.status) && RecordIdentity(s.tasks[id].record) == identity
  }

  /** When every record scanned is readable, the scan finds the least matching identifier. */
  lemma {:induction false} ScanFindsLeast(s: State, ids: seq<nat>, identity: Identity, matching: set<nat>)
    requires Ascending(ids)
    requires forall id :: id in ids ==> id in s.tasks && ValidRecord(s.tasks[id].record)
    requires matching == set id | id in ids && MatchesOpen(s, id, identity)
    ensures ScanEquivalent(s, ids, identity)
            == Ok(if matching == {} then None else Some(s.tasks[Min(matching)].record))
  {
    if ids == [] {
      assert matching == {};
    } else if MatchesOpen(s, ids[0], identity) {
      assert ids[0] in matching;
      assert forall id :: id in matching ==> ids[0] <= id;
    } else {
      assert ids == [ids[0]] + ids[1..];
      ScanFindsLeast(s, ids[1..], identity, matching);
    }
  }

  function NewRecord(c: Cmd, now: int): TaskRecord
    requires c.Create?
  {
    TaskRecord(2, 1, c.freshId, c.title, c.objective, c.projectRef, Active, c.nextAction, c.continuity,
               c.retained, now, now, None)
  }

  function CreateStep(s: State, now: int, c: Cmd): Outcome
    requires c.Create?
  {
    var found := ScanEquivalent(s, Sorted(ActiveIds(s)), IdentityOf(c.title, c.objective, c.projectRef));
    var r := NewRecord(c, now);
    if found.Err? then Outcome(s, Failed(found.error))
    else if found.value.Some? then Outcome(s, Record(found.value.value))
    else if !ValidRecord(r) then Outcome(s, Failed(Validation))
    else if r.id in s.tasks then Outcome(s, Failed(AlreadyExists))
    else Outcome(WriteRecord(s, r), Record(r))
  }

  // ---------- Content changes ----------

  function MarkDecision(s: State, now: int, id: nat, purpose: string, given: Option<nat>): Result<TaskRecord, Error> {
    var r :- ReadActive(s, id);
    var _ :- LeaseGuard(s, id, given);
    if IsTerminal(r.status) then Err(TerminalTask)
    else
      var marked := r.continuity.(blockers := MarkedBlockers(r.continuity.blockers, purpose));
      Checked(BuildUpdated(r, now, NoEdit, None, marked, None))
  }

  function Reconciled(c: Continuity, evidence: string): Continuity {
    c.(blockers := NonPending(c.blockers), validation := c.validation + ["Mutation reconciliation: " + evidence])
  }

  /** The continuity an accepted update writes. */
  function UpdatedContinuity(r: TaskRecord, patch: Option<Patch>, reconcile: Option<string>): Result<Continuity, Error> {
    var merged :- Checked(MergeValidated(r.continuity, patch));
    if HasPending(r.continuity.blockers) && !HasPending(merged.blockers) && reconcile.None? then
      Err(ReconciliationRequired)
    else if reconcile.None? then Ok(merged)
    else if !HasPending(r.continuity.blockers) then Err(NothingToReconcile)
    else
      var reconciled := Reconciled(merged, reconcile.value);
      if ValidContinuity(reconciled) then Ok(reconciled) else Err(Validation)
  }

  function UpdateRecord(r: TaskRecord, now: int, c: Cmd): Result<TaskRecord, Error>
    requires c.Update?
  {
    if IsTerminal(r.status) then
      Err(if c.status.Some? && c.status.value != r.status then StatusChange else TerminalTask)
    else if Stale(r, c.expected) then Err(StaleRevision)
    else
      var continuity :- UpdatedContinuity(r, c.edit.continuity, c.reconcile);
      Checked(BuildUpdated(r, now, c.edit, c.status, continuity, None))
  }

  /** An update that does not close the task. */
  function UpdateDecision(s: State, now: int, c: Cmd): Result<TaskRecord, Error>
    requires c.Update? && (c.status.Some? ==> !IsTerminal(c.status.value))
  {
    if !ExclusiveArgs(c.edit) then Err(MutuallyExclusive)
    else if c.id in s.tasks && s.tasks[c.id].archived then
      var r :- Read(s.tasks[c.id].record);
      Err(if c.status.Some? && c.status.value != r.status then StatusChange else ArchivedTask)
    else
      var r :- ReadActive(s, c.id);
      var _ :- LeaseGuard(s, c.id, c.leaseId);
      UpdateRecord(r, now, c)
  }

  // ---------- Close ----------

  /** How an accepted close proceeds: commit a final record, finish an interrupted one, or replay a done one. */
  datatype ClosePlan = Commit(final: TaskRecord) | Finish(final: TaskRecord) | Replay(final: TaskRecord)

  function CommitDecision(r: TaskRecord, now: int, final: FinalStatus, expected: Option<int>, e: Edit): Result<ClosePlan, Error> {
    if Stale(r, expected) then Err(StaleRevision)
    else
      var merged :- Checked(MergeValidated(r.continuity, e.continuity));
      var updated :- Checked(BuildUpdated(r, now, e, Some(final), merged, Some(now)));
      if HasPending(updated.continuity.blockers) then Err(PendingAtClose)
      else if final.Completed? && updated.nextAction.Some? then Err(NextActionRetained)
      else if final.Completed? && updated.continuity.blockers != [] then Err(BlockersRetained)
      else Ok(Commit(updated))
  }

  /** A close request that meets an archived record. */
  function ArchivedPlan(r: TaskRecord, final: FinalStatus, e: Edit): (plan: Result<ClosePlan, Error>)
    ensures plan.Ok? ==> plan.value == Replay(r) && r.status == final && !HasPending(r.continuity.blockers)
  {
    if HasPending(r.continuity.blockers) then Err(PendingAtClose)
    else if DesiredCloseMatches(r, final, e) then Ok(Replay(r))
    else Err(if r.status != final then StatusChange else DifferentFinalState)
  }

  /** A close request that meets a record still in the active root. */
  function ActivePlan(r: TaskRecord, now: int, final: FinalStatus, expected: Option<int>, e: Edit): (plan: Result<ClosePlan, Error>)
    ensures plan.Ok? ==>
              !plan.value.Replay? && plan.value.final.id == r.id && plan.value.final.status == final
              && plan.value.final.archivedAt.Some? && !HasPending(plan.value.final.continuity.blockers)
  {
    if HasPending(r.continuity.blockers) then Err(PendingAtClose)
    else if IsTerminal(r.status) && r.status != final then Err(StatusChange)
    else if IsTerminal(r.status) && r.archivedAt.Some? then
      if DesiredCloseMatches(r, final, e) then Ok(Finish(r)) else Err(DifferentFinalState)
    else CommitDecision(r, now, final, expected, e)
  }

  function CloseDecision(s: State, now: int, id: nat, final: FinalStatus, expected: Option<int>, e: Edit,
                         given: Option<nat>): Result<ClosePlan, Error>
  {
    if !ExclusiveArgs(e) then Err(MutuallyExclusive)
    else if id in s.tasks && s.tasks[id].archived then
      var r :- Read(s.tasks[id].record);
      ArchivedPlan(r, final, e)
    else
      var r :- ReadActive(s, id);
      var _ :- LeaseGuard(s, id, given);
      ActivePlan(r, now, final, expected, e)
  }

  function ArchiveWith(s: State, r: TaskRecord): State { State(s.tasks[r.id := Entry(r, true)], s.leases - {r.id}) }

  lemma ArchiveAfterWrite(s: State, r: TaskRecord)
    ensures ArchiveWith(WriteRecord(s, r), r) == ArchiveWith(s, r)
  {
  }

  /** What an accepted first close commits. */
  lemma CommitFinal(r: TaskRecord, now: int, final: FinalStatus, expected: Option<int>, e: Edit)
    requires ValidRecord(r)
    ensures
      var plan := CommitDecision(r, now, final, expected, e);
      plan.Ok? ==> plan.value.Commit? && ValidRecord(plan.value.final) && plan.value.final.id == r.id
  {
    hide ValidContinuity, HasPending;
  }

  function CloseStep(s: State, now: int, id: nat, final: FinalStatus, expected: Option<int>, e: Edit,
                     given: Option<nat>): Outcome
  {
    var plan := CloseDecision(s, now, id, final, expected, e, given);
    if plan.Err? then Outcome(s, Failed(plan.error))
    else Outcome(if plan.value.Replay? then s else ArchiveWith(s, plan.value.final), Record(plan.value.final))
  }

  ghost predicate WellKeyed(s: State) { forall id :: id in s.tasks ==> s.tasks[id].record.id == id }

  /** A close changes the entry of its own task only. */
  lemma CloseTouches(s: State, now: int, id: nat, final: FinalStatus, expected: Option<int>, e: Edit, given: Option<nat>)
    requires WellKeyed(s)
    ensures
      var o := CloseStep(s, now, id, final, expected, e, given);
      && WellKeyed(o.state)
      && (o.state == s || (id in s.tasks && exists r: TaskRecord :: r.id == id && o.state == ArchiveWith(s, r)))
  {
    hide ActivePlan, ArchivedPlan, ValidRecord;
  }

  function ArchiveStep(s: State, now: int, id: nat): Outcome {
    var r := GetRecord(s, id);
    if r.Err? then Outcome(s, Failed(r.error))
    else if !IsTerminal(r.value.status) then Outcome(s, Failed(NotTerminal))
    else CloseStep(s, now, id, r.value.status, None, NoEdit, None)
  }

  // ---------- Leases ----------

  predicate ValidSeconds(n: int) { 30 <= n <= 3600 }

  function AcquireStep(s: State, now: int, c: Cmd): Outcome
    requires c.Acquire?
  {
    if !Text(c.executor, 256) || !Text(c.scope, 512) || !ValidSeconds(c.seconds) then Outcome(s, Failed(BadArgument))
    else
      var r := RequireOpen(s, c.id);
      if r.Err? then Outcome(s, Failed(r.error))
      else if c.id in s.leases then
        var held := s.leases[c.id];
        var same := held.executor == c.executor && held.scope == c.scope;
        Outcome(s, LeaseState(LeaseReply(same, if same then Some(held.leaseId) else None, Some(held),
                                         if same then Owned else Busy)))
      else
        var lease := Lease(c.freshLease, c.executor, c.scope, now, now, now + c.seconds * SECOND);
        Outcome(State(s.tasks, s.leases[c.id := lease]), LeaseState(LeaseReply(true, Some(lease.leaseId), Some(lease), Granted)))
  }

  function RefreshStep(s: State, now: int, id: nat, held: nat, seconds: int): Outcome {
    if !ValidSeconds(seconds) then Outcome(s, Failed(BadArgument))
    else
      var r := RequireOpen(s, id);
      if r.Err? then Outcome(s, Failed(r.error))
      else if id !in s.leases then Outcome(s, Failed(LeaseInactive))
      else if s.leases[id].leaseId != held then Outcome(s, Failed(LeaseMismatch))
      else
        var lease := s.leases[id].(refreshedAt := now, expiresAt := now + seconds * SECOND);
        Outcome(State(s.tasks, s.leases[id := lease]), LeaseState(LeaseReply(true, Some(held), Some(lease), Refreshed)))
  }

  function ReleaseStep(s: State, id: nat, held: nat): Outcome {
    var r := RequireOpen(s, id);
    if r.Err? then Outcome(s, Failed(r.error))
    else if id !in s.leases then Outcome(s, LeaseState(LeaseReply(false, None, None, Released)))
    else if s.leases[id].leaseId != held then Outcome(s, Failed(LeaseMismatch))
    else Outcome(State(s.tasks, s.leases - {id}), LeaseState(LeaseReply(false, None, Some(s.leases[id]), Released)))
  }

  function AuthorizeStep(s: State, id: nat, given: Option<nat>): Outcome {
    var r := RequireOpen(s, id);
    if r.Err? then Outcome(s, Failed(r.error))
    else
      var g := LeaseGuard(s, id, given);
      Outcome(s, if g.Err? then Failed(g.error) else Authorized(g.value))
  }

  // ---------- Repair and cleanup ----------

  /** Close every terminal task left active, in id order; the first failure stops, keeping earlier closes. */
  function RepairFrom(s: State, now: int, ids: seq<nat>, done: seq<nat>): Outcome
    decreases |ids|
  {
    if ids == [] then Outcome(s, Ids(done))
    else
      var r := GetRecord(s, ids[0]);
      if r.Err? then Outcome(s, Failed(r.error))
      else if !IsTerminal(r.value.status) then RepairFrom(s, now, ids[1..], done)
      else
        var closed := CloseStep(s, now, ids[0], r.value.status, None, NoEdit, None);
        if closed.reply.Failed? then closed
        else RepairFrom(closed.state, now, ids[1..], done + [ids[0]])
  }

  predicate Removable(r: TaskRecord, cutoff: int) {
    IsTerminal(r.status) && !r.retained && r.archivedAt.Some? && r.archivedAt.value <= cutoff
  }

  function RemovableIds(s: State, cutoff: int): set<nat> {
    set id | id in s.tasks && s.tasks[id].archived && Removable(s.tasks[id].record, cutoff)
  }

  function CleanupStep(s: State, now: int, days: Option<nat>): Outcome {
    if days.None? then Outcome(s, Ids([]))
    else
      var gone := RemovableIds(s, now - days.value * DAY);
      Outcome(State(s.tasks - gone, s.leases - gone), Ids(Sorted(gone)))
  }

  // ---------- One command, and a timed run ----------

  /** A marked record keeps its bounds, so both layouts can store and read it. */
  predicate MarkFits(s: State, now: int, c: Cmd)
    requires c.Mark?
  {
    var d := MarkDecision(Expire(s, now), now, c.id, c.purpose, c.leaseId);
    d.Ok? ==> ValidRecord(d.value)
  }

  function Written(s: State, d: Result<TaskRecord, Error>): Outcome {
    if d.Err? then Outcome(s, Failed(d.error)) else Outcome(WriteRecord(s, d.value), Record(d.value))
  }

  function MarkStep(kind: LayoutKind, s: State, now: int, c: Cmd): Outcome
    requires c.Mark?
  {
    var d := MarkDecision(s, now, c.id, c.purpose, c.leaseId);
    if kind.DatabaseLayout? && d.Ok? && !ValidRecord(d.value) then Outcome(s, Failed(InvalidRecord))
    else Written(s, d)
  }

  function UpdateStep(s: State, now: int, c: Cmd): Outcome
    requires c.Update?
  {
    if c.status.Some? && IsTerminal(c.status.value) then
      if !ExclusiveArgs(c.edit) then Outcome(s, Failed(MutuallyExclusive))
      else if c.reconcile.Some? then Outcome(s, Failed(ReconcileBeforeClose))
      else CloseStep(s, now, c.id, c.status.value, c.expected, c.edit, c.leaseId)
    else Written(s, UpdateDecision(s, now, c))
  }

  function Step(kind: LayoutKind, before: State, now: int, c: Cmd): Outcome {
    var s := Expire(before, now);
    match c
    case Create(_, _, _, _, _, _, _) => CreateStep(s, now, c)
    case Get(id) =>
      var r := GetRecord(s, id);
      Outcome(s, if r.Ok? then Record(r.value) else Failed(r.error))
    case Update(_, _, _, _, _, _) => UpdateStep(s, now, c)
    case Mark(_, _, _) => MarkStep(kind, s, now, c)
    case Close(id, final, expected, edit, leaseId) => CloseStep(s, now, id, final, expected, edit, leaseId)
    case ArchiveTask(id) => ArchiveStep(s, now, id)
    case Acquire(_, _, _, _, _) => AcquireStep(s, now, c)
    case Refresh(id, held, seconds) => RefreshStep(s, now, id, held, seconds)
    case Release(id, held) => ReleaseStep(s, id, held)
    case Authorize(id, leaseId) => AuthorizeStep(s, id, leaseId)
    case Repair => RepairFrom(s, now, Sorted(ActiveIds(s)), [])
    case Cleanup(days) => CleanupStep(s, now, days)
  }

  datatype Timed = At(now: int, cmd: Cmd)

  ghost predicate Monotone(run: seq<Timed>) {
    forall i, j :: 0 <= i < j < |run| ==> run[i].now <= run[j].now
  }

  /** The state after a run, from its start. */
  function Run(kind: LayoutKind, s: State, run: seq<Timed>): State
    decreases |run|
  {
    if run == [] then s
    else Run(kind, Step(kind, s, run[0].now, run[0].cmd).state, run[1..])
  }

  function Replies(kind: LayoutKind, s: State, run: seq<Timed>): (replies: seq<Reply>)
    ensures |replies| == |run|
    decreases |run|
  {
    if run == [] then []
    else
      var o := Step(kind, s, run[0].now, run[0].cmd);
      [o.reply] + Replies(kind, o.state, run[1..])
  }
}
