/** Task records, continuity snapshots and the pure rules that edit them. */
module TaskModel {
  import opened Common

  datatype Status = Active | Partial | Blocked | Completed | Cancelled

  predicate IsTerminal(s: Status) { s.Completed? || s.Cancelled? }

  /** The two values a close request may carry. */
  type FinalStatus = s: Status | IsTerminal(s) witness Completed

  datatype EvidenceClass = Observed | Configured | Documented | Planned | Unknown
  datatype Impact = Low | Medium | High
  datatype Source = Source(classification: EvidenceClass, reference: string, purpose: string)
  datatype Assumption = Assumption(statement: string, evidence: EvidenceClass, impact: Impact, decision: string)

  datatype Continuity = Continuity(
    authorization: Option<string>,
    sources: seq<Source>,
    completed: seq<string>,
    validation: seq<string>,
    cleanup: seq<string>,
    recovery: Option<string>,
    blockers: seq<string>,
    assumptions: seq<Assumption>)

  const EmptyContinuity := Continuity(None, [], [], [], [], None, [], [])

  /** A continuity patch: None means the field was not supplied by the caller. */
  datatype Patch = Patch(
    authorization: Option<Option<string>>,
    sources: Option<seq<Source>>,
    completed: Option<seq<string>>,
    validation: Option<seq<string>>,
    cleanup: Option<seq<string>>,
    recovery: Option<Option<string>>,
    blockers: Option<seq<string>>,
    assumptions: Option<seq<Assumption>>)

  /** Timestamps are microseconds of the store's clock. */
  datatype TaskRecord = TaskRecord(
    schemaVersion: nat,
    revision: nat,
    id: nat,
    title: string,
    objective: string,
    projectRef: Option<string>,
    status: Status,
    nextAction: Option<string>,
    continuity: Continuity,
    retained: bool,
    createdAt: int,
    updatedAt: int,
    archivedAt: Option<int>)

  // ---------- Validation ----------

  predicate Text(s: string, max: nat) { 1 <= |s| <= max }

  predicate OptionalText(s: Option<string>, max: nat) { s.Some? ==> Text(s.value, max) }

  predicate Texts(s: seq<string>, maxItems: nat, max: nat) {
    |s| <= maxItems && forall i :: 0 <= i < |s| ==> Text(s[i], max)
  }

  predicate ValidSource(s: Source) { Text(s.reference, 512) && Text(s.purpose, 1000) }

  predicate ValidAssumption(a: Assumption) { Text(a.statement, 1000) && Text(a.decision, 1000) }

  predicate ValidContinuity(c: Continuity) {
    && OptionalText(c.authorization, 2000)
    && |c.sources| <= 20 && (forall i :: 0 <= i < |c.sources| ==> ValidSource(c.sources[i]))
    && Texts(c.completed, 50, 1000)
    && Texts(c.validation, 50, 1000)
    && Texts(c.cleanup, 25, 1000)
    && OptionalText(c.recovery, 2000)
    && Texts(c.blockers, 25, 1000)
    && |c.assumptions| <= 20 && (forall i :: 0 <= i < |c.assumptions| ==> ValidAssumption(c.assumptions[i]))
  }

  /** Every constraint on a record except those of its nested continuity snapshot. */
  predicate ValidHeader(r: TaskRecord) {
    && (r.schemaVersion == 1 || r.schemaVersion == 2)
    && (r.schemaVersion == 1 ==> r.revision == 0)
    && (r.schemaVersion == 2 ==> r.revision >= 1)
    && Text(r.title, 200) && Text(r.objective, 4000)
    && OptionalText(r.projectRef, 256) && OptionalText(r.nextAction, 2000)
  }

  predicate ValidRecord(r: TaskRecord) { ValidHeader(r) && ValidContinuity(r.continuity) }

  // ---------- Continuity identity ----------

  /** The white space that Python's str.strip removes. */
  predicate IsSpace(c: char) {
    var n := c as int;
    || 9 <= n <= 13 || 28 <= n <= 32 || n == 0x85 || n == 0xA0 || n == 0x1680
    || 0x2000 <= n <= 0x200A || n == 0x2028 || n == 0x2029 || n == 0x202F || n == 0x205F || n == 0x3000
  }

  function Strip(s: string): (t: string)
    ensures t == "" || (!IsSpace(t[0]) && !IsSpace(t[|t| - 1]))
    ensures s != "" && !IsSpace(s[0]) && !IsSpace(s[|s| - 1]) ==> t == s
  {
    if s == "" then ""
    else if IsSpace(s[0]) then Strip(s[1..])
    else if IsSpace(s[|s| - 1]) then Strip(s[..|s| - 1])
    else s
  }

  datatype Identity = Identity(title: string, objective: string, projectRef: Option<string>)

  function IdentityOf(title: string, objective: string, projectRef: Option<string>): Identity {
    Identity(Strip(title), Strip(objective), if projectRef.Some? then Some(Strip(projectRef.value)) else None)
  }

  function RecordIdentity(r: TaskRecord): Identity { IdentityOf(r.title, r.objective, r.projectRef) }

  // ---------- Pending-mutation blockers ----------

  const PENDING_PREFIX := "[reach:pending-mutation]"

  predicate IsPending(blocker: string) { PENDING_PREFIX <= blocker }

  predicate HasPending(blockers: seq<string>) { exists i :: 0 <= i < |blockers| && IsPending(blockers[i]) }

  function NonPending(blockers: seq<string>): (r: seq<string>)
    ensures |r| <= |blockers|
    ensures !HasPending(r)
    ensures forall b :: b in r ==> b in blockers
    ensures !HasPending(blockers) ==> r == blockers
  {
    if blockers == [] then []
    else
      var rest := NonPending(blockers[1..]);
      assert forall i :: 0 <= i < |blockers| - 1 ==> blockers[1..][i] == blockers[i + 1];
      if IsPending(blockers[0]) then rest else [blockers[0]] + rest
  }

  function MarkText(purpose: string): string {
    PENDING_PREFIX
    + " Mutating execution requires "
    + "postcondition reconciliation before Task completion. Latest purpose: "
    + purpose
  }

  function MarkedBlockers(blockers: seq<string>, purpose: string): (r: seq<string>)
    ensures HasPending(r)
  {
    var r := NonPending(blockers) + [MarkText(purpose)];
    assert IsPending(r[|r| - 1]);
    r
  }

  // ---------- Edits ----------

  datatype Edit = Edit(
    title: Option<string>,
    objective: Option<string>,
    projectRef: Option<string>,
    clearProjectRef: bool,
    nextAction: Option<string>,
    clearNextAction: bool,
    continuity: Option<Patch>,
    retained: Option<bool>)

  const NoEdit := Edit(None, None, None, false, None, false, None, None)

  predicate ExclusiveArgs(e: Edit) {
    !(e.clearProjectRef && e.projectRef.Some?) && !(e.clearNextAction && e.nextAction.Some?)
  }

  function Or<T>(o: Option<T>, d: T): T { if o.Some? then o.value else d }

  function Merge(c: Continuity, p: Patch): Continuity {
    Continuity(
      Or(p.authorization, c.authorization), Or(p.sources, c.sources), Or(p.completed, c.completed),
      Or(p.validation, c.validation), Or(p.cleanup, c.cleanup), Or(p.recovery, c.recovery),
      Or(p.blockers, c.blockers), Or(p.assumptions, c.assumptions))
  }

  /** Merge, validated as a whole; an omitted patch leaves the snapshot alone. */
  function MergeValidated(c: Continuity, p: Option<Patch>): Result<Continuity, ()> {
    if p.None? then Ok(c)
    else if ValidContinuity(Merge(c, p.value)) then Ok(Merge(c, p.value))
    else Err(())
  }

  function Edited(r: TaskRecord, now: int, e: Edit, status: Option<Status>, continuity: Continuity,
                  archivedAt: Option<int>): TaskRecord
  {
    r.(schemaVersion := 2, revision := r.revision + 1, updatedAt := now,
    title := Or(e.title, r.title), objective := Or(e.objective, r.objective),
    projectRef := if e.clearProjectRef then None else if e.projectRef.Some? then e.projectRef else r.projectRef,
    status := Or(status, r.status),
    nextAction := if e.clearNextAction then None else if e.nextAction.Some? then e.nextAction else r.nextAction,
    continuity := continuity, retained := Or(e.retained, r.retained),
    archivedAt := if archivedAt.Some? then archivedAt else r.archivedAt)
  }

  /** The nested continuity value is an already built instance, so only the header is checked again. */
  function BuildUpdated(r: TaskRecord, now: int, e: Edit, status: Option<Status>, continuity: Continuity,
                        archivedAt: Option<int>): (built: Result<TaskRecord, ()>)
    ensures built.Ok? ==> built.value.id == r.id && built.value.revision == r.revision + 1
  {
    var updated := Edited(r, now, e, status, continuity, archivedAt);
    if ValidHeader(updated) then Ok(updated) else Err(())
  }

  predicate DesiredCloseMatches(r: TaskRecord, status: Status, e: Edit) {
    && r.status == status
    && (e.title.Some? ==> r.title == e.title.value)
    && (e.objective.Some? ==> r.objective == e.objective.value)
    && (e.projectRef.Some? ==> r.projectRef == e.projectRef)
    && (e.clearProjectRef ==> r.projectRef.None?)
    && (e.nextAction.Some? ==> r.nextAction == e.nextAction)
    && (e.clearNextAction ==> r.nextAction.None?)
    && (e.continuity.Some? ==> MergeValidated(r.continuity, e.continuity) == Ok(r.continuity))
    && (e.retained.Some? ==> r.retained == e.retained.value)
  }
}
