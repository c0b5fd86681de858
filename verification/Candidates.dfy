/** Tooling candidates: records, their lifecycle validator, and the compare-and-set store operations. */
module Candidates {
  import opened Common
  import opened TaskModel

  datatype CandidateState = Proposed | Approved | OnHold | NotWarranted | Implemented | Automated

  datatype ReferenceKind = ManagedTool | Capability
  datatype Reference = Reference(kind: ReferenceKind, id: string)

  datatype InterfaceField = InterfaceField(name: string, description: string)

  datatype Problem = Problem(summary: string, cause: string, recurrenceCount: int, recurrence: Option<string>, evidence: seq<string>)

  datatype Proposal = Proposal(
    capability: string, proposedToolId: Option<string>, requiredInputs: seq<InterfaceField>,
    expectedOutputs: seq<InterfaceField>, mutating: bool, secretAccess: bool, boundary: string, acceptance: seq<string>)

  datatype Promotion = Promotion(state: CandidateState, rationale: string, stateReason: Option<string>)

  datatype Implementation = Implementation(taskId: Option<nat>, finalReference: Option<Reference>)

  datatype Candidate = Candidate(
    id: string, revision: int, title: string, problem: Problem, proposal: Proposal, ownerId: string,
    promotion: Promotion, implementation: Implementation, createdAt: int, updatedAt: int)

  // ---------- Validation ----------

  predicate Upper(c: char) { 'A' <= c <= 'Z' }
  predicate Lower(c: char) { 'a' <= c <= 'z' }
  predicate Digit(c: char) { '0' <= c <= '9' }

  predicate IdChar(c: char) { Upper(c) || Digit(c) || c == '-' }

  predicate ValidCandidateId(id: string) {
    2 <= |id| <= 64 && Upper(id[0]) && forall i :: 1 <= i < |id| ==> IdChar(id[i])
  }

  predicate StableReference(s: string) {
    && 1 <= |s| <= 190 && (Upper(s[0]) || Lower(s[0]) || Digit(s[0]))
    && forall i :: 1 <= i < |s| ==> Upper(s[i]) || Lower(s[i]) || Digit(s[i]) || s[i] in "._:/-"
  }

  predicate ToolNamespace(s: string) {
    1 <= |s| <= 63 && (Lower(s[0]) || Digit(s[0])) && forall i :: 1 <= i < |s| ==> Lower(s[i]) || Digit(s[i]) || s[i] in "_-"
  }

  predicate ToolName(s: string) {
    1 <= |s| <= 127 && (Lower(s[0]) || Digit(s[0])) && forall i :: 1 <= i < |s| ==> Lower(s[i]) || Digit(s[i]) || s[i] in "._-"
  }

  predicate ToolId(s: string) {
    exists dot :: 0 <= dot < |s| && s[dot] == '.' && ToolNamespace(s[..dot]) && ToolName(s[dot + 1..])
  }

  predicate ValidFields(fields: seq<InterfaceField>, least: nat) {
    least <= |fields| <= 50 && forall i :: 0 <= i < |fields| ==> Text(fields[i].name, 100) && Text(fields[i].description, 500)
  }

  predicate ValidProblem(p: Problem) {
    && Text(p.summary, 2000) && Text(p.cause, 2000) && p.recurrenceCount >= 1 && OptionalText(p.recurrence, 2000)
    && p.evidence != [] && Texts(p.evidence, 20, 1000)
  }

  predicate ValidProposal(p: Proposal) {
    && Text(p.capability, 2000) && (p.proposedToolId.Some? ==> 3 <= |p.proposedToolId.value| <= 190 && ToolId(p.proposedToolId.value))
    && ValidFields(p.requiredInputs, 0) && ValidFields(p.expectedOutputs, 1)
    && Text(p.boundary, 2000) && p.acceptance != [] && Texts(p.acceptance, 50, 1000)
  }

  predicate ValidReference(r: Reference) { StableReference(r.id) && (r.kind.ManagedTool? ==> ToolId(r.id)) }

  predicate Delivered(s: CandidateState) { s.Implemented? || s.Automated? }

  /** The lifecycle validator: a reason for every state but the first, a final reference exactly for delivered ones. */
  predicate LifecycleShape(c: Candidate) {
    && (c.promotion.state.Proposed? <==> c.promotion.stateReason.None?)
    && (Delivered(c.promotion.state) <==> c.implementation.finalReference.Some?)
  }

  predicate ValidCandidate(c: Candidate) {
    && ValidCandidateId(c.id) && c.revision >= 1 && Text(c.title, 200) && ValidProblem(c.problem) && ValidProposal(c.proposal)
    && StableReference(c.ownerId) && Text(c.promotion.rationale, 2000) && OptionalText(c.promotion.stateReason, 2000)
    && (c.implementation.finalReference.Some? ==> ValidReference(c.implementation.finalReference.value))
    && LifecycleShape(c)
  }

  // ---------- Commands ----------

  datatype CandidateError =
    | BadRecurrence | InvalidId | AlreadyExists | AllocationFailed | UnknownCandidate | StaleRevision | RecurrenceChanged
    | InvalidTransition | ReferenceRequired | ReferenceNotAllowed | NotApproved | InvalidCandidate

  datatype Draft = Draft(title: string, problem: Problem, proposal: Proposal, ownerId: string, rationale: string)

  datatype Changes = Changes(
    title: Option<string>, problem: Option<Problem>, proposal: Option<Proposal>, ownerId: Option<string>, rationale: Option<string>)

  /** generated holds the identifiers the 32 allocation attempts would draw. */
  datatype CandidateCmd =
    | Create(name: Option<string>, generated: seq<string>, draft: Draft)
    | Update(id: string, expected: int, changes: Changes)
    | RecordOccurrence(id: string, expected: int)
    | Transition(id: string, expected: int, target: CandidateState, reason: string, reference: Option<Reference>)
    | LinkTask(id: string, expected: int, taskId: nat)

  const ATTEMPTS := 32

  type CandidateMap = map<string, Candidate>

  function Known(s: CandidateMap, id: string): Result<Candidate, CandidateError> {
    if !ValidCandidateId(id) then Err(InvalidId) else if id !in s then Err(UnknownCandidate) else Ok(s[id])
  }

  function Current(s: CandidateMap, id: string, expected: int): Result<Candidate, CandidateError> {
    var c :- Known(s, id);
    if c.revision != expected then Err(StaleRevision) else Ok(c)
  }

  function Validated(c: Candidate): Result<Candidate, CandidateError> {
    if ValidCandidate(c) then Ok(c) else Err(InvalidCandidate)
  }

  predicate Allowed(a: CandidateState, b: CandidateState) {
    match a
    case Proposed => b.Approved? || b.OnHold? || b.NotWarranted?
    case Approved => b.OnHold? || b.NotWarranted? || b.Implemented? || b.Automated?
    case OnHold => b.Approved? || b.NotWarranted?
    case NotWarranted => false
    case Implemented => false
    case Automated => false
  }

  function Drafted(id: string, d: Draft, now: int): Candidate {
    Candidate(id, 1, d.title, d.problem, d.proposal, d.ownerId, Promotion(Proposed, d.rationale, None), Implementation(None, None), now, now)
  }

  function CreateAs(s: CandidateMap, id: string, d: Draft, now: int): Result<Candidate, CandidateError> {
    if d.problem.recurrenceCount != 1 then Err(BadRecurrence)
    else if !ValidCandidateId(id) then Err(InvalidId)
    else if id in s then Err(CandidateError.AlreadyExists)
    else Validated(Drafted(id, d, now))
  }

  /** Attempts that draw a taken identifier are retried; any other failure, or a success, is final. */
  function Allocate(s: CandidateMap, generated: seq<string>, d: Draft, now: int): Result<Candidate, CandidateError> {
    if generated == [] then Err(AllocationFailed)
    else if CreateAs(s, generated[0], d, now) == Err(CandidateError.AlreadyExists) then Allocate(s, generated[1..], d, now)
    else CreateAs(s, generated[0], d, now)
  }

  function Changed(c: Candidate, e: Changes, now: int): Candidate {
    c.(revision := c.revision + 1, updatedAt := now, title := Or(e.title, c.title), problem := Or(e.problem, c.problem),
       proposal := Or(e.proposal, c.proposal), ownerId := Or(e.ownerId, c.ownerId),
       promotion := c.promotion.(rationale := Or(e.rationale, c.promotion.rationale)))
  }

  /** The record an accepted command returns. */
  function Decide(s: CandidateMap, now: int, cmd: CandidateCmd): Result<Candidate, CandidateError> {
    match cmd
    case Create(name, generated, d) =>
      if d.problem.recurrenceCount != 1 then Err(BadRecurrence)
      else if name.Some? then CreateAs(s, name.value, d, now)
      else Allocate(s, generated[..if |generated| < ATTEMPTS then |generated| else ATTEMPTS], d, now)
    case Update(id, expected, e) =>
      var c :- Current(s, id, expected);
      if e.problem.Some? && e.problem.value.recurrenceCount != c.problem.recurrenceCount then Err(RecurrenceChanged)
      else Validated(Changed(c, e, now))
    case RecordOccurrence(id, expected) =>
      var c :- Current(s, id, expected);
      Validated(c.(revision := c.revision + 1, updatedAt := now,
                   problem := c.problem.(recurrenceCount := c.problem.recurrenceCount + 1)))
    case Transition(id, expected, target, reason, reference) =>
      var c :- Current(s, id, expected);
      if !Allowed(c.promotion.state, target) then Err(InvalidTransition)
      else if Delivered(target) && reference.None? then Err(ReferenceRequired)
      else if !Delivered(target) && reference.Some? then Err(ReferenceNotAllowed)
      else
        Validated(c.(revision := c.revision + 1, updatedAt := now,
                     promotion := c.promotion.(state := target, stateReason := Some(reason)),
                     implementation := c.implementation.(finalReference := reference)))
    case LinkTask(id, expected, taskId) =>
      var c :- Current(s, id, expected);
      if !c.promotion.state.Approved? && !c.promotion.state.OnHold? then Err(NotApproved)
      else if c.implementation.taskId == Some(taskId) then Ok(c)
      else
        Validated(c.(revision := c.revision + 1, updatedAt := now, implementation := c.implementation.(taskId := Some(taskId))))
  }

  function Next(s: CandidateMap, now: int, cmd: CandidateCmd): CandidateMap {
    var d := Decide(s, now, cmd);
    if d.Ok? then s[d.value.id := d.value] else s
  }

  // ---------- Indexed rows ----------

  datatype CandidateRow = CandidateRow(
    status: CandidateState, revision: int, recurrenceCount: int, ownerId: string, createdAt: int, updatedAt: int, payload: Candidate)

  function IndexCandidate(c: Candidate): CandidateRow {
    CandidateRow(c.promotion.state, c.revision, c.problem.recurrenceCount, c.ownerId, c.createdAt, c.updatedAt, c)
  }

  ghost predicate ValidCandidateRows(rows: map<string, CandidateRow>) {
    forall id :: id in rows ==>
      rows[id] == IndexCandidate(rows[id].payload) && rows[id].payload.id == id && ValidCandidate(rows[id].payload)
  }

  ghost function CandidatesOf(rows: map<string, CandidateRow>): CandidateMap { map id | id in rows :: rows[id].payload }

  class CandidateStore {
    var rows: map<string, CandidateRow>

    ghost predicate Valid()
      reads this
    {
      ValidCandidateRows(rows)
    }

    ghost function Contents(): CandidateMap
      reads this
    {
      CandidatesOf(rows)
    }

    constructor ()
      ensures Valid() && Contents() == map[]
    {
      rows := map[];
    }

    method Get(id: string) returns (r: Result<Candidate, CandidateError>)
      requires Valid()
      ensures r == Known(Contents(), id) && (r.Ok? ==> r.value.id == id && ValidCandidate(r.value))
    {
      hide ValidCandidate, ValidCandidateId;
      if !ValidCandidateId(id) { return Err(InvalidId); }
      if id !in rows { return Err(UnknownCandidate); }
      r := Ok(rows[id].payload);
    }

    method GetCurrent(id: string, expected: int) returns (r: Result<Candidate, CandidateError>)
      requires Valid()
      ensures r == Current(Contents(), id, expected) && (r.Ok? ==> r.value.id == id && ValidCandidate(r.value))
    {
      hide ValidCandidate, Known;
      var c :- Get(id);
      if c.revision != expected { return Err(StaleRevision); }
      r := Ok(c);
    }

    /** Validate, then write payload and index columns together. */
    method Put(c: Candidate) returns (r: Result<Candidate, CandidateError>)
      requires Valid()
      modifies this
      ensures Valid() && r == Validated(c)
      ensures Contents() == if r.Ok? then old(Contents())[c.id := c] else old(Contents())
    {
      hide ValidCandidate;
      if !ValidCandidate(c) { return Err(InvalidCandidate); }
      rows := rows[c.id := IndexCandidate(c)];
      r := Ok(c);
    }

    method CreateNamed(now: int, id: string, d: Draft) returns (r: Result<Candidate, CandidateError>)
      requires Valid()
      modifies this
      ensures Valid() && r == old(CreateAs(Contents(), id, d, now))
      ensures Contents() == if r.Ok? then old(Contents())[r.value.id := r.value] else old(Contents())
    {
      hide ValidCandidate, ValidCandidateId;
      if d.problem.recurrenceCount != 1 { return Err(BadRecurrence); }
      if !ValidCandidateId(id) { return Err(InvalidId); }
      if id in rows { return Err(CandidateError.AlreadyExists); }
      r := Put(Drafted(id, d, now));
    }

    /** Draw an identifier until one is free, at most 32 times. */
    method CreateGenerated(now: int, generated: seq<string>, d: Draft) returns (r: Result<Candidate, CandidateError>)
      requires Valid() && |generated| <= ATTEMPTS
      modifies this
      ensures Valid() && r == old(Allocate(Contents(), generated, d, now))
      ensures Contents() == if r.Ok? then old(Contents())[r.value.id := r.value] else old(Contents())
    {
      hide ValidCandidateRows, CandidatesOf, CreateAs;
      for i := 0 to |generated|
        invariant Valid() && Contents() == old(Contents())
        invariant Allocate(Contents(), generated, d, now) == Allocate(Contents(), generated[i..], d, now)
      {
        assert generated[i..][0] == generated[i] && generated[i..][1..] == generated[i + 1..];
        r := CreateNamed(now, generated[i], d);
        if r != Err(CandidateError.AlreadyExists) { return; }
      }
      assert generated[|generated|..] == [];
      r := Err(AllocationFailed);
    }

    method Perform(now: int, cmd: CandidateCmd) returns (r: Result<Candidate, CandidateError>)
      requires Valid()
      modifies this
      ensures Valid() && r == old(Decide(Contents(), now, cmd)) && Contents() == old(Next(Contents(), now, cmd))
    {
      hide ValidCandidateRows, CandidatesOf, CreateAs, Allocate, ValidCandidate, Current;
      match cmd
      case Create(name, generated, d) =>
        if d.problem.recurrenceCount != 1 { return Err(BadRecurrence); }
        if name.Some? { r := CreateNamed(now, name.value, d); }
        else { r := CreateGenerated(now, generated[..if |generated| < ATTEMPTS then |generated| else ATTEMPTS], d); }
      case Update(id, expected, e) =>
        var c :- GetCurrent(id, expected);
        if e.problem.Some? && e.problem.value.recurrenceCount != c.problem.recurrenceCount { return Err(RecurrenceChanged); }
        r := Put(Changed(c, e, now));
      case RecordOccurrence(id, expected) =>
        var c :- GetCurrent(id, expected);
        r := Put(c.(revision := c.revision + 1, updatedAt := now,
                    problem := c.problem.(recurrenceCount := c.problem.recurrenceCount + 1)));
      case Transition(id, expected, target, reason, reference) =>
        var c :- GetCurrent(id, expected);
        if !Allowed(c.promotion.state, target) { return Err(InvalidTransition); }
        if Delivered(target) && reference.None? { return Err(ReferenceRequired); }
        if !Delivered(target) && reference.Some? { return Err(ReferenceNotAllowed); }
        r := Put(c.(revision := c.revision + 1, updatedAt := now,
                    promotion := c.promotion.(state := target, stateReason := Some(reason)),
                    implementation := c.implementation.(finalReference := reference)));
      case LinkTask(id, expected, taskId) =>
        var c :- GetCurrent(id, expected);
        if !c.promotion.state.Approved? && !c.promotion.state.OnHold? { return Err(NotApproved); }
        if c.implementation.taskId == Some(taskId) {
          assert id in old(Contents()) && old(Contents())[id] == c by { CurrentIsStored(old(Contents()), id, expected); }
          return Ok(c);
        }
        r := Put(c.(revision := c.revision + 1, updatedAt := now, implementation := c.implementation.(taskId := Some(taskId))));
    }
  }

  lemma CurrentIsStored(s: CandidateMap, id: string, expected: int)
    ensures Current(s, id, expected).Ok? ==>
              id in s && Current(s, id, expected).value == s[id] && s[id].revision == expected
  {
  }

  // ---------- Histories ----------

  datatype CandidateAt = CandidateAt(now: int, cmd: CandidateCmd)

  function After(s: CandidateMap, run: seq<CandidateAt>, i: nat): CandidateMap
    requires i <= |run|
  {
    if i == 0 then s else Next(After(s, run, i - 1), run[i - 1].now, run[i - 1].cmd)
  }

  ghost predicate Wf(s: CandidateMap, now: int) {
    forall id :: id in s ==>
      s[id].id == id && ValidCandidate(s[id]) && s[id].createdAt <= s[id].updatedAt <= now
  }

  /** What one command can do to one stored candidate. */
  datatype Move = Kept | Edited | Recurred | Transitioned | Linked

  predicate Writes(m: Move) { !m.Kept? }

  function MoveOf(s: CandidateMap, now: int, cmd: CandidateCmd, id: string): Move {
    if cmd.Create? || cmd.id != id || Decide(s, now, cmd).Err? then Kept
    else
      match cmd
      case Update(_, _, _) => Edited
      case RecordOccurrence(_, _) => Recurred
      case Transition(_, _, _, _, _) => Transitioned
      case LinkTask(_, _, taskId) => if id in s && s[id].implementation.taskId == Some(taskId) then Kept else Linked
  }

  ghost predicate MovesTo(a: Candidate, b: Candidate, m: Move) {
    && (m.Kept? ==> b == a)
    && (!m.Kept? ==> b.revision == a.revision + 1)
    && b.problem.recurrenceCount == a.problem.recurrenceCount + (if m.Recurred? then 1 else 0)
    && (m.Transitioned? ==> Allowed(a.promotion.state, b.promotion.state))
    && (!m.Transitioned? ==> b.promotion.state == a.promotion.state && b.promotion.stateReason == a.promotion.stateReason
                             && b.implementation.finalReference == a.implementation.finalReference)
    && (m.Linked? ==> a.promotion.state.Approved? || a.promotion.state.OnHold?)
    && b.createdAt == a.createdAt
  }

  lemma {:induction false} AllocatedIsNew(s: CandidateMap, generated: seq<string>, d: Draft, now: int)
    ensures var r := Allocate(s, generated, d, now);
            r.Ok? ==> r.value.id !in s && ValidCandidate(r.value) && r.value == Drafted(r.value.id, d, now)
  {
    hide ValidCandidate, ValidCandidateId;
    if generated != [] && CreateAs(s, generated[0], d, now) == Err(CandidateError.AlreadyExists) {
      AllocatedIsNew(s, generated[1..], d, now);
    }
  }

  lemma CreatedIsNew(s: CandidateMap, now: int, cmd: CandidateCmd)
    requires cmd.Create?
    ensures var r := Decide(s, now, cmd);
            r.Ok? ==> r.value.id !in s && ValidCandidate(r.value) && r.value == Drafted(r.value.id, cmd.draft, now)
  {
    AllocatedIsNew(s, cmd.generated[..if |cmd.generated| < ATTEMPTS then |cmd.generated| else ATTEMPTS], cmd.draft, now);
    hide ValidCandidate, ValidCandidateId, Allocate;
  }

  lemma StepMoves(s: CandidateMap, before: int, now: int, cmd: CandidateCmd, id: string)
    requires Wf(s, before) && id in s
    ensures id in Next(s, now, cmd) && MovesTo(s[id], Next(s, now, cmd)[id], MoveOf(s, now, cmd, id))
  {
    hide ValidCandidate, ValidCandidateId;
    if cmd.Create? {
      CreatedIsNew(s, now, cmd);
      hide Decide;
    } else {
      CurrentIsStored(s, cmd.id, cmd.expected);
      hide Current;
    }
  }

  lemma StepKeepsWf(s: CandidateMap, before: int, now: int, cmd: CandidateCmd)
    requires Wf(s, before) && before <= now
    ensures Wf(Next(s, now, cmd), now)
  {
    hide ValidCandidate, ValidCandidateId;
    if cmd.Create? {
      CreatedIsNew(s, now, cmd);
      hide Decide;
    } else {
      CurrentIsStored(s, cmd.id, cmd.expected);
      hide Current;
    }
  }

  ghost predicate Clocked(start: int, run: seq<CandidateAt>) {
    && (forall i :: 0 <= i < |run| ==> start <= run[i].now)
    && (forall i, j :: 0 <= i < j < |run| ==> run[i].now <= run[j].now)
  }

  function ClockAt(start: int, run: seq<CandidateAt>, i: nat): int
    requires i <= |run|
  {
    if i == 0 then start else run[i - 1].now
  }

  lemma {:induction false} EveryStateWf(s: CandidateMap, start: int, run: seq<CandidateAt>, i: nat)
    requires Wf(s, start) && Clocked(start, run) && i <= |run|
    ensures Wf(After(s, run, i), ClockAt(start, run, i))
  {
    hide Wf, Next;
    if i > 0 {
      EveryStateWf(s, start, run, i - 1);
      StepKeepsWf(After(s, run, i - 1), ClockAt(start, run, i - 1), run[i - 1].now, run[i - 1].cmd);
    }
  }

  /** Accepted commands between two points that change a candidate, and those among them that record an occurrence. */
  function WritesBetween(s: CandidateMap, run: seq<CandidateAt>, i: nat, j: nat, id: string): nat
    requires i <= j <= |run|
    decreases j
  {
    if i == j then 0
    else
      WritesBetween(s, run, i, j - 1, id)
      + if Writes(MoveOf(After(s, run, j - 1), run[j - 1].now, run[j - 1].cmd, id)) then 1 else 0
  }

  function OccurrencesBetween(s: CandidateMap, run: seq<CandidateAt>, i: nat, j: nat, id: string): nat
    requires i <= j <= |run|
    decreases j
  {
    if i == j then 0
    else
      OccurrencesBetween(s, run, i, j - 1, id)
      + if MoveOf(After(s, run, j - 1), run[j - 1].now, run[j - 1].cmd, id).Recurred? then 1 else 0
  }

  /** Revisions count the accepted changes and recurrences the accepted occurrences, over any stretch of any history. */
  lemma {:induction false} CountersConserved(s: CandidateMap, start: int, run: seq<CandidateAt>, i: nat, j: nat, id: string)
    requires Wf(s, start) && Clocked(start, run) && i <= j <= |run| && id in After(s, run, i)
    ensures id in After(s, run, j)
    ensures After(s, run, j)[id].revision == After(s, run, i)[id].revision + WritesBetween(s, run, i, j, id)
    ensures After(s, run, j)[id].problem.recurrenceCount
            == After(s, run, i)[id].problem.recurrenceCount + OccurrencesBetween(s, run, i, j, id)
    decreases j
  {
    hide Wf, Next, MoveOf, Clocked;
    if i < j {
      CountersConserved(s, start, run, i, j - 1, id);
      EveryStateWf(s, start, run, j - 1);
      StepMoves(After(s, run, j - 1), ClockAt(start, run, j - 1), run[j - 1].now, run[j - 1].cmd, id);
    }
  }

  /** A new candidate starts both counters at one. */
  lemma CreatedAtOne(s: CandidateMap, now: int, cmd: CandidateCmd)
    requires cmd.Create?
    ensures Decide(s, now, cmd).Ok? ==> Decide(s, now, cmd).value.id !in s
    ensures Decide(s, now, cmd).Ok? ==> Decide(s, now, cmd).value.revision == 1
    ensures Decide(s, now, cmd).Ok? ==> Decide(s, now, cmd).value.problem.recurrenceCount == 1
    ensures Decide(s, now, cmd).Ok? ==> Decide(s, now, cmd).value.promotion.state.Proposed?
  {
    CreatedIsNew(s, now, cmd);
    hide Allocate, CreateAs, ValidCandidate;
  }

  /** At most one accepted change names any one revision of a candidate. */
  lemma OneWinnerPerRevision(s: CandidateMap, start: int, run: seq<CandidateAt>, i: nat, j: nat, id: string)
    requires Wf(s, start) && Clocked(start, run) && i < j < |run|
    requires !run[i].cmd.Create? && !run[j].cmd.Create? && run[i].cmd.expected == run[j].cmd.expected
    requires Writes(MoveOf(After(s, run, i), run[i].now, run[i].cmd, id))
    ensures !Writes(MoveOf(After(s, run, j), run[j].now, run[j].cmd, id))
  {
    WinnerNamesRevision(After(s, run, i), run[i].now, run[i].cmd, id);
    WinnerNamesRevision(After(s, run, j), run[j].now, run[j].cmd, id);
    EveryStateWf(s, start, run, i);
    StepMoves(After(s, run, i), ClockAt(start, run, i), run[i].now, run[i].cmd, id);
    AfterNext(s, run, i);
    hide Wf, Next, MoveOf, After, Clocked;
    CountersConserved(s, start, run, i + 1, j, id);
  }

  lemma AfterNext(s: CandidateMap, run: seq<CandidateAt>, i: nat)
    requires i < |run|
    ensures After(s, run, i + 1) == Next(After(s, run, i), run[i].now, run[i].cmd)
  {
  }

  lemma WinnerNamesRevision(s: CandidateMap, now: int, cmd: CandidateCmd, id: string)
    ensures !cmd.Create? && Writes(MoveOf(s, now, cmd, id)) ==> id in s && s[id].revision == cmd.expected && cmd.id == id
  {
    if !cmd.Create? { CurrentIsStored(s, cmd.id, cmd.expected); }
    hide ValidCandidate, Current;
  }

  predicate FinalState(s: CandidateState) { s.NotWarranted? || s.Implemented? || s.Automated? }

  /** A final state is never left, and keeps its reference. */
  lemma {:induction false} FinalForever(s: CandidateMap, start: int, run: seq<CandidateAt>, i: nat, j: nat, id: string)
    requires Wf(s, start) && Clocked(start, run) && i <= j <= |run| && id in After(s, run, i)
    requires FinalState(After(s, run, i)[id].promotion.state)
    ensures id in After(s, run, j) && After(s, run, j)[id].promotion.state == After(s, run, i)[id].promotion.state
    ensures After(s, run, j)[id].implementation.finalReference == After(s, run, i)[id].implementation.finalReference
    decreases j
  {
    hide Wf, Next, MoveOf, Clocked;
    if i < j {
      FinalForever(s, start, run, i, j - 1, id);
      EveryStateWf(s, start, run, j - 1);
      StepMoves(After(s, run, j - 1), ClockAt(start, run, j - 1), run[j - 1].now, run[j - 1].cmd, id);
    }
  }

  /** In every reachable state a final reference is there exactly for delivered candidates. */
  lemma ReferenceIffDelivered(s: CandidateMap, start: int, run: seq<CandidateAt>, i: nat, id: string)
    requires Wf(s, start) && Clocked(start, run) && i <= |run| && id in After(s, run, i)
    ensures var c := After(s, run, i)[id]; c.implementation.finalReference.Some? <==> Delivered(c.promotion.state)
  {
    EveryStateWf(s, start, run, i);
    hide After, Clocked;
  }

  /** A candidate that became delivered was approved on the way. */
  lemma {:induction false} DeliveredWasApproved(s: CandidateMap, start: int, run: seq<CandidateAt>, i: nat, j: nat, id: string) returns (k: nat)
    requires Wf(s, start) && Clocked(start, run) && i <= j <= |run| && id in After(s, run, i) && id in After(s, run, j)
    requires !Delivered(After(s, run, i)[id].promotion.state) && Delivered(After(s, run, j)[id].promotion.state)
    ensures i <= k < j && id in After(s, run, k) && After(s, run, k)[id].promotion.state.Approved?
    decreases j
  {
    hide Wf, Next, MoveOf, Clocked;
    CountersConserved(s, start, run, i, j - 1, id);
    EveryStateWf(s, start, run, j - 1);
    StepMoves(After(s, run, j - 1), ClockAt(start, run, j - 1), run[j - 1].now, run[j - 1].cmd, id);
    if Delivered(After(s, run, j - 1)[id].promotion.state) {
      k := DeliveredWasApproved(s, start, run, i, j - 1, id);
    } else {
      k := j - 1;
    }
  }
}
