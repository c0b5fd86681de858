/**
 * What every command of the candidate store records, field by field: the candidate a reply carries and the next state holds, in
 * terms of the command, the clock and the candidate before, and exactly when the command is accepted.
 */
module CandidateContents {
  import opened Common
  import opened TaskModel
  import opened Candidates

  /** A supplied value is stored, an omitted one keeps what was there. */
  predicate Chosen<T(==)>(given: Option<T>, was: T, now: T) { if given.Some? then now == given.value else now == was }

  /** One candidate of the table changes and no other. */
  ghost predicate Rewrites(s: CandidateMap, t: CandidateMap, id: string, b: Candidate) {
    t.Keys == s.Keys + {id} && t[id] == b && forall x :: x in s && x != id ==> t[x] == s[x]
  }

  /** One more revision, now; identifier and creation stay. */
  predicate Revised(a: Candidate, b: Candidate, now: int) {
    b.id == a.id && b.revision == a.revision + 1 && b.createdAt == a.createdAt && b.updatedAt == now
  }

  predicate SameContent(a: Candidate, b: Candidate) {
    b.title == a.title && b.proposal == a.proposal && b.ownerId == a.ownerId && b.promotion.rationale == a.promotion.rationale
  }

  predicate SameProblem(a: Candidate, b: Candidate) { b.problem == a.problem }

  predicate SameStage(a: Candidate, b: Candidate) {
    b.promotion.state == a.promotion.state && b.promotion.stateReason == a.promotion.stateReason
    && b.implementation.finalReference == a.implementation.finalReference
  }

  predicate SameTask(a: Candidate, b: Candidate) { b.implementation.taskId == a.implementation.taskId }

  /** Each supplied field under its own name. */
  predicate Updates(a: Candidate, b: Candidate, now: int, e: Changes) {
    && Revised(a, b, now) && SameStage(a, b) && SameTask(a, b)
    && Chosen(e.title, a.title, b.title) && Chosen(e.problem, a.problem, b.problem) && Chosen(e.proposal, a.proposal, b.proposal)
    && Chosen(e.ownerId, a.ownerId, b.ownerId) && Chosen(e.rationale, a.promotion.rationale, b.promotion.rationale)
  }

  /** One more occurrence of the same problem. */
  predicate Recurs(a: Candidate, b: Candidate, now: int) {
    && Revised(a, b, now) && SameContent(a, b) && SameStage(a, b) && SameTask(a, b)
    && b.problem.recurrenceCount == a.problem.recurrenceCount + 1 && b.problem.summary == a.problem.summary
    && b.problem.cause == a.problem.cause && b.problem.recurrence == a.problem.recurrence && b.problem.evidence == a.problem.evidence
  }

  /** The target state with its reason and reference. */
  predicate Moves(a: Candidate, b: Candidate, now: int, target: CandidateState, reason: string, reference: Option<Reference>) {
    && Revised(a, b, now) && SameContent(a, b) && SameProblem(a, b) && SameTask(a, b)
    && b.promotion.state == target && b.promotion.stateReason == Some(reason) && b.implementation.finalReference == reference
  }

  predicate Links(a: Candidate, b: Candidate, now: int, taskId: nat) {
    && Revised(a, b, now) && SameContent(a, b) && SameProblem(a, b) && SameStage(a, b) && b.implementation.taskId == Some(taskId)
  }

  /** A new candidate carries its draft and nothing else. */
  predicate Begins(b: Candidate, id: string, now: int, d: Draft) {
    && b.id == id && b.revision == 1 && b.createdAt == now == b.updatedAt && b.title == d.title && b.problem == d.problem
    && b.proposal == d.proposal && b.ownerId == d.ownerId && b.promotion.rationale == d.rationale && b.promotion.state.Proposed?
    && b.promotion.stateReason.None? && b.implementation.taskId.None? && b.implementation.finalReference.None?
  }

  /** The candidate exists and is at the revision the caller expects. */
  predicate AtRevision(s: CandidateMap, id: string, expected: int) { ValidCandidateId(id) && id in s && s[id].revision == expected }

  ghost predicate Keyed(s: CandidateMap) { forall id :: id in s ==> s[id].id == id }

  /** Accepted exactly if some valid candidate is what the command asks for; that one is returned and stored. */
  ghost predicate Stores(s: CandidateMap, now: int, cmd: CandidateCmd, id: string, allowed: bool, asked: Candidate -> bool) {
    var d, t := Decide(s, now, cmd), Next(s, now, cmd);
    && (d.Ok? <==> allowed && exists b :: asked(b) && ValidCandidate(b))
    && (d.Ok? ==> asked(d.value) && ValidCandidate(d.value) && Rewrites(s, t, id, d.value))
    && (d.Err? ==> t == s)
  }

  lemma UpdateStores(s: CandidateMap, now: int, id: string, expected: int, e: Changes)
    requires Keyed(s)
    ensures
      Stores(s, now, Update(id, expected, e), id,
             AtRevision(s, id, expected) && (e.problem.Some? ==> e.problem.value.recurrenceCount == s[id].problem.recurrenceCount),
             b => id in s && Updates(s[id], b, now, e))
  {
    hide ValidCandidate, ValidCandidateId;
    if id in s {
      forall b ensures Updates(s[id], b, now, e) <==> b == Changed(s[id], e, now) { UpdatesIff(s[id], b, now, e); }
    }
    hide Updates, Changed;
    if id in s { ChangedId(s[id], e, now); }
  }

  lemma ChangedId(a: Candidate, e: Changes, now: int)
    ensures Changed(a, e, now).id == a.id
  {
  }

  lemma UpdatesIff(a: Candidate, b: Candidate, now: int, e: Changes)
    ensures Updates(a, b, now, e) <==> b == Changed(a, e, now)
  {
  }

  lemma OccurrenceStores(s: CandidateMap, now: int, id: string, expected: int)
    requires Keyed(s)
    ensures Stores(s, now, RecordOccurrence(id, expected), id, AtRevision(s, id, expected), b => id in s && Recurs(s[id], b, now))
  {
    hide ValidCandidate, ValidCandidateId;
    if id in s {
      var a := s[id];
      var c := a.(revision := a.revision + 1, updatedAt := now, problem := a.problem.(recurrenceCount := a.problem.recurrenceCount + 1));
      assert Recurs(a, c, now);
      assert forall b :: Recurs(a, b, now) ==> b == c;
    }
    hide Recurs;
  }

  /** The lifecycle, as a table. */
  predicate Follows(a: CandidateState, b: CandidateState) {
    || (a.Proposed? && (b.Approved? || b.OnHold? || b.NotWarranted?))
    || (a.Approved? && (b.OnHold? || b.NotWarranted? || b.Implemented? || b.Automated?))
    || (a.OnHold? && (b.Approved? || b.NotWarranted?))
  }

  lemma TransitionStores(s: CandidateMap, now: int, id: string, expected: int, target: CandidateState, reason: string, reference: Option<Reference>)
    requires Keyed(s)
    ensures
      Stores(s, now, Transition(id, expected, target, reason, reference), id,
             AtRevision(s, id, expected) && Follows(s[id].promotion.state, target)
             && (reference.Some? <==> target.Implemented? || target.Automated?),
             b => id in s && Moves(s[id], b, now, target, reason, reference))
  {
    hide ValidCandidate, ValidCandidateId;
    if id in s {
      var a := s[id];
      var c := a.(revision := a.revision + 1, updatedAt := now, promotion := a.promotion.(state := target, stateReason := Some(reason)),
                  implementation := a.implementation.(finalReference := reference));
      assert Moves(a, c, now, target, reason, reference);
      assert forall b :: Moves(a, b, now, target, reason, reference) ==> b == c;
    }
    hide Moves;
  }

  /** Linking the task it already carries is accepted and changes nothing. */
  lemma LinkStores(s: CandidateMap, now: int, id: string, expected: int, taskId: nat)
    requires Keyed(s) && (id in s ==> ValidCandidate(s[id]))
    ensures
      Stores(s, now, LinkTask(id, expected, taskId), id,
             AtRevision(s, id, expected) && (s[id].promotion.state.Approved? || s[id].promotion.state.OnHold?),
             b => id in s && if s[id].implementation.taskId == Some(taskId) then b == s[id] else Links(s[id], b, now, taskId))
  {
    hide ValidCandidate, ValidCandidateId;
    if id in s {
      var a := s[id];
      var c := a.(revision := a.revision + 1, updatedAt := now, implementation := a.implementation.(taskId := Some(taskId)));
      assert Links(a, c, now, taskId);
      assert forall b :: Links(a, b, now, taskId) ==> b == c;
    }
    hide Links;
  }

  lemma NamedStores(s: CandidateMap, now: int, name: string, generated: seq<string>, d: Draft)
    ensures
      Stores(s, now, Create(Some(name), generated, d), name,
             d.problem.recurrenceCount == 1 && ValidCandidateId(name) && name !in s, b => Begins(b, name, now, d))
  {
    hide ValidCandidate, ValidCandidateId;
    assert Begins(Drafted(name, d, now), name, now, d);
    assert forall b :: Begins(b, name, now, d) ==> b == Drafted(name, d, now);
    hide Begins;
  }

  /** The first of the drawn identifiers that is not taken. */
  predicate FirstFree(s: CandidateMap, generated: seq<string>, k: int) {
    && 0 <= k < |generated| && ValidCandidateId(generated[k]) && generated[k] !in s
    && forall j :: 0 <= j < k ==> ValidCandidateId(generated[j]) && generated[j] in s
  }

  lemma {:induction false} AllocatesFirst(s: CandidateMap, generated: seq<string>, d: Draft, now: int) returns (k: int)
    requires d.problem.recurrenceCount == 1
    ensures
      var r := Allocate(s, generated, d, now);
      && (r.Ok? ==> FirstFree(s, generated, k) && r == CreateAs(s, generated[k], d, now))
      && (r.Err? ==> forall j :: FirstFree(s, generated, j) ==> CreateAs(s, generated[j], d, now).Err?)
  {
    hide ValidCandidate, ValidCandidateId;
    k := 0;
    if generated != [] {
      if CreateAs(s, generated[0], d, now) == Err(CandidateError.AlreadyExists) {
        var m := AllocatesFirst(s, generated[1..], d, now);
        k := m + 1;
        forall j | FirstFree(s, generated, j) ensures CreateAs(s, generated[j], d, now).Err? || Allocate(s, generated, d, now).Ok? {
          var i := j - 1;
          assert FirstFree(s, generated[1..], i) && generated[1..][i] == generated[j];
        }
      } else {
        forall j | FirstFree(s, generated, j) ensures j == 0 {}
      }
    }
  }

  predicate DraftAt(generated: seq<string>, k: int, b: Candidate, now: int, d: Draft) {
    0 <= k < |generated| && Begins(b, generated[k], now, d) && ValidCandidate(b)
  }

  /** Without a name, the first free one of at most 32 drawn identifiers is taken. */
  lemma GeneratedStores(s: CandidateMap, now: int, generated: seq<string>, d: Draft)
    ensures
      var few := generated[..if |generated| < 32 then |generated| else 32];
      var r, t := Decide(s, now, Create(None, generated, d)), Next(s, now, Create(None, generated, d));
      && (r.Ok? <==>
            d.problem.recurrenceCount == 1 && exists k, b :: FirstFree(s, few, k) && DraftAt(few, k, b, now, d))
      && (r.Ok? ==>
            && Begins(r.value, r.value.id, now, d) && ValidCandidate(r.value) && Rewrites(s, t, r.value.id, r.value)
            && exists k :: FirstFree(s, few, k) && DraftAt(few, k, r.value, now, d))
      && (r.Err? ==> t == s)
  {
    hide ValidCandidate, ValidCandidateId, Allocate, FirstFree;
    var few := generated[..if |generated| < 32 then |generated| else 32];
    if d.problem.recurrenceCount == 1 {
      var k := AllocatesFirst(s, few, d, now);
      var r := Allocate(s, few, d, now);
      forall j, b | FirstFree(s, few, j) && DraftAt(few, j, b, now, d) ensures r.Ok? {
        FreeIsNew(s, few, j);
        assert b == Drafted(few[j], d, now);
        assert CreateAs(s, few[j], d, now).Ok?;
      }
      if r.Ok? {
        FreeIsNew(s, few, k);
        assert DraftAt(few, k, r.value, now, d);
      }
    }
    hide Begins, CreateAs;
  }

  lemma FreeIsNew(s: CandidateMap, generated: seq<string>, k: int)
    requires FirstFree(s, generated, k)
    ensures 0 <= k < |generated| && generated[k] !in s && ValidCandidateId(generated[k])
  {
  }
}
