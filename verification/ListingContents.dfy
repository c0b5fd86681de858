/** Which records the queries of tasks, runs and candidates list, and in which order, in terms of the fields of the records. */
module ListingContents {
  import opened Common
  import TM = TaskModel
  import S = TaskSpec
  import N = NameOrder
  import R = Runs
  import RS = RunStores
  import C = Candidates
  import P = Paging
  import L = Listings
  import K = Ranking

  // ---------- Orders ----------

  /** By a number, then by the identifier. */
  predicate NumberOrder(x: int, y: int, tie: bool) { x < y || (x == y && tie) }

  predicate TextOrder(x: string, y: string, tie: bool) { N.Less(x, y) || (x == y && tie) }

  /** An absent value comes first. */
  predicate MaybeNumber(x: Option<int>, y: Option<int>, tie: bool) {
    if x.None? then y.Some? || tie else y.Some? && NumberOrder(x.value, y.value, tie)
  }

  predicate MaybeText(x: Option<string>, y: Option<string>, tie: bool) {
    if x.None? then y.Some? || tie else y.Some? && TextOrder(x.value, y.value, tie)
  }

  // ---------- Tasks ----------

  /** Every field that a filter names is the record's own; blocked asks for any blocker, archived for where the task is. */
  predicate TaskWanted(f: P.Filter, r: TM.TaskRecord, archived: bool) {
    && (f.status.Some? ==> r.status == f.status.value) && (f.archived.Some? ==> (archived <==> f.archived.value))
    && (f.projectRef.Some? ==> r.projectRef == Some(f.projectRef.value)) && (f.retained.Some? ==> (r.retained <==> f.retained.value))
    && (f.blocked.Some? ==> (|r.continuity.blockers| > 0 <==> f.blocked.value))
  }

  function StatusWord(s: TM.Status): string {
    if s.Active? then "active" else if s.Partial? then "partial" else if s.Blocked? then "blocked"
    else if s.Completed? then "completed" else "cancelled"
  }

  predicate TaskBefore(sort: P.Sort, a: TM.TaskRecord, i: nat, b: TM.TaskRecord, j: nat) {
    match sort
    case UpdatedAt => NumberOrder(a.updatedAt, b.updatedAt, i < j)
    case CreatedAt => NumberOrder(a.createdAt, b.createdAt, i < j)
    case ArchivedAt => MaybeNumber(a.archivedAt, b.archivedAt, i < j)
    case ById => NumberOrder(a.id, b.id, i < j)
    case ByStatus => TextOrder(StatusWord(a.status), StatusWord(b.status), i < j)
    case ByProject => MaybeText(a.projectRef, b.projectRef, i < j)
    case ByTitle => TextOrder(a.title, b.title, i < j)
    case ByNextAction => MaybeText(a.nextAction, b.nextAction, i < j)
  }

  lemma TaskRanks(tasks: map<nat, S.Entry>, sort: P.Sort, d: bool, i: nat, j: nat)
    requires i in tasks && j in tasks
    ensures
      K.Before(P.RanksOf(tasks, sort), d, i, j) <==>
        if d then TaskBefore(sort, tasks[j].record, j, tasks[i].record, i) else TaskBefore(sort, tasks[i].record, i, tasks[j].record, j)
  {
    hide N.Less;
  }

  /** A task query lists each wanted task once, in the order asked for, and nothing else. */
  lemma TasksListed(tasks: map<nat, S.Entry>, f: P.Filter, sort: P.Sort, d: bool)
    ensures
      var list := P.Listed(tasks, f, sort, d);
      && (forall id :: id in list <==> id in tasks && TaskWanted(f, tasks[id].record, tasks[id].archived))
      && (forall i, j :: 0 <= i < j < |list| ==>
            && list[i] != list[j] && list[i] in tasks && list[j] in tasks
            && if d then TaskBefore(sort, tasks[list[j]].record, list[j], tasks[list[i]].record, list[i])
               else TaskBefore(sort, tasks[list[i]].record, list[i], tasks[list[j]].record, list[j]))
  {
    var list := P.Listed(tasks, f, sort, d);
    P.ListedExactly(tasks, f, sort, d);
    forall id | id in tasks
      ensures P.MatchesRecord(f, tasks[id].record, tasks[id].archived) <==> TaskWanted(f, tasks[id].record, tasks[id].archived)
    {
      WantedIff(f, tasks[id].record, tasks[id].archived);
    }
    hide P.Listed, P.MatchesRecord, TaskWanted, K.Before, TaskBefore, P.RanksOf;
    forall i, j | 0 <= i < j < |list|
      ensures if d then TaskBefore(sort, tasks[list[j]].record, list[j], tasks[list[i]].record, list[i])
              else TaskBefore(sort, tasks[list[i]].record, list[i], tasks[list[j]].record, list[j])
    {
      TaskRanks(tasks, sort, d, list[i], list[j]);
    }
  }

  lemma WantedIff(f: P.Filter, r: TM.TaskRecord, archived: bool)
    ensures P.MatchesRecord(f, r, archived) <==> TaskWanted(f, r, archived)
  {
  }

  // ---------- Runs ----------

  predicate TimeWanted(after: Option<int>, before: Option<int>, time: Option<int>) {
    && (after.Some? ==> time.Some? && time.value >= after.value) && (before.Some? ==> time.Some? && time.value <= before.value)
  }

  predicate RunWanted(f: L.RunFilter, r: R.RunRecord) {
    && (f.status.Some? ==> r.core.status == f.status.value) && (f.taskId.Some? ==> r.core.taskId == Some(f.taskId.value))
    && (f.mode.Some? ==> r.mode == f.mode.value) && (f.class_.Some? ==> r.class_ == f.class_.value)
    && (f.retained.Some? ==> (r.core.retained <==> f.retained.value)) && (f.ambiguous.Some? ==> (r.core.ambiguous <==> f.ambiguous.value))
    && (f.target.Some? ==> r.core.target == f.target.value) && (f.operation.Some? ==> r.core.operation == f.operation.value)
    && TimeWanted(f.startedAfter, f.startedBefore, Some(r.core.startedAt)) && TimeWanted(f.endedAfter, f.endedBefore, r.core.endedAt)
  }

  function RunStatusWord(s: R.RunStatus): string {
    if s.Running? then "running" else if s.Succeeded? then "succeeded" else if s.RemoteError? then "remote_error"
    else if s.TransportError? then "transport_error" else if s.TimedOut? then "timeout" else if s.LocalError? then "local_error"
    else if s.Interrupted? then "interrupted" else "unknown"
  }

  function OperationWord(o: R.Operation): string {
    if o.RunCommand? then "run_command" else if o.RunShell? then "run_shell" else "run_script"
  }

  predicate RunBefore(sort: L.RunSort, a: R.RunRecord, i: nat, b: R.RunRecord, j: nat) {
    match sort
    case ByRunId => i < j
    case ByStarted => NumberOrder(a.core.startedAt, b.core.startedAt, i < j)
    case ByEnded => MaybeNumber(a.core.endedAt, b.core.endedAt, i < j)
    case ByRunStatus => TextOrder(RunStatusWord(a.core.status), RunStatusWord(b.core.status), i < j)
    case ByTarget => TextOrder(a.core.target, b.core.target, i < j)
    case ByOperation => TextOrder(OperationWord(a.core.operation), OperationWord(b.core.operation), i < j)
    case ByMode => TextOrder(if a.mode.Sync? then "sync" else "async", if b.mode.Sync? then "sync" else "async", i < j)
    case ByClass => TextOrder(if a.class_.Normal? then "normal" else "heavy", if b.class_.Normal? then "normal" else "heavy", i < j)
  }

  lemma RunRanksIff(s: RS.RunState, sort: L.RunSort, d: bool, i: nat, j: nat)
    requires i in s && j in s
    ensures
      K.Before(L.RunRanks(L.RunColumnsOf(s), sort), d, i, j) <==>
        if d then RunBefore(sort, s[j], j, s[i], i) else RunBefore(sort, s[i], i, s[j], j)
  {
    RunRankLess(s, sort, i, j);
    RunRankLess(s, sort, j, i);
    hide RunBefore, L.RunRanks, K.RankLess, RS.IndexRun;
  }

  lemma RunRankLess(s: RS.RunState, sort: L.RunSort, i: nat, j: nat)
    requires i in s && j in s
    ensures K.RankLess(L.RunRanks(L.RunColumnsOf(s), sort)[i], L.RunRanks(L.RunColumnsOf(s), sort)[j]) <==> RunBefore(sort, s[i], i, s[j], j)
  {
    RankAt(s, sort, i);
    RankAt(s, sort, j);
    KeyLessIff(sort, s[i], i, s[j], j);
    hide K.RankLess, RunBefore, L.RunRanks, L.RunColumnsOf, L.RunKey, RS.IndexRun;
  }

  lemma RankAt(s: RS.RunState, sort: L.RunSort, i: nat)
    requires i in s
    ensures L.RunRanks(L.RunColumnsOf(s), sort)[i] == K.Rank(L.RunKey(sort, i, RS.IndexRun(s[i])), K.Number(i))
  {
    hide L.RunKey, RS.IndexRun;
  }

  lemma KeyLessIff(sort: L.RunSort, a: R.RunRecord, i: nat, b: R.RunRecord, j: nat)
    ensures
      K.RankLess(K.Rank(L.RunKey(sort, i, RS.IndexRun(a)), K.Number(i)), K.Rank(L.RunKey(sort, j, RS.IndexRun(b)), K.Number(j)))
      <==> RunBefore(sort, a, i, b, j)
  {
    hide K.RankLess, NumberOrder, TextOrder, MaybeNumber, R.Serialize, RunStatusWord, OperationWord, L.RunStatusText, L.OperationText;
    SameWords(a);
    SameWords(b);
    match sort
    case ByRunId => NumberRanks(i, j, i, j); assert NumberOrder(i, j, i < j) <==> i < j by { SameNumber(i, j); }
    case ByStarted => NumberRanks(a.core.startedAt, b.core.startedAt, i, j);
    case ByEnded => MaybeRanks(a.core.endedAt, b.core.endedAt, i, j);
    case ByRunStatus => WordRanks(RunStatusWord(a.core.status), RunStatusWord(b.core.status), i, j);
    case ByTarget => WordRanks(a.core.target, b.core.target, i, j);
    case ByOperation => WordRanks(OperationWord(a.core.operation), OperationWord(b.core.operation), i, j);
    case ByMode => WordRanks(if a.mode.Sync? then "sync" else "async", if b.mode.Sync? then "sync" else "async", i, j);
    case ByClass => WordRanks(if a.class_.Normal? then "normal" else "heavy", if b.class_.Normal? then "normal" else "heavy", i, j);
  }

  lemma SameNumber(i: nat, j: nat)
    ensures NumberOrder(i, j, i < j) <==> i < j
  {
  }

  lemma NumberRanks(x: int, y: int, i: nat, j: nat)
    ensures K.RankLess(K.Rank(K.Number(x), K.Number(i)), K.Rank(K.Number(y), K.Number(j))) <==> NumberOrder(x, y, i < j)
  {
  }

  lemma WordRanks(x: string, y: string, i: nat, j: nat)
    ensures K.RankLess(K.Rank(K.Word(x), K.Number(i)), K.Rank(K.Word(y), K.Number(j))) <==> TextOrder(x, y, i < j)
  {
    hide N.Less;
  }

  lemma MaybeRanks(x: Option<int>, y: Option<int>, i: nat, j: nat)
    ensures
      var a, b := if x.Some? then K.Number(x.value) else K.Nothing, if y.Some? then K.Number(y.value) else K.Nothing;
      K.RankLess(K.Rank(a, K.Number(i)), K.Rank(b, K.Number(j))) <==> MaybeNumber(x, y, i < j)
  {
  }

  lemma SameWords(r: R.RunRecord)
    ensures L.RunStatusText(r.core.status) == RunStatusWord(r.core.status) && L.OperationText(r.core.operation) == OperationWord(r.core.operation)
  {
  }

  lemma RunWantedIff(f: L.RunFilter, r: R.RunRecord)
    ensures L.MatchesRun(f, r) <==> RunWanted(f, r)
  {
  }

  /** A run query lists each wanted run once, in the order asked for, and nothing else. */
  lemma RunsListed(s: RS.RunState, f: L.RunFilter, sort: L.RunSort, d: bool)
    ensures
      var list := L.RunsListed(s, f, sort, d);
      && (forall id :: id in list <==> id in s && RunWanted(f, s[id]))
      && (forall i, j :: 0 <= i < j < |list| ==>
            && list[i] != list[j] && list[i] in s && list[j] in s
            && if d then RunBefore(sort, s[list[j]], list[j], s[list[i]], list[i]) else RunBefore(sort, s[list[i]], list[i], s[list[j]], list[j]))
  {
    var list, ranks := L.RunsListed(s, f, sort, d), L.RunRanks(L.RunColumnsOf(s), sort);
    forall id | id in s ensures L.MatchesRun(f, s[id]) <==> RunWanted(f, s[id]) { RunWantedIff(f, s[id]); }
    hide L.MatchesRun, RunWanted, K.Before, RunBefore, L.RunRanks, K.OrderBy, RS.IndexRun;
    forall i, j | 0 <= i < j < |list|
      ensures list[i] != list[j] && list[i] in s && list[j] in s
      ensures if d then RunBefore(sort, s[list[j]], list[j], s[list[i]], list[i]) else RunBefore(sort, s[list[i]], list[i], s[list[j]], list[j])
    {
      assert list[i] in list && list[j] in list;
      K.BeforeOrder(ranks, d, list[i], list[j], list[j]);
      RunRanksIff(s, sort, d, list[i], list[j]);
    }
  }

  // ---------- Candidates ----------

  predicate CandidateWanted(f: L.CandidateFilter, c: C.Candidate) {
    (f.state.Some? ==> c.promotion.state == f.state.value) && (f.ownerId.Some? ==> c.ownerId == f.ownerId.value)
  }

  function StateWord(s: C.CandidateState): string {
    if s.Proposed? then "candidate" else if s.Approved? then "approved" else if s.OnHold? then "blocked"
    else if s.NotWarranted? then "not-warranted" else if s.Implemented? then "implemented" else "automated"
  }

  predicate CandidateBefore(sort: L.CandidateSort, a: C.Candidate, i: string, b: C.Candidate, j: string) {
    match sort
    case ByCandidateId => N.Less(i, j)
    case ByState => TextOrder(StateWord(a.promotion.state), StateWord(b.promotion.state), N.Less(i, j))
    case ByOwner => TextOrder(a.ownerId, b.ownerId, N.Less(i, j))
    case ByRecurrence => NumberOrder(a.problem.recurrenceCount, b.problem.recurrenceCount, N.Less(i, j))
    case ByCreated => NumberOrder(a.createdAt, b.createdAt, N.Less(i, j))
    case ByUpdated => NumberOrder(a.updatedAt, b.updatedAt, N.Less(i, j))
    case ByTitle => TextOrder(a.title, b.title, N.Less(i, j))
  }

  lemma CandidateRanksIff(s: C.CandidateMap, sort: L.CandidateSort, d: bool, i: string, j: string)
    requires i in s && j in s
    ensures
      K.Before(L.CandidateRanks(L.CandidateColumnsOf(s), sort), d, i, j) <==>
        if d then CandidateBefore(sort, s[j], j, s[i], i) else CandidateBefore(sort, s[i], i, s[j], j)
  {
    hide N.Less;
  }

  /** A candidate query lists each wanted candidate once, in the order asked for, and nothing else. */
  lemma CandidatesListed(s: C.CandidateMap, f: L.CandidateFilter, sort: L.CandidateSort, d: bool)
    ensures
      var list := L.CandidatesListed(s, f, sort, d);
      && (forall id :: id in list <==> id in s && CandidateWanted(f, s[id]))
      && (forall i, j :: 0 <= i < j < |list| ==>
            && list[i] != list[j] && list[i] in s && list[j] in s
            && if d then CandidateBefore(sort, s[list[j]], list[j], s[list[i]], list[i])
               else CandidateBefore(sort, s[list[i]], list[i], s[list[j]], list[j]))
  {
    var list, ranks := L.CandidatesListed(s, f, sort, d), L.CandidateRanks(L.CandidateColumnsOf(s), sort);
    hide K.Before, CandidateBefore, L.CandidateRanks, K.OrderBy, C.IndexCandidate;
    forall i, j | 0 <= i < j < |list|
      ensures list[i] != list[j] && list[i] in s && list[j] in s
      ensures if d then CandidateBefore(sort, s[list[j]], list[j], s[list[i]], list[i])
              else CandidateBefore(sort, s[list[i]], list[i], s[list[j]], list[j])
    {
      assert list[i] in list && list[j] in list;
      K.BeforeOrder(ranks, d, list[i], list[j], list[j]);
      CandidateRanksIff(s, sort, d, list[i], list[j]);
    }
  }
}
