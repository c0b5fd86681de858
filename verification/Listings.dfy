/** Queries and counts of runs and of candidates over the index columns of their tables. */
module Listings {
  import opened Common
  import opened Ranking
  import R = Runs
  import RS = RunStores
  import C = Candidates

  // ---------- Runs ----------

  datatype RunFilter = RunFilter(
    status: Option<R.RunStatus>, taskId: Option<nat>, mode: Option<R.Mode>, class_: Option<R.ExecutionClass>, retained: Option<bool>,
    ambiguous: Option<bool>, target: Option<string>, operation: Option<R.Operation>, startedAfter: Option<int>,
    startedBefore: Option<int>, endedAfter: Option<int>, endedBefore: Option<int>)

  /** A time range holds of a time, and of no absent one. */
  predicate Within(after: Option<int>, before: Option<int>, time: Option<int>) {
    (after.Some? ==> time.Some? && after.value <= time.value) && (before.Some? ==> time.Some? && time.value <= before.value)
  }

  predicate MatchesRun(f: RunFilter, r: R.RunRecord) {
    && Wanted(f.status, r.core.status) && (f.taskId.Some? ==> r.core.taskId == f.taskId) && Wanted(f.mode, r.mode)
    && Wanted(f.class_, r.class_) && Wanted(f.retained, r.core.retained) && Wanted(f.ambiguous, r.core.ambiguous)
    && Wanted(f.target, r.core.target) && Wanted(f.operation, r.core.operation)
    && Within(f.startedAfter, f.startedBefore, Some(r.core.startedAt)) && Within(f.endedAfter, f.endedBefore, r.core.endedAt)
  }

  /** The same filter over the index columns. */
  predicate MatchesRunRow(f: RunFilter, row: RS.RunRow) {
    && Wanted(f.status, row.status) && (f.taskId.Some? ==> row.taskId == f.taskId) && Wanted(f.mode, row.mode)
    && Wanted(f.class_, row.class_) && Wanted(f.retained, row.retained) && Wanted(f.ambiguous, row.ambiguous)
    && Wanted(f.target, row.target) && Wanted(f.operation, row.operation)
    && Within(f.startedAfter, f.startedBefore, Some(row.startedAt)) && Within(f.endedAfter, f.endedBefore, row.endedAt)
  }

  datatype RunSort = ByRunId | ByStarted | ByEnded | ByRunStatus | ByTarget | ByOperation | ByMode | ByClass

  function RunStatusText(s: R.RunStatus): string {
    match s
    case Running => "running"
    case Succeeded => "succeeded"
    case RemoteError => "remote_error"
    case TransportError => "transport_error"
    case TimedOut => "timeout"
    case LocalError => "local_error"
    case Interrupted => "interrupted"
    case UnknownOutcome => "unknown"
  }

  function OperationText(o: R.Operation): string {
    match o
    case RunCommand => "run_command"
    case RunShell => "run_shell"
    case RunScript => "run_script"
  }

  function RunKey(sort: RunSort, id: nat, row: RS.RunRow): Key {
    match sort
    case ByRunId => Number(id)
    case ByStarted => Number(row.startedAt)
    case ByEnded => if row.endedAt.Some? then Number(row.endedAt.value) else Nothing
    case ByRunStatus => Word(RunStatusText(row.status))
    case ByTarget => Word(row.target)
    case ByOperation => Word(OperationText(row.operation))
    case ByMode => Word(if row.mode.Sync? then "sync" else "async")
    case ByClass => Word(if row.class_.Normal? then "normal" else "heavy")
  }

  function RunRanks(rows: map<nat, RS.RunRow>, sort: RunSort): (ranks: Ranks<nat>)
    ensures Ranked(ranks) && ranks.Keys == rows.Keys
  {
    map id | id in rows :: Rank(RunKey(sort, id, rows[id]), Number(id))
  }

  function MatchingRuns(s: RS.RunState, f: RunFilter): set<nat> { set id | id in s && MatchesRun(f, s[id]) }

  /** WHERE over the columns. */
  function SelectedRuns(rows: map<nat, RS.RunRow>, f: RunFilter): set<nat> { set id | id in rows && MatchesRunRow(f, rows[id]) }

  function RunColumnsOf(s: RS.RunState): map<nat, RS.RunRow> { map id | id in s :: RS.IndexRun(s[id]) }

  /** Every matching run, in the order asked for. */
  function RunsListed(s: RS.RunState, f: RunFilter, sort: RunSort, d: bool): seq<nat> {
    OrderBy(RunRanks(RunColumnsOf(s), sort), d, MatchingRuns(s, f))
  }

  /** A page is refused as a whole if it holds a run that cannot be read. */
  function RunPage(s: RS.RunState, f: RunFilter, sort: RunSort, d: bool, limit: int, offset: int): Result<seq<nat>, QueryError> {
    if !(1 <= limit <= MAX_PAGE) || offset < 0 then Err(BadPage)
    else
      var page := Page(RunsListed(s, f, sort, d), limit, offset);
      if AllRead(s, page) then Ok(page) else Err(BadRecord)
  }

  predicate AllRead(s: RS.RunState, page: seq<nat>) { forall i :: 0 <= i < |page| ==> RS.ReadRun(s, page[i]).Ok? }

  lemma RunColumns(rows: map<nat, RS.RunRow>)
    requires RS.ValidRows(rows)
    ensures RunColumnsOf(RS.RunsOf(rows)) == rows
    ensures forall id :: id in rows ==> R.Parse(rows[id].payload) == RS.ReadRun(RS.RunsOf(rows), id)
  {
    hide RS.ValidRows, RS.RunsOf, RS.Storable, R.Parse, RS.ReadRun;
    forall id ensures id in RS.RunsOf(rows) <==> id in rows
      ensures id in rows ==> rows[id] == RS.IndexRun(RS.RunsOf(rows)[id]) && R.Parse(rows[id].payload) == RS.ReadRun(RS.RunsOf(rows), id)
    {
      RS.RowReads(rows, id);
    }
    hide RS.IndexRun;
  }

  /** Filtering and ordering by columns gives what filtering and ordering the recorded runs would. */
  lemma RunColumnsSelect(rows: map<nat, RS.RunRow>, f: RunFilter)
    requires RS.ValidRows(rows)
    ensures SelectedRuns(rows, f) == MatchingRuns(RS.RunsOf(rows), f)
  {
    hide RS.ValidRows, RS.RunsOf, RS.Storable, R.Parse, R.Serialize, Wanted, Within;
    forall id ensures id in RS.RunsOf(rows) <==> id in rows
      ensures id in rows ==> rows[id] == RS.IndexRun(RS.RunsOf(rows)[id])
    {
      RS.RowReads(rows, id);
    }
  }

  /** Select, order and cut by columns; decode the rows of the page. */
  method QueryRuns(rows: map<nat, RS.RunRow>, f: RunFilter, sort: RunSort, d: bool, limit: int, offset: int)
    returns (r: Result<seq<nat>, QueryError>)
    requires RS.ValidRows(rows)
    ensures r == RunPage(RS.RunsOf(rows), f, sort, d, limit, offset)
  {
    hide RS.ValidRows, RS.RunsOf, R.Parse, RS.ReadRun, RunColumnsOf, MatchesRunRow, MatchingRuns, RunRanks, OrderBy;
    if !(1 <= limit <= MAX_PAGE) || offset < 0 { return Err(BadPage); }
    RunColumns(rows);
    RunColumnsSelect(rows, f);
    var page := Page(OrderBy(RunRanks(rows, sort), d, SelectedRuns(rows, f)), limit, offset);
    assert page == Page(RunsListed(RS.RunsOf(rows), f, sort, d), limit, offset);
    for i := 0 to |page|
      invariant AllRead(RS.RunsOf(rows), page[..i])
    {
      assert page[i] in page;
      if R.Parse(rows[page[i]].payload).Err? {
        assert RS.ReadRun(RS.RunsOf(rows), page[i]).Err? && !AllRead(RS.RunsOf(rows), page);
        return Err(BadRecord);
      }
    }
    assert page[..|page|] == page;
    r := Ok(page);
  }

  /** Successive pages of runs that do not change, all of them readable, list the matching runs in order with no gap and no repeat. */
  lemma RunPagesConcatenate(s: RS.RunState, f: RunFilter, sort: RunSort, d: bool, limit: int, n: nat)
    requires 1 <= limit <= MAX_PAGE && forall id :: id in s ==> RS.ReadRun(s, id).Ok?
    ensures
      var list, pages := RunsListed(s, f, sort, d), Joined(offset => ToOption(RunPage(s, f, sort, d, limit, offset)), limit, n);
      pages == list[..Least(n * limit, |list|)] && (n * limit >= |list| ==> pages == list)
  {
    hide *;
    forall offset: nat ensures ToOption(RunPage(s, f, sort, d, limit, offset)) == Some(Page(RunsListed(s, f, sort, d), limit, offset)) {
      RunPageRead(s, f, sort, d, limit, offset);
    }
    JoinedPages(offset => ToOption(RunPage(s, f, sort, d, limit, offset)), RunsListed(s, f, sort, d), limit, n);
  }

  lemma RunPageRead(s: RS.RunState, f: RunFilter, sort: RunSort, d: bool, limit: int, offset: int)
    requires 1 <= limit <= MAX_PAGE && 0 <= offset && forall id :: id in s ==> RS.ReadRun(s, id).Ok?
    ensures ToOption(RunPage(s, f, sort, d, limit, offset)) == Some(Page(RunsListed(s, f, sort, d), limit, offset))
  {
    hide RunsListed, RS.ReadRun;
    var list := RunsListed(s, f, sort, d);
    ListedKnown(s, f, sort, d);
    forall i | 0 <= i < |Page(list, limit, offset)| ensures RS.ReadRun(s, Page(list, limit, offset)[i]).Ok? {
      assert Page(list, limit, offset)[i] in list;
    }
  }

  lemma ListedKnown(s: RS.RunState, f: RunFilter, sort: RunSort, d: bool)
    ensures forall id :: id in RunsListed(s, f, sort, d) ==> id in s
  {
    hide MatchesRun, RunRanks, OrderBy, RS.IndexRun;
  }

  method CountRuns(rows: map<nat, RS.RunRow>, f: RunFilter) returns (n: nat)
    requires RS.ValidRows(rows)
    ensures n == |MatchingRuns(RS.RunsOf(rows), f)|
  {
    hide *;
    RunColumnsSelect(rows, f);
    n := |SelectedRuns(rows, f)|;
  }

  // ---------- Candidates ----------

  datatype CandidateFilter = CandidateFilter(state: Option<C.CandidateState>, ownerId: Option<string>)

  predicate MatchesCandidate(f: CandidateFilter, c: C.Candidate) { Wanted(f.state, c.promotion.state) && Wanted(f.ownerId, c.ownerId) }

  datatype CandidateSort = ByCandidateId | ByState | ByOwner | ByRecurrence | ByCreated | ByUpdated | ByTitle

  function StateText(s: C.CandidateState): string {
    match s
    case Proposed => "candidate"
    case Approved => "approved"
    case OnHold => "blocked"
    case NotWarranted => "not-warranted"
    case Implemented => "implemented"
    case Automated => "automated"
  }

  /** The title is the one key that only the payload has. */
  function CandidateKey(sort: CandidateSort, id: string, row: C.CandidateRow): Key {
    match sort
    case ByCandidateId => Word(id)
    case ByState => Word(StateText(row.status))
    case ByOwner => Word(row.ownerId)
    case ByRecurrence => Number(row.recurrenceCount)
    case ByCreated => Number(row.createdAt)
    case ByUpdated => Number(row.updatedAt)
    case ByTitle => Word(row.payload.title)
  }

  function CandidateRanks(rows: map<string, C.CandidateRow>, sort: CandidateSort): (ranks: Ranks<string>)
    ensures Ranked(ranks) && ranks.Keys == rows.Keys
  {
    map id | id in rows :: Rank(CandidateKey(sort, id, rows[id]), Word(id))
  }

  function MatchingCandidates(s: C.CandidateMap, f: CandidateFilter): set<string> { set id | id in s && MatchesCandidate(f, s[id]) }

  function SelectedCandidates(rows: map<string, C.CandidateRow>, f: CandidateFilter): set<string> {
    set id | id in rows && Wanted(f.state, rows[id].status) && Wanted(f.ownerId, rows[id].ownerId)
  }

  function CandidateColumnsOf(s: C.CandidateMap): map<string, C.CandidateRow> { map id | id in s :: C.IndexCandidate(s[id]) }

  function CandidatesListed(s: C.CandidateMap, f: CandidateFilter, sort: CandidateSort, d: bool): seq<string> {
    OrderBy(CandidateRanks(CandidateColumnsOf(s), sort), d, MatchingCandidates(s, f))
  }

  function CandidatePage(s: C.CandidateMap, f: CandidateFilter, sort: CandidateSort, d: bool, limit: int, offset: int)
    : Result<seq<string>, QueryError>
  {
    if !(1 <= limit <= MAX_PAGE) || offset < 0 then Err(BadPage) else Ok(Page(CandidatesListed(s, f, sort, d), limit, offset))
  }

  lemma CandidateColumns(rows: map<string, C.CandidateRow>, f: CandidateFilter)
    requires C.ValidCandidateRows(rows)
    ensures CandidateColumnsOf(C.CandidatesOf(rows)) == rows
    ensures SelectedCandidates(rows, f) == MatchingCandidates(C.CandidatesOf(rows), f)
  {
    hide C.ValidCandidate, Wanted;
  }

  /** Select, order and cut by columns. */
  method QueryCandidates(rows: map<string, C.CandidateRow>, f: CandidateFilter, sort: CandidateSort, d: bool, limit: int, offset: int)
    returns (r: Result<seq<string>, QueryError>)
    requires C.ValidCandidateRows(rows)
    ensures r == CandidatePage(C.CandidatesOf(rows), f, sort, d, limit, offset)
  {
    hide C.ValidCandidateRows, C.CandidatesOf, CandidateColumnsOf, Wanted, MatchingCandidates, CandidateRanks, OrderBy;
    if !(1 <= limit <= MAX_PAGE) || offset < 0 { return Err(BadPage); }
    CandidateColumns(rows, f);
    r := Ok(Page(OrderBy(CandidateRanks(rows, sort), d, SelectedCandidates(rows, f)), limit, offset));
  }

  method CountCandidates(rows: map<string, C.CandidateRow>, f: CandidateFilter) returns (n: nat)
    requires C.ValidCandidateRows(rows)
    ensures n == |MatchingCandidates(C.CandidatesOf(rows), f)|
  {
    hide *;
    CandidateColumns(rows, f);
    n := |SelectedCandidates(rows, f)|;
  }

  /** Successive pages of candidates that do not change list the matching ones in order with no gap and no repeat. */
  lemma CandidatePagesConcatenate(s: C.CandidateMap, f: CandidateFilter, sort: CandidateSort, d: bool, limit: int, n: nat)
    requires 1 <= limit <= MAX_PAGE
    ensures
      var list, pages := CandidatesListed(s, f, sort, d), Joined(offset => ToOption(CandidatePage(s, f, sort, d, limit, offset)), limit, n);
      pages == list[..Least(n * limit, |list|)] && (n * limit >= |list| ==> pages == list)
  {
    hide CandidatesListed, Joined;
    JoinedPages(offset => ToOption(CandidatePage(s, f, sort, d, limit, offset)), CandidatesListed(s, f, sort, d), limit, n);
  }
}
