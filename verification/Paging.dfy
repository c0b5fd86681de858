/** Task queries: filters on columns and on records, pages of the ordered list, and counting by pages. */
module Paging {
  import opened Common
  import opened TaskModel
  import opened TaskSpec
  import opened TaskLayout
  import opened Ranking

  // ---------- Sort ranks ----------

  datatype Sort = UpdatedAt | CreatedAt | ArchivedAt | ById | ByStatus | ByProject | ByTitle | ByNextAction

  function StatusText(s: Status): string {
    match s
    case Active => "active"
    case Partial => "partial"
    case Blocked => "blocked"
    case Completed => "completed"
    case Cancelled => "cancelled"
  }

  function TextKey(s: Option<string>): Key { if s.Some? then Word(s.value) else Nothing }

  function KeyOf(sort: Sort, r: TaskRecord): Key {
    match sort
    case UpdatedAt => Number(r.updatedAt)
    case CreatedAt => Number(r.createdAt)
    case ArchivedAt => if r.archivedAt.Some? then Number(r.archivedAt.value) else Nothing
    case ById => Number(r.id)
    case ByStatus => Word(StatusText(r.status))
    case ByProject => TextKey(r.projectRef)
    case ByTitle => Word(r.title)
    case ByNextAction => TextKey(r.nextAction)
  }

  // ---------- Filters ----------

  datatype Filter = Filter(status: Option<Status>, archived: Option<bool>, projectRef: Option<string>, retained: Option<bool>, blocked: Option<bool>)

  /** The filter over a decoded record and its physical location. */
  predicate MatchesRecord(f: Filter, r: TaskRecord, archived: bool) {
    && Wanted(f.status, r.status) && Wanted(f.archived, archived) && (f.projectRef.Some? ==> r.projectRef == f.projectRef)
    && Wanted(f.retained, r.retained) && Wanted(f.blocked, r.continuity.blockers != [])
  }

  /** The same filter over the index columns. */
  predicate MatchesRow(f: Filter, row: Row) {
    && Wanted(f.status, row.status) && Wanted(f.archived, row.archived) && (f.projectRef.Some? ==> row.projectRef == f.projectRef)
    && Wanted(f.retained, row.retained) && Wanted(f.blocked, row.blocked)
  }

  function Selected(l: Layout, f: Filter): set<nat> {
    match l
    case Files(active, archive) =>
      (set id | id in active && MatchesRecord(f, active[id].record, false))
      + (set id | id in archive && MatchesRecord(f, archive[id].record, true))
    case Db(rows, _) => set id | id in rows && MatchesRow(f, rows[id])
  }

  /** What the plain scan of the abstract state selects. */
  function Scanned(tasks: map<nat, Entry>, f: Filter): set<nat> {
    set id | id in tasks && MatchesRecord(f, tasks[id].record, tasks[id].archived)
  }

  lemma ColumnsSelectPayloads(l: Layout, f: Filter)
    requires Valid(l)
    ensures Selected(l, f) == Scanned(TasksOf(l), f)
  {
    hide ValidRecord, RecordIdentity, Wanted;
  }

  function RanksOf(tasks: map<nat, Entry>, sort: Sort): (ranks: Ranks<nat>)
    ensures Ranked(ranks)
  {
    map id | id in tasks :: Rank(KeyOf(sort, tasks[id].record), Number(id))
  }

  /** The whole answer: every matching task, ordered. */
  function Listed(tasks: map<nat, Entry>, f: Filter, sort: Sort, d: bool): seq<nat> {
    OrderBy(RanksOf(tasks, sort), d, Scanned(tasks, f))
  }

  /** Every matching task is listed once, in order, and nothing else is. */
  lemma ListedExactly(tasks: map<nat, Entry>, f: Filter, sort: Sort, d: bool)
    ensures
      var list := Listed(tasks, f, sort, d);
      && |list| == |Scanned(tasks, f)|
      && (forall id :: id in list <==> id in tasks && MatchesRecord(f, tasks[id].record, tasks[id].archived))
      && (forall i, j :: 0 <= i < j < |list| ==>
            list[i] in tasks && list[j] in tasks && list[i] != list[j] && Before(RanksOf(tasks, sort), d, list[i], list[j]))
  {
    var list, ranks := Listed(tasks, f, sort, d), RanksOf(tasks, sort);
    hide MatchesRecord, KeyOf, OrderBy, Before;
    forall i, j | 0 <= i < j < |list| ensures list[i] != list[j] { BeforeOrder(ranks, d, list[i], list[j], list[j]); }
  }

  // ---------- Pages ----------

  /** The answer to a page request, from the list of all matching tasks. */
  function Answer(l: Layout, f: Filter, sort: Sort, d: bool, limit: int, offset: int): Result<seq<nat>, QueryError> {
    if !(1 <= limit <= MAX_PAGE) || offset < 0 then Err(BadPage)
    else if l.Files? && !AllReadable(l) then Err(BadRecord)
    else Ok(Page(Listed(TasksOf(l), f, sort, d), limit, offset))
  }

  /** One page of either layout: the file layout filters decoded records, the database filters columns. */
  method Query(l: Layout, f: Filter, sort: Sort, d: bool, limit: int, offset: int) returns (r: Result<seq<nat>, QueryError>)
    requires Valid(l)
    ensures r == Answer(l, f, sort, d, limit, offset)
  {
    if !(1 <= limit <= MAX_PAGE) || offset < 0 { return Err(BadPage); }
    if l.Files? && !AllReadable(l) { return Err(BadRecord); }
    ColumnsSelectPayloads(l, f);
    hide Valid, TasksOf, Selected, Scanned;
    var selected := Selected(l, f);
    ScannedRanks(TasksOf(l), f, sort);
    r := Ok(Page(OrderBy(RanksOf(TasksOf(l), sort), d, selected), limit, offset));
  }

  predicate AllReadable(l: Layout)
    requires l.Files?
  {
    (forall id :: id in l.active ==> ValidRecord(l.active[id].record)) && forall id :: id in l.archive ==> ValidRecord(l.archive[id].record)
  }

  lemma ScannedRanks(tasks: map<nat, Entry>, f: Filter, sort: Sort)
    ensures Scanned(tasks, f) <= RanksOf(tasks, sort).Keys
  {
    hide MatchesRecord, KeyOf;
  }

  /** The file layout asks for full pages until one comes back short; the database counts the rows its filter selects. */
  method Count(l: Layout, f: Filter) returns (n: nat)
    requires Valid(l) && (l.Files? ==> AllReadable(l))
    ensures n == |Scanned(TasksOf(l), f)|
  {
    hide *;
    if l.Db? {
      ColumnsSelectPayloads(l, f);
      return |Selected(l, f)|;
    }
    n := CountPages(l, f);
  }

  method CountPages(l: Layout, f: Filter) returns (n: nat)
    requires Valid(l) && l.Files? && AllReadable(l)
    ensures n == |Scanned(TasksOf(l), f)|
  {
    hide Valid, AllReadable, TasksOf, Scanned, Listed;
    ghost var list := Listed(TasksOf(l), f, UpdatedAt, true);
    ListedExactly(TasksOf(l), f, UpdatedAt, true);
    n := 0;
    while true
      invariant n <= |list|
      decreases |list| - n
    {
      var page := Query(l, f, UpdatedAt, true, MAX_PAGE, n);
      n := n + |page.value|;
      if |page.value| < MAX_PAGE { return; }
    }
  }

  /**
   * Successive pages of a layout that does not change give the list of its matching tasks from the start, with no gap and no
   * repeat; enough of them give all of it.
   */
  lemma PagesConcatenate(l: Layout, f: Filter, sort: Sort, d: bool, limit: int, n: nat)
    requires 1 <= limit <= MAX_PAGE && (l.Files? ==> AllReadable(l))
    ensures
      var list, pages := Listed(TasksOf(l), f, sort, d), Joined(offset => ToOption(Answer(l, f, sort, d, limit, offset)), limit, n);
      pages == list[..Least(n * limit, |list|)] && (n * limit >= |list| ==> pages == list)
  {
    hide Listed, TasksOf, AllReadable, Joined;
    JoinedPages(offset => ToOption(Answer(l, f, sort, d, limit, offset)), Listed(TasksOf(l), f, sort, d), limit, n);
  }

  /** Two layouts with the same readable tasks give the same answer to every page request. */
  lemma LayoutsListAlike(a: Layout, b: Layout, f: Filter, sort: Sort, d: bool, limit: int, offset: int)
    requires Valid(a) && Valid(b) && TasksOf(a) == TasksOf(b) && (a.Files? ==> AllReadable(a)) && (b.Files? ==> AllReadable(b))
    ensures Selected(a, f) == Selected(b, f) && Answer(a, f, sort, d, limit, offset) == Answer(b, f, sort, d, limit, offset)
  {
    ColumnsSelectPayloads(a, f);
    ColumnsSelectPayloads(b, f);
    hide Valid, TasksOf, Selected, Scanned, AllReadable, Listed;
  }
}
