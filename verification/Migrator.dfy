/** The migration and rollback procedures, as they read, check, build, verify and publish. */
module Migrator {
  import opened Common
  import opened TaskModel
  import S = TaskSpec
  import T = TaskLayout
  import R = Runs
  import RS = RunStores
  import C = Candidates
  import N = NameOrder
  import E = EvidenceTexts
  import V = EvidenceTree
  import opened Migration

  // ---------- Reading lists in order ----------

  /** Read the rows or files of a table in order, refusing at the first one that fails its check. */
  method ReadChecked<K, W, V>(ids: seq<K>, rows: map<K, W>, ok: (K, W) -> bool, value: (K, W) -> V) returns (r: Option<seq<V>>)
    requires forall i :: 0 <= i < |ids| ==> ids[i] in rows
    ensures r.Some? <==> forall i :: 0 <= i < |ids| ==> ok(ids[i], rows[ids[i]])
    ensures r.Some? ==> |r.value| == |ids| && forall i :: 0 <= i < |ids| ==> r.value[i] == value(ids[i], rows[ids[i]])
  {
    var values: seq<V> := [];
    for i := 0 to |ids|
      invariant |values| == i
      invariant forall j :: 0 <= j < i ==> ok(ids[j], rows[ids[j]]) && values[j] == value(ids[j], rows[ids[j]])
    {
      if !ok(ids[i], rows[ids[i]]) { return None; }
      values := values + [value(ids[i], rows[ids[i]])];
    }
    r := Some(values);
  }

  /** What some directories of a task root contribute to the snapshot, in the order they are walked. */
  datatype Reading = Reading(tasks: seq<S.Entry>, leases: seq<LeaseItem>, evidence: map<nat, E.Files>)

  function Noted(r: Reading, id: nat, d: TaskDir, archived: bool): Reading
    requires d.evidence.Some? ==> V.TreeOk(d.evidence.value)
  {
    Reading(r.tasks + [S.Entry(d.content.record, archived)],
            if d.content.lease.Some? then r.leases + [LeaseItem(id, d.content.lease.value)] else r.leases,
            if d.evidence.Some? then r.evidence[id := E.Flatten(d.evidence.value)] else r.evidence)
  }

  function Gather(root: TaskRoot, archived: bool, ids: seq<nat>): Reading
    requires TreesOk(root) && forall j :: 0 <= j < |ids| ==> ids[j] in root
  {
    if ids == [] then Reading([], [], map[])
    else Noted(Gather(root, archived, ids[..|ids| - 1]), ids[|ids| - 1], root[ids[|ids| - 1]], archived)
  }

  function GatherRoot(root: TaskRoot, archived: bool): Reading
    requires TreesOk(root)
  {
    SortedIn(root.Keys);
    Gather(root, archived, Sorted(root.Keys))
  }

  lemma SortedIn(ids: set<nat>)
    ensures forall i :: 0 <= i < |Sorted(ids)| ==> Sorted(ids)[i] in ids
  {
    assert forall i :: 0 <= i < |Sorted(ids)| ==> Sorted(ids)[i] in Sorted(ids);
  }

  lemma GatherExtend(root: TaskRoot, archived: bool, ids: seq<nat>, i: nat)
    requires TreesOk(root) && i < |ids| && forall j :: 0 <= j < |ids| ==> ids[j] in root
    ensures root[ids[i]].evidence.Some? ==> V.TreeOk(root[ids[i]].evidence.value)
    ensures Gather(root, archived, ids[..i + 1]) == Noted(Gather(root, archived, ids[..i]), ids[i], root[ids[i]], archived)
  {
    assert ids[..i + 1][..i] == ids[..i];
    hide V.TreeOk, Noted;
  }

  function SeenAfter(seen: set<nat>, ids: seq<nat>): set<nat> { seen + set x | x in ids }

  ghost predicate AllNew(root: TaskRoot, seen: set<nat>) { forall id :: id in root ==> id !in seen }

  /** Every directory walked so far is acceptable and new. */
  ghost predicate Passed(root: TaskRoot, archived: bool, seen: set<nat>, ids: seq<nat>) {
    forall j :: 0 <= j < |ids| ==> ids[j] in root && DirOk(ids[j], root[ids[j]], archived) && ids[j] !in seen
  }

  lemma WalkOne(root: TaskRoot, archived: bool, seen: set<nat>, ids: seq<nat>, i: nat)
    requires Ascending(ids) && i < |ids| && ids[i] in root
    ensures SeenAfter(seen, ids[..i + 1]) == SeenAfter(seen, ids[..i]) + {ids[i]}
    ensures ids[i] in SeenAfter(seen, ids[..i]) <==> ids[i] in seen
    ensures Passed(root, archived, seen, ids[..i + 1])
            <==> Passed(root, archived, seen, ids[..i]) && DirOk(ids[i], root[ids[i]], archived) && ids[i] !in seen
    ensures !DirOk(ids[i], root[ids[i]], archived) || ids[i] in seen ==> !(RootOk(root, archived) && AllNew(root, seen))
  {
    hide DirOk;
    assert ids[..i + 1] == ids[..i] + [ids[i]];
    assert forall j :: 0 <= j < i ==> ids[j] < ids[i] && ids[..i + 1][j] == ids[..i][j];
    assert ids[..i + 1][i] == ids[i];
  }

  lemma WalkAll(root: TaskRoot, archived: bool, seen: set<nat>, ids: seq<nat>)
    requires forall id :: id in root <==> id in ids
    ensures Passed(root, archived, seen, ids) <==> RootOk(root, archived) && AllNew(root, seen)
    ensures ids[..|ids|] == ids && Passed(root, archived, seen, ids[..0]) && SeenAfter(seen, ids[..0]) == seen
  {
    hide DirOk;
    assert forall j :: 0 <= j < |ids| ==> ids[j] in ids;
  }

  /** Walk a task root in directory order, refusing the first directory that is not acceptable or was already seen. */
  method ReadRoot(root: TaskRoot, archived: bool, seen: set<nat>) returns (r: Option<Reading>)
    requires TreesOk(root)
    ensures r.Some? <==> RootOk(root, archived) && AllNew(root, seen)
    ensures r.Some? ==> r.value == GatherRoot(root, archived)
  {
    var ids := Sorted(root.Keys);
    SortedIn(root.Keys);
    var reading, now := Reading([], [], map[]), seen;
    GatherNone(root, archived, ids);
    WalkAll(root, archived, seen, ids);
    hide DirOk, TreesOk, Noted, Gather, SeenAfter, Passed, RootOk, AllNew;
    assert GatherRoot(root, archived) == Gather(root, archived, ids);
    hide GatherRoot, Ascending, Sorted, Min;
    for i := 0 to |ids|
      invariant Passed(root, archived, seen, ids[..i])
      invariant reading == Gather(root, archived, ids[..i])
      invariant now == SeenAfter(seen, ids[..i])
    {
      WalkOne(root, archived, seen, ids, i);
      if !DirOk(ids[i], root[ids[i]], archived) || ids[i] in now { return None; }
      GatherExtend(root, archived, ids, i);
      now, reading := now + {ids[i]}, Noted(reading, ids[i], root[ids[i]], archived);
    }
    r := Some(reading);
  }

  lemma GatherNone(root: TaskRoot, archived: bool, ids: seq<nat>)
    requires TreesOk(root)
    ensures Gather(root, archived, ids[..0]) == Reading([], [], map[])
  {
  }

  // ---------- What the walk gathers ----------

  function EntriesIn(root: TaskRoot, archived: bool): map<nat, S.Entry> { map id | id in root :: S.Entry(root[id].content.record, archived) }

  function LeaseItems(root: TaskRoot): map<nat, LeaseItem> {
    map id | id in root && root[id].content.lease.Some? :: LeaseItem(id, root[id].content.lease.value)
  }

  lemma {:induction false} GatheredTasks(root: TaskRoot, archived: bool, ids: seq<nat>)
    requires TreesOk(root) && forall j :: 0 <= j < |ids| ==> ids[j] in root
    ensures Gather(root, archived, ids).tasks == Values(ids, EntriesIn(root, archived))
  {
    hide V.TreeOk, E.Flatten;
    if ids != [] { GatheredTasks(root, archived, ids[..|ids| - 1]); }
  }

  /** Leases come out in id order, one for each directory that carries one. */
  lemma {:induction false} GatheredLeases(root: TaskRoot, archived: bool, ids: seq<nat>) returns (leased: seq<nat>)
    requires TreesOk(root) && Ascending(ids) && forall j :: 0 <= j < |ids| ==> ids[j] in root
    ensures Ascending(leased) && forall x :: x in leased <==> x in ids && x in LeaseItems(root)
    ensures forall j :: 0 <= j < |leased| ==> leased[j] in LeaseItems(root)
    ensures Gather(root, archived, ids).leases == Values(leased, LeaseItems(root))
  {
    hide V.TreeOk, E.Flatten;
    if ids == [] {
      leased := [];
    } else {
      var n := |ids| - 1;
      var before := GatheredLeases(root, archived, ids[..n]);
      assert ids == ids[..n] + [ids[n]];
      assert forall j :: 0 <= j < |before| ==> before[j] in before;
      assert forall x :: x in ids[..n] ==> x < ids[n];
      leased := if root[ids[n]].content.lease.Some? then before + [ids[n]] else before;
    }
  }

  lemma {:induction false} GatheredEvidence(root: TaskRoot, archived: bool, ids: seq<nat>)
    requires TreesOk(root) && forall j :: 0 <= j < |ids| ==> ids[j] in root
    ensures forall id :: id in Gather(root, archived, ids).evidence <==> id in ids && root[id].evidence.Some?
    ensures forall id :: id in Gather(root, archived, ids).evidence ==>
              Gather(root, archived, ids).evidence[id] == E.Flatten(root[id].evidence.value)
  {
    hide V.TreeOk, E.Flatten;
    if ids != [] {
      GatheredEvidence(root, archived, ids[..|ids| - 1]);
      assert ids == ids[..|ids| - 1] + [ids[|ids| - 1]];
    }
  }

  /** Leases and evidence of a whole root. */
  lemma GatheredAll(root: TaskRoot, archived: bool)
    requires TreesOk(root)
    ensures forall i :: 0 <= i < |Sorted(root.Keys)| ==> Sorted(root.Keys)[i] in root
    ensures forall i :: 0 <= i < |Sorted(LeaseItems(root).Keys)| ==> Sorted(LeaseItems(root).Keys)[i] in LeaseItems(root)
    ensures var g := GatherRoot(root, archived);
            && g.tasks == Values(Sorted(root.Keys), EntriesIn(root, archived))
            && g.leases == Values(Sorted(LeaseItems(root).Keys), LeaseItems(root))
            && g.evidence == EvidenceIn(root)
  {
    var ids := Sorted(root.Keys);
    assert forall j :: 0 <= j < |ids| ==> ids[j] in ids;
    GatheredTasks(root, archived, ids);
    var leased := GatheredLeases(root, archived, ids);
    GatheredEvidence(root, archived, ids);
    hide V.TreeOk, E.Flatten, Gather;
    AscendingUnique(leased, Sorted(LeaseItems(root).Keys));
    assert Gather(root, archived, ids).evidence == EvidenceIn(root);
  }

  // ---------- Inspecting the legacy layout ----------

  /** Sort task items by identifier. */
  function SortById(items: seq<S.Entry>): seq<S.Entry> {
    var t := Table(items, TaskKey, Same);
    SortedIn(t.Keys);
    Values(Sorted(t.Keys), t)
  }

  lemma {:induction false} TableConcat<K, V, W>(a: seq<V>, b: seq<V>, key: V -> K, row: V -> W)
    ensures Table(a + b, key, row) == Table(a, key, row) + Table(b, key, row)
  {
    if b == [] {
      assert a + b == a;
    } else {
      var n := |b| - 1;
      assert (a + b)[..|a + b| - 1] == a + b[..n];
      TableConcat(a, b[..n], key, row);
    }
  }

  lemma EntriesTable(a: map<nat, S.Entry>, b: map<nat, S.Entry>)
    requires forall id :: id in a ==> a[id].record.id == id
    requires forall id :: id in b ==> b[id].record.id == id
    ensures forall i :: 0 <= i < |Sorted(a.Keys)| ==> Sorted(a.Keys)[i] in a
    ensures forall i :: 0 <= i < |Sorted(b.Keys)| ==> Sorted(b.Keys)[i] in b
    ensures Table(Values(Sorted(a.Keys), a) + Values(Sorted(b.Keys), b), TaskKey, Same) == a + b
  {
    SameTable(a);
    SameTable(b);
    hide Table;
    TableConcat(Values(Sorted(a.Keys), a), Values(Sorted(b.Keys), b), TaskKey, Same);
  }

  lemma EntriesJoined(l: Legacy)
    ensures EntriesIn(RootOf(l.active), false).Keys == RootOf(l.active).Keys
    ensures EntriesIn(RootOf(l.archive), true).Keys == RootOf(l.archive).Keys
    ensures RootOf(l.active).Keys !! RootOf(l.archive).Keys ==>
              EntriesIn(RootOf(l.active), false) + EntriesIn(RootOf(l.archive), true) == LegacyTasks(l)
  {
  }

  lemma TasksSorted(l: Legacy)
    requires LegacyOk(l) && Readable(l)
    ensures forall i :: 0 <= i < |Sorted(LegacyTasks(l).Keys)| ==> Sorted(LegacyTasks(l).Keys)[i] in LegacyTasks(l)
    ensures SortById(GatherRoot(RootOf(l.active), false).tasks + GatherRoot(RootOf(l.archive), true).tasks)
            == Values(Sorted(LegacyTasks(l).Keys), LegacyTasks(l))
  {
    RootKeys(l);
    SortedIn(LegacyTasks(l).Keys);
    GatheredAll(RootOf(l.active), false);
    GatheredAll(RootOf(l.archive), true);
    EntriesJoined(l);
    EntriesTable(EntriesIn(RootOf(l.active), false), EntriesIn(RootOf(l.archive), true));
    hide LegacyOk, Readable, GatherRoot, Table, EntriesIn, LegacyTasks, RootOf, LeaseItems, EvidenceIn, Sorted;
  }

  lemma RootKeys(l: Legacy)
    requires LegacyOk(l) && Readable(l)
    ensures TreesOk(RootOf(l.active)) && TreesOk(RootOf(l.archive)) && RootOf(l.active).Keys !! RootOf(l.archive).Keys
    ensures forall id :: id in RootOf(l.active) ==> RootOf(l.active)[id].content.record.id == id
    ensures forall id :: id in RootOf(l.archive) ==> RootOf(l.archive)[id].content.record.id == id
    ensures LeaseItems(RootOf(l.archive)) == map[]
  {
    hide ValidRecord, TaskTimes, Lifecycle, LeaseTimes;
    assert forall id :: id in RootOf(l.active) ==> DirOk(id, RootOf(l.active)[id], false);
    assert forall id :: id in RootOf(l.archive) ==> DirOk(id, RootOf(l.archive)[id], true);
  }

  lemma LeasesSorted(l: Legacy)
    requires LegacyOk(l) && Readable(l)
    ensures forall i :: 0 <= i < |Sorted(LegacyLeases(l).Keys)| ==> Sorted(LegacyLeases(l).Keys)[i] in LegacyLeases(l)
    ensures GatherRoot(RootOf(l.active), false).leases + GatherRoot(RootOf(l.archive), true).leases
            == Values(Sorted(LegacyLeases(l).Keys), LegacyLeases(l))
  {
    hide LegacyOk, Readable, GatherRoot, DirOk;
    var active, archive := RootOf(l.active), RootOf(l.archive);
    RootKeys(l);
    SortedIn(LegacyLeases(l).Keys);
    GatheredAll(active, false);
    GatheredAll(archive, true);
    assert LeaseItems(active) == LegacyLeases(l);
    assert LeaseItems(archive).Keys == {} && Sorted({}) == [];
  }

  lemma EvidenceJoined(l: Legacy)
    requires LegacyOk(l) && Readable(l)
    ensures GatherRoot(RootOf(l.active), false).evidence + GatherRoot(RootOf(l.archive), true).evidence == LegacyEvidence(l)
  {
    RootKeys(l);
    GatheredAll(RootOf(l.active), false);
    GatheredAll(RootOf(l.archive), true);
    hide LegacyOk, GatherRoot, EvidenceIn;
  }

  lemma FilesListed(l: Legacy)
    requires LegacyOk(l) && Readable(l)
    ensures forall i :: 0 <= i < |FileOrder(FilesOf(l))| ==> FileOrder(FilesOf(l))[i] in LegacyCandidates(l)
    ensures forall i :: 0 <= i < |N.Listing(FilesOf(l).Keys)| ==> N.Listing(FilesOf(l).Keys)[i] in FilesOf(l)
    ensures Values(FileOrder(FilesOf(l)), LegacyCandidates(l)) == Values(N.Listing(FilesOf(l).Keys), FilesOf(l))
  {
    assert forall name :: name in FilesOf(l) ==> CandidateFileOk(name, FilesOf(l)[name]);
    hide LegacyOk, Readable, FilesOf, CandidateAccepted;
    OrderedFiles(FilesOf(l));
  }

  lemma OrderedFiles(files: map<string, C.Candidate>)
    requires forall name :: name in files ==> name == N.FileName(files[name].id)
    ensures forall i :: 0 <= i < |FileOrder(files)| ==> FileOrder(files)[i] in CandidatesFrom(files)
    ensures forall i :: 0 <= i < |N.Listing(files.Keys)| ==> N.Listing(files.Keys)[i] in files
    ensures Values(FileOrder(files), CandidatesFrom(files)) == Values(N.Listing(files.Keys), files)
  {
    ListingIn(files.Keys);
    hide N.Listing, N.FileName;
    var order, names := FileOrder(files), N.Listing(files.Keys);
    forall i | 0 <= i < |order| ensures order[i] in CandidatesFrom(files) && CandidatesFrom(files)[order[i]] == files[names[i]] {
      assert names[i] in files && names[i] == N.FileName(order[i]);
    }
  }

  function LegacyRowsOf(l: Legacy): map<nat, LegacyRow> { if l.runs.Some? then l.runs.value.rows else map[] }

  ghost predicate RunsAccepted(l: Legacy) { forall id :: id in LegacyRowsOf(l) ==> LegacyRunOk(id, LegacyRowsOf(l)[id]) }

  ghost predicate FilesAccepted(l: Legacy) { forall name :: name in FilesOf(l) ==> CandidateFileOk(name, FilesOf(l)[name]) }

  lemma LegacyParts(l: Legacy)
    ensures LegacyOk(l) <==>
              && RunsAccepted(l) && FilesAccepted(l)
              && RootOk(RootOf(l.active), false) && RootOk(RootOf(l.archive), true) && AllNew(RootOf(l.archive), RootOf(l.active).Keys)
    ensures AllNew(RootOf(l.active), {})
    ensures Readable(l) ==> TreesOk(RootOf(l.active)) && TreesOk(RootOf(l.archive))
  {
    hide LegacyRunOk, RootOk, CandidateFileOk, TreesOk;
    var a, z := RootOf(l.active), RootOf(l.archive);
    assert a.Keys !! z.Keys <==> AllNew(z, a.Keys);
    assert l.runs.None? ==> LegacyRowsOf(l) == map[];
    assert l.candidates.None? ==> FilesOf(l) == map[];
    assert l.runs.Some? ==> LegacyRowsOf(l) == l.runs.value.rows;
    assert l.candidates.Some? ==> FilesOf(l) == l.candidates.value;
    hide RootOf;
  }

  lemma SameList<V>(ids: seq<nat>, m: map<nat, V>, values: seq<V>)
    requires |values| == |ids| && forall i :: 0 <= i < |ids| ==> ids[i] in m && values[i] == m[ids[i]]
    ensures values == Values(ids, m)
  {
  }

  method ReadRunsOf(l: Legacy) returns (r: Option<seq<R.RunRecord>>)
    ensures r.Some? <==> RunsAccepted(l)
    ensures forall i :: 0 <= i < |Sorted(LegacyRuns(l).Keys)| ==> Sorted(LegacyRuns(l).Keys)[i] in LegacyRuns(l)
    ensures r.Some? ==> r.value == Values(Sorted(LegacyRuns(l).Keys), LegacyRuns(l))
  {
    hide LegacyRunOk, Parsed, Sorted;
    var rows := LegacyRowsOf(l);
    SortedIn(rows.Keys);
    assert LegacyRuns(l).Keys == rows.Keys;
    r := ReadChecked(Sorted(rows.Keys), rows, (id, row) => LegacyRunOk(id, row), (id, row: LegacyRow) => Parsed(row.payload));
    assert forall id :: id in rows ==> id in Sorted(rows.Keys);
    if r.Some? { SameList(Sorted(rows.Keys), LegacyRuns(l), r.value); }
  }

  method ReadCandidatesOf(l: Legacy) returns (r: Option<seq<C.Candidate>>)
    ensures r.Some? <==> FilesAccepted(l)
    ensures forall i :: 0 <= i < |N.Listing(FilesOf(l).Keys)| ==> N.Listing(FilesOf(l).Keys)[i] in FilesOf(l)
    ensures r.Some? ==> r.value == Values(N.Listing(FilesOf(l).Keys), FilesOf(l))
  {
    hide CandidateFileOk, N.Listing;
    var names := N.Listing(FilesOf(l).Keys);
    ListingIn(FilesOf(l).Keys);
    r := ReadChecked(names, FilesOf(l), (name, c) => CandidateFileOk(name, c), (name, c) => c);
    assert forall name :: name in FilesOf(l) ==> name in names;
  }

  lemma ListingIn(names: set<string>)
    ensures forall i :: 0 <= i < |N.Listing(names)| ==> N.Listing(names)[i] in names
  {
    assert forall i :: 0 <= i < |N.Listing(names)| ==> N.Listing(names)[i] in N.Listing(names);
  }

  /** The lists read from an acceptable legacy state make up its snapshot. */
  lemma SnapshotAssembles(l: Legacy)
    requires LegacyOk(l) && Readable(l)
    ensures forall i :: 0 <= i < |Sorted(LegacyRuns(l).Keys)| ==> Sorted(LegacyRuns(l).Keys)[i] in LegacyRuns(l)
    ensures forall i :: 0 <= i < |N.Listing(FilesOf(l).Keys)| ==> N.Listing(FilesOf(l).Keys)[i] in FilesOf(l)
    ensures
      var a, z := GatherRoot(RootOf(l.active), false), GatherRoot(RootOf(l.archive), true);
      InspectLegacy(l)
      == Snapshot(Values(Sorted(LegacyRuns(l).Keys), LegacyRuns(l)), SortById(a.tasks + z.tasks), a.leases + z.leases,
                  Values(N.Listing(FilesOf(l).Keys), FilesOf(l)), l.candidates.Some?,
                  if l.runs.Some? then l.runs.value.metadata else map[], a.evidence + z.evidence)
  {
    SortedIn(LegacyRuns(l).Keys);
    TasksSorted(l);
    LeasesSorted(l);
    EvidenceJoined(l);
    FilesListed(l);
    hide LegacyOk, Readable, GatherRoot, SortById, LegacyRuns, LegacyTasks, LegacyLeases, LegacyEvidence, LegacyCandidates, FileOrder, FilesOf,
      Sorted, N.Listing, Values;
  }

  /** Inspect every configured root; any state that is not acceptable refuses the whole inspection. */
  method InspectSource(l: Legacy) returns (r: Option<Snapshot>)
    requires Readable(l)
    ensures r.Some? <==> LegacyOk(l)
    ensures r.Some? ==> r.value == InspectLegacy(l)
  {
    LegacyParts(l);
    hide LegacyOk, Readable, RootOk, RunsAccepted, FilesAccepted, AllNew, TreesOk, GatherRoot, SortById, LegacyRuns, FilesOf, InspectLegacy,
      Sorted, N.Listing, Values, RootOf;
    var runs := ReadRunsOf(l);
    if runs.None? { return None; }
    var active := ReadRoot(RootOf(l.active), false, {});
    if active.None? { return None; }
    var archive := ReadRoot(RootOf(l.archive), true, RootOf(l.active).Keys);
    if archive.None? { return None; }
    var candidates := ReadCandidatesOf(l);
    if candidates.None? { return None; }
    SnapshotAssembles(l);
    r := Some(Snapshot(runs.value, SortById(active.value.tasks + archive.value.tasks), active.value.leases + archive.value.leases,
                       candidates.value, l.candidates.Some?, if l.runs.Some? then l.runs.value.metadata else map[],
                       active.value.evidence + archive.value.evidence));
  }

  // ---------- Inspecting the database ----------

  lemma SameNames(names: seq<string>, m: map<string, C.Candidate>, values: seq<C.Candidate>)
    requires |values| == |names| && forall i :: 0 <= i < |names| ==> names[i] in m && values[i] == m[names[i]]
    ensures values == Values(names, m)
  {
  }

  method ReadRunTable(rows: map<nat, RS.RunRow>) returns (r: Option<seq<R.RunRecord>>)
    ensures r.Some? <==> RunTableOk(rows)
    ensures forall i :: 0 <= i < |Sorted(RunsIn(rows).Keys)| ==> Sorted(RunsIn(rows).Keys)[i] in RunsIn(rows)
    ensures r.Some? ==> r.value == Values(Sorted(RunsIn(rows).Keys), RunsIn(rows))
  {
    hide DatabaseRunOk, Parsed, Sorted;
    SortedIn(rows.Keys);
    assert RunsIn(rows).Keys == rows.Keys;
    r := ReadChecked(Sorted(rows.Keys), rows, (id, row) => DatabaseRunOk(id, row), (id, row: RS.RunRow) => Parsed(row.payload));
    assert forall id :: id in rows ==> id in Sorted(rows.Keys);
    if r.Some? { SameList(Sorted(rows.Keys), RunsIn(rows), r.value); }
  }

  method ReadTaskTable(rows: map<nat, T.Row>) returns (r: Option<seq<S.Entry>>)
    ensures r.Some? <==> TaskTableOk(rows)
    ensures forall i :: 0 <= i < |Sorted(TasksIn(rows).Keys)| ==> Sorted(TasksIn(rows).Keys)[i] in TasksIn(rows)
    ensures r.Some? ==> r.value == Values(Sorted(TasksIn(rows).Keys), TasksIn(rows))
  {
    hide TaskRowOk, Sorted;
    SortedIn(rows.Keys);
    assert TasksIn(rows).Keys == rows.Keys;
    r := ReadChecked(Sorted(rows.Keys), rows, (id, row) => TaskRowOk(id, row), (id, row: T.Row) => S.Entry(row.payload, row.archived));
    assert forall id :: id in rows ==> id in Sorted(rows.Keys);
    if r.Some? { SameList(Sorted(rows.Keys), TasksIn(rows), r.value); }
  }

  method ReadLeaseTable(tasks: map<nat, T.Row>, rows: map<nat, T.LeaseRow>) returns (r: Option<seq<LeaseItem>>)
    ensures r.Some? <==> LeaseTableOk(tasks, rows)
    ensures forall i :: 0 <= i < |Sorted(LeasesIn(rows).Keys)| ==> Sorted(LeasesIn(rows).Keys)[i] in LeasesIn(rows)
    ensures r.Some? ==> r.value == Values(Sorted(LeasesIn(rows).Keys), LeasesIn(rows))
  {
    hide LeaseRowOk, Sorted;
    SortedIn(rows.Keys);
    assert LeasesIn(rows).Keys == rows.Keys;
    r := ReadChecked(Sorted(rows.Keys), rows, (id, row) => LeaseRowOk(tasks, id, row), (id, row: T.LeaseRow) => LeaseItem(id, row.payload));
    assert forall id :: id in rows ==> id in Sorted(rows.Keys);
    if r.Some? { SameList(Sorted(rows.Keys), LeasesIn(rows), r.value); }
  }

  method ReadCandidateTable(rows: map<string, C.CandidateRow>) returns (r: Option<seq<C.Candidate>>)
    ensures r.Some? <==> CandidateTableOk(rows)
    ensures forall i :: 0 <= i < |N.Listing(CandidatesIn(rows).Keys)| ==> N.Listing(CandidatesIn(rows).Keys)[i] in CandidatesIn(rows)
    ensures r.Some? ==> r.value == Values(N.Listing(CandidatesIn(rows).Keys), CandidatesIn(rows))
  {
    hide CandidateRowOk, N.Listing;
    ListingIn(rows.Keys);
    assert CandidatesIn(rows).Keys == rows.Keys;
    r := ReadChecked(N.Listing(rows.Keys), rows, (id, row) => CandidateRowOk(id, row), (id, row: C.CandidateRow) => row.payload);
    assert forall id :: id in rows ==> id in N.Listing(rows.Keys);
    if r.Some? { SameNames(N.Listing(rows.Keys), CandidatesIn(rows), r.value); }
  }

  /** Inspect the database: authority first, then every table in id order, then drop evidence of removed tasks. */
  method InspectFile(d: Database) returns (r: Option<Snapshot>)
    ensures r.Some? <==> DatabaseOk(d)
    ensures r.Some? ==> r.value == InspectDatabase(d)
  {
    hide RunTableOk, TaskTableOk, LeaseTableOk, CandidateTableOk, RunsIn, TasksIn, LeasesIn, CandidatesIn, Sorted, N.Listing, EvidenceOf, Values;
    if !AuthorityOk(d) { return None; }
    var runs := ReadRunTable(d.runs);
    if runs.None? { return None; }
    var candidates := ReadCandidateTable(d.candidates);
    if candidates.None? { return None; }
    var tasks := ReadTaskTable(d.tasks);
    if tasks.None? { return None; }
    var leases := ReadLeaseTable(d.tasks, d.leases);
    if leases.None? { return None; }
    r := Some(Snapshot(runs.value, tasks.value, leases.value, candidates.value, d.meta.authority == Some("true"),
                       Or(d.meta.runMetadata, map[]), EvidenceOf(Or(d.meta.evidence, map[]), d.tasks.Keys)));
  }

  // ---------- Migration ----------

  datatype Receipt = Receipt(snapshot: Snapshot, alreadyMigrated: bool)

  /** A place for one published database, and the staging file beside it. */
  class Destination {
    var published: Option<Database>
    var stage: Option<Database>

    constructor (published: Option<Database>)
      ensures this.published == published && stage == None
    {
      this.published, stage := published, None;
    }

    /** A published database that is the unchanged result of migrating this snapshot. */
    ghost predicate Holds(s: Snapshot)
      reads this
    {
      published.Some? && published.value.meta.migration == Some(s) && DatabaseOk(published.value) && InspectDatabase(published.value) == s
    }

    /**
     * Inspect, build aside, verify both sides again, then publish by an exclusive link. `again` is what the second reading of
     * the sources finds.
     */
    method Migrate(source: Legacy, again: Legacy) returns (r: Option<Receipt>)
      requires Readable(source) && Readable(again)
      modifies this
      ensures stage == None
      ensures r.None? ==> published == old(published)
      ensures r.Some? ==> LegacyOk(source) && r.value.snapshot == InspectLegacy(source) && Holds(r.value.snapshot)
      ensures r.Some? ==> (r.value.alreadyMigrated <==> old(published).Some?)
      ensures old(published).Some? ==> published == old(published) && (r.Some? <==> LegacyOk(source) && old(Holds(InspectLegacy(source))))
      ensures old(published).None? ==>
                (r.Some? <==>
                  && LegacyOk(source) && N.NoDashExtension(CandidateIds(source))
                  && LegacyOk(again) && InspectLegacy(again) == InspectLegacy(source))
      ensures old(published).None? && r.Some? ==> published == Some(Build(r.value.snapshot))
    {
      hide LegacyOk, Readable, DatabaseOk, InspectLegacy, InspectDatabase, Build, N.NoDashExtension, CandidateIds;
      stage := None;
      var snapshot := InspectSource(source);
      if snapshot.None? { return None; }
      if published.Some? {
        var found := InspectFile(published.value);
        if published.value.meta.migration != snapshot || found != snapshot { return None; }
        return Some(Receipt(snapshot.value, true));
      }
      MigrationRoundTripIff(source);
      BuildRecords(snapshot.value);
      stage := Some(Build(snapshot.value));
      var verified := InspectFile(stage.value);
      if verified != snapshot {
        stage := None;
        return None;
      }
      var reread := InspectSource(again);
      if reread != snapshot {
        stage := None;
        return None;
      }
      published, stage := stage, None;
      return Some(Receipt(snapshot.value, false));
    }

    /** Migrating unchanged sources a second time changes nothing and returns the same snapshot. */
    method MigrateTwice(source: Legacy) returns (first: Option<Receipt>, second: Option<Receipt>)
      requires Readable(source)
      modifies this
      ensures first.Some? <==> second.Some?
      ensures first.Some? ==> second.value == Receipt(first.value.snapshot, true)
      ensures old(published).None? && LegacyOk(source) && N.NoDashExtension(CandidateIds(source)) ==>
                first.Some? && published == Some(Build(InspectLegacy(source)))
    {
      first := Migrate(source, source);
      label Once:
      second := Migrate(source, source);
      assert first.Some? ==> published == old@Once(published);
    }
  }

  lemma BuildRecords(s: Snapshot)
    ensures Build(s).meta.migration == Some(s)
  {
  }

  // ---------- Rollback ----------

  /** Recreate a task's evidence entry by entry, in the order the stored map lists them. */
  method RebuildEvidence(m: E.Files) returns (t: Option<V.Tree>)
    ensures t == E.Rebuild(Items(m))
  {
    var items := Items(m);
    t := Some(map[]);
    hide E.Place, Items, E.Enumerates;
    for i := 0 to |items|
      invariant t == E.Rebuild(items[..i])
    {
      PlaceNext(items, i);
      if t.Some? { t := E.Place(t.value, items[i].0, items[i].1); }
    }
    assert items[..|items|] == items;
  }

  lemma PlaceNext(items: seq<(string, Option<string>)>, i: nat)
    requires i < |items|
    ensures E.Rebuild(items[..i + 1])
            == if E.Rebuild(items[..i]).None? then None else E.Place(E.Rebuild(items[..i]).value, items[i].0, items[i].1)
  {
    assert items[..i + 1][..i] == items[..i];
    hide E.Place;
  }

  function DirFrom(e: S.Entry, leases: map<nat, S.Lease>, evidence: map<nat, E.Files>): TaskDir {
    var id := e.record.id;
    TaskDir(T.Dir(e.record, if !e.archived && id in leases then Some(leases[id]) else None), false,
            if id in evidence then E.Rebuild(Items(evidence[id])) else None)
  }

  lemma RootExtends(archived: bool, tasks: map<nat, S.Entry>, e: S.Entry, leases: map<nat, S.Lease>, evidence: map<nat, E.Files>)
    requires e.record.id !in tasks
    ensures RootFrom(archived, tasks[e.record.id := e], leases, evidence)
            == if e.archived == archived then RootFrom(archived, tasks, leases, evidence)[e.record.id := DirFrom(e, leases, evidence)]
               else RootFrom(archived, tasks, leases, evidence)
  {
    hide E.Rebuild, Items;
  }

  ghost predicate EvidenceRebuilds(tasks: seq<S.Entry>, evidence: map<nat, E.Files>) {
    forall i :: 0 <= i < |tasks| && tasks[i].record.id in evidence ==> E.Rebuild(Items(evidence[tasks[i].record.id])).Some?
  }

  lemma TableKeys(tasks: seq<S.Entry>)
    ensures forall id :: id in Table(tasks, TaskKey, Same) ==> exists i :: 0 <= i < |tasks| && tasks[i].record.id == id
  {
    if tasks != [] { TableKeys(tasks[..|tasks| - 1]); }
  }

  ghost predicate DistinctIds(tasks: seq<S.Entry>) { forall i, j :: 0 <= i < j < |tasks| ==> tasks[i].record.id != tasks[j].record.id }

  /** Write one directory per task into its root; evidence that cannot be rebuilt stops the export. */
  method WriteTasks(tasks: seq<S.Entry>, leases: map<nat, S.Lease>, evidence: map<nat, E.Files>) returns (r: Option<(TaskRoot, TaskRoot)>)
    requires DistinctIds(tasks)
    ensures r.Some? <==> EvidenceRebuilds(tasks, evidence)
    ensures r.Some? ==> r.value.0 == RootFrom(false, Table(tasks, TaskKey, Same), leases, evidence)
    ensures r.Some? ==> r.value.1 == RootFrom(true, Table(tasks, TaskKey, Same), leases, evidence)
  {
    hide Table, RootFrom, E.Rebuild, Items, DistinctIds, V.Closed;
    var active: TaskRoot, archive: TaskRoot := map[], map[];
    NothingWritten(leases, evidence);
    for i := 0 to |tasks|
      invariant EvidenceRebuilds(tasks[..i], evidence)
      invariant active == RootFrom(false, Table(tasks[..i], TaskKey, Same), leases, evidence)
      invariant archive == RootFrom(true, Table(tasks[..i], TaskKey, Same), leases, evidence)
    {
      var e := tasks[i];
      NextTask(tasks, i);
      RootExtends(false, Table(tasks[..i], TaskKey, Same), e, leases, evidence);
      RootExtends(true, Table(tasks[..i], TaskKey, Same), e, leases, evidence);
      var tree: Option<V.Tree> := None;
      if e.record.id in evidence {
        tree := RebuildEvidence(evidence[e.record.id]);
        if tree.None? { return None; }
      }
      var dir := TaskDir(T.Dir(e.record, if !e.archived && e.record.id in leases then Some(leases[e.record.id]) else None), false, tree);
      if e.archived { archive := archive[e.record.id := dir]; } else { active := active[e.record.id := dir]; }
    }
    assert tasks[..|tasks|] == tasks;
    r := Some((active, archive));
  }

  lemma NothingWritten(leases: map<nat, S.Lease>, evidence: map<nat, E.Files>)
    ensures forall archived :: RootFrom(archived, Table([], TaskKey, Same), leases, evidence) == map[]
  {
  }

  lemma NextTask(tasks: seq<S.Entry>, i: nat)
    requires DistinctIds(tasks) && i < |tasks|
    ensures tasks[i].record.id !in Table(tasks[..i], TaskKey, Same)
    ensures Table(tasks[..i + 1], TaskKey, Same) == Table(tasks[..i], TaskKey, Same)[tasks[i].record.id := tasks[i]]
    ensures tasks[..i + 1] == tasks[..i] + [tasks[i]]
  {
    TableKeys(tasks[..i]);
    assert tasks[..i + 1][..i] == tasks[..i];
  }

  lemma SnapshotTasks(d: Database)
    requires DatabaseOk(d)
    ensures DistinctIds(InspectDatabase(d).tasks)
    ensures EvidenceRebuilds(InspectDatabase(d).tasks, InspectDatabase(d).evidence) <==> Rebuildable(InspectDatabase(d))
  {
    hide DatabaseOk, InspectDatabase, DatabaseContents, Acceptable, E.Rebuild, Items, Sorted, N.Listing;
    var c, s := DatabaseContents(d), InspectDatabase(d);
    DatabaseKeyed(d);
    InspectsContents(d);
    SortedIn(c.tasks.Keys);
    TaskListed(c, s.tasks);
  }

  lemma TaskListed(c: Contents, tasks: seq<S.Entry>)
    requires Keyed(c)
    requires forall i :: 0 <= i < |Sorted(c.tasks.Keys)| ==> Sorted(c.tasks.Keys)[i] in c.tasks
    requires tasks == Values(Sorted(c.tasks.Keys), c.tasks)
    ensures DistinctIds(tasks)
    ensures EvidenceRebuilds(tasks, c.evidence) <==> forall id :: id in c.evidence ==> E.Rebuild(Items(c.evidence[id])).Some?
  {
    var ids := Sorted(c.tasks.Keys);
    assert forall i :: 0 <= i < |ids| ==> tasks[i].record.id == ids[i];
    assert c.evidence.Keys <= c.tasks.Keys;
    hide Keyed, E.Rebuild, Items, Sorted, Values;
    forall id | id in c.evidence ensures exists i :: 0 <= i < |tasks| && tasks[i].record.id == id {
      assert id in ids;
      var i :| 0 <= i < |ids| && ids[i] == id;
      assert tasks[i].record.id == id;
    }
  }

  /** A place for one exported legacy layout. */
  class Export {
    var published: Option<Legacy>

    constructor ()
      ensures published == None
    {
      published := None;
    }

    /** Write the current state of the database as a legacy layout, inspect what was written, and publish only an equal copy. */
    method Run(d: Database) returns (ok: bool)
      modifies this
      ensures !ok ==> published == old(published)
      ensures ok ==> published == Some(ExportOf(InspectDatabase(d)))
      ensures ok <==>
                && DatabaseOk(d) && old(published).None?
                && AllClosed(InspectDatabase(d).evidence) && N.NoDashExtension(d.candidates.Keys)
    {
      hide DatabaseOk, LegacyOk, Readable, InspectLegacy, InspectDatabase, LegacyContents, DatabaseContents, AllClosed, Rebuildable,
        N.NoDashExtension, RootFrom, Table, Returned, EvidenceRebuilds;
      var snapshot := InspectFile(d);
      if snapshot.None? || published.Some? { return false; }
      var s := snapshot.value;
      RollbackRoundTripIff(d);
      SnapshotTasks(d);
      var leases := Table(s.leases, LeaseKey, LeaseOf);
      var roots := WriteTasks(s.tasks, leases, s.evidence);
      if roots.None? { return false; }
      var layout := Legacy(Some(RunDatabase(Table(s.runs, RunKey, LegacyRowOf), s.runMetadata)), Some(roots.value.0), Some(roots.value.1),
                           if s.authority then Some(Table(s.candidates, FileKey, Itself)) else None);
      assert layout == ExportOf(s);
      var restored := InspectSource(layout);
      if restored != snapshot { return false; }
      published := Some(layout);
      return true;
    }
  }
}
