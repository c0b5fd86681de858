/** Taking a snapshot of skill files, probing it again, and building from the files, while other processes edit them. */
module SkillSnapshot {
  import opened Common
  import opened SkillFiles

  /** What other processes do: the edits before the n-th operation, and what a read that they disturb returns. */
  datatype Others = Others(edits: nat -> seq<FileEdit>, torn: nat -> Content)

  /** None of the edits is of this path. */
  ghost predicate Spares(edits: seq<FileEdit>, path: string) { forall n :: 0 <= n < |edits| ==> edits[n].path != path }

  /** Nobody edits anything. */
  ghost predicate Still(o: Others) { forall n :: o.edits(n) == [] }

  class Files {
    var files: FileMap

    constructor (files: FileMap)
      ensures this.files == files
    {
      this.files := files;
    }

    /** Whatever other processes do to the files at this point. */
    method Meanwhile(edits: seq<FileEdit>)
      modifies this
      ensures Evolves(old(files), files)
      ensures forall p :: Spares(edits, p) ==> At(files, p) == At(old(files), p)
      ensures edits == [] ==> files == old(files)
    {
      EvolvesSame(files);
      for i := 0 to |edits|
        invariant Evolves(old(files), files)
        invariant forall p :: Spares(edits, p) ==> At(files, p) == At(old(files), p)
        invariant edits == [] ==> files == old(files)
      {
        EvolvesEdit(files, edits[i]);
        EvolvesTwice(old(files), files, Edited(files, edits[i]));
        files := Edited(files, edits[i]);
      }
    }

    /** Open a path, read it to the end, and close it, while it may change at any point. */
    method ReadPath(path: string, o: Others, tick: nat, ghost known: seq<Entry>) returns (content: Content)
      requires AllTrack(known, files)
      modifies this
      ensures Spares(o.edits(tick), path) ==> At(files, path) == At(old(files), path)
      ensures Evolves(old(files), files) && AllTrack(known, files) && Agrees(Look(path, content), known, files)
      ensures At(old(files), path).version == At(files, path).version ==> content == At(files, path).content
      ensures o.edits(tick) == [] ==> files == old(files)
    {
      var open := Opening(path, At(files, path).version);
      OpenedNow(files, path, known);
      Meanwhile(o.edits(tick));
      TracksLater(known, old(files), files);
      OpenedLater(open, known, old(files), files);
      content := Read(files, open, o.torn(tick));
      ReadAgrees(files, open, o.torn(tick), known);
    }

    /** Hash one regular file between two probes; a change in between is noticed. */
    method HashFile(path: string, before: File, o: Others, tick: nat) returns (hash: Option<Content>)
      requires before.version <= At(files, path).version && (before.version == At(files, path).version ==> before == At(files, path))
      modifies this
      ensures Evolves(old(files), files)
      ensures hash.Some? ==> At(files, path) == before && hash.value == before.content
      ensures hash.None? ==> At(files, path).version != before.version
      ensures Still(o) ==> files == old(files)
    {
      hide Evolves;
      Meanwhile(o.edits(tick));
      label Open:
      var read := ReadPath(path, o, tick + 1, []);
      EvolvesTwice(old(files), old@Open(files), files);
      label Closed:
      Meanwhile(o.edits(tick + 2));
      EvolvesTwice(old(files), old@Closed(files), files);
      VersionsGrow(old(files), old@Open(files), old@Closed(files), files, path);
      if At(files, path).version != before.version { return None; }
      hash := Some(read);
    }

    /**
     * List a directory to the end and probe it afterwards, as the walk does; the listing is what the directory holds at the probe
     * if nobody edits the directory in between.
     */
    method ListThenProbe(path: string, notes: Notes, o: Others, tick: nat) returns (content: Content, more: Notes)
      requires NotesTrack(notes, files)
      modifies this
      ensures Evolves(old(files), files) && NotesTrack(more, files) && more == Noted(notes, files, path)
      ensures Spares(o.edits(tick), path) && Spares(o.edits(tick + 1), path) && path !in notes ==> content == more[path].held
      ensures Still(o) ==> files == old(files) && content == At(files, path).content
    {
      content := ReadPath(path, o, tick, []);
      label Listed:
      Meanwhile(o.edits(tick + 1));
      EvolvesTwice(old(files), old@Listed(files), files);
      NotesLater(notes, old(files), files);
      more := Noted(notes, files, path);
      NotedTracks(notes, files, path);
    }

    /** Note a path, unless it has been noted, and read it afterwards. */
    method ProbeThenRead(path: string, notes: Notes, o: Others, tick: nat) returns (content: Content, more: Notes)
      requires NotesTrack(notes, files)
      modifies this
      ensures Evolves(old(files), files) && NotesTrack(more, files) && more == Noted(notes, old(files), path)
      ensures Still(o) ==> files == old(files) && content == At(files, path).content
    {
      more := Noted(notes, files, path);
      NotedTracks(notes, files, path);
      Meanwhile(o.edits(tick));
      label Open:
      content := ReadPath(path, o, tick + 1, []);
      EvolvesTwice(old(files), old@Open(files), files);
      NotesLater(more, old(files), files);
    }

    /**
     * Look at every path of the plan in turn, within the limits, in the order of the code: directories but the root are listed
     * before they are probed. If nobody edits meanwhile it succeeds exactly on what the limits afford.
     */
    method ReadAll(plan: Plan, order: Ordering, o: Others, limit: nat) returns (r: Option<seq<Entry>>)
      requires ProbesAll(plan, order)
      modifies this
      ensures Evolves(old(files), files)
      ensures r.Some? ==> Complete(plan, LooksOf(r.value)) && AllTrack(r.value, files) && |Paths(r.value)| <= MAX_PATHS
      ensures Still(o) ==> files == old(files) && (r.Some? <==> Affordable(plan, order, files, limit))
      ensures Still(o) && r.Some? ==> Unmoved(r.value, |r.value|, files)
    {
      var looks: seq<Look>, notes: Notes, count: nat, bytes: nat := [], map[], 0, 0;
      EvolvesSame(files);
      NothingSpent(order, files);
      while plan(looks).Some?
        invariant Evolves(old(files), files) && NotesTrack(notes, files)
        invariant Follows(plan, looks) && NotedSoFar(order, looks, notes, None) && |looks| <= limit
        invariant notes.Keys <= PathsOf(looks)
        invariant Still(o) ==> files == old(files) && Shows(files, looks) && Spends(order, looks, files, count, bytes) && NotedAsIs(notes, files)
        decreases limit - |looks|
      {
        hide Evolves, Follows, NotesTrack, NotedSoFar, At, Noted, Spares, Shows, Spends, Affordable, Still, NotedAsIs;
        if |looks| == limit {
          if Still(o) { TooLong(plan, order, files, looks, limit); }
          return None;
        }
        var path, how, tick, before := plan(looks).value, order(looks), 4 * |looks|, notes;
        label Start:
        Meanwhile(o.edits(tick));
        StillAt(o, tick);
        NotesLater(notes, old@Start(files), files);
        EvolvesTwice(old(files), old@Start(files), files);
        label Probed:
        var content;
        match how {
          case ProbeFirst => content, notes := ProbeThenRead(path, notes, o, tick + 1);
          case ListFirst => content, notes := ListThenProbe(path, notes, o, tick + 1);
          case ReadOnly =>
            content := ReadPath(path, o, tick + 1, []);
            StillAt(o, tick + 1);
            NotesLater(notes, old@Probed(files), files);
          case HashBetween =>
            var file := At(files, path);
            count, bytes := count + 1, bytes + file.size;
            if !file.regular || count > MAX_FILES || bytes > MAX_BYTES {
              if Still(o) { TooMuch(plan, order, files, looks, path, limit, count, bytes); }
              return None;
            }
            notes := Noted(notes, files, path);
            NotedTracks(before, files, path);
            var hash := HashFile(path, file, o, tick + 1);
            NotesLater(notes, old@Probed(files), files);
            if hash.None? { EvolvesTwice(old(files), old@Probed(files), files); return None; }
            content := hash.value;
        }
        NotedKeys(before, old@Probed(files), files, path);
        if Still(o) { NotedStays(before, files, path); }
        EvolvesTwice(old(files), old@Probed(files), files);
        FollowsNext(plan, looks, Look(path, content));
        NotedMore(order, looks, before, notes, None);
        NotedNext(order, looks, notes, Look(path, content), None);
        PathsNext(looks, Look(path, content));
        if Still(o) {
          ShowsNext(files, looks, Look(path, content));
          SpendsNext(order, looks, Look(path, content), files, count, bytes);
        }
        looks := looks + [Look(path, content)];
      }
      NotedPaths(plan, order, looks, notes);
      if |notes| > MAX_PATHS {
        if Still(o) { TooMany(plan, order, files, looks, limit); }
        return None;
      }
      ObservationTracks(plan, order, looks, notes, files);
      EntriesLooks(looks, notes);
      FewPaths(looks, notes);
      if Still(o) {
        Affords(plan, order, files, looks, limit, count, bytes);
        NoneMoved(looks, notes, files);
      }
      r := Some(EntriesOf(looks, notes));
    }

    /** Probe every path again; all of them still as noted means they were all like that when this round began. */
    method Recheck(entries: seq<Entry>, o: Others) returns (same: bool)
      requires AllTrack(entries, files)
      modifies this
      ensures Evolves(old(files), files) && AllTrack(entries, files)
      ensures same ==> Unmoved(entries, |entries|, old(files)) && Shows(old(files), HeldOf(entries))
      ensures !same ==> !Unmoved(entries, |entries|, files)
      ensures Still(o) ==> files == old(files)
    {
      EvolvesSame(files);
      for i := 0 to |entries|
        invariant Evolves(old(files), files) && AllTrack(entries, files) && Unmoved(entries, i, old(files))
        invariant Still(o) ==> files == old(files)
      {
        hide Evolves, Unmoved, AllTrack, Still;
        label Start:
        Meanwhile(o.edits(i));
        StillAt(o, i);
        TracksLater(entries, old@Start(files), files);
        EvolvesTwice(old(files), old@Start(files), files);
        if At(files, entries[i].path).version != entries[i].version {
          MovedPath(entries, i, files);
          return false;
        }
        UnmovedNext(entries, i, old(files), files);
      }
      UnmovedShows(entries, old(files));
      same := true;
    }

    /**
     * Other processes may edit before, during and after any operation; if none does, a snapshot is delivered exactly if the limits
     * afford it. A delivered snapshot is what the plan reads from the files
     * as they were when its second round began, exactly if every path still held at its first probe what was read of it.
     */
    method Snapshot(plan: Plan, order: Ordering, first: Others, second: Others, limit: nat)
      returns (r: Option<seq<Entry>>, moment: FileMap)
      requires ProbesAll(plan, order)
      modifies this
      ensures Evolves(old(files), moment) && Evolves(moment, files)
      ensures r.Some? ==> Complete(plan, LooksOf(r.value)) && AllTrack(r.value, files) && |Paths(r.value)| <= MAX_PATHS
      ensures r.Some? ==> (ReadOf(plan, moment, LooksOf(r.value)) <==> Settled(r.value))
      ensures Still(first) && Still(second) ==> files == old(files) && (r.Some? <==> Affordable(plan, order, files, limit))
      ensures Still(first) && Still(second) && r.Some? ==> Unmoved(r.value, |r.value|, files)
    {
      hide Evolves, Shows, Settled, Still, Affordable, AllTrack, Unmoved, Complete;
      r := ReadAll(plan, order, first, limit);
      moment := files;
      EvolvesSame(files);
      if r.Some? {
        var same := Recheck(r.value, second);
        if same { UnmovedShowsIff(r.value, moment); } else { r := None; }
      }
    }

    /** Read what the plan asks for, without any probe; it may give up at any point. */
    method Build(plan: Plan, o: Others, limit: nat, ghost known: seq<Entry>) returns (r: Option<seq<Look>>)
      requires AllTrack(known, files)
      modifies this
      ensures Evolves(old(files), files) && AllTrack(known, files)
      ensures r.Some? ==> Complete(plan, r.value) && AllAgree(r.value, known, files)
      ensures Still(o) ==> files == old(files) && (r.Some? ==> ReadOf(plan, files, r.value))
      ensures Still(o) ==> (r.Some? <==> exists all :: ReadOf(plan, files, all) && |all| <= limit)
    {
      var looks: seq<Look> := [];
      EvolvesSame(files);
      while plan(looks).Some?
        invariant Still(o) ==> files == old(files) && Shows(files, looks)
        invariant Evolves(old(files), files) && AllTrack(known, files)
        invariant Follows(plan, looks) && AllAgree(looks, known, files) && |looks| <= limit
        decreases limit - |looks|
      {
        hide Evolves, Follows, AllTrack, Agrees, Still, Shows;
        if |looks| == limit {
          if Still(o) { ReadsOn(plan, files, looks, limit); }
          return None;
        }
        var path := plan(looks).value;
        label Start:
        Meanwhile(o.edits(2 * |looks|));
        StillAt(o, 2 * |looks|);
        StillAt(o, 2 * |looks| + 1);
        TracksLater(known, old@Start(files), files);
        EvolvesTwice(old(files), old@Start(files), files);
        label Open:
        var content := ReadPath(path, o, 2 * |looks| + 1, known);
        EvolvesTwice(old(files), old@Open(files), files);
        EvolvesTwice(old@Start(files), old@Open(files), files);
        AgreesLater(looks, known, old@Start(files), files);
        FollowsNext(plan, looks, Look(path, content));
        if Still(o) { ShowsNext(files, looks, Look(path, content)); }
        looks := looks + [Look(path, content)];
      }
      r := Some(looks);
    }
  }

  lemma VersionsGrow(a: FileMap, b: FileMap, c: FileMap, d: FileMap, path: string)
    requires Evolves(a, b) && Evolves(b, c) && Evolves(c, d)
    ensures At(a, path).version <= At(b, path).version <= At(c, path).version <= At(d, path).version
    ensures At(a, path).version == At(d, path).version ==> At(a, path) == At(b, path) == At(c, path) == At(d, path)
  {
  }

  function Paths(entries: seq<Entry>): set<string> { set n | 0 <= n < |entries| :: entries[n].path }

  lemma FewPaths(looks: seq<Look>, notes: Notes)
    requires forall n :: 0 <= n < |looks| ==> looks[n].path in notes
    ensures |Paths(EntriesOf(looks, notes))| <= |notes|
  {
    assert Paths(EntriesOf(looks, notes)) <= notes.Keys;
    FewerElements(Paths(EntriesOf(looks, notes)), notes.Keys);
  }

  lemma {:induction false} FewerElements(a: set<string>, b: set<string>)
    requires a <= b
    ensures |a| <= |b|
  {
    if a != {} {
      var x :| x in a;
      FewerElements(a - {x}, b - {x});
    }
  }

  // ---------- Limits ----------

  function PathsOf(looks: seq<Look>): set<string> { set n | 0 <= n < |looks| :: looks[n].path }

  /** How many files the looks hash, and how many bytes. */
  function Hashes(order: Ordering, looks: seq<Look>): nat {
    if looks == [] then 0
    else
      var n := |looks| - 1;
      Hashes(order, looks[..n]) + if order(looks[..n]).HashBetween? then 1 else 0
  }

  function HashedBytes(order: Ordering, looks: seq<Look>, m: FileMap): nat {
    if looks == [] then 0
    else
      var n := |looks| - 1;
      HashedBytes(order, looks[..n], m) + if order(looks[..n]).HashBetween? then At(m, looks[n].path).size else 0
  }

  /** Only regular files are hashed. */
  ghost predicate HashesFiles(order: Ordering, looks: seq<Look>, m: FileMap) {
    forall n :: 0 <= n < |looks| && order(looks[..n]).HashBetween? ==> At(m, looks[n].path).regular
  }

  /** The reading fits all limits: 20000 files and 512 MiB to hash, 50000 paths to probe, and the caller's own. */
  ghost predicate Affordable(plan: Plan, order: Ordering, m: FileMap, limit: nat) {
    exists looks :: ReadOf(plan, m, looks) && WithinLimits(order, looks, m, limit)
  }

  ghost predicate WithinLimits(order: Ordering, looks: seq<Look>, m: FileMap, limit: nat) {
    && |looks| <= limit && HashesFiles(order, looks, m) && Hashes(order, looks) <= 20_000
    && HashedBytes(order, looks, m) <= 536_870_912 && |PathsOf(looks)| <= 50_000
  }

  /** What has been hashed so far. */
  ghost predicate Spends(order: Ordering, looks: seq<Look>, m: FileMap, count: nat, bytes: nat) {
    && count == Hashes(order, looks) && bytes == HashedBytes(order, looks, m) && HashesFiles(order, looks, m)
    && count <= MAX_FILES && bytes <= MAX_BYTES
  }

  /** Every path noted is at its version. */
  ghost predicate NotedAsIs(notes: Notes, m: FileMap) { forall p :: p in notes ==> notes[p].version == At(m, p).version }

  lemma NotedStays(notes: Notes, m: FileMap, path: string)
    requires NotedAsIs(notes, m)
    ensures NotedAsIs(Noted(notes, m, path), m)
  {
  }

  lemma NoneMoved(looks: seq<Look>, notes: Notes, m: FileMap)
    requires NotedAsIs(notes, m) && notes.Keys == PathsOf(looks)
    ensures Unmoved(EntriesOf(looks, notes), |looks|, m)
  {
    var entries := EntriesOf(looks, notes);
    forall n | 0 <= n < |looks| ensures At(m, entries[n].path).version == entries[n].version { assert looks[n].path in PathsOf(looks); }
  }

  lemma NothingSpent(order: Ordering, m: FileMap)
    ensures Spends(order, [], m, 0, 0)
  {
  }

  lemma MovedPath(entries: seq<Entry>, i: nat, m: FileMap)
    requires i < |entries| && At(m, entries[i].path).version != entries[i].version
    ensures !Unmoved(entries, |entries|, m)
  {
  }

  lemma ReadsOn(plan: Plan, m: FileMap, looks: seq<Look>, limit: nat)
    requires Follows(plan, looks) && Shows(m, looks) && plan(looks).Some? && |looks| == limit
    ensures forall all :: ReadOf(plan, m, all) ==> |all| > limit
  {
    forall all | ReadOf(plan, m, all) ensures |all| > limit { SameStart(plan, m, looks, all); }
  }

  lemma StillAt(o: Others, tick: nat)
    ensures Still(o) ==> o.edits(tick) == []
  {
  }

  lemma PathsNext(looks: seq<Look>, look: Look)
    ensures PathsOf(looks + [look]) == PathsOf(looks) + {look.path}
  {
    var more := looks + [look];
    assert more[|looks|] == look && forall n :: 0 <= n < |looks| ==> more[n] == looks[n];
    assert forall n :: 0 <= n < |looks| ==> looks[n].path in PathsOf(more);
    assert look.path in PathsOf(more);
  }

  lemma NotedKeys(notes: Notes, a: FileMap, b: FileMap, path: string)
    ensures Noted(notes, a, path).Keys == notes.Keys + {path} == Noted(notes, b, path).Keys
  {
  }

  lemma ShowsNext(m: FileMap, looks: seq<Look>, look: Look)
    requires Shows(m, looks) && look.content == At(m, look.path).content
    ensures Shows(m, looks + [look])
  {
  }

  lemma SpendsNext(order: Ordering, looks: seq<Look>, look: Look, m: FileMap, count: nat, bytes: nat)
    requires
      if order(looks).HashBetween? then
        && At(m, look.path).regular && count <= MAX_FILES && bytes <= MAX_BYTES && count >= 1 && bytes >= At(m, look.path).size
        && Spends(order, looks, m, count - 1, bytes - At(m, look.path).size)
      else Spends(order, looks, m, count, bytes)
    ensures Spends(order, looks + [look], m, count, bytes)
  {
    var more := looks + [look];
    assert more[..|looks|] == looks;
    assert forall n :: 0 <= n < |looks| ==> more[..n] == looks[..n];
  }

  /** Any reading of these files begins like this one, and goes on while the plan does. */
  lemma SameStart(plan: Plan, m: FileMap, looks: seq<Look>, all: seq<Look>)
    requires Follows(plan, looks) && Shows(m, looks) && ReadOf(plan, m, all)
    ensures |looks| <= |all| && all[..|looks|] == looks && (plan(looks).Some? ==> |looks| < |all| && plan(looks) == Some(all[|looks|].path))
    ensures plan(looks).None? ==> all == looks
  {
    var n := if |looks| < |all| then |looks| else |all|;
    SamePrefix(plan, m, looks, all, n);
    assert looks[..|looks|] == looks && all[..|all|] == all;
    if n == |all| { assert plan(looks[..n]).None?; }
  }

  lemma {:induction false} HashesGrow(order: Ordering, looks: seq<Look>, n: nat, m: FileMap)
    requires n <= |looks|
    ensures Hashes(order, looks[..n]) <= Hashes(order, looks) && HashedBytes(order, looks[..n], m) <= HashedBytes(order, looks, m)
    decreases |looks|
  {
    if n < |looks| {
      assert looks[..|looks| - 1][..n] == looks[..n];
      HashesGrow(order, looks[..|looks| - 1], n, m);
    } else {
      assert looks[..n] == looks;
    }
  }

  lemma TooLong(plan: Plan, order: Ordering, m: FileMap, looks: seq<Look>, limit: nat)
    requires Follows(plan, looks) && Shows(m, looks) && plan(looks).Some? && |looks| == limit
    ensures !Affordable(plan, order, m, limit)
  {
    forall all | ReadOf(plan, m, all) ensures !WithinLimits(order, all, m, limit) { SameStart(plan, m, looks, all); }
  }

  lemma TooMuch(plan: Plan, order: Ordering, m: FileMap, looks: seq<Look>, path: string, limit: nat, count: nat, bytes: nat)
    requires Follows(plan, looks) && Shows(m, looks) && plan(looks) == Some(path) && order(looks).HashBetween?
    requires count >= 1 && bytes >= At(m, path).size && Spends(order, looks, m, count - 1, bytes - At(m, path).size)
    requires !At(m, path).regular || count > MAX_FILES || bytes > MAX_BYTES
    ensures !Affordable(plan, order, m, limit)
  {
    forall all | ReadOf(plan, m, all) ensures !WithinLimits(order, all, m, limit) {
      SameStart(plan, m, looks, all);
      var n := |looks| + 1;
      HashesGrow(order, all, n, m);
      assert all[..n][..n - 1] == looks;
    }
  }

  lemma TooMany(plan: Plan, order: Ordering, m: FileMap, looks: seq<Look>, limit: nat)
    requires Follows(plan, looks) && Shows(m, looks) && plan(looks).None? && |PathsOf(looks)| > MAX_PATHS
    ensures !Affordable(plan, order, m, limit)
  {
    forall all | ReadOf(plan, m, all) ensures !WithinLimits(order, all, m, limit) { SameStart(plan, m, looks, all); }
  }

  lemma Affords(plan: Plan, order: Ordering, m: FileMap, looks: seq<Look>, limit: nat, count: nat, bytes: nat)
    requires Follows(plan, looks) && Shows(m, looks) && plan(looks).None? && |PathsOf(looks)| <= MAX_PATHS && |looks| <= limit
    requires Spends(order, looks, m, count, bytes)
    ensures Affordable(plan, order, m, limit)
  {
    assert ReadOf(plan, m, looks) && WithinLimits(order, looks, m, limit);
  }

  /** In the end the noted paths are the ones looked at. */
  lemma NotedPaths(plan: Plan, order: Ordering, looks: seq<Look>, notes: Notes)
    requires ProbesAll(plan, order) && Follows(plan, looks) && plan(looks).None? && NotedSoFar(order, looks, notes, None)
    requires notes.Keys <= PathsOf(looks)
    ensures notes.Keys == PathsOf(looks) && |notes| == |PathsOf(looks)|
  {
    forall path | path in PathsOf(looks) ensures path in notes {
      var n :| 0 <= n < |looks| && looks[n].path == path;
      assert Probed(order, looks, looks[n].path);
    }
  }
}
