/**
 * Skill files that other processes edit, and programs that read them one path at a time.
 *
 * A path is a regular file or a directory; its content stands for its bytes or its listing, and every change of it, removal
 * included, raises its version. A probe sees the version, a read sees the content.
 */
module SkillFiles {
  import opened Common

  const MAX_FILES := 20_000
  const MAX_BYTES := 536_870_912
  const MAX_PATHS := 50_000

  type Content = nat

  datatype File = File(version: nat, regular: bool, size: nat, content: Content)

  type FileMap = map<string, File>

  /** A path that was never written is absent, which a probe can tell too. */
  function At(m: FileMap, path: string): File { if path in m then m[path] else File(0, false, 0, 0) }

  datatype FileEdit = FileEdit(path: string, regular: bool, size: nat, content: Content)

  function Edited(m: FileMap, e: FileEdit): FileMap {
    m[e.path := File(At(m, e.path).version + 1, e.regular, e.size, e.content)]
  }

  /** Versions only grow, and a path at an unchanged version is unchanged. */
  ghost predicate Evolves(a: FileMap, b: FileMap) {
    forall p: string :: At(a, p).version <= At(b, p).version && (At(a, p).version == At(b, p).version ==> At(a, p) == At(b, p))
  }

  lemma EvolvesSame(a: FileMap)
    ensures Evolves(a, a)
  {
  }

  lemma EvolvesTwice(a: FileMap, b: FileMap, c: FileMap)
    requires Evolves(a, b) && Evolves(b, c)
    ensures Evolves(a, c)
  {
  }

  lemma EvolvesEdit(a: FileMap, e: FileEdit)
    ensures Evolves(a, Edited(a, e))
  {
  }

  // ---------- Reading programs ----------

  datatype Look = Look(path: string, content: Content)

  /** Which path to look at next depends on what was found so far; None ends the reading. */
  type Plan = seq<Look> -> Option<string>

  ghost predicate Follows(plan: Plan, looks: seq<Look>) {
    forall n :: 0 <= n < |looks| ==> plan(looks[..n]) == Some(looks[n].path)
  }

  ghost predicate Complete(plan: Plan, looks: seq<Look>) { Follows(plan, looks) && plan(looks).None? }

  ghost predicate Shows(m: FileMap, looks: seq<Look>) {
    forall n :: 0 <= n < |looks| ==> At(m, looks[n].path).content == looks[n].content
  }

  /** Everything the plan reads, found in these files at one single moment. */
  ghost predicate ReadOf(plan: Plan, m: FileMap, looks: seq<Look>) { Complete(plan, looks) && Shows(m, looks) }

  lemma FollowsNext(plan: Plan, looks: seq<Look>, look: Look)
    requires Follows(plan, looks) && plan(looks) == Some(look.path)
    ensures Follows(plan, looks + [look])
  {
    var more := looks + [look];
    assert forall n :: 0 <= n < |looks| ==> more[..n] == looks[..n];
    assert more[..|looks|] == looks;
  }

  lemma {:induction false} SamePrefix(plan: Plan, m: FileMap, a: seq<Look>, b: seq<Look>, n: nat)
    requires Follows(plan, a) && Shows(m, a) && Follows(plan, b) && Shows(m, b) && n <= |a| && n <= |b|
    ensures a[..n] == b[..n]
  {
    if n > 0 {
      SamePrefix(plan, m, a, b, n - 1);
      assert a[n - 1] == b[n - 1];
      assert a[..n] == a[..n - 1] + [a[n - 1]] && b[..n] == b[..n - 1] + [b[n - 1]];
    }
  }

  /** A plan reads one thing from one state of the files. */
  lemma ReadUnique(plan: Plan, m: FileMap, a: seq<Look>, b: seq<Look>)
    requires ReadOf(plan, m, a) && ReadOf(plan, m, b)
    ensures a == b
  {
    var n := if |a| < |b| then |a| else |b|;
    SamePrefix(plan, m, a, b, n);
    assert a[..|a|] == a && b[..|b|] == b;
  }

  // ---------- Observations ----------

  /**
   * How an observation treats a path it looks at. The root of a source is probed and then listed; every other directory is listed
   * and then probed; a regular file is hashed between two probes; the marker of the active organisation is first read without any.
   */
  datatype Order = ProbeFirst | ListFirst | HashBetween | ReadOnly

  type Ordering = seq<Look> -> Order

  /** The first probe of a path: the version it saw, and what the path held at that moment. No decision depends on the latter. */
  datatype Note = Note(version: nat, held: Content)

  type Notes = map<string, Note>

  /** Only the first probe of a path is kept. */
  function Noted(notes: Notes, m: FileMap, path: string): Notes {
    if path in notes then notes else notes[path := Note(At(m, path).version, At(m, path).content)]
  }

  /** A path as a snapshot has it: what was read of it, and its first probe. */
  datatype Entry = Entry(path: string, content: Content, version: nat, held: Content)

  function LooksOf(entries: seq<Entry>): (looks: seq<Look>)
    ensures |looks| == |entries| && forall n :: 0 <= n < |looks| ==> looks[n] == Look(entries[n].path, entries[n].content)
  {
    seq(|entries|, n requires 0 <= n < |entries| => Look(entries[n].path, entries[n].content))
  }

  /** What every path held at its first probe. */
  function HeldOf(entries: seq<Entry>): (looks: seq<Look>)
    ensures |looks| == |entries| && forall n :: 0 <= n < |looks| ==> looks[n] == Look(entries[n].path, entries[n].held)
  {
    seq(|entries|, n requires 0 <= n < |entries| => Look(entries[n].path, entries[n].held))
  }

  /** Every path still held at its first probe what was read of it. */
  predicate Settled(entries: seq<Entry>) { forall n :: 0 <= n < |entries| ==> entries[n].content == entries[n].held }

  lemma SettledLooks(entries: seq<Entry>)
    ensures Settled(entries) <==> LooksOf(entries) == HeldOf(entries)
  {
    if LooksOf(entries) == HeldOf(entries) {
      forall n | 0 <= n < |entries| ensures entries[n].content == entries[n].held {
        assert LooksOf(entries)[n] == HeldOf(entries)[n];
      }
    }
  }

  function EntryOf(look: Look, notes: Notes): Entry {
    var note := if look.path in notes then notes[look.path] else Note(0, 0);
    Entry(look.path, look.content, note.version, note.held)
  }

  function EntriesOf(looks: seq<Look>, notes: Notes): (entries: seq<Entry>)
    ensures |entries| == |looks| && forall n :: 0 <= n < |looks| ==> entries[n] == EntryOf(looks[n], notes)
  {
    seq(|looks|, n requires 0 <= n < |looks| => EntryOf(looks[n], notes))
  }

  lemma EntriesLooks(looks: seq<Look>, notes: Notes)
    ensures LooksOf(EntriesOf(looks, notes)) == looks
  {
  }

  /** As long as the path has the version it was noted at, it holds what it held then. */
  predicate Tracks(e: Entry, m: FileMap) {
    e.version <= At(m, e.path).version && (e.version == At(m, e.path).version ==> e.held == At(m, e.path).content)
  }

  ghost predicate AllTrack(entries: seq<Entry>, m: FileMap) { forall n :: 0 <= n < |entries| ==> Tracks(entries[n], m) }

  lemma TracksLater(entries: seq<Entry>, a: FileMap, b: FileMap)
    requires AllTrack(entries, a) && Evolves(a, b)
    ensures AllTrack(entries, b)
  {
    forall n | 0 <= n < |entries| ensures Tracks(entries[n], b) { assert Tracks(entries[n], a); }
  }

  predicate NoteTracks(path: string, note: Note, m: FileMap) { Tracks(Entry(path, 0, note.version, note.held), m) }

  ghost predicate NotesTrack(notes: Notes, m: FileMap) { forall p :: p in notes ==> NoteTracks(p, notes[p], m) }

  lemma NotesLater(notes: Notes, a: FileMap, b: FileMap)
    requires NotesTrack(notes, a) && Evolves(a, b)
    ensures NotesTrack(notes, b)
  {
    forall p | p in notes ensures NoteTracks(p, notes[p], b) { assert NoteTracks(p, notes[p], a); }
  }

  lemma NotedTracks(notes: Notes, m: FileMap, path: string)
    requires NotesTrack(notes, m)
    ensures NotesTrack(Noted(notes, m, path), m)
  {
    var more := Noted(notes, m, path);
    forall p | p in more ensures NoteTracks(p, more[p], m) {
      if p in notes { assert NoteTracks(p, notes[p], m); }
    }
  }

  /** The first n looks have been noted, but for those that only read and the one whose probe is still due. */
  ghost predicate NotedSoFar(order: Ordering, looks: seq<Look>, notes: Notes, due: Option<string>) {
    forall n :: 0 <= n < |looks| && !order(looks[..n]).ReadOnly? ==> looks[n].path in notes || due == Some(looks[n].path)
  }

  lemma NotedNext(order: Ordering, looks: seq<Look>, notes: Notes, look: Look, due: Option<string>)
    requires NotedSoFar(order, looks, notes, None)
    requires order(looks).ReadOnly? || look.path in notes || due == Some(look.path)
    ensures NotedSoFar(order, looks + [look], notes, due)
  {
    var more := looks + [look];
    forall n | 0 <= n < |more| && !order(more[..n]).ReadOnly? ensures more[n].path in notes || due == Some(more[n].path) {
      if n < |looks| { assert more[..n] == looks[..n]; } else { assert more[..n] == looks; }
    }
  }

  lemma NotedMore(order: Ordering, looks: seq<Look>, notes: Notes, more: Notes, due: Option<string>)
    requires NotedSoFar(order, looks, notes, due) && notes.Keys <= more.Keys && (due.Some? ==> due.value in more)
    ensures NotedSoFar(order, looks, more, None)
  {
  }

  ghost predicate Probed(order: Ordering, looks: seq<Look>, path: string) {
    exists n :: 0 <= n < |looks| && looks[n].path == path && !order(looks[..n]).ReadOnly?
  }

  /** An observation that is complete has probed every path it looked at. */
  ghost predicate ProbesAll(plan: Plan, order: Ordering) {
    forall looks: seq<Look>, n :: Complete(plan, looks) && 0 <= n < |looks| ==> Probed(order, looks, looks[n].path)
  }

  lemma ObservationTracks(plan: Plan, order: Ordering, looks: seq<Look>, notes: Notes, m: FileMap)
    requires ProbesAll(plan, order) && Complete(plan, looks) && NotedSoFar(order, looks, notes, None) && NotesTrack(notes, m)
    ensures AllTrack(EntriesOf(looks, notes), m) && forall n :: 0 <= n < |looks| ==> looks[n].path in notes
  {
    var entries := EntriesOf(looks, notes);
    forall n | 0 <= n < |looks| ensures Tracks(entries[n], m) && looks[n].path in notes {
      assert Probed(order, looks, looks[n].path);
      assert NoteTracks(looks[n].path, notes[looks[n].path], m);
    }
  }

  /** The first n entries are at the versions noted. */
  ghost predicate Unmoved(entries: seq<Entry>, n: nat, m: FileMap) {
    forall j :: 0 <= j < n && j < |entries| ==> At(m, entries[j].path).version == entries[j].version
  }

  /** A path probed later at the version noted was at that version all along. */
  lemma UnmovedNext(entries: seq<Entry>, n: nat, began: FileMap, now: FileMap)
    requires n < |entries| && AllTrack(entries, began) && Evolves(began, now) && Unmoved(entries, n, began)
    requires At(now, entries[n].path).version == entries[n].version
    ensures Unmoved(entries, n + 1, began)
  {
    assert Tracks(entries[n], began);
  }

  lemma UnmovedShows(entries: seq<Entry>, m: FileMap)
    requires AllTrack(entries, m) && Unmoved(entries, |entries|, m)
    ensures Shows(m, HeldOf(entries))
  {
    forall n | 0 <= n < |entries| ensures At(m, HeldOf(entries)[n].path).content == HeldOf(entries)[n].content { assert Tracks(entries[n], m); }
  }

  /** Unmoved entries show the files of that moment exactly if each path still held at its first probe what was read of it. */
  lemma UnmovedShowsIff(entries: seq<Entry>, m: FileMap)
    requires AllTrack(entries, m) && Unmoved(entries, |entries|, m)
    ensures Shows(m, LooksOf(entries)) <==> Settled(entries)
  {
    UnmovedShows(entries, m);
    forall n | 0 <= n < |entries|
      ensures At(m, LooksOf(entries)[n].path).content == LooksOf(entries)[n].content <==> entries[n].content == entries[n].held
    {
      assert HeldOf(entries)[n].content == entries[n].held;
    }
  }

  /** What was read of a path that has not moved since its first probe is what it held then. */
  ghost predicate Agrees(look: Look, entries: seq<Entry>, m: FileMap) {
    forall n :: 0 <= n < |entries| && entries[n].path == look.path && At(m, look.path).version == entries[n].version ==>
      look.content == entries[n].held
  }

  ghost predicate AllAgree(looks: seq<Look>, entries: seq<Entry>, m: FileMap) {
    forall n :: 0 <= n < |looks| ==> Agrees(looks[n], entries, m)
  }

  lemma AgreesLater(looks: seq<Look>, entries: seq<Entry>, a: FileMap, b: FileMap)
    requires AllAgree(looks, entries, a) && AllTrack(entries, a) && Evolves(a, b)
    ensures AllAgree(looks, entries, b)
  {
    forall n | 0 <= n < |looks| ensures Agrees(looks[n], entries, b) {
      assert Agrees(looks[n], entries, a);
      forall j | 0 <= j < |entries| && entries[j].path == looks[n].path && At(b, looks[n].path).version == entries[j].version
        ensures looks[n].content == entries[j].held
      {
        assert Tracks(entries[j], a);
      }
    }
  }

  /** A read in progress: the path and its version when it was opened. */
  datatype Opening = Opening(path: string, version: nat)

  /** Reading takes time: a change meanwhile may leave any mixture of old and new. */
  function Read(m: FileMap, o: Opening, torn: Content): Content {
    if At(m, o.path).version == o.version then At(m, o.path).content else torn
  }

  ghost predicate OpenedAfter(o: Opening, entries: seq<Entry>, m: FileMap) {
    && o.version <= At(m, o.path).version
    && forall n :: 0 <= n < |entries| && entries[n].path == o.path ==> entries[n].version <= o.version
  }

  lemma ReadAgrees(m: FileMap, o: Opening, torn: Content, entries: seq<Entry>)
    requires AllTrack(entries, m) && OpenedAfter(o, entries, m)
    ensures Agrees(Look(o.path, Read(m, o, torn)), entries, m)
  {
    forall n | 0 <= n < |entries| && entries[n].path == o.path && At(m, o.path).version == entries[n].version
      ensures Read(m, o, torn) == entries[n].held
    {
      assert Tracks(entries[n], m);
    }
  }

  lemma OpenedNow(m: FileMap, path: string, entries: seq<Entry>)
    requires AllTrack(entries, m)
    ensures OpenedAfter(Opening(path, At(m, path).version), entries, m)
  {
    forall n | 0 <= n < |entries| && entries[n].path == path ensures entries[n].version <= At(m, path).version { assert Tracks(entries[n], m); }
  }

  lemma OpenedLater(o: Opening, entries: seq<Entry>, a: FileMap, b: FileMap)
    requires OpenedAfter(o, entries, a) && Evolves(a, b)
    ensures OpenedAfter(o, entries, b)
  {
    assert At(a, o.path).version <= At(b, o.path).version;
  }

  // ---------- What the registry reads and what a snapshot observes ----------

  type Configuration = nat

  /** A hash value, as its digits. */
  type Digest = seq<nat>

  /** The reading programs of one program version, by configuration, and the fingerprint of an observation. */
  datatype Sources = Sources(
    observe: Configuration -> Plan, order: Configuration -> Ordering, build: Configuration -> Plan, fingerprint: seq<Look> -> Digest,
    remotes: Configuration -> nat)

  ghost predicate Observed(k: Sources, c: Configuration, m: FileMap, s: seq<Look>) { ReadOf(k.observe(c), m, s) }

  ghost predicate Built(k: Sources, c: Configuration, m: FileMap, b: seq<Look>) { ReadOf(k.build(c), m, b) }

  ghost predicate Partial(k: Sources, c: Configuration, m: FileMap, b: seq<Look>) { Follows(k.build(c), b) && Shows(m, b) }

  ghost predicate HasPath(s: seq<Look>, path: string) { exists n :: 0 <= n < |s| && s[n].path == path }

  /** The snapshot observes every path that a build of the same files reads. */
  ghost predicate Covers(k: Sources) {
    forall c, m, s, b :: Observed(k, c, m, s) && Partial(k, c, m, b) && k.build(c)(b).Some? ==> HasPath(s, k.build(c)(b).value)
  }

  /** Equal fingerprints mean equal registries. */
  ghost predicate Fingerprints(k: Sources) {
    forall c, m, n, s, t, b ::
      Observed(k, c, m, s) && Observed(k, c, n, t) && k.fingerprint(s) == k.fingerprint(t) && Built(k, c, m, b) ==> Built(k, c, n, b)
  }

  ghost predicate Probes(k: Sources) { forall c :: ProbesAll(k.observe(c), k.order(c)) }

  ghost predicate Faithful(k: Sources) { Covers(k) && Fingerprints(k) && Probes(k) }

  /** The reads agree with the observation wherever both looked. */
  ghost predicate Matches(looks: seq<Look>, s: seq<Look>) {
    forall i, j :: 0 <= i < |looks| && 0 <= j < |s| && looks[i].path == s[j].path ==> looks[i].content == s[j].content
  }

  lemma {:induction false} PartialPrefix(k: Sources, c: Configuration, m: FileMap, s: seq<Look>, looks: seq<Look>, n: nat)
    requires Covers(k) && Observed(k, c, m, s) && Follows(k.build(c), looks) && Matches(looks, s) && n <= |looks|
    ensures Partial(k, c, m, looks[..n])
  {
    var b := looks[..n];
    forall j | 0 <= j < n ensures k.build(c)(b[..j]) == Some(b[j].path) { assert b[..j] == looks[..j]; }
    if n > 0 {
      PartialPrefix(k, c, m, s, looks, n - 1);
      var before := looks[..n - 1];
      assert k.build(c)(before) == Some(looks[n - 1].path);
      assert HasPath(s, looks[n - 1].path);
      var j :| 0 <= j < |s| && s[j].path == looks[n - 1].path;
      assert looks[n - 1].content == s[j].content == At(m, s[j].path).content;
      forall i | 0 <= i < n ensures At(m, b[i].path).content == b[i].content {
        if i < n - 1 { assert b[i] == before[i]; }
      }
    }
  }

  /** A build whose reads agree with an observation made at one moment is the build of that moment. */
  lemma BuildOfMoment(k: Sources, c: Configuration, m: FileMap, s: seq<Look>, looks: seq<Look>)
    requires Covers(k) && Observed(k, c, m, s) && Complete(k.build(c), looks) && Matches(looks, s)
    ensures Built(k, c, m, looks)
  {
    PartialPrefix(k, c, m, s, looks, |looks|);
    assert looks[..|looks|] == looks;
  }

  /** Reads that agree with an unmoved snapshot match what its paths held when they were probed. */
  lemma UnmovedMatches(looks: seq<Look>, entries: seq<Entry>, m: FileMap)
    requires AllAgree(looks, entries, m) && Unmoved(entries, |entries|, m)
    ensures Matches(looks, HeldOf(entries))
  {
    forall i, j | 0 <= i < |looks| && 0 <= j < |entries| && looks[i].path == HeldOf(entries)[j].path
      ensures looks[i].content == HeldOf(entries)[j].content
    {
      assert Agrees(looks[i], entries, m);
    }
  }
}
