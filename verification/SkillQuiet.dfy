/**
 * When what the skill-registry cache returns is current: as long as nobody edits a directory, or the marker of the active
 * organisation, after an observation has begun to read it and before it probes it for the first time. An edit in that window
 * goes unnoticed, as the last section shows.
 */
module SkillQuiet {
  import opened Common
  import opened SkillFiles
  import opened SkillCache

  /** An observation has begun to read the path and has not probed it yet. */
  ghost predicate Unguarded(pc: Pc, path: string) {
    pc.Observing? && path !in pc.notes && (HasPath(pc.looks, path) || (pc.doing.Reading? && pc.doing.open.path == path))
  }

  ghost predicate Quiet(s: State, e: Event) { e.Edit? ==> forall id :: id in s.calls ==> !Unguarded(s.calls[id], e.edit.path) }

  ghost predicate QuietRun(k: Sources, s: State, events: seq<Event>, i: nat)
    requires i <= |events|
  {
    forall j :: 0 <= j < i ==> Quiet(After(k, s, events, j), events[j])
  }

  // ---------- Quiet runs are settled ----------

  /** What was read of the path is what it holds, as long as it has the version noted; without a note, it is what it holds. */
  predicate LookTracks(look: Look, notes: Notes, m: FileMap) {
    (look.path in notes ==> notes[look.path].version == At(m, look.path).version) ==> look.content == At(m, look.path).content
  }

  ghost predicate LooksTrack(looks: seq<Look>, notes: Notes, m: FileMap) {
    forall n :: 0 <= n < |looks| ==> LookTracks(looks[n], notes, m)
  }

  /** A read of a path that is not noted has seen no edit yet; one of a noted path was opened after the note. */
  predicate OpenTracks(o: Opening, notes: Notes, m: FileMap) {
    o.version <= At(m, o.path).version
    && if o.path in notes then notes[o.path].version <= o.version else o.version == At(m, o.path).version
  }

  /** As long as a path has the version noted, it holds what was read of it. */
  predicate EntryReads(e: Entry, m: FileMap) { e.version == At(m, e.path).version ==> e.content == At(m, e.path).content }

  ghost predicate EntriesRead(entries: seq<Entry>, m: FileMap) { forall n :: 0 <= n < |entries| ==> EntryReads(entries[n], m) }

  ghost predicate PcSettled(m: FileMap, pc: Pc) {
    match pc
    case Probing(_, purpose, entries, _, began) =>
      (purpose.Fresh? ==> EntriesRead(entries, began)) && (purpose.Final? ==> Settled(entries))
    case Observing(_, _, _, looks, notes, doing) =>
      LooksTrack(looks, notes, m) && (doing.Reading? ==> OpenTracks(doing.open, notes, m))
    case Fetching(_, _, entries, _) => Settled(entries)
    case Scanning(_, _, entries, _) => Settled(entries)
    case Returned(_, _, _, settled) => settled
    case _ => true
  }

  ghost predicate AllSettled(s: State) {
    && (s.cache.Some? ==> s.cache.value.settled)
    && forall id :: id in s.calls ==> PcSettled(s.outside.files, s.calls[id])
  }

  lemma EditTracks(looks: seq<Look>, notes: Notes, m: FileMap, edit: FileEdit)
    requires LooksTrack(looks, notes, m) && NotesTrack(notes, m) && (edit.path in notes || !HasPath(looks, edit.path))
    ensures LooksTrack(looks, notes, Edited(m, edit))
  {
    forall n | 0 <= n < |looks| ensures LookTracks(looks[n], notes, Edited(m, edit)) {
      assert LookTracks(looks[n], notes, m);
      if looks[n].path == edit.path { assert NoteTracks(edit.path, notes[edit.path], m); }
    }
  }

  lemma EditSettles(k: Sources, s: State, edit: FileEdit)
    requires Inv(k, s) && AllSettled(s) && Quiet(s, Edit(edit))
    ensures AllSettled(Step(k, s, Edit(edit)))
  {
    hide CacheOk, LocksOk;
    var t := Step(k, s, Edit(edit));
    forall id | id in t.calls ensures PcSettled(t.outside.files, t.calls[id]) {
      assert PcOk(k, s, s.calls[id]) && PcSettled(s.outside.files, s.calls[id]) && !Unguarded(s.calls[id], edit.path);
      hide CallsOk, AllSettled, Quiet, Follows, NotesTrack, NotedSoFar, LooksTrack, HasPath, EntriesRead, Settled;
      if s.calls[id].Observing? { EditTracks(s.calls[id].looks, s.calls[id].notes, s.outside.files, edit); }
    }
  }

  lemma NoteLooks(looks: seq<Look>, notes: Notes, m: FileMap, path: string)
    requires LooksTrack(looks, notes, m)
    ensures LooksTrack(looks, Noted(notes, m, path), m)
  {
    forall n | 0 <= n < |looks| ensures LookTracks(looks[n], Noted(notes, m, path), m) { assert LookTracks(looks[n], notes, m); }
  }

  lemma ReadLooks(looks: seq<Look>, notes: Notes, m: FileMap, o: Opening, torn: Content)
    requires LooksTrack(looks, notes, m) && OpenTracks(o, notes, m)
    ensures LooksTrack(looks + [Look(o.path, Read(m, o, torn))], notes, m)
  {
    var more := looks + [Look(o.path, Read(m, o, torn))];
    forall n | 0 <= n < |more| ensures LookTracks(more[n], notes, m) {
      if n < |looks| { assert LookTracks(looks[n], notes, m); }
    }
  }

  lemma OpenNow(m: FileMap, notes: Notes, path: string)
    requires NotesTrack(notes, m)
    ensures OpenTracks(Open(m, path), notes, m)
  {
    if path in notes { assert NoteTracks(path, notes[path], m); }
  }

  lemma EndReads(plan: Plan, order: Ordering, looks: seq<Look>, notes: Notes, m: FileMap)
    requires ProbesAll(plan, order) && Complete(plan, looks) && NotedSoFar(order, looks, notes, None) && NotesTrack(notes, m)
    requires LooksTrack(looks, notes, m)
    ensures EntriesRead(EntriesOf(looks, notes), m)
  {
    ObservationTracks(plan, order, looks, notes, m);
    var entries := EntriesOf(looks, notes);
    forall n | 0 <= n < |entries| ensures EntryReads(entries[n], m) { assert LookTracks(looks[n], notes, m); }
  }

  /** A second round that finds nothing moved settles what was read. */
  lemma UnmovedSettles(entries: seq<Entry>, m: FileMap)
    requires AllTrack(entries, m) && Unmoved(entries, |entries|, m) && EntriesRead(entries, m)
    ensures Settled(entries)
  {
    forall n | 0 <= n < |entries| ensures entries[n].content == entries[n].held {
      assert EntryReads(entries[n], m) && Tracks(entries[n], m);
    }
  }

  lemma ObserveSettles(k: Sources, s: State, id: nat, torn: Content)
    requires Faithful(k) && Inv(k, s) && id in s.calls && s.calls[id].Observing? && PcSettled(s.outside.files, s.calls[id])
    ensures PcSettled(s.outside.files, ObserveStep(k, s, id, s.calls[id], torn).calls[id])
  {
    var pc, m := s.calls[id], s.outside.files;
    assert PcOk(k, s, pc);
    hide CacheOk, LocksOk, CallsOk, NotesTrack, NotedSoFar, Follows, LooksTrack, EntriesRead, ProbesAll, Covers, Fingerprints, Read, At;
    var plan, order := k.observe(pc.job.configured), k.order(pc.job.configured);
    match pc.doing
    case Idle =>
      if plan(pc.looks).None? {
        EndsComplete(plan, pc.looks);
        EndReads(plan, order, pc.looks, pc.notes, m);
      } else {
        NoteLooks(pc.looks, pc.notes, m, plan(pc.looks).value);
        OpenNow(m, pc.notes, plan(pc.looks).value);
        NotedTracks(pc.notes, m, plan(pc.looks).value);
        OpenNow(m, Noted(pc.notes, m, plan(pc.looks).value), plan(pc.looks).value);
      }
    case Reading(o) => ReadLooks(pc.looks, pc.notes, m, o, torn);
    case Due(path) => NoteLooks(pc.looks, pc.notes, m, path);
  }

  /** A finished probe: a new snapshot is settled, and so is what the cache gets. */
  lemma SameSettles(k: Sources, s: State, id: nat)
    requires Inv(k, s) && id in s.calls && s.calls[id].Probing? && s.calls[id].next == |s.calls[id].entries|
    requires PcSettled(s.outside.files, s.calls[id]) && (s.cache.Some? ==> s.cache.value.settled)
    ensures
      var t := Same(k, s, id, s.calls[id]);
      PcSettled(s.outside.files, t.calls[id]) && (t.cache.Some? ==> t.cache.value.settled)
  {
    var pc := s.calls[id];
    assert PcOk(k, s, pc);
    hide CacheOk, LocksOk, CallsOk, Complete, Unmoved, AllTrack, Evolves, EntriesRead, Settled, AllAgree, AnswersOk;
    if pc.purpose.Fresh? { UnmovedSettles(pc.entries, pc.began); }
  }

  /** Nothing has been read yet. */
  lemma ChangedSettles(s: State, id: nat, pc: Pc)
    requires pc.Probing?
    ensures PcSettled(s.outside.files, Changed(s, id, pc).calls[id])
  {
    hide EntriesRead, Settled;
  }

  lemma ProceedSettles(k: Sources, s: State, id: nat, torn: Content)
    requires Faithful(k) && Inv(k, s) && AllSettled(s)
    ensures AllSettled(ProceedStep(k, s, id, torn))
  {
    if id in s.calls {
      assert PcSettled(s.outside.files, s.calls[id]);
      CallSettles(k, s, id, torn);
      OneCallMoves(k, s, id, torn);
      hide ProceedStep, PcSettled;
    }
  }

  /** The call that goes on, and the cache it may have filled. */
  lemma CallSettles(k: Sources, s: State, id: nat, torn: Content)
    requires Faithful(k) && Inv(k, s) && id in s.calls
    requires PcSettled(s.outside.files, s.calls[id]) && (s.cache.Some? ==> s.cache.value.settled)
    ensures
      var t := ProceedStep(k, s, id, torn);
      id in t.calls && PcSettled(s.outside.files, t.calls[id]) && (t.cache.Some? ==> t.cache.value.settled)
  {
    var pc := s.calls[id];
    assert PcOk(k, s, pc);
    hide CacheOk, CallsOk, LocksOk, Faithful, EntriesRead, Settled, LooksTrack;
    if s.busy == Some(id) && pc.Observing? {
      hide PcOk;
      ObserveSettles(k, s, id, torn);
    } else if s.busy == Some(id) && pc.Probing? {
      ProbingNext(k, s, pc);
      hide PcOk;
      if pc.next >= |pc.entries| { SameSettles(k, s, id); }
      ChangedSettles(s, id, pc);
      hide Same, Changed;
    }
  }

  lemma ProbingNext(k: Sources, s: State, pc: Pc)
    requires PcOk(k, s, pc) && pc.Probing?
    ensures pc.next <= |pc.entries|
  {
  }

  lemma OneCallMoves(k: Sources, s: State, id: nat, torn: Content)
    requires id in s.calls
    ensures
      var t := ProceedStep(k, s, id, torn);
      id in t.calls && t.outside == s.outside && t.calls == s.calls[id := t.calls[id]]
  {
    hide Read, WorkStep, At;
  }

  /** Where a call is after any other event: it waits, starts to probe what is cached, starts to observe, builds, or is gone. */
  lemma StartsSettled(s: State, id: nat, refresh: bool, since: int)
    requires AllSettled(s)
    ensures AllSettled(Section(s, id, refresh, since)) && AllSettled(TryLock(s, id, refresh, since))
  {
    hide EntriesRead, Settled;
  }

  lemma OthersSettle(k: Sources, s: State, e: Event)
    requires AllSettled(s) && !e.Proceed? && !e.Edit? && !e.Call? && !e.Enter?
    ensures AllSettled(Step(k, s, e))
  {
    hide EntriesRead, Settled, LooksTrack;
  }

  lemma CallSettlesNow(s: State, id: nat, refresh: bool)
    requires AllSettled(s)
    ensures AllSettled(CallStep(s, id, refresh)) && AllSettled(EnterStep(s, id))
  {
    StartsSettled(s, id, refresh, s.outside.clock);
    if id in s.calls && s.calls[id].Waiting? {
      var t := s.(lock := Some(id));
      assert AllSettled(t);
      StartsSettled(t, id, s.calls[id].refresh, s.calls[id].since);
    }
    hide EntriesRead, Settled, LooksTrack, Section, TryLock;
  }

  lemma StepSettles(k: Sources, s: State, e: Event)
    requires Faithful(k) && Inv(k, s) && AllSettled(s) && Quiet(s, e)
    ensures AllSettled(Step(k, s, e))
  {
    hide Faithful, Inv, AllSettled, Quiet, CallStep, EnterStep, ProceedStep, RemoteStep, StartScan, FailStep;
    match e
    case Proceed(id, torn) => ProceedSettles(k, s, id, torn);
    case Edit(edit) => EditSettles(k, s, edit);
    case Call(id, refresh) => CallSettlesNow(s, id, refresh);
    case Enter(id) => CallSettlesNow(s, id, false);
    case _ => OthersSettle(k, s, e);
  }

  lemma {:induction false} RunSettles(k: Sources, s: State, events: seq<Event>, i: nat)
    requires Faithful(k) && Inv(k, s) && AllSettled(s) && i <= |events| && QuietRun(k, s, events, i)
    ensures AllSettled(After(k, s, events, i))
  {
    hide Faithful, Inv, Step, AllSettled, Quiet;
    if i > 0 {
      RunSettles(k, s, events, i - 1);
      EveryState(k, s, events, i - 1);
      StepSettles(k, After(k, s, events, i - 1), events[i - 1]);
    }
  }

  // ---------- What callers get ----------

  /** Whoever probes a finished snapshot again with success has the files of that moment, exactly if the snapshot is settled. */
  lemma DeliveredIff(k: Sources, s: State, events: seq<Event>, i: nat, id: nat)
    requires Faithful(k) && Inv(k, s) && i <= |events| && id in After(k, s, events, i).calls
    requires
      var pc := After(k, s, events, i).calls[id];
      pc.Probing? && pc.purpose.Fresh? && pc.next == |pc.entries|
    ensures
      var pc := After(k, s, events, i).calls[id];
      Observed(k, pc.job.configured, pc.began, LooksOf(pc.entries)) <==> Settled(pc.entries)
  {
    hide Faithful, After, CacheOk, LocksOk;
    EveryState(k, s, events, i);
    var t := After(k, s, events, i);
    assert PcOk(k, t, t.calls[id]);
    hide CallsOk, Shows, Unmoved, AllTrack, Settled;
    UnmovedShowsIff(t.calls[id].entries, t.calls[id].began);
  }

  /**
   * Under any interleaving in which nobody edits an unguarded path, what a call returns is what a build reads from the files of one
   * single moment between the call and its return.
   */
  lemma QuietIsCurrent(k: Sources, s: State, events: seq<Event>, i: nat, id: nat) returns (n: nat)
    requires Faithful(k) && Inv(k, s) && s.calls == map[] && (s.cache.Some? ==> s.cache.value.settled)
    requires i < |events| && Returns(k, After(k, s, events, i), events[i], id) && QuietRun(k, s, events, i + 1)
    ensures n <= i
    ensures
      var t, o := After(k, s, events, i + 1), After(k, s, events, n).outside;
      var pc := t.calls[id];
      && pc.job.since <= o.clock
      && Built(k, o.config, o.files, pc.registry.looks) && pc.registry.config == o.config == t.outside.config
  {
    hide Faithful, Inv, Step, Built, Quiet;
    AfterNext(k, s, events, i);
    RunSettles(k, s, events, i + 1);
    hide After;
    var t := After(k, s, events, i + 1);
    assert PcSettled(t.outside.files, t.calls[id]);
    n := ReturnedIsCurrent(k, s, events, i, id);
  }

  // ---------- A reading program observed by itself ----------

  function ContentsOf(looks: seq<Look>): seq<nat> { seq(|looks|, n requires 0 <= n < |looks| => looks[n].content) }

  lemma {:induction false} SameContents(plan: Plan, a: seq<Look>, b: seq<Look>, n: nat)
    requires Follows(plan, a) && Follows(plan, b) && ContentsOf(a) == ContentsOf(b) && n <= |a| == |b|
    ensures a[..n] == b[..n]
  {
    if n > 0 {
      SameContents(plan, a, b, n - 1);
      assert a[n - 1].content == ContentsOf(a)[n - 1] == ContentsOf(b)[n - 1] == b[n - 1].content;
      assert plan(a[..n - 1]) == Some(a[n - 1].path) && plan(b[..n - 1]) == Some(b[n - 1].path);
      assert a[..n] == a[..n - 1] + [a[n - 1]] && b[..n] == b[..n - 1] + [b[n - 1]];
    }
  }

  lemma NextIsSeen(plan: Plan, m: FileMap, s: seq<Look>, b: seq<Look>)
    requires ReadOf(plan, m, s) && Follows(plan, b) && Shows(m, b) && plan(b).Some?
    ensures HasPath(s, plan(b).value)
  {
    var n := if |b| < |s| then |b| else |s|;
    SamePrefix(plan, m, s, b, n);
    assert s[..|s|] == s && b[..|b|] == b;
    if |b| < |s| { assert plan(s[..|b|]) == Some(s[|b|].path); }
  }

  /** The assumptions have an instance for every program: observe what the build reads, and take all contents for the fingerprint. */
  lemma SelfFaithful(plan: Configuration -> Plan, order: Configuration -> Ordering, remotes: Configuration -> nat)
    requires forall c :: ProbesAll(plan(c), order(c))
    ensures Faithful(Sources(plan, order, plan, ContentsOf, remotes))
  {
    hide Complete, Shows, ProbesAll, Follows;
    var k := Sources(plan, order, plan, ContentsOf, remotes);
    forall c, m, s, b | Observed(k, c, m, s) && Partial(k, c, m, b) && k.build(c)(b).Some? ensures HasPath(s, k.build(c)(b).value) {
      NextIsSeen(plan(c), m, s, b);
    }
    forall c, m, n, s, t, b
      | Observed(k, c, m, s) && Observed(k, c, n, t) && k.fingerprint(s) == k.fingerprint(t) && Built(k, c, m, b)
      ensures Built(k, c, n, b)
    {
      ReadUnique(plan(c), m, b, s);
      SameComplete(plan(c), s, t);
    }
  }

  lemma SameComplete(plan: Plan, a: seq<Look>, b: seq<Look>)
    requires Complete(plan, a) && Complete(plan, b) && ContentsOf(a) == ContentsOf(b)
    ensures a == b
  {
    assert |ContentsOf(a)| == |ContentsOf(b)|;
    SameContents(plan, a, b, |a|);
    assert a[..|a|] == a && b[..|b|] == b;
  }

  // ---------- An edit between a listing and the first probe ----------

  /** One directory whose content tells whether it holds a skill, and that skill. */
  const ONE_SKILL := Sources(c => SkillPlan, c => SkillOrder, c => SkillPlan, ContentsOf, c => 0)

  function SkillPlan(looks: seq<Look>): Option<string> {
    if looks == [] then Some("cat") else if |looks| == 1 && looks[0].content > 0 then Some("cat/skill") else None
  }

  function SkillOrder(looks: seq<Look>): Order { if looks == [] then ListFirst else HashBetween }

  lemma OneSkillFaithful()
    ensures Faithful(ONE_SKILL)
  {
    forall looks: seq<Look>, n | Complete(SkillPlan, looks) && 0 <= n < |looks| ensures Probed(SkillOrder, looks, looks[n].path) {
      assert !SkillOrder(looks[..n]).ReadOnly?;
    }
    SelfFaithful(c => SkillPlan, c => SkillOrder, c => 0);
  }

  /**
   * The directory is listed while it is empty; a skill is added before the directory is probed. A registry with the skill is built
   * and cached. Then the skill is edited, which moves no probed path, and a second call comes.
   */
  const MISSED :=
    [Call(1, false), Proceed(1, 0), Proceed(1, 0), Edit(FileEdit("cat", false, 0, 1)), Edit(FileEdit("cat/skill", true, 1, 5)),
     Proceed(1, 0), Proceed(1, 0), Proceed(1, 0), Proceed(1, 0), Scan(1), Proceed(1, 0), Proceed(1, 0), Proceed(1, 0), Proceed(1, 0),
     Proceed(1, 0), Proceed(1, 0), Proceed(1, 0), Edit(FileEdit("cat/skill", true, 1, 6)), Call(2, false), Proceed(2, 0), Proceed(2, 0)]

  const EMPTY: FileMap := map["cat" := File(1, false, 0, 0)]
  const ADDED: FileMap := map["cat" := File(2, false, 0, 1), "cat/skill" := File(1, true, 1, 5)]
  const CHANGED: FileMap := map["cat" := File(2, false, 0, 1), "cat/skill" := File(2, true, 1, 6)]

  function MissedAt(i: nat): State
    requires i <= |MISSED|
  {
    After(ONE_SKILL, State(Outside(0, EMPTY, 0), None, None, None, map[]), MISSED, i)
  }

  lemma MissedNext(i: nat)
    requires i < |MISSED|
    ensures MissedAt(i + 1) == Step(ONE_SKILL, MissedAt(i), MISSED[i])
  {
    hide Step;
  }

  const SEEN: seq<Look> := [Look("cat", 0)]
  const ENTRIES: seq<Entry> := [Entry("cat", 0, 2, 1)]
  const READ: seq<Look> := [Look("cat", 1), Look("cat/skill", 5)]
  const ASKED := Job(false, 0, 0, 0, 0)
  const BUILDING := Job(false, 0, 0, 0, 1)

  /** One running or suspended first call. */
  function First(m: FileMap, busy: bool, pc: Pc): State {
    State(Outside(0, m, 0), None, Some(1), if busy then Some(1) else None, map[1 := pc])
  }

  lemma MissedStart()
    ensures MissedAt(0) == State(Outside(0, EMPTY, 0), None, None, None, map[])
  {
  }

  lemma MissedLists()
    ensures MissedAt(3) == First(EMPTY, true, Observing(ASKED, false, 0, SEEN, map[], Due("cat")))
  {
    hide MissedAt;
    MissedStart();
    MissedNext(0);
    assert MissedAt(1) == First(EMPTY, true, Observing(ASKED, false, 0, [], map[], Idle));
    MissedNext(1);
    assert MissedAt(2) == First(EMPTY, true, Observing(ASKED, false, 0, [], map[], Reading(Opening("cat", 1))));
    MissedNext(2);
    assert [] + [Look("cat", 0)] == SEEN;
  }

  const NOTED: Notes := map["cat" := Note(2, 1)]

  lemma MissedEdits()
    ensures MissedAt(5) == First(ADDED, true, Observing(ASKED, false, 0, SEEN, map[], Due("cat")))
  {
    MissedLists();
    hide MissedAt;
    MissedNext(3);
    MissedNext(4);
    assert MissedAt(5).outside.files == ADDED;
  }

  lemma MissedProbe()
    ensures MissedAt(7) == First(ADDED, true, Probing(ASKED, Fresh(false, 0), ENTRIES, 0, ADDED))
  {
    MissedEdits();
    hide MissedAt;
    MissedNext(5);
    assert MissedAt(6) == First(ADDED, true, Observing(ASKED, false, 0, SEEN, NOTED, Idle));
    MissedNext(6);
    assert EntriesOf(SEEN, NOTED) == ENTRIES;
  }

  lemma MissedSnapshot()
    ensures MissedAt(9) == First(ADDED, false, Fetching(BUILDING, 0, ENTRIES, Work([], [], 0, None)))
  {
    MissedProbe();
    hide MissedAt;
    MissedNext(7);
    assert MissedAt(8) == First(ADDED, true, Probing(ASKED, Fresh(false, 0), ENTRIES, 1, ADDED));
    MissedNext(8);
  }

  lemma MissedScans()
    ensures MissedAt(12) == First(ADDED, true, Scanning(BUILDING, 0, ENTRIES, Work([Look("cat", 1)], [], 0, None)))
  {
    MissedSnapshot();
    hide MissedAt;
    MissedNext(9);
    assert MissedAt(10) == First(ADDED, true, Scanning(BUILDING, 0, ENTRIES, Work([], [], 0, None)));
    MissedNext(10);
    assert MissedAt(11) == First(ADDED, true, Scanning(BUILDING, 0, ENTRIES, Work([], [], 0, Some(Opening("cat", 2)))));
    MissedNext(11);
    assert [] + [Look("cat", 1)] == [Look("cat", 1)];
  }

  lemma MissedBuild()
    ensures MissedAt(14) == First(ADDED, true, Scanning(BUILDING, 0, ENTRIES, Work(READ, [], 0, None)))
  {
    MissedScans();
    hide MissedAt;
    MissedNext(12);
    assert MissedAt(13) == First(ADDED, true, Scanning(BUILDING, 0, ENTRIES, Work([Look("cat", 1)], [], 0, Some(Opening("cat/skill", 1)))));
    MissedNext(13);
    assert [Look("cat", 1)] + [Look("cat/skill", 5)] == READ;
  }

  const KEPT := Cached(Registry(0, READ, [], 0, 0), 0, 0, ENTRIES, ADDED, false)

  lemma MissedFinal()
    ensures MissedAt(16) == First(ADDED, true, Probing(BUILDING, Final(0, Work(READ, [], 0, None)), ENTRIES, 1, ADDED))
  {
    MissedBuild();
    hide MissedAt;
    MissedNext(14);
    assert MissedAt(15) == First(ADDED, true, Probing(BUILDING, Final(0, Work(READ, [], 0, None)), ENTRIES, 0, ADDED));
    MissedNext(15);
  }

  lemma MissedCaches()
    ensures
      var t := MissedAt(17);
      t.outside == Outside(0, ADDED, 0) && t.cache == Some(KEPT) && t.lock.None? && t.busy.None? && t.calls.Keys == {1} && t.calls[1].Returned?
  {
    MissedFinal();
    hide MissedAt;
    MissedNext(16);
    assert !Settled(ENTRIES) by { assert ENTRIES[0].content != ENTRIES[0].held; }
  }

  /** The second call starts to probe the cached snapshot. */
  lemma MissedCall()
    ensures 2 !in MissedAt(18).calls && MissedAt(18).outside.files == CHANGED
    ensures
      var t := MissedAt(19);
      && t.outside == Outside(0, CHANGED, 0) && t.cache == Some(KEPT) && t.busy == Some(2) && t.lock.None?
      && 2 in t.calls && t.calls[2] == Probing(ASKED, Fast, ENTRIES, 0, CHANGED)
  {
    MissedCaches();
    hide MissedAt;
    MissedNext(17);
    assert MissedAt(18).outside.files == CHANGED;
    MissedNext(18);
  }

  /** It finds no probed path moved and returns what is cached. */
  lemma MissedHit()
    ensures 2 in MissedAt(21).calls && MissedAt(21).calls[2] == Returned(ASKED, KEPT.registry, CHANGED, false)
    ensures forall n: nat :: 18 <= n <= 21 ==> MissedAt(n).outside.files == CHANGED
  {
    MissedCall();
    hide MissedAt, First;
    MissedNext(19);
    assert MissedAt(20).calls[2] == Probing(ASKED, Fast, ENTRIES, 1, CHANGED) && MissedAt(20).busy == Some(2) && MissedAt(20).cache == Some(KEPT);
    MissedNext(20);
  }

  /** The second call, which begins at 18 and returns at 21, gets a registry that is the build of no moment between. */
  lemma MissedEdit()
    ensures Faithful(ONE_SKILL) && !Quiet(MissedAt(3), MISSED[3]) && 2 !in MissedAt(18).calls
    ensures 2 in MissedAt(21).calls && MissedAt(21).calls[2].Returned?
    ensures forall n: nat :: 18 <= n <= 21 ==> !Built(ONE_SKILL, 0, MissedAt(n).outside.files, MissedAt(21).calls[2].registry.looks)
  {
    hide MissedAt;
    OneSkillFaithful();
    MissedCall();
    MissedHit();
    MissedLists();
    hide Faithful;
    assert !Quiet(MissedAt(3), MISSED[3]) by { Unseen(MissedAt(3)); }
    assert !Shows(CHANGED, READ) by { assert At(CHANGED, READ[1].path).content != READ[1].content; }
    hide Shows, Complete;
  }

  lemma Unseen(s: State)
    requires s == First(EMPTY, true, Observing(ASKED, false, 0, SEEN, map[], Due("cat")))
    ensures !Quiet(s, MISSED[3])
  {
    assert SEEN[0].path == "cat";
    assert Unguarded(s.calls[1], "cat");
  }
}
