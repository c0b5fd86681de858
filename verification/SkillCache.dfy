/**
 * The skill-registry cache as an event-loop state machine: callers that share one cache under one lock, while files,
 * configuration and time move on.
 *
 * A section that does not suspend is still many file operations, so other processes edit between any two of them; only other
 * coroutines of the server have to wait, which `busy` records. A build suspends while it waits for remote state. The fields
 * `began`, `moment`, `startedAt`, `builtAt` and `settled` note what happened; no decision depends on them.
 */
module SkillCache {
  import opened Common
  import opened SkillFiles

  const TTL := 60_000_000

  /** State fetched from a remote host, and when it arrived. */
  datatype Answer = Answer(value: nat, at: int)

  datatype Registry = Registry(config: Configuration, looks: seq<Look>, answers: seq<Answer>, startedAt: int, builtAt: int)

  /** Settled: so were the snapshot its build began with and every snapshot it was carried over to. */
  datatype Cached = Cached(
    registry: Registry, at: int, signature: Configuration, snapshot: seq<Entry>, moment: FileMap, settled: bool)

  datatype Outside = Outside(config: Configuration, files: FileMap, clock: int)

  /** One call: what was asked and when, the clock and signature it last compared, and the builds it has started. */
  datatype Job = Job(refresh: bool, since: int, checked: int, configured: Configuration, builds: nat)

  datatype Work = Work(looks: seq<Look>, answers: seq<Answer>, startedAt: int, open: Option<Opening>)

  /** What an observation is about to do: look at the next path, end a read, or probe a path that it has listed. */
  datatype Doing = Idle | Reading(open: Opening) | Due(path: string)

  /** Why a snapshot is probed. */
  datatype Purpose = Fast | Locked | Fresh(compare: bool, attempt: nat) | Final(attempt: nat, work: Work)

  /** Where a call is. */
  datatype Pc =
    | Waiting(refresh: bool, since: int)
    | Probing(job: Job, purpose: Purpose, entries: seq<Entry>, next: nat, began: FileMap)
    | Observing(job: Job, compare: bool, attempt: nat, looks: seq<Look>, notes: Notes, doing: Doing)
    | Fetching(job: Job, attempt: nat, entries: seq<Entry>, work: Work)
    | Scanning(job: Job, attempt: nat, entries: seq<Entry>, work: Work)
    | Returned(job: Job, registry: Registry, moment: FileMap, settled: bool)
    | Raised(builds: nat)

  datatype State = State(outside: Outside, cache: Option<Cached>, lock: Option<nat>, busy: Option<nat>, calls: map<nat, Pc>)

  datatype Event =
    | Call(id: nat, refresh: bool)
    | Enter(id: nat)
    | Proceed(id: nat, torn: Content)
    | Remote(id: nat, value: nat)
    | Scan(id: nat)
    | Fail(id: nat)
    | Edit(edit: FileEdit)
    | Reconfigure(config: Configuration)
    | Tick(elapsed: nat)

  // ---------- Entering ----------

  /** The cache entry may be considered at all: not a refresh, same configuration, not too old. */
  predicate Usable(s: State, refresh: bool) {
    !refresh && s.cache.Some? && s.cache.value.signature == s.outside.config && s.outside.clock - s.cache.value.at < TTL
  }

  /** Run on without suspending. */
  function Run(s: State, id: nat, pc: Pc): State { s.(busy := Some(id), calls := s.calls[id := pc]) }

  /** Suspend. */
  function Suspend(s: State, id: nat, pc: Pc): State { s.(busy := None, calls := s.calls[id := pc]) }

  /** Leave for good, with the lock if it was held. */
  function Leave(s: State, id: nat, pc: Pc): State {
    s.(busy := None, lock := if s.lock == Some(id) then None else s.lock, calls := s.calls[id := pc])
  }

  function Probe(s: State, id: nat, job: Job, purpose: Purpose, entries: seq<Entry>): State {
    Run(s, id, Probing(job, purpose, entries, 0, s.outside.files))
  }

  function Observe(s: State, id: nat, job: Job, compare: bool, attempt: nat): State {
    Run(s, id, Observing(job, compare, attempt, [], map[], Idle))
  }

  function Section(s: State, id: nat, refresh: bool, since: int): State {
    var job := Job(refresh, since, s.outside.clock, s.outside.config, 0);
    if Usable(s, refresh) then Probe(s, id, job, Locked, s.cache.value.snapshot)
    else Observe(s, id, job, false, 0)
  }

  function TryLock(s: State, id: nat, refresh: bool, since: int): State {
    if s.lock.None? then Section(s.(lock := Some(id)), id, refresh, since) else Suspend(s, id, Waiting(refresh, since))
  }

  function CallStep(s: State, id: nat, refresh: bool): State {
    if id in s.calls || s.busy.Some? then s
    else if Usable(s, refresh) then
      Probe(s, id, Job(refresh, s.outside.clock, s.outside.clock, s.outside.config, 0), Fast, s.cache.value.snapshot)
    else TryLock(s, id, refresh, s.outside.clock)
  }

  function EnterStep(s: State, id: nat): State {
    if id in s.calls && s.calls[id].Waiting? && s.busy.None? && s.lock.None? then
      Section(s.(lock := Some(id)), id, s.calls[id].refresh, s.calls[id].since)
    else s
  }

  // ---------- Probing ----------

  /** A build that did not fit is tried once more, from a new snapshot. */
  function Retry(s: State, id: nat, job: Job, attempt: nat): State {
    if attempt == 0 then Observe(s, id, job.(configured := s.outside.config), false, 1)
    else Leave(s, id, Raised(job.builds))
  }

  function Changed(s: State, id: nat, pc: Pc): State
    requires pc.Probing?
  {
    match pc.purpose
    case Fast => TryLock(s, id, pc.job.refresh, pc.job.since)
    case Locked => Observe(s, id, pc.job, true, 0)
    case Fresh(_, _) => Leave(s, id, Raised(pc.job.builds))
    case Final(attempt, _) => Retry(s, id, pc.job, attempt)
  }

  function Deliver(s: State, id: nat, job: Job, began: FileMap): State
    requires s.cache.Some?
  {
    Leave(s, id, Returned(job, s.cache.value.registry, began, s.cache.value.settled))
  }

  function CarriedOver(c: Cached, entries: seq<Entry>, moment: FileMap): Cached {
    c.(snapshot := entries, moment := moment, settled := c.settled && Settled(entries))
  }

  function Same(k: Sources, s: State, id: nat, pc: Pc): State
    requires pc.Probing?
  {
    match pc.purpose
    case Fast => if s.cache.Some? then Deliver(s, id, pc.job, pc.began) else s
    case Locked => if s.cache.Some? then Deliver(s, id, pc.job, pc.began) else s
    case Fresh(compare, attempt) =>
      if compare && s.cache.Some? && k.fingerprint(LooksOf(pc.entries)) == k.fingerprint(LooksOf(s.cache.value.snapshot)) then
        Deliver(s.(cache := Some(CarriedOver(s.cache.value, pc.entries, pc.began))), id, pc.job, pc.began)
      else
        Suspend(s, id, Fetching(pc.job.(builds := pc.job.builds + 1), attempt, pc.entries, Work([], [], s.outside.clock, None)))
    case Final(_, work) =>
      var now := s.outside.clock;
      var registry := Registry(s.outside.config, work.looks, work.answers, work.startedAt, now);
      Deliver(s.(cache := Some(Cached(registry, now, s.outside.config, pc.entries, pc.began, Settled(pc.entries)))), id, pc.job.(checked := now), pc.began)
  }

  function ProbeStep(k: Sources, s: State, id: nat, pc: Pc): State
    requires pc.Probing?
  {
    if pc.next >= |pc.entries| then Same(k, s, id, pc)
    else if At(s.outside.files, pc.entries[pc.next].path).version == pc.entries[pc.next].version then
      Run(s, id, pc.(next := pc.next + 1))
    else Changed(s, id, pc)
  }

  // ---------- Observing and building ----------

  function Open(m: FileMap, path: string): Opening { Opening(path, At(m, path).version) }

  /** One file operation of an observation; a hash that two probes do not agree on raises. */
  function ObserveStep(k: Sources, s: State, id: nat, pc: Pc, torn: Content): State
    requires pc.Observing?
  {
    var m := s.outside.files;
    var next, how := k.observe(pc.job.configured)(pc.looks), k.order(pc.job.configured)(pc.looks);
    match pc.doing
    case Idle =>
      if next.None? then Probe(s, id, pc.job, Fresh(pc.compare, pc.attempt), EntriesOf(pc.looks, pc.notes))
      else
        var notes := if how.ProbeFirst? || how.HashBetween? then Noted(pc.notes, m, next.value) else pc.notes;
        Run(s, id, pc.(notes := notes, doing := Reading(Open(m, next.value))))
    case Reading(o) =>
      if how.HashBetween? && At(m, o.path).version != o.version then Leave(s, id, Raised(pc.job.builds))
      else
        Run(s, id, pc.(looks := pc.looks + [Look(o.path, Read(m, o, torn))], doing := if how.ListFirst? then Due(o.path) else Idle))
    case Due(path) => Run(s, id, pc.(notes := Noted(pc.notes, m, path), doing := Idle))
  }

  /** One file operation of a build. */
  function WorkStep(plan: Plan, m: FileMap, w: Work, torn: Content): Work {
    if w.open.Some? then w.(looks := w.looks + [Look(w.open.value.path, Read(m, w.open.value, torn))], open := None)
    else if plan(w.looks).Some? then w.(open := Some(Open(m, plan(w.looks).value)))
    else w
  }

  function ScanStep(k: Sources, s: State, id: nat, pc: Pc, torn: Content): State
    requires pc.Scanning?
  {
    var plan := k.build(s.outside.config);
    if pc.work.open.Some? || plan(pc.work.looks).Some? then
      Run(s, id, Scanning(pc.job, pc.attempt, pc.entries, WorkStep(plan, s.outside.files, pc.work, torn)))
    else if s.outside.config != pc.job.configured then Retry(s, id, pc.job, pc.attempt)
    else Probe(s, id, pc.job, Final(pc.attempt, pc.work), pc.entries)
  }

  function FetchStep(k: Sources, s: State, id: nat, pc: Pc, torn: Content): State
    requires pc.Fetching?
  {
    Suspend(s, id, Fetching(pc.job, pc.attempt, pc.entries, WorkStep(k.build(pc.job.configured), s.outside.files, pc.work, torn)))
  }

  /** The next file operation of a call: of the one that is running, or of a suspended build that reads local state. */
  function ProceedStep(k: Sources, s: State, id: nat, torn: Content): State {
    if id !in s.calls then s
    else
      var pc := s.calls[id];
      if s.busy == Some(id) then
        match pc
        case Probing(_, _, _, _, _) => ProbeStep(k, s, id, pc)
        case Observing(_, _, _, _, _, _) => ObserveStep(k, s, id, pc, torn)
        case Scanning(_, _, _, _) => ScanStep(k, s, id, pc, torn)
        case _ => s
      else if s.busy.None? && pc.Fetching? then FetchStep(k, s, id, pc, torn)
      else s
  }

  function RemoteStep(s: State, id: nat, value: nat): State {
    if id in s.calls && s.calls[id].Fetching? && s.busy.None? then
      var pc := s.calls[id];
      Suspend(s, id, Fetching(pc.job, pc.attempt, pc.entries, pc.work.(answers := pc.work.answers + [Answer(value, s.outside.clock)])))
    else s
  }

  /** All remote state has arrived: go on reading, without suspending again. */
  function StartScan(k: Sources, s: State, id: nat): State {
    if id in s.calls && s.calls[id].Fetching? && s.busy.None? && |s.calls[id].work.answers| == k.remotes(s.calls[id].job.configured) then
      var pc := s.calls[id];
      Run(s, id, Scanning(pc.job, pc.attempt, pc.entries, pc.work))
    else s
  }

  /** Observing, fetching, building and waiting can raise. */
  function FailStep(s: State, id: nat): State {
    if id !in s.calls then s
    else
      var pc := s.calls[id];
      if s.busy == Some(id) then
        if pc.Observing? || pc.Scanning? || (pc.Probing? && pc.purpose.Fresh?) then Leave(s, id, Raised(pc.job.builds)) else s
      else if s.busy.None? && pc.Fetching? then Leave(s, id, Raised(pc.job.builds))
      else if s.busy.None? && pc.Waiting? then Leave(s, id, Raised(0))
      else s
  }

  function Step(k: Sources, s: State, e: Event): State {
    match e
    case Call(id, refresh) => CallStep(s, id, refresh)
    case Enter(id) => EnterStep(s, id)
    case Proceed(id, torn) => ProceedStep(k, s, id, torn)
    case Remote(id, value) => RemoteStep(s, id, value)
    case Scan(id) => StartScan(k, s, id)
    case Fail(id) => FailStep(s, id)
    case Edit(edit) => s.(outside := s.outside.(files := Edited(s.outside.files, edit)))
    case Reconfigure(config) => if s.busy.None? then s.(outside := s.outside.(config := config), cache := None) else s
    case Tick(elapsed) => s.(outside := s.outside.(clock := s.outside.clock + elapsed))
  }

  function After(k: Sources, s: State, events: seq<Event>, i: nat): State
    requires i <= |events|
  {
    if i == 0 then s else Step(k, After(k, s, events, i - 1), events[i - 1])
  }

  // ---------- The invariant ----------

  /** This observation is complete for the configuration, and can still be compared with the files. */
  ghost predicate SnapshotOk(k: Sources, c: Configuration, entries: seq<Entry>, m: FileMap) {
    Complete(k.observe(c), LooksOf(entries)) && AllTrack(entries, m)
  }

  /** Whatever files show this observation, a build of them is this registry. */
  ghost predicate Fits(k: Sources, r: Registry, entries: seq<Entry>) {
    forall m :: Shows(m, LooksOf(entries)) ==> Built(k, r.config, m, r.looks)
  }

  ghost predicate AnswersOk(answers: seq<Answer>, from: int, until: int) {
    forall n :: 0 <= n < |answers| ==> from <= answers[n].at <= until
  }

  ghost predicate CachedOk(k: Sources, c: Cached, o: Outside) {
    && c.registry.config == c.signature && c.registry.startedAt <= c.registry.builtAt == c.at <= o.clock
    && SnapshotOk(k, c.signature, c.snapshot, o.files) && AnswersOk(c.registry.answers, c.registry.startedAt, c.at)
    && (c.settled ==> Settled(c.snapshot) && Shows(c.moment, LooksOf(c.snapshot)) && Fits(k, c.registry, c.snapshot))
  }

  predicate JobOk(job: Job, o: Outside) { job.since <= job.checked <= o.clock && (job.builds > 0 ==> job.since <= o.clock) }

  /** What a build has read so far agrees with its snapshot; it follows the plan unless the configuration has moved. */
  ghost predicate WorkOk(k: Sources, job: Job, w: Work, entries: seq<Entry>, o: Outside, following: bool) {
    && job.since <= w.startedAt <= o.clock && AnswersOk(w.answers, w.startedAt, o.clock)
    && AllAgree(w.looks, entries, o.files)
    && (w.open.Some? ==> OpenedAfter(w.open.value, entries, o.files))
    && (following ==>
          Follows(k.build(job.configured), w.looks)
          && (w.open.Some? ==> k.build(job.configured)(w.looks) == Some(w.open.value.path)))
  }

  /** The cached registry was usable when this call compared the clock and the signature. */
  ghost predicate Considered(s: State, job: Job) {
    s.cache.Some? && s.cache.value.signature == job.configured == s.outside.config && job.checked - s.cache.value.at < TTL
    && !job.refresh && job.builds == 0
  }

  ghost predicate ProbingOk(k: Sources, s: State, pc: Pc)
    requires pc.Probing?
  {
    && Evolves(pc.began, s.outside.files) && SnapshotOk(k, pc.job.configured, pc.entries, pc.began)
    && pc.next <= |pc.entries| && Unmoved(pc.entries, pc.next, pc.began) && pc.job.configured == s.outside.config
    && match pc.purpose
       case Fast => Considered(s, pc.job) && pc.entries == s.cache.value.snapshot
       case Locked => Considered(s, pc.job) && pc.entries == s.cache.value.snapshot
       case Fresh(compare, attempt) => (compare ==> Considered(s, pc.job)) && attempt <= 1 && pc.job.builds == attempt
       case Final(attempt, w) =>
         && attempt <= 1 && pc.job.builds == attempt + 1
         && pc.job.since <= w.startedAt <= s.outside.clock && AnswersOk(w.answers, w.startedAt, s.outside.clock)
         && Complete(k.build(pc.job.configured), w.looks) && AllAgree(w.looks, pc.entries, pc.began)
  }

  function DueOf(doing: Doing): Option<string> { if doing.Due? then Some(doing.path) else None }

  ghost predicate ObservingOk(k: Sources, s: State, pc: Pc)
    requires pc.Observing?
  {
    var plan, order := k.observe(pc.job.configured), k.order(pc.job.configured);
    && pc.job.configured == s.outside.config && pc.attempt <= 1 && pc.job.builds == pc.attempt && (pc.compare ==> Considered(s, pc.job))
    && Follows(plan, pc.looks) && NotesTrack(pc.notes, s.outside.files) && NotedSoFar(order, pc.looks, pc.notes, DueOf(pc.doing))
    && (pc.doing.Reading? ==>
          && plan(pc.looks) == Some(pc.doing.open.path)
          && (order(pc.looks).ProbeFirst? || order(pc.looks).HashBetween? ==> pc.doing.open.path in pc.notes))
  }

  ghost predicate BuildingOk(k: Sources, s: State, pc: Pc)
    requires pc.Fetching? || pc.Scanning?
  {
    && SnapshotOk(k, pc.job.configured, pc.entries, s.outside.files) && pc.attempt <= 1 && pc.job.builds == pc.attempt + 1
    && WorkOk(k, pc.job, pc.work, pc.entries, s.outside, pc.Fetching? || s.outside.config == pc.job.configured)
  }

  /** A returned registry that is settled is the build of the files of one moment; its remote state is as fresh as the cache allows. */
  ghost predicate ReturnedOk(k: Sources, pc: Pc)
    requires pc.Returned?
  {
    && (pc.settled ==> Built(k, pc.registry.config, pc.moment, pc.registry.looks)) && pc.registry.config == pc.job.configured
    && AnswersOk(pc.registry.answers, pc.registry.startedAt, pc.registry.builtAt)
    && pc.job.checked - pc.registry.builtAt < TTL && pc.registry.startedAt <= pc.registry.builtAt
    && pc.job.builds <= 2 && (pc.job.refresh ==> 1 <= pc.job.builds && pc.job.since <= pc.registry.startedAt)
  }

  ghost predicate PcOk(k: Sources, s: State, pc: Pc) {
    match pc
    case Waiting(_, since) => since <= s.outside.clock
    case Probing(job, _, _, _, _) => JobOk(job, s.outside) && ProbingOk(k, s, pc)
    case Observing(job, _, _, _, _, _) => JobOk(job, s.outside) && ObservingOk(k, s, pc)
    case Fetching(job, _, _, _) => JobOk(job, s.outside) && BuildingOk(k, s, pc)
    case Scanning(job, _, _, _) => JobOk(job, s.outside) && BuildingOk(k, s, pc)
    case Returned(job, _, _, _) => JobOk(job, s.outside) && ReturnedOk(k, pc)
    case Raised(builds) => builds <= 2
  }

  predicate Runs(pc: Pc) { pc.Probing? || pc.Observing? || pc.Scanning? }

  /** Phases that hold the lock. */
  predicate Holds(pc: Pc) { (pc.Probing? && !pc.purpose.Fast?) || pc.Observing? || pc.Fetching? || pc.Scanning? }

  predicate LocksOk(s: State) {
    && (forall id :: id in s.calls && Runs(s.calls[id]) ==> s.busy == Some(id))
    && (s.busy.Some? ==> s.busy.value in s.calls && Runs(s.calls[s.busy.value]))
    && (forall id :: id in s.calls ==> (Holds(s.calls[id]) <==> s.lock == Some(id)))
    && (s.lock.Some? ==> s.lock.value in s.calls)
  }

  ghost predicate CacheOk(k: Sources, s: State) { s.cache.Some? ==> CachedOk(k, s.cache.value, s.outside) }

  ghost predicate CallsOk(k: Sources, s: State) { forall id :: id in s.calls ==> PcOk(k, s, s.calls[id]) }

  ghost predicate Inv(k: Sources, s: State) { LocksOk(s) && CacheOk(k, s) && CallsOk(k, s) }

  // ---------- What other processes and time do ----------

  /** The outside after an edit or some time. */
  ghost predicate Moves(a: Outside, b: Outside) { Evolves(a.files, b.files) && a.clock <= b.clock && a.config == b.config }

  lemma AnswersLater(answers: seq<Answer>, from: int, until: int, later: int)
    requires AnswersOk(answers, from, until) && until <= later
    ensures AnswersOk(answers, from, later)
  {
  }

  lemma CacheMoves(k: Sources, c: Cached, a: Outside, b: Outside)
    requires CachedOk(k, c, a) && Moves(a, b)
    ensures CachedOk(k, c, b)
  {
    hide Complete, Shows, Fits, AllTrack, AnswersOk, Evolves, Settled;
    TracksLater(c.snapshot, a.files, b.files);
  }

  lemma WorkMoves(k: Sources, job: Job, w: Work, entries: seq<Entry>, a: Outside, b: Outside, following: bool)
    requires WorkOk(k, job, w, entries, a, following) && AllTrack(entries, a.files) && Moves(a, b)
    ensures WorkOk(k, job, w, entries, b, following)
  {
    hide Follows, AllAgree, AllTrack, OpenedAfter, AnswersOk, Evolves;
    AnswersLater(w.answers, w.startedAt, a.clock, b.clock);
    AgreesLater(w.looks, entries, a.files, b.files);
    if w.open.Some? { OpenedLater(w.open.value, entries, a.files, b.files); }
  }

  lemma PcMoves(k: Sources, s: State, o: Outside, pc: Pc)
    requires PcOk(k, s, pc) && Moves(s.outside, o)
    ensures PcOk(k, s.(outside := o), pc)
  {
    hide Complete, Follows, AllAgree, AllTrack, AnswersOk, Unmoved, Evolves, WorkOk, Built, NotesTrack, NotedSoFar;
    match pc
    case Waiting(_, _) =>
    case Probing(_, purpose, _, _, began) =>
      EvolvesTwice(began, s.outside.files, o.files);
      if purpose.Final? { AnswersLater(purpose.work.answers, purpose.work.startedAt, s.outside.clock, o.clock); }
    case Observing(_, _, _, _, notes, _) =>
      NotesLater(notes, s.outside.files, o.files);
    case Fetching(job, _, entries, work) =>
      TracksLater(entries, s.outside.files, o.files);
      WorkMoves(k, job, work, entries, s.outside, o, true);
    case Scanning(job, _, entries, work) =>
      TracksLater(entries, s.outside.files, o.files);
      WorkMoves(k, job, work, entries, s.outside, o, o.config == job.configured);
    case Returned(_, _, _, _) =>
    case Raised(_) =>
  }

  lemma OutsideKeepsInv(k: Sources, s: State, o: Outside)
    requires Inv(k, s) && Moves(s.outside, o)
    ensures Inv(k, s.(outside := o))
  {
    hide PcOk, CachedOk, Moves;
    if s.cache.Some? { CacheMoves(k, s.cache.value, s.outside, o); }
    forall id | id in s.calls ensures PcOk(k, s.(outside := o), s.calls[id]) { PcMoves(k, s, o, s.calls[id]); }
  }

  // ---------- What one call does to the others ----------

  /** Phases whose invariant looks at the cache. */
  predicate UsesCache(pc: Pc) { pc.Probing? || pc.Observing? }

  /** Suspended and finished calls do not look at the cache, the lock or the other calls. */
  lemma OthersUnaffected(k: Sources, s: State, t: State, pc: Pc)
    requires PcOk(k, s, pc) && t.outside == s.outside && (!UsesCache(pc) || t.cache == s.cache)
    ensures PcOk(k, t, pc)
  {
    hide SnapshotOk, WorkOk, AllTrack, Follows, Complete, AllAgree, AnswersOk, Unmoved, Evolves, Built, NotesTrack, NotedSoFar;
  }

  /** The running call moves to another phase; nobody else is running. */
  lemma OneMoves(k: Sources, s: State, t: State, id: nat, pc: Pc)
    requires CallsOk(k, s) && LocksOk(s) && (s.busy.None? || s.busy == Some(id))
    requires t.outside == s.outside && t.calls == s.calls[id := pc] && PcOk(k, t, pc)
    ensures CallsOk(k, t)
  {
    hide PcOk;
    forall x | x in t.calls ensures PcOk(k, t, t.calls[x]) {
      if x != id { OthersUnaffected(k, s, t, s.calls[x]); }
    }
  }

  /** Locks after the call moved on: it runs, waits with or without the lock, or is gone. */
  lemma LocksMove(s: State, t: State, id: nat, pc: Pc)
    requires LocksOk(s) && (s.busy.None? || s.busy == Some(id)) && t.calls == s.calls[id := pc]
    requires t.busy == if Runs(pc) then Some(id) else None
    requires if Holds(pc) then t.lock == Some(id) && (s.lock.None? || s.lock == Some(id))
             else t.lock == (if s.lock == Some(id) then None else s.lock)
    ensures LocksOk(t)
  {
  }

  /** Nobody else runs, and the moved call satisfies the invariant in the new state. */
  lemma Moved(k: Sources, s: State, t: State, id: nat, pc: Pc)
    requires LocksOk(s) && CallsOk(k, s) && (s.busy.None? || s.busy == Some(id))
    requires t.outside == s.outside && t.calls == s.calls[id := pc] && PcOk(k, t, pc) && CacheOk(k, t)
    requires t.busy == if Runs(pc) then Some(id) else None
    requires if Holds(pc) then t.lock == Some(id) && (s.lock.None? || s.lock == Some(id))
             else t.lock == (if s.lock == Some(id) then None else s.lock)
    ensures Inv(k, t)
  {
    hide LocksOk, CallsOk, PcOk, CacheOk;
    OneMoves(k, s, t, id, pc);
    LocksMove(s, t, id, pc);
  }

  lemma NothingProbed(entries: seq<Entry>, m: FileMap)
    ensures Unmoved(entries, 0, m) && Evolves(m, m)
  {
    EvolvesSame(m);
  }

  lemma NothingObserved(plan: Plan, order: Ordering, m: FileMap)
    ensures Follows(plan, []) && NotesTrack(map[], m) && NotedSoFar(order, [], map[], None)
  {
  }

  /** Starting to probe the cached snapshot. */
  lemma ProbeCached(k: Sources, s: State, id: nat, job: Job, purpose: Purpose)
    requires LocksOk(s) && CallsOk(k, s) && CacheOk(k, s) && (s.busy.None? || s.busy == Some(id))
    requires Usable(s, job.refresh) && JobOk(job, s.outside) && job.builds == 0
    requires job.checked == s.outside.clock && job.configured == s.outside.config
    requires (purpose.Fast? && s.lock != Some(id)) || (purpose.Locked? && s.lock.None?)
    ensures Inv(k, Probe(if purpose.Locked? then s.(lock := Some(id)) else s, id, job, purpose, s.cache.value.snapshot))
  {
    hide SnapshotOk, Fits, Unmoved, Evolves, LocksOk, CallsOk, Shows;
    var pc := Probing(job, purpose, s.cache.value.snapshot, 0, s.outside.files);
    NothingProbed(s.cache.value.snapshot, s.outside.files);
    Moved(k, s, Probe(if purpose.Locked? then s.(lock := Some(id)) else s, id, job, purpose, s.cache.value.snapshot), id, pc);
  }

  /** Starting to observe. */
  lemma ObserveFresh(k: Sources, s: State, id: nat, job: Job, compare: bool, attempt: nat)
    requires LocksOk(s) && CallsOk(k, s) && CacheOk(k, s) && (s.busy.None? || s.busy == Some(id))
    requires s.lock.None? || s.lock == Some(id)
    requires JobOk(job, s.outside) && job.configured == s.outside.config && attempt <= 1 && job.builds == attempt
    requires compare ==> Considered(s, job)
    ensures Inv(k, Observe(s.(lock := Some(id)), id, job, compare, attempt))
  {
    hide LocksOk, CallsOk, CacheOk, Follows, NotesTrack, NotedSoFar;
    NothingObserved(k.observe(job.configured), k.order(job.configured), s.outside.files);
    var t := Observe(s.(lock := Some(id)), id, job, compare, attempt);
    SameCache(k, s, t);
    Moved(k, s, t, id, t.calls[id]);
  }

  lemma SameCache(k: Sources, s: State, t: State)
    requires CacheOk(k, s) && t.cache == s.cache && t.outside == s.outside
    ensures CacheOk(k, t)
  {
    hide CachedOk;
  }

  lemma TryLockKeeps(k: Sources, s: State, id: nat, refresh: bool, since: int)
    requires LocksOk(s) && CallsOk(k, s) && CacheOk(k, s) && (s.busy.None? || s.busy == Some(id)) && since <= s.outside.clock
    requires s.lock != Some(id)
    ensures Inv(k, TryLock(s, id, refresh, since))
  {
    hide LocksOk, CallsOk, CacheOk, Probe, Run;
    var job := Job(refresh, since, s.outside.clock, s.outside.config, 0);
    if s.lock.None? {
      var t := s.(lock := Some(id));
      assert Usable(t, refresh) == Usable(s, refresh);
      if Usable(s, refresh) { ProbeCached(k, s, id, job, Locked); } else { ObserveFresh(k, s, id, job, false, 0); }
    } else {
      var t := Suspend(s, id, Waiting(refresh, since));
      SameCache(k, s, t);
      Moved(k, s, t, id, Waiting(refresh, since));
    }
  }

  lemma CallKeeps(k: Sources, s: State, id: nat, refresh: bool)
    requires Inv(k, s)
    ensures Inv(k, CallStep(s, id, refresh))
  {
    hide CallsOk, CacheOk, Probe, TryLock;
    if id !in s.calls && s.busy.None? {
      if Usable(s, refresh) {
        ProbeCached(k, s, id, Job(refresh, s.outside.clock, s.outside.clock, s.outside.config, 0), Fast);
      } else {
        TryLockKeeps(k, s, id, refresh, s.outside.clock);
      }
    }
  }

  lemma EnterKeeps(k: Sources, s: State, id: nat)
    requires Inv(k, s)
    ensures Inv(k, EnterStep(s, id))
  {
    hide CacheOk, Section, LocksOk;
    if id in s.calls && s.calls[id].Waiting? && s.busy.None? && s.lock.None? {
      assert PcOk(k, s, s.calls[id]);
      hide CallsOk, PcOk;
      TryLockKeeps(k, s, id, s.calls[id].refresh, s.calls[id].since);
    }
  }

  // ---------- Probing keeps the invariant ----------

  lemma RetryKeeps(k: Sources, s: State, id: nat, job: Job, attempt: nat)
    requires LocksOk(s) && CallsOk(k, s) && CacheOk(k, s) && s.busy == Some(id) && s.lock == Some(id)
    requires JobOk(job, s.outside) && attempt <= 1 && job.builds == attempt + 1
    ensures Inv(k, Retry(s, id, job, attempt))
  {
    hide LocksOk, CallsOk, CacheOk;
    if attempt == 0 {
      assert s.(lock := Some(id)) == s;
      ObserveFresh(k, s, id, job.(configured := s.outside.config), false, 1);
    } else {
      var t := Leave(s, id, Raised(job.builds));
      SameCache(k, s, t);
      Moved(k, s, t, id, Raised(job.builds));
    }
  }

  /** The running call has the locks its phase says. */
  lemma RunningLocks(s: State, id: nat)
    requires LocksOk(s) && s.busy == Some(id) && id in s.calls
    ensures s.lock == Some(id) <==> Holds(s.calls[id])
  {
  }

  lemma ChangedKeeps(k: Sources, s: State, id: nat)
    requires Inv(k, s) && s.busy == Some(id) && id in s.calls && s.calls[id].Probing?
    ensures Inv(k, Changed(s, id, s.calls[id]))
  {
    var pc := s.calls[id];
    assert PcOk(k, s, pc);
    RunningLocks(s, id);
    hide CallsOk, CacheOk, LocksOk, SnapshotOk, Unmoved, Evolves, AllAgree, Complete, TryLock, Retry;
    match pc.purpose
    case Fast => TryLockKeeps(k, s, id, pc.job.refresh, pc.job.since);
    case Locked =>
      assert s.(lock := Some(id)) == s;
      ObserveFresh(k, s, id, pc.job, true, 0);
    case Fresh(_, _) =>
      var t := Leave(s, id, Raised(pc.job.builds));
      SameCache(k, s, t);
      Moved(k, s, t, id, Raised(pc.job.builds));
    case Final(attempt, _) => RetryKeeps(k, s, id, pc.job, attempt);
  }

  /** A call leaves with what is cached now. */
  lemma DeliverKeeps(k: Sources, s: State, t: State, id: nat, job: Job, began: FileMap, entries: seq<Entry>)
    requires LocksOk(s) && CallsOk(k, s) && s.busy == Some(id) && t == s.(cache := t.cache) && CacheOk(k, t) && t.cache.Some?
    requires JobOk(job, s.outside) && job.builds <= 2
    requires AllTrack(entries, began) && Unmoved(entries, |entries|, began) && t.cache.value.snapshot == entries
    requires t.cache.value.signature == job.configured && job.checked - t.cache.value.at < TTL
    requires job.refresh ==> 1 <= job.builds && job.since <= t.cache.value.registry.startedAt
    ensures Inv(k, Deliver(t, id, job, began))
  {
    hide LocksOk, CallsOk, SnapshotOk, AllTrack, Unmoved, AnswersOk, Built, Settled;
    UnmovedShowsIff(entries, began);
    var done := Returned(job, t.cache.value.registry, began, t.cache.value.settled);
    var u := Deliver(t, id, job, began);
    SameCache(k, t, u);
    assert PcOk(k, u, done);
    hide Shows, PcOk, CacheOk;
    Moved(k, s, u, id, done);
  }

  lemma CachedSameKeeps(k: Sources, s: State, id: nat)
    requires Inv(k, s) && s.busy == Some(id) && id in s.calls && s.calls[id].Probing? && s.calls[id].next == |s.calls[id].entries|
    requires s.calls[id].purpose.Fast? || s.calls[id].purpose.Locked?
    ensures Inv(k, Same(k, s, id, s.calls[id]))
  {
    var pc := s.calls[id];
    assert PcOk(k, s, pc);
    hide CallsOk, LocksOk, AllTrack, Complete, Unmoved, Evolves, Deliver;
    assert CacheOk(k, s);
    assert s == s.(cache := s.cache);
    hide CacheOk;
    DeliverKeeps(k, s, s, id, pc.job, pc.began, pc.entries);
  }

  /** An observation with the old fingerprint carries the cached registry over to the new snapshot. */
  lemma FitsByFingerprint(k: Sources, c: Cached, o: Outside, entries: seq<Entry>)
    requires Faithful(k) && CachedOk(k, c, o) && c.settled && Complete(k.observe(c.signature), LooksOf(entries))
    requires k.fingerprint(LooksOf(entries)) == k.fingerprint(LooksOf(c.snapshot))
    ensures Fits(k, c.registry, entries)
  {
    hide AllTrack, AnswersOk, Complete, Shows, Covers, Settled, Probes;
    var old_ := LooksOf(c.snapshot);
    assert Observed(k, c.signature, c.moment, old_) && Built(k, c.signature, c.moment, c.registry.looks);
    forall m | Shows(m, LooksOf(entries)) ensures Built(k, c.registry.config, m, c.registry.looks) {
      assert Observed(k, c.signature, m, LooksOf(entries));
      hide Observed, Built;
    }
  }

  lemma FreshSameKeeps(k: Sources, s: State, id: nat)
    requires Faithful(k) && Inv(k, s) && s.busy == Some(id) && id in s.calls && s.calls[id].Probing?
    requires s.calls[id].next == |s.calls[id].entries| && s.calls[id].purpose.Fresh?
    ensures Inv(k, Same(k, s, id, s.calls[id]))
  {
    var pc := s.calls[id];
    assert PcOk(k, s, pc) && CacheOk(k, s);
    RunningLocks(s, id);
    hide CallsOk, LocksOk, AllTrack, Complete, Unmoved, Evolves, Deliver, Faithful, Shows, Fits, AnswersOk, Settled;
    var compare, attempt := pc.purpose.compare, pc.purpose.attempt;
    TracksLater(pc.entries, pc.began, s.outside.files);
    if compare && k.fingerprint(LooksOf(pc.entries)) == k.fingerprint(LooksOf(s.cache.value.snapshot)) {
      if s.cache.value.settled { FitsByFingerprint(k, s.cache.value, s.outside, pc.entries); }
      UnmovedShowsIff(pc.entries, pc.began);
      var t := s.(cache := Some(CarriedOver(s.cache.value, pc.entries, pc.began)));
      assert CachedOk(k, t.cache.value, t.outside);
      DeliverKeeps(k, s, t, id, pc.job, pc.began, pc.entries);
    } else {
      FetchKeeps(k, s, id, pc);
    }
  }

  lemma FetchKeeps(k: Sources, s: State, id: nat, pc: Pc)
    requires LocksOk(s) && CallsOk(k, s) && CacheOk(k, s) && s.busy == Some(id) && s.lock == Some(id)
    requires pc.Probing? && pc.purpose.Fresh? && JobOk(pc.job, s.outside) && pc.purpose.attempt <= 1 && pc.job.builds == pc.purpose.attempt
    requires SnapshotOk(k, pc.job.configured, pc.entries, s.outside.files)
    ensures Inv(k, Suspend(s, id, Fetching(pc.job.(builds := pc.job.builds + 1), pc.purpose.attempt, pc.entries, Work([], [], s.outside.clock, None))))
  {
    hide LocksOk, CallsOk, CacheOk, SnapshotOk;
    var next := Fetching(pc.job.(builds := pc.job.builds + 1), pc.purpose.attempt, pc.entries, Work([], [], s.outside.clock, None));
    var t := Suspend(s, id, next);
    SameCache(k, s, t);
    assert Follows(k.build(pc.job.configured), []) && AllAgree([], pc.entries, s.outside.files);
    Moved(k, s, t, id, next);
  }

  /** A build that passed its check is the build of every state of the files that shows its snapshot. */
  lemma FitsByBuild(k: Sources, c: Configuration, r: Registry, entries: seq<Entry>, began: FileMap)
    requires Faithful(k) && r.config == c && Complete(k.observe(c), LooksOf(entries)) && Complete(k.build(c), r.looks)
    requires AllAgree(r.looks, entries, began) && Unmoved(entries, |entries|, began) && Settled(entries)
    ensures Fits(k, r, entries)
  {
    hide Complete, Shows, Fingerprints, AllAgree, Unmoved, Matches, Settled, Probes;
    UnmovedMatches(r.looks, entries, began);
    SettledLooks(entries);
    forall m | Shows(m, LooksOf(entries)) ensures Built(k, c, m, r.looks) {
      BuildOfMoment(k, c, m, LooksOf(entries), r.looks);
      hide Covers;
    }
  }

  lemma FinalSameKeeps(k: Sources, s: State, id: nat)
    requires Faithful(k) && Inv(k, s) && s.busy == Some(id) && id in s.calls && s.calls[id].Probing?
    requires s.calls[id].next == |s.calls[id].entries| && s.calls[id].purpose.Final?
    ensures Inv(k, Same(k, s, id, s.calls[id]))
  {
    var pc := s.calls[id];
    assert PcOk(k, s, pc);
    hide CallsOk, LocksOk, AllTrack, Complete, Unmoved, Evolves, Deliver, Faithful, Shows, Fits, AnswersOk, AllAgree, CacheOk, Settled;
    var w, now := pc.purpose.work, s.outside.clock;
    var registry := Registry(s.outside.config, w.looks, w.answers, w.startedAt, now);
    var t := s.(cache := Some(Cached(registry, now, s.outside.config, pc.entries, pc.began, Settled(pc.entries))));
    if Settled(pc.entries) { FitsByBuild(k, s.outside.config, registry, pc.entries, pc.began); }
    UnmovedShowsIff(pc.entries, pc.began);
    TracksLater(pc.entries, pc.began, s.outside.files);
    assert CachedOk(k, t.cache.value, t.outside);
    assert CacheOk(k, t) by { Cache1(k, t); }
    DeliverKeeps(k, s, t, id, pc.job.(checked := now), pc.began, pc.entries);
  }

  lemma Cache1(k: Sources, t: State)
    requires t.cache.Some? && CachedOk(k, t.cache.value, t.outside)
    ensures CacheOk(k, t)
  {
  }

  lemma ProbeKeeps(k: Sources, s: State, id: nat)
    requires Faithful(k) && Inv(k, s) && s.busy == Some(id) && id in s.calls && s.calls[id].Probing?
    ensures Inv(k, ProbeStep(k, s, id, s.calls[id]))
  {
    var pc := s.calls[id];
    assert PcOk(k, s, pc);
    hide Faithful, CacheOk, LocksOk, Same, Changed, AllTrack, Complete, Unmoved, Evolves, AllAgree, AnswersOk;
    if pc.next >= |pc.entries| {
      hide CallsOk;
      match pc.purpose
      case Fast => CachedSameKeeps(k, s, id);
      case Locked => CachedSameKeeps(k, s, id);
      case Fresh(_, _) => FreshSameKeeps(k, s, id);
      case Final(_, _) => FinalSameKeeps(k, s, id);
    } else if At(s.outside.files, pc.entries[pc.next].path).version == pc.entries[pc.next].version {
      hide CallsOk;
      UnmovedNext(pc.entries, pc.next, pc.began, s.outside.files);
      RunningLocks(s, id);
      var t := Run(s, id, pc.(next := pc.next + 1));
      SameCache(k, s, t);
      assert PcOk(k, t, pc.(next := pc.next + 1));
      Moved(k, s, t, id, pc.(next := pc.next + 1));
    } else {
      hide CallsOk;
      ChangedKeeps(k, s, id);
    }
  }

  // ---------- Observing and building keep the invariant ----------

  lemma ObserveNext(k: Sources, s: State, id: nat, torn: Content)
    requires Inv(k, s) && s.busy == Some(id) && id in s.calls && s.calls[id].Observing? && s.calls[id].doing.Idle?
    requires k.observe(s.calls[id].job.configured)(s.calls[id].looks).Some?
    ensures Inv(k, ObserveStep(k, s, id, s.calls[id], torn))
  {
    var pc, m := s.calls[id], s.outside.files;
    assert PcOk(k, s, pc);
    RunningLocks(s, id);
    hide CacheOk, LocksOk, CallsOk, NotesTrack, NotedSoFar, Follows, At;
    var path := k.observe(pc.job.configured)(pc.looks).value;
    NotedTracks(pc.notes, m, path);
    NotedMore(k.order(pc.job.configured), pc.looks, pc.notes, Noted(pc.notes, m, path), None);
    var t := ObserveStep(k, s, id, pc, torn);
    SameCache(k, s, t);
    Moved(k, s, t, id, t.calls[id]);
  }

  lemma ObserveEnds(k: Sources, s: State, id: nat, torn: Content)
    requires Faithful(k) && Inv(k, s) && s.busy == Some(id) && id in s.calls && s.calls[id].Observing? && s.calls[id].doing.Idle?
    requires k.observe(s.calls[id].job.configured)(s.calls[id].looks).None?
    ensures Inv(k, ObserveStep(k, s, id, s.calls[id], torn))
  {
    var pc, m := s.calls[id], s.outside.files;
    assert PcOk(k, s, pc);
    RunningLocks(s, id);
    hide CacheOk, LocksOk, CallsOk, NotesTrack, NotedSoFar, AllTrack, ProbesAll, Covers, Fingerprints, Unmoved, Evolves, At;
    var plan := k.observe(pc.job.configured);
    EndsComplete(plan, pc.looks);
    hide Follows;
    ObservationTracks(plan, k.order(pc.job.configured), pc.looks, pc.notes, m);
    EntriesLooks(pc.looks, pc.notes);
    NothingProbed(EntriesOf(pc.looks, pc.notes), m);
    var t := ObserveStep(k, s, id, pc, torn);
    SameCache(k, s, t);
    Moved(k, s, t, id, t.calls[id]);
  }

  lemma ObserveReads(k: Sources, s: State, id: nat, torn: Content)
    requires Inv(k, s) && s.busy == Some(id) && id in s.calls && s.calls[id].Observing? && s.calls[id].doing.Reading?
    ensures Inv(k, ObserveStep(k, s, id, s.calls[id], torn))
  {
    var pc, m := s.calls[id], s.outside.files;
    assert PcOk(k, s, pc);
    RunningLocks(s, id);
    hide CacheOk, LocksOk, CallsOk, NotesTrack, NotedSoFar, Follows, At, Read;
    var look := Look(pc.doing.open.path, Read(m, pc.doing.open, torn));
    var t := ObserveStep(k, s, id, pc, torn);
    SameCache(k, s, t);
    if t.calls[id].Raised? {
      Moved(k, s, t, id, t.calls[id]);
    } else {
      FollowsNext(k.observe(pc.job.configured), pc.looks, look);
      NotedNext(k.order(pc.job.configured), pc.looks, pc.notes, look, DueOf(t.calls[id].doing));
      Moved(k, s, t, id, t.calls[id]);
    }
  }

  lemma ObserveProbes(k: Sources, s: State, id: nat, torn: Content)
    requires Inv(k, s) && s.busy == Some(id) && id in s.calls && s.calls[id].Observing? && s.calls[id].doing.Due?
    ensures Inv(k, ObserveStep(k, s, id, s.calls[id], torn))
  {
    var pc, m := s.calls[id], s.outside.files;
    assert PcOk(k, s, pc);
    RunningLocks(s, id);
    hide CacheOk, LocksOk, CallsOk, NotesTrack, NotedSoFar, Follows, At;
    NotedTracks(pc.notes, m, pc.doing.path);
    NotedMore(k.order(pc.job.configured), pc.looks, pc.notes, Noted(pc.notes, m, pc.doing.path), Some(pc.doing.path));
    var t := ObserveStep(k, s, id, pc, torn);
    SameCache(k, s, t);
    Moved(k, s, t, id, t.calls[id]);
  }

  lemma ObserveKeeps(k: Sources, s: State, id: nat, torn: Content)
    requires Faithful(k) && Inv(k, s) && s.busy == Some(id) && id in s.calls && s.calls[id].Observing?
    ensures Inv(k, ObserveStep(k, s, id, s.calls[id], torn))
  {
    hide Faithful, Inv, ObserveStep;
    match s.calls[id].doing
    case Idle =>
      if k.observe(s.calls[id].job.configured)(s.calls[id].looks).None? { ObserveEnds(k, s, id, torn); } else { ObserveNext(k, s, id, torn); }
    case Reading(_) => ObserveReads(k, s, id, torn);
    case Due(_) => ObserveProbes(k, s, id, torn);
  }

  lemma WorkNext(k: Sources, job: Job, w: Work, entries: seq<Entry>, o: Outside, following: bool, plan: Plan, torn: Content)
    requires WorkOk(k, job, w, entries, o, following) && AllTrack(entries, o.files)
    requires following ==> plan == k.build(job.configured)
    ensures WorkOk(k, job, WorkStep(plan, o.files, w, torn), entries, o, following)
  {
    hide AllTrack, Follows, AnswersOk, Read, OpenedAfter, Agrees;
    if w.open.Some? {
      ReadAgrees(o.files, w.open.value, torn, entries);
      var look := Look(w.open.value.path, Read(o.files, w.open.value, torn));
      assert AllAgree(w.looks + [look], entries, o.files);
      if following { FollowsNext(plan, w.looks, look); }
    } else if plan(w.looks).Some? {
      OpenedNow(o.files, plan(w.looks).value, entries);
    }
  }

  lemma ScanKeeps(k: Sources, s: State, id: nat, torn: Content)
    requires Inv(k, s) && s.busy == Some(id) && id in s.calls && s.calls[id].Scanning?
    ensures Inv(k, ScanStep(k, s, id, s.calls[id], torn))
  {
    var pc := s.calls[id];
    assert PcOk(k, s, pc);
    RunningLocks(s, id);
    hide CacheOk, LocksOk, CallsOk, Complete, AllTrack, Unmoved, Evolves, Retry, WorkStep;
    var plan, following := k.build(s.outside.config), s.outside.config == pc.job.configured;
    var t := ScanStep(k, s, id, pc, torn);
    if pc.work.open.Some? || plan(pc.work.looks).Some? {
      WorkNext(k, pc.job, pc.work, pc.entries, s.outside, following, plan, torn);
      SameCache(k, s, t);
      hide WorkOk;
      Moved(k, s, t, id, Scanning(pc.job, pc.attempt, pc.entries, WorkStep(plan, s.outside.files, pc.work, torn)));
    } else if !following {
      RetryKeeps(k, s, id, pc.job, pc.attempt);
    } else {
      SameCache(k, s, t);
      NothingProbed(pc.entries, s.outside.files);
      EndsComplete(plan, pc.work.looks);
      hide Follows;
      Moved(k, s, t, id, Probing(pc.job, Final(pc.attempt, pc.work), pc.entries, 0, s.outside.files));
    }
  }

  lemma EndsComplete(plan: Plan, looks: seq<Look>)
    ensures Follows(plan, looks) && plan(looks).None? ==> Complete(plan, looks)
  {
  }

  /** What suspended builds do: fetch, read local state, and start the section that reads everything else. */
  lemma FetchingKeeps(k: Sources, s: State, id: nat, next: Pc)
    requires Inv(k, s) && s.busy.None? && id in s.calls && s.calls[id].Fetching?
    requires (next.Fetching? || next.Scanning?) && next.job == s.calls[id].job && next.attempt == s.calls[id].attempt
    requires next.entries == s.calls[id].entries && WorkOk(k, next.job, next.work, next.entries, s.outside, next.Fetching? || s.outside.config == next.job.configured)
    ensures Inv(k, if next.Fetching? then Suspend(s, id, next) else Run(s, id, next))
  {
    var pc := s.calls[id];
    assert PcOk(k, s, pc);
    FetchingLocks(s, id);
    hide CacheOk, LocksOk, CallsOk, SnapshotOk, WorkOk;
    var t := if next.Fetching? then Suspend(s, id, next) else Run(s, id, next);
    SameCache(k, s, t);
    Moved(k, s, t, id, next);
  }

  lemma FetchingLocks(s: State, id: nat)
    requires LocksOk(s) && id in s.calls && s.calls[id].Fetching?
    ensures s.lock == Some(id)
  {
  }

  lemma ProceedKeeps(k: Sources, s: State, id: nat, torn: Content)
    requires Faithful(k) && Inv(k, s)
    ensures Inv(k, ProceedStep(k, s, id, torn))
  {
    hide Faithful, CacheOk, LocksOk, ProbeStep, ObserveStep, ScanStep, WorkStep, Suspend;
    if id in s.calls {
      var pc := s.calls[id];
      assert PcOk(k, s, pc);
      hide CallsOk;
      if s.busy == Some(id) {
        if pc.Probing? { ProbeKeeps(k, s, id); }
        if pc.Observing? { ObserveKeeps(k, s, id, torn); }
        if pc.Scanning? { ScanKeeps(k, s, id, torn); }
      } else if s.busy.None? && pc.Fetching? {
        var plan := k.build(pc.job.configured);
        WorkNext(k, pc.job, pc.work, pc.entries, s.outside, true, plan, torn);
        hide WorkOk;
        FetchingKeeps(k, s, id, Fetching(pc.job, pc.attempt, pc.entries, WorkStep(plan, s.outside.files, pc.work, torn)));
      }
    }
  }

  lemma RemoteKeeps(k: Sources, s: State, id: nat, value: nat)
    requires Inv(k, s)
    ensures Inv(k, RemoteStep(s, id, value))
  {
    hide CacheOk, LocksOk, Suspend;
    if id in s.calls && s.calls[id].Fetching? && s.busy.None? {
      var pc := s.calls[id];
      assert PcOk(k, s, pc);
      hide CallsOk, SnapshotOk, Follows, AllAgree, OpenedAfter;
      FetchingKeeps(k, s, id, Fetching(pc.job, pc.attempt, pc.entries, pc.work.(answers := pc.work.answers + [Answer(value, s.outside.clock)])));
    }
  }

  lemma StartScanKeeps(k: Sources, s: State, id: nat)
    requires Inv(k, s)
    ensures Inv(k, StartScan(k, s, id))
  {
    hide CacheOk, LocksOk, Run;
    if id in s.calls && s.calls[id].Fetching? && s.busy.None? {
      var pc := s.calls[id];
      assert PcOk(k, s, pc);
      hide CallsOk, SnapshotOk, Follows, AllAgree, OpenedAfter;
      FetchingKeeps(k, s, id, Scanning(pc.job, pc.attempt, pc.entries, pc.work));
    }
  }

  lemma FailKeeps(k: Sources, s: State, id: nat)
    requires Inv(k, s)
    ensures Inv(k, FailStep(s, id))
  {
    if id in s.calls && FailStep(s, id) != s {
      var pc := s.calls[id];
      assert PcOk(k, s, pc);
      var builds := if pc.Waiting? then 0 else pc.job.builds;
      assert s.busy.None? || s.busy == Some(id);
      assert pc.Waiting? ==> s.lock != Some(id);
      hide CacheOk, CallsOk, LocksOk, SnapshotOk, WorkOk, AllTrack, Follows;
      var t := FailStep(s, id);
      SameCache(k, s, t);
      assert t == Leave(s, id, Raised(builds));
      assert builds <= 2;
      Moved(k, s, t, id, Raised(builds));
    }
  }

  lemma ReconfigureKeeps(k: Sources, s: State, config: Configuration)
    requires Inv(k, s) && s.busy.None?
    ensures Inv(k, s.(outside := s.outside.(config := config), cache := None))
  {
    var t := s.(outside := s.outside.(config := config), cache := None);
    forall id | id in t.calls ensures PcOk(k, t, t.calls[id]) {
      assert PcOk(k, s, s.calls[id]) && !Runs(s.calls[id]);
      hide CachedOk, SnapshotOk, AllTrack, Follows, AllAgree, OpenedAfter, AnswersOk, Built;
    }
    hide PcOk, CachedOk;
  }

  lemma StepKeepsInv(k: Sources, s: State, e: Event)
    requires Faithful(k) && Inv(k, s)
    ensures Inv(k, Step(k, s, e))
  {
    hide Faithful, Inv, CallStep, EnterStep, ProceedStep, RemoteStep, StartScan, FailStep, Moves;
    match e
    case Call(id, refresh) => CallKeeps(k, s, id, refresh);
    case Enter(id) => EnterKeeps(k, s, id);
    case Proceed(id, torn) => ProceedKeeps(k, s, id, torn);
    case Remote(id, value) => RemoteKeeps(k, s, id, value);
    case Scan(id) => StartScanKeeps(k, s, id);
    case Fail(id) => FailKeeps(k, s, id);
    case Edit(edit) => Edits(s.outside, edit); OutsideKeepsInv(k, s, s.outside.(files := Edited(s.outside.files, edit)));
    case Reconfigure(config) => if s.busy.None? { ReconfigureKeeps(k, s, config); }
    case Tick(elapsed) => Ticks(s.outside, elapsed); OutsideKeepsInv(k, s, s.outside.(clock := s.outside.clock + elapsed));
  }

  lemma Edits(o: Outside, edit: FileEdit)
    ensures Moves(o, o.(files := Edited(o.files, edit)))
  {
    EvolvesEdit(o.files, edit);
  }

  lemma Ticks(o: Outside, elapsed: nat)
    ensures Moves(o, o.(clock := o.clock + elapsed))
  {
    EvolvesSame(o.files);
  }

  lemma {:induction false} EveryState(k: Sources, s: State, events: seq<Event>, i: nat)
    requires Faithful(k) && Inv(k, s) && i <= |events|
    ensures Inv(k, After(k, s, events, i))
  {
    hide Faithful, Inv, Step;
    if i > 0 {
      EveryState(k, s, events, i - 1);
      StepKeepsInv(k, After(k, s, events, i - 1), events[i - 1]);
    }
  }

  // ---------- What callers get ----------

  /** The step makes this call return. */
  predicate Returns(k: Sources, s: State, e: Event, id: nat) {
    id in Step(k, s, e).calls && Step(k, s, e).calls[id].Returned? && !(id in s.calls && s.calls[id].Returned?)
  }

  /** A probe goes on where it was, or starts now. */
  lemma ProbeGoesOn(k: Sources, s: State, e: Event, id: nat)
    requires Inv(k, s) && id in Step(k, s, e).calls && Step(k, s, e).calls[id].Probing?
    ensures
      var t := Step(k, s, e);
      var pc := t.calls[id];
      || pc.began == t.outside.files
      || (&& id in s.calls && s.calls[id].Probing? && s.calls[id].began == pc.began && s.calls[id].job.since == pc.job.since
          && t.outside.config == s.outside.config)
  {
    hide CacheOk, CallsOk, Read, WorkStep, At;
    match e
    case Proceed(x, torn) =>
      if x != id { OthersStay(k, s, x, torn, id); hide ProceedStep; }
    case _ => hide ProceedStep;
  }

  lemma OthersStay(k: Sources, s: State, x: nat, torn: Content, id: nat)
    requires x != id
    ensures var t := ProceedStep(k, s, x, torn);
            t.outside == s.outside && (id in t.calls <==> id in s.calls) && (id in s.calls ==> t.calls[id] == s.calls[id])
  {
    hide Read, WorkStep, At;
  }

  /** A call returns from a probe of its snapshot, and never changes the outside. */
  lemma ReturnsFromProbe(k: Sources, s: State, e: Event, id: nat)
    requires Returns(k, s, e, id)
    ensures
      var t := Step(k, s, e);
      && id in s.calls && s.calls[id].Probing? && t.calls[id].moment == s.calls[id].began
      && t.calls[id].job.since == s.calls[id].job.since && t.outside == s.outside
  {
    hide Read, WorkStep, At;
  }

  /** A probe began at some earlier point of the call, in the configuration that still holds. */
  lemma {:induction false} ProbeBegan(k: Sources, s: State, events: seq<Event>, i: nat, id: nat) returns (n: nat)
    requires Faithful(k) && Inv(k, s) && s.calls == map[] && i <= |events|
    requires id in After(k, s, events, i).calls && After(k, s, events, i).calls[id].Probing?
    ensures n <= i
    ensures
      var pc, o := After(k, s, events, i).calls[id], After(k, s, events, n).outside;
      o.files == pc.began && o.config == After(k, s, events, i).outside.config && pc.job.since <= o.clock
  {
    hide Step, Faithful, Inv;
    var t := After(k, s, events, i);
    EveryState(k, s, events, i);
    SinceIsPast(k, t, id);
    n := i;
    if t.calls[id].began != t.outside.files {
      EveryState(k, s, events, i - 1);
      ProbeGoesOn(k, After(k, s, events, i - 1), events[i - 1], id);
      n := ProbeBegan(k, s, events, i - 1, id);
    }
  }

  lemma SinceIsPast(k: Sources, s: State, id: nat)
    requires Inv(k, s) && id in s.calls && s.calls[id].Probing?
    ensures s.calls[id].job.since <= s.outside.clock
  {
    assert PcOk(k, s, s.calls[id]);
    hide ProbingOk, CacheOk, CallsOk, LocksOk;
  }

  /**
   * Under any interleaving of callers, edits by other processes, reconfigurations and time, a registry that a call returns, if
   * it is settled, is what a build reads from the files of one single moment n between the call and its return. Settled or not,
   * its configuration is the one of that moment, which still holds at the return. Its remote state was, at some time of the
   * call, younger than the time to live plus the length of the build that fetched it.
   */
  lemma ReturnedIsCurrent(k: Sources, s: State, events: seq<Event>, i: nat, id: nat) returns (n: nat)
    requires Faithful(k) && Inv(k, s) && s.calls == map[] && i < |events| && Returns(k, After(k, s, events, i), events[i], id)
    ensures n <= i
    ensures
      var t, o := After(k, s, events, i + 1), After(k, s, events, n).outside;
      var pc := t.calls[id];
      && pc.job.since <= o.clock
      && (pc.settled ==> Built(k, o.config, o.files, pc.registry.looks)) && pc.registry.config == o.config == t.outside.config
    ensures
      var t := After(k, s, events, i + 1);
      var pc := t.calls[id];
      && pc.job.since <= pc.job.checked <= t.outside.clock
      && forall a :: 0 <= a < |pc.registry.answers| ==>
           pc.job.checked - pc.registry.answers[a].at < TTL + (pc.registry.builtAt - pc.registry.startedAt)
  {
    hide After, Step, Faithful, Inv, Built;
    var u, t := After(k, s, events, i), After(k, s, events, i + 1);
    AfterNext(k, s, events, i);
    ReturnsFromProbe(k, u, events[i], id);
    EveryState(k, s, events, i);
    EveryState(k, s, events, i + 1);
    n := ProbeBegan(k, s, events, i, id);
    ConfiguredHolds(k, u, id);
    ReturnedFacts(k, t, id);
    ReturnedConfigured(k, u, events[i], id);
  }

  lemma ConfiguredHolds(k: Sources, s: State, id: nat)
    requires Inv(k, s) && id in s.calls && s.calls[id].Probing?
    ensures s.calls[id].job.configured == s.outside.config
  {
    assert PcOk(k, s, s.calls[id]);
    hide CacheOk, CallsOk, LocksOk, SnapshotOk, Unmoved, Evolves, AllAgree, AnswersOk, Complete;
  }

  lemma ReturnedConfigured(k: Sources, s: State, e: Event, id: nat)
    requires Returns(k, s, e, id)
    ensures id in s.calls && s.calls[id].Probing? && Step(k, s, e).calls[id].job.configured == s.calls[id].job.configured
  {
    hide Read, WorkStep, At;
  }

  lemma ReturnedFacts(k: Sources, t: State, id: nat)
    requires Inv(k, t) && id in t.calls && t.calls[id].Returned?
    ensures
      var pc := t.calls[id];
      && (pc.settled ==> Built(k, pc.registry.config, pc.moment, pc.registry.looks)) && pc.registry.config == pc.job.configured
      && pc.job.since <= pc.job.checked <= t.outside.clock
      && forall a :: 0 <= a < |pc.registry.answers| ==>
           pc.job.checked - pc.registry.answers[a].at < TTL + (pc.registry.builtAt - pc.registry.startedAt)
  {
    assert PcOk(k, t, t.calls[id]);
    hide CacheOk, CallsOk, LocksOk, Built;
  }

  lemma AfterNext(k: Sources, s: State, events: seq<Event>, i: nat)
    requires i < |events|
    ensures After(k, s, events, i + 1) == Step(k, After(k, s, events, i), events[i])
  {
  }

  /** At most one build runs at a time, across all callers. */
  lemma OneBuildAtATime(k: Sources, s: State, events: seq<Event>, i: nat, a: nat, b: nat)
    requires Faithful(k) && Inv(k, s) && i <= |events|
    requires
      var t := After(k, s, events, i);
      a in t.calls && b in t.calls && (t.calls[a].Fetching? || t.calls[a].Scanning?) && (t.calls[b].Fetching? || t.calls[b].Scanning?)
    ensures a == b
  {
    hide Faithful, CacheOk, CallsOk, After;
    EveryState(k, s, events, i);
  }

  /** No call ever starts more than two builds, and a refresh returns the result of a build that started after it was asked for. */
  lemma BuildsPerCall(k: Sources, s: State, events: seq<Event>, i: nat, id: nat)
    requires Faithful(k) && Inv(k, s) && i <= |events| && id in After(k, s, events, i).calls
    ensures
      var pc := After(k, s, events, i).calls[id];
      && (!pc.Waiting? ==> (if pc.Raised? then pc.builds else pc.job.builds) <= 2)
      && (pc.Returned? && pc.job.refresh ==> 1 <= pc.job.builds && pc.job.since <= pc.registry.startedAt)
  {
    hide Faithful, After;
    EveryState(k, s, events, i);
    var t := After(k, s, events, i);
    assert PcOk(k, t, t.calls[id]);
    hide CacheOk, CallsOk, LocksOk, SnapshotOk, Unmoved, Evolves, AllAgree, AnswersOk, Complete, WorkOk, AllTrack, Follows, Built;
  }

  lemma StartInv(k: Sources, o: Outside)
    ensures Inv(k, State(o, None, None, None, map[]))
  {
  }

  // ---------- Remote state can outlive the time to live ----------

  /** Nothing to read locally, one remote state to fetch. */
  const BARE := Sources(c => looks => None, c => looks => ProbeFirst, c => looks => None, looks => [], c => 1)

  const MINUTE := 60_000_000

  /** Fetched at once, built half a minute later, and returned from the cache 59 seconds after that. */
  const LATE :=
    [Call(1, false), Proceed(1, 0), Proceed(1, 0), Remote(1, 7), Tick(MINUTE / 2), Scan(1), Proceed(1, 0), Proceed(1, 0),
     Tick(MINUTE - 1_000_000), Call(2, false), Proceed(2, 0)]

  /** The bare sources, one event at a time. */
  function BareAt(i: nat): State
    requires i <= |LATE|
  {
    After(BARE, State(Outside(0, map[], 0), None, None, None, map[]), LATE, i)
  }

  const FETCHED := Work([], [Answer(7, 0)], 0, None)

  lemma BareNext(i: nat)
    requires i < |LATE|
    ensures BareAt(i + 1) == Step(BARE, BareAt(i), LATE[i])
  {
    hide Step;
  }

  /** The first call observes nothing and starts to fetch. */
  lemma BareFetches()
    ensures BareAt(3) == State(Outside(0, map[], 0), None, Some(1), None, map[1 := Fetching(Job(false, 0, 0, 0, 1), 0, [], Work([], [], 0, None))])
  {
    hide BareAt;
    var o := Outside(0, map[], 0);
    BareStart();
    BareNext(0);
    assert BareAt(1) == State(o, None, Some(1), Some(1), map[1 := Observing(Job(false, 0, 0, 0, 0), false, 0, [], map[], Idle)]);
    BareNext(1);
    assert BareAt(2) == State(o, None, Some(1), Some(1), map[1 := Probing(Job(false, 0, 0, 0, 0), Fresh(false, 0), [], 0, map[])]);
    BareNext(2);
  }

  lemma BareStart()
    ensures BareAt(0) == State(Outside(0, map[], 0), None, None, None, map[])
  {
  }

  /** It scans half a minute later. */
  lemma BareScans()
    ensures BareAt(6) == State(Outside(0, map[], MINUTE / 2), None, Some(1), Some(1), map[1 := Scanning(Job(false, 0, 0, 0, 1), 0, [], FETCHED)])
  {
    BareFetches();
    hide BareAt;
    BareNext(3);
    assert [] + [Answer(7, 0)] == [Answer(7, 0)];
    assert BareAt(4).calls == map[1 := Fetching(Job(false, 0, 0, 0, 1), 0, [], FETCHED)];
    BareNext(4);
    BareNext(5);
  }

  lemma BareCaches()
    ensures
      var r := Registry(0, [], [Answer(7, 0)], 0, MINUTE / 2);
      var t := BareAt(8);
      && t.outside == Outside(0, map[], MINUTE / 2) && t.cache == Some(Cached(r, MINUTE / 2, 0, [], map[], true))
      && t.lock.None? && t.busy.None? && t.calls.Keys == {1}
  {
    BareScans();
    hide BareAt;
    BareNext(6);
    assert BareAt(7).calls == map[1 := Probing(Job(false, 0, 0, 0, 1), Final(0, FETCHED), [], 0, map[])];
    BareNext(7);
  }

  /** The second call is answered from the cache with remote state that is 89 seconds old. */
  lemma RemoteOutlivesTtl()
    ensures
      var t := BareAt(11);
      && 2 in t.calls && t.calls[2].Returned? && t.calls[2].registry.answers == [Answer(7, 0)]
      && t.calls[2].job.checked - t.calls[2].registry.answers[0].at > TTL
  {
    BareCaches();
    hide BareAt;
    BareNext(8);
    BareNext(9);
    var now := BareAt(9).outside.clock;
    assert BareAt(10).calls[2] == Probing(Job(false, now, now, 0, 0), Fast, [], 0, map[]);
    BareNext(10);
  }
}
