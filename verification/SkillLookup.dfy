/** The locked lookup of the skill registry, over files that other processes edit at any point. */
module SkillLookup {
  import opened Common
  import opened SkillFiles
  import opened SkillSnapshot
  import opened SkillCache

  /** Everything the environment decides during one lookup; n counts the operations of the lookup. */
  datatype World = World(
    others: nat -> Others, remote: nat -> nat, elapsed: nat -> nat, configurations: nat -> seq<Configuration>, limit: nat -> nat,
    failed: nat -> bool)

  /** Nobody edits, nobody configures the server again, and no fetch fails. */
  ghost predicate Calm(w: World) { forall n :: Still(w.others(n)) && w.configurations(n) == [] && !w.failed(n) }

  /** The answers are what the remote hosts gave from the n-th operation on, one for each. */
  ghost predicate AnsweredFrom(w: World, n: nat, answers: seq<Answer>) { forall i :: 0 <= i < |answers| ==> answers[i].value == w.remote(n + i) }

  /** A build of these files can be read to the end. */
  ghost predicate Readable(k: Sources, c: Configuration, m: FileMap, limit: nat) { exists all :: Built(k, c, m, all) && |all| <= limit }

  class RegistryCache {
    const k: Sources
    const disk: Files
    var config: Configuration
    var clock: int
    var cache: Option<Cached>

    ghost predicate Valid()
      reads this, disk
    {
      cache.Some? ==> CachedOk(k, cache.value, Outside(config, disk.files, clock))
    }

    constructor (k: Sources, disk: Files, config: Configuration, clock: int)
      ensures Valid() && this.k == k && this.disk == disk && cache == None && this.config == config && this.clock == clock
    {
      this.k, this.disk, this.config, this.clock, cache := k, disk, config, clock, None;
    }

    /** The cached registry stays comparable while files and time move on. */
    lemma StaysValid(c: Cached, a: Outside, b: Outside)
      requires CachedOk(k, c, a) && Evolves(a.files, b.files) && a.clock <= b.clock
      ensures CachedOk(k, c, b)
    {
      CacheMoves(k, c, a, b.(config := a.config));
      hide SnapshotOk, Fits, Shows, AnswersOk, Settled;
    }

    /** Wait for remote state: time passes, other processes edit, and the server may be configured again, which drops the cache. */
    method Await(w: World, n: nat)
      requires Valid()
      modifies this`config, this`clock, this`cache, disk
      ensures Valid() && Evolves(old(disk.files), disk.files) && old(clock) <= clock && (cache == old(cache) || cache == None)
      ensures Calm(w) ==> disk.files == old(disk.files) && config == old(config) && cache == old(cache)
    {
      hide Evolves, CachedOk;
      assert Calm(w) ==> w.others(n).edits(0) == [];
      disk.Meanwhile(w.others(n).edits(0));
      if cache.Some? { StaysValid(cache.value, Outside(config, old(disk.files), clock), Outside(config, disk.files, clock + w.elapsed(n))); }
      clock := clock + w.elapsed(n);
      var next := w.configurations(n);
      if next != [] {
        config, cache := next[|next| - 1], None;
      }
    }

    /** One answer for each remote source of the configuration the build began with; a fetch may fail. */
    method Fetch(w: World, n: nat, configured: Configuration, ghost known: seq<Entry>) returns (answers: Option<seq<Answer>>)
      requires Valid() && AllTrack(known, disk.files)
      modifies this`config, this`clock, this`cache, disk
      ensures Valid() && Evolves(old(disk.files), disk.files) && old(clock) <= clock && (cache == old(cache) || cache == None)
      ensures AllTrack(known, disk.files)
      ensures answers.Some? ==> |answers.value| == k.remotes(configured) && AnswersOk(answers.value, old(clock), clock)
      ensures answers.Some? ==> AnsweredFrom(w, n, answers.value)
      ensures Calm(w) ==> answers.Some? && disk.files == old(disk.files) && config == old(config) && cache == old(cache)
    {
      var got: seq<Answer> := [];
      EvolvesSame(disk.files);
      for i := 0 to k.remotes(configured)
        invariant Valid() && Evolves(old(disk.files), disk.files) && old(clock) <= clock && (cache == old(cache) || cache == None)
        invariant |got| == i && AnswersOk(got, old(clock), clock) && AllTrack(known, disk.files) && AnsweredFrom(w, n, got)
        invariant Calm(w) ==> disk.files == old(disk.files) && config == old(config) && cache == old(cache)
      {
        hide Evolves, CachedOk, AllTrack, Still;
        label Start:
        Await(w, n + i);
        EvolvesTwice(old(disk.files), old@Start(disk.files), disk.files);
        TracksLater(known, old@Start(disk.files), disk.files);
        if w.failed(n + i) { return None; }
        got := got + [Answer(w.remote(n + i), clock)];
      }
      return Some(got);
    }

    /** Whatever else the files went through, the cache kept its own invariant. */
    lemma KeepsCache(before: FileMap)
      requires (cache.Some? ==> CachedOk(k, cache.value, Outside(config, before, clock))) && Evolves(before, disk.files)
      ensures Valid()
    {
      hide CachedOk, Evolves;
      if cache.Some? { StaysValid(cache.value, Outside(config, before, clock), Outside(config, disk.files, clock)); }
    }

    /**
     * One build from a snapshot taken before: fetch, scan, and keep the result only if the configuration is the one the build began
     * with and no path of the snapshot has moved. It fails if something raises; None without failure asks for another attempt.
     */
    method Attempt(w: World, n: nat, limit: nat, configured: Configuration, snapshot: seq<Entry>)
      returns (r: Option<Registry>, failed: bool, moment: FileMap)
      requires Faithful(k) && Valid() && SnapshotOk(k, configured, snapshot, disk.files) && n >= 2
      modifies this`config, this`clock, this`cache, disk
      ensures Valid() && old(clock) <= clock && Evolves(old(disk.files), moment) && Evolves(moment, disk.files) && !(failed && r.Some?)
      ensures r.Some? ==> cache.Some? && cache.value.registry == r.value && r.value.builtAt == clock && old(clock) <= r.value.startedAt
      ensures r.Some? ==> r.value.config == config && cache.value.settled == Settled(cache.value.snapshot)
      ensures r.Some? && cache.value.settled ==> Built(k, config, moment, r.value.looks)
      ensures r.Some? ==> AnswersOk(r.value.answers, r.value.startedAt, clock)
      ensures r.Some? ==> |r.value.answers| == k.remotes(config) && AnsweredFrom(w, n, r.value.answers)
      ensures r.None? ==> cache == old(cache) || cache == None
      ensures Calm(w) ==> disk.files == old(disk.files) && config == old(config)
      ensures Calm(w) && config == configured && Unmoved(snapshot, |snapshot|, disk.files) && Readable(k, config, disk.files, limit) ==> r.Some?
    {
      hide Evolves, CachedOk, AllTrack, AllAgree, Complete, Unmoved, AnswersOk, Faithful, Fits, Shows, Settled, Still;
      var startedAt := clock;
      var answers := Fetch(w, n, configured, snapshot);
      moment := disk.files;
      EvolvesSame(disk.files);
      CalmNow(w, n - 1);
      CalmNow(w, n - 2);
      hide Calm;
      if answers.None? { return None, true, moment; }
      label Scan:
      var looks := disk.Build(k.build(config), w.others(n - 1), limit, snapshot);
      KeepsCache(old@Scan(disk.files));
      EvolvesTwice(old(disk.files), old@Scan(disk.files), disk.files);
      moment := disk.files;
      EvolvesSame(disk.files);
      if looks.None? { return None, true, moment; }
      if config != configured { return None, false, moment; }
      label Check:
      var same := disk.Recheck(snapshot, w.others(n - 2));
      KeepsCache(old@Check(disk.files));
      if !same { return None, false, moment; }
      var registry := Registry(config, looks.value, answers.value, startedAt, clock);
      if Settled(snapshot) {
        FitsByBuild(k, config, registry, snapshot, moment);
        SettledLooks(snapshot);
        FitsNow(k, registry, snapshot, moment);
      }
      cache := Some(Cached(registry, clock, config, snapshot, moment, Settled(snapshot)));
      CachedNow(k, cache.value, Outside(config, disk.files, clock));
      return Some(registry), false, moment;
    }

    lemma CalmNow(w: World, n: nat)
      ensures Calm(w) ==> Still(w.others(n))
    {
    }

    /**
     * Build twice at most, each time from a snapshot taken before. If that snapshot is settled, the result is the build of one
     * moment. If nobody interferes, the first attempt succeeds wherever the files can be read to the end.
     */
    method BuildFrom(w: World, first: seq<Entry>, ghost start: FileMap)
      returns (r: Option<Registry>, builds: nat, moment: FileMap)
      requires Faithful(k) && Valid() && SnapshotOk(k, config, first, disk.files) && Evolves(start, disk.files)
      modifies this`config, this`clock, this`cache, disk
      ensures Valid() && 1 <= builds <= 2 && old(clock) <= clock && Evolves(start, moment) && Evolves(moment, disk.files)
      ensures r.Some? ==> cache.Some? && cache.value.registry == r.value && r.value.builtAt == clock && old(clock) <= r.value.startedAt
      ensures r.Some? ==> r.value.config == config && cache.value.settled == Settled(cache.value.snapshot)
      ensures r.Some? && cache.value.settled ==> Built(k, config, moment, r.value.looks)
      ensures r.Some? ==> AnswersOk(r.value.answers, r.value.startedAt, clock)
      ensures r.Some? ==> |r.value.answers| == k.remotes(config) && AnsweredFrom(w, 100_000 * builds, r.value.answers)
      ensures r.None? ==> cache == old(cache) || cache == None
      ensures Calm(w) && Unmoved(first, |first|, old(disk.files)) && Readable(k, old(config), old(disk.files), w.limit(1)) ==> r.Some? && builds == 1
    {
      hide Evolves, CachedOk, AllTrack, Complete, Unmoved, AnswersOk, Faithful, Shows, Settled, ProbesAll, Readable, Calm, Built, AnsweredFrom,
        Affordable;
      builds := 1;
      var failed;
      r, failed, moment := Attempt(w, 100_000, w.limit(1), config, first);
      EvolvesTwice(start, old(disk.files), moment);
      if r.Some? || failed { return; }
      label Again:
      EvolvesTwice(start, moment, disk.files);
      ProbesNow(k, config);
      var taken, between := disk.Snapshot(k.observe(config), k.order(config), w.others(99_997), w.others(99_996), w.limit(100_000));
      EvolvesTwice(old@Again(disk.files), between, disk.files);
      KeepsCache(old@Again(disk.files));
      EvolvesTwice(start, old@Again(disk.files), disk.files);
      moment := disk.files;
      EvolvesSame(disk.files);
      if taken.None? { return; }
      label Second:
      builds := 2;
      r, failed, moment := Attempt(w, 200_000, w.limit(2), config, taken.value);
      EvolvesTwice(start, old@Second(disk.files), moment);
    }

    /** Take a snapshot; keep the cached registry if it is usable and the fingerprint is the old one, and build otherwise. */
    method Renew(w: World, usable: bool) returns (r: Option<Registry>, builds: nat, moment: FileMap)
      requires Faithful(k) && Valid() && (usable ==> cache.Some? && cache.value.signature == config && clock - cache.value.at < TTL)
      modifies this`config, this`clock, this`cache, disk
      ensures Valid() && builds <= 2 && old(clock) <= clock && Evolves(old(disk.files), moment) && Evolves(moment, disk.files)
      ensures r.Some? ==> cache.Some? && cache.value.registry == r.value && r.value.config == config
      ensures r.Some? && cache.value.settled ==> Built(k, config, moment, r.value.looks)
      ensures r.Some? ==> (cache.value.settled <==> Settled(cache.value.snapshot) && (builds > 0 || (usable && old(cache).value.settled)))
      ensures r.None? ==> cache == old(cache) || cache == None
      ensures r.Some? ==> AnswersOk(r.value.answers, r.value.startedAt, r.value.builtAt)
      ensures r.Some? && builds == 0 ==> usable && r.value == old(cache).value.registry && old(clock) - r.value.builtAt < TTL
      ensures r.Some? && builds > 0 ==> r.value.builtAt == clock && old(clock) <= r.value.startedAt
      ensures r.Some? && builds > 0 ==> |r.value.answers| == k.remotes(config) && AnsweredFrom(w, 100_000 * builds, r.value.answers)
      ensures Calm(w) && Renewable(k, w, old(config), old(disk.files)) ==> r.Some?
    {
      hide Evolves, CachedOk, AllTrack, Complete, Unmoved, AnswersOk, Faithful, Fits, Settled, ProbesAll, Still, Affordable, Readable, Built,
        AnsweredFrom;
      ProbesNow(k, config);
      CalmNow(w, 1);
      CalmNow(w, 2);
      hide Calm;
      var snapshot, between := disk.Snapshot(k.observe(config), k.order(config), w.others(1), w.others(2), w.limit(0));
      EvolvesTwice(old(disk.files), between, disk.files);
      KeepsCache(old(disk.files));
      moment, builds := between, 0;
      if snapshot.None? { return None, 0, moment; }
      if usable && k.fingerprint(LooksOf(snapshot.value)) == k.fingerprint(LooksOf(cache.value.snapshot)) {
        var o := Outside(config, disk.files, clock);
        CachedFacts(k, cache.value, o);
        if cache.value.settled && Settled(snapshot.value) {
          FitsByFingerprint(k, cache.value, o, snapshot.value);
          CompleteRead(k.observe(config), moment, LooksOf(snapshot.value));
          FitsNow(k, cache.value.registry, snapshot.value, moment);
        }
        cache := Some(CarriedOver(cache.value, snapshot.value, moment));
        CachedNow(k, cache.value, o);
        return Some(cache.value.registry), 0, moment;
      }
      r, builds, moment := BuildFrom(w, snapshot.value, old(disk.files));
    }

    /**
     * Under the lock: reuse the cache if it is still right, by its probes or by its fingerprint, and build otherwise. A registry
     * that is returned is the build of the files of one single moment of the call, if it is settled: if in the snapshot it was built
     * from, and in every snapshot it was carried over to, each path still held at its first probe what was read of it. If nobody
     * interferes, a cached registry that may be reused is returned without a build, and a lookup whose files can be read succeeds.
     */
    method Lookup(refresh: bool, w: World) returns (r: Option<Registry>, builds: nat, moment: FileMap)
      requires Faithful(k) && Valid()
      modifies this`config, this`clock, this`cache, disk
      ensures Valid() && builds <= 2 && old(clock) <= clock && Evolves(old(disk.files), moment) && Evolves(moment, disk.files)
      ensures r.Some? ==> cache.Some? && cache.value.registry == r.value && r.value.config == config
      ensures r.Some? && cache.value.settled ==> Built(k, config, moment, r.value.looks)
      ensures r.Some? ==>
        (cache.value.settled <==> Settled(cache.value.snapshot) && (builds > 0 || (old(cache).Some? && old(cache).value.settled)))
      ensures r.None? ==> cache == old(cache) || cache == None
      ensures refresh && r.Some? ==> builds >= 1 && old(clock) <= r.value.startedAt
      ensures r.Some? ==> AnswersOk(r.value.answers, r.value.startedAt, r.value.builtAt)
      ensures r.Some? ==> (builds == 0 && old(clock) - r.value.builtAt < TTL) || r.value.builtAt == clock
      ensures r.Some? && builds == 0 ==> !refresh && old(cache).Some? && r.value == old(cache).value.registry
      ensures r.Some? && builds > 0 ==> |r.value.answers| == k.remotes(config) && AnsweredFrom(w, 100_000 * builds, r.value.answers)
      ensures Calm(w) && Reusable(refresh, old(cache), old(config), old(clock), old(disk.files)) ==> r.Some? && builds == 0
      ensures Calm(w) && Renewable(k, w, old(config), old(disk.files)) ==> r.Some?
    {
      hide Evolves, CachedOk, AllTrack, Complete, Unmoved, AnswersOk, Faithful, Fits, Settled, Still, Renewable, Built, AnsweredFrom;
      builds, moment := 0, disk.files;
      EvolvesSame(disk.files);
      CalmNow(w, 0);
      hide Calm;
      var usable := !refresh && cache.Some? && cache.value.signature == config && clock - cache.value.at < TTL;
      if usable {
        CachedFacts(k, cache.value, Outside(config, disk.files, clock));
        var same := disk.Recheck(cache.value.snapshot, w.others(0));
        KeepsCache(old(disk.files));
        if same {
          if cache.value.settled {
            SettledLooks(cache.value.snapshot);
            FitsNow(k, cache.value.registry, cache.value.snapshot, moment);
          }
          return Some(cache.value.registry), 0, moment;
        }
      }
      label Observe:
      r, builds, moment := Renew(w, usable);
      EvolvesTwice(old(disk.files), old@Observe(disk.files), moment);
    }
  }

  /** The files can be observed within the limits, and read to the end. */
  ghost predicate Renewable(k: Sources, w: World, config: Configuration, m: FileMap) {
    Affordable(k.observe(config), k.order(config), m, w.limit(0)) && Readable(k, config, m, w.limit(1))
  }

  /** The cached registry may be used: no refresh asked for, same configuration, young enough, and no path of its snapshot moved. */
  ghost predicate Reusable(refresh: bool, c: Option<Cached>, config: Configuration, clock: int, m: FileMap) {
    !refresh && c.Some? && c.value.signature == config && clock - c.value.at < TTL && Unmoved(c.value.snapshot, |c.value.snapshot|, m)
  }

  lemma CompleteRead(plan: Plan, m: FileMap, looks: seq<Look>)
    requires ReadOf(plan, m, looks)
    ensures Complete(plan, looks) && Shows(m, looks)
  {
  }

  lemma FitsNow(k: Sources, r: Registry, entries: seq<Entry>, m: FileMap)
    requires Fits(k, r, entries) && Shows(m, LooksOf(entries))
    ensures Built(k, r.config, m, r.looks)
  {
    hide Shows, Built;
  }

  lemma CachedFacts(k: Sources, c: Cached, o: Outside)
    requires CachedOk(k, c, o)
    ensures c.registry.config == c.signature && c.registry.builtAt == c.at <= o.clock && AllTrack(c.snapshot, o.files)
    ensures c.settled ==> Settled(c.snapshot) && Fits(k, c.registry, c.snapshot)
    ensures AnswersOk(c.registry.answers, c.registry.startedAt, c.at)
    ensures c.registry.startedAt <= c.registry.builtAt && Complete(k.observe(c.signature), LooksOf(c.snapshot))
  {
  }

  lemma CachedNow(k: Sources, c: Cached, o: Outside)
    requires c.registry.config == c.signature && c.registry.startedAt <= c.registry.builtAt == c.at <= o.clock
    requires Complete(k.observe(c.signature), LooksOf(c.snapshot)) && AllTrack(c.snapshot, o.files)
    requires c.settled ==> Settled(c.snapshot) && Shows(c.moment, LooksOf(c.snapshot)) && Fits(k, c.registry, c.snapshot)
    requires AnswersOk(c.registry.answers, c.registry.startedAt, c.at)
    ensures CachedOk(k, c, o)
  {
  }

  lemma ProbesNow(k: Sources, c: Configuration)
    requires Faithful(k)
    ensures ProbesAll(k.observe(c), k.order(c))
  {
    hide ProbesAll, Covers, Fingerprints;
  }
}
