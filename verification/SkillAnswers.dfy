/** The remote state in a registry: every answer is one that a remote host gave, when it gave it, and there is one for each source. */
module SkillAnswers {
  import opened Common
  import opened SkillFiles
  import opened SkillCache

  function PcAnswers(pc: Pc): seq<Answer> {
    match pc
    case Probing(_, purpose, _, _, _) => if purpose.Final? then purpose.work.answers else []
    case Fetching(_, _, _, work) => work.answers
    case Scanning(_, _, _, work) => work.answers
    case Returned(_, registry, _, _) => registry.answers
    case _ => []
  }

  /** The cache or some call has this answer. */
  ghost predicate HasAnswer(s: State, a: Answer) {
    || (s.cache.Some? && a in s.cache.value.registry.answers)
    || exists id :: id in s.calls && a in PcAnswers(s.calls[id])
  }

  /** An answer comes into the state only when a remote host gives it, as it is and at that time. */
  lemma StepAnswers(k: Sources, s: State, e: Event, a: Answer)
    requires HasAnswer(Step(k, s, e), a)
    ensures HasAnswer(s, a) || (e.Remote? && a == Answer(e.value, s.outside.clock))
  {
    var t := Step(k, s, e);
    match e
    case Proceed(id, torn) => ProceedAnswers(k, s, id, torn, a);
    case Remote(id, value) =>
      if id in s.calls && s.calls[id].Fetching? {
        var was := s.calls[id].work.answers;
        assert forall x :: x in was + [Answer(value, s.outside.clock)] ==> x in was || x == Answer(value, s.outside.clock);
      }
    case _ => hide ProceedStep;
  }

  lemma ProceedAnswers(k: Sources, s: State, id: nat, torn: Content, a: Answer)
    requires HasAnswer(ProceedStep(k, s, id, torn), a)
    ensures HasAnswer(s, a)
  {
    if id in s.calls {
      CallAnswers(k, s, id, torn, a);
      var t := ProceedStep(k, s, id, torn);
      forall x | x in t.calls && x != id ensures x in s.calls && t.calls[x] == s.calls[x] { OthersStay(k, s, id, torn, x); }
      hide ProceedStep;
      if exists x :: x in t.calls && a in PcAnswers(t.calls[x]) {
        var x :| x in t.calls && a in PcAnswers(t.calls[x]);
        if x != id { assert a in PcAnswers(s.calls[x]); }
      }
    }
  }

  /** What the call that goes on has, it had, or the cache had. */
  lemma CallAnswers(k: Sources, s: State, id: nat, torn: Content, a: Answer)
    requires id in s.calls
    ensures
      var t := ProceedStep(k, s, id, torn);
      var had := a in PcAnswers(s.calls[id]) || (s.cache.Some? && a in s.cache.value.registry.answers);
      && (id in t.calls && a in PcAnswers(t.calls[id]) ==> had)
      && (t.cache.Some? && a in t.cache.value.registry.answers ==> had)
  {
    hide Read, At, Noted, EntriesOf, Settled;
  }

  /** The answer was given at some point before. */
  ghost predicate Given(k: Sources, s: State, events: seq<Event>, i: nat, a: Answer)
    requires i <= |events|
  {
    exists j: nat :: j < i && GivenAt(k, s, events, j, a)
  }

  ghost predicate GivenAt(k: Sources, s: State, events: seq<Event>, j: nat, a: Answer)
    requires j < |events|
  {
    events[j].Remote? && events[j].value == a.value && After(k, s, events, j).outside.clock == a.at
  }

  lemma {:induction false} AnswersGiven(k: Sources, s: State, events: seq<Event>, i: nat, a: Answer)
    requires s.calls == map[] && s.cache == None && i <= |events| && HasAnswer(After(k, s, events, i), a)
    ensures Given(k, s, events, i, a)
  {
    hide Step;
    if i > 0 {
      var u := After(k, s, events, i - 1);
      AfterNext(k, s, events, i - 1);
      hide After;
      StepAnswers(k, u, events[i - 1], a);
      if HasAnswer(u, a) {
        AnswersGiven(k, s, events, i - 1, a);
      } else {
        assert GivenAt(k, s, events, i - 1, a);
      }
    }
  }

  // ---------- One for each source ----------

  predicate CountOk(k: Sources, s: State, pc: Pc) {
    match pc
    case Probing(job, purpose, _, _, _) => purpose.Final? ==> |purpose.work.answers| == k.remotes(job.configured)
    case Scanning(job, _, _, work) => |work.answers| == k.remotes(job.configured)
    case Returned(_, registry, _, _) => |registry.answers| == k.remotes(registry.config)
    case _ => true
  }

  ghost predicate CountsOk(k: Sources, s: State) {
    && (s.cache.Some? ==> |s.cache.value.registry.answers| == k.remotes(s.cache.value.registry.config))
    && forall id :: id in s.calls ==> CountOk(k, s, s.calls[id])
  }

  lemma StepCounts(k: Sources, s: State, e: Event)
    requires Inv(k, s) && CountsOk(k, s)
    ensures CountsOk(k, Step(k, s, e))
  {
    match e
    case Proceed(id, torn) =>
      if id in s.calls {
        assert PcOk(k, s, s.calls[id]);
        CallCounts(k, s, id, torn);
        var t := ProceedStep(k, s, id, torn);
        forall x | x in t.calls && x != id ensures x in s.calls && t.calls[x] == s.calls[x] { OthersStay(k, s, id, torn, x); }
        hide ProceedStep, Inv, PcOk;
      }
    case _ => hide ProceedStep, Inv;
  }

  lemma CallCounts(k: Sources, s: State, id: nat, torn: Content)
    requires id in s.calls && PcOk(k, s, s.calls[id]) && CountsOk(k, s)
    ensures
      var t := ProceedStep(k, s, id, torn);
      && (id in t.calls ==> CountOk(k, t, t.calls[id]))
      && (t.cache.Some? ==> |t.cache.value.registry.answers| == k.remotes(t.cache.value.registry.config))
  {
    hide Read, At, Noted, EntriesOf, Settled, WorkStep, Usable, SnapshotOk, Unmoved, Evolves, AllAgree, AnswersOk, Complete;
    if s.calls[id].Probing? { ProbingConfigured(k, s, s.calls[id]); }
    WorkKeepsAnswers(k, s, s.calls[id], torn);
    hide PcOk;
  }

  lemma WorkKeepsAnswers(k: Sources, s: State, pc: Pc, torn: Content)
    ensures pc.Scanning? || pc.Fetching? ==>
              forall plan, m :: WorkStep(plan, m, pc.work, torn).answers == pc.work.answers
  {
  }

  lemma ProbingConfigured(k: Sources, s: State, pc: Pc)
    requires PcOk(k, s, pc) && pc.Probing?
    ensures pc.job.configured == s.outside.config
  {
    hide SnapshotOk, Unmoved, Evolves, AllAgree, AnswersOk, Complete;
  }

  lemma {:induction false} CountsHold(k: Sources, s: State, events: seq<Event>, i: nat)
    requires Faithful(k) && Inv(k, s) && CountsOk(k, s) && i <= |events|
    ensures CountsOk(k, After(k, s, events, i))
  {
    hide Step, Inv, CountsOk, Faithful;
    if i > 0 {
      CountsHold(k, s, events, i - 1);
      EveryState(k, s, events, i - 1);
      StepCounts(k, After(k, s, events, i - 1), events[i - 1]);
    }
  }

  /** A returned registry holds one answer for each remote source of its configuration, each given by a remote host at its time. */
  lemma ReturnedAnswers(k: Sources, s: State, events: seq<Event>, i: nat, id: nat)
    requires Faithful(k) && Inv(k, s) && s.calls == map[] && s.cache == None && i <= |events|
    requires id in After(k, s, events, i).calls && After(k, s, events, i).calls[id].Returned?
    ensures
      var registry := After(k, s, events, i).calls[id].registry;
      |registry.answers| == k.remotes(registry.config) && forall n :: 0 <= n < |registry.answers| ==> Given(k, s, events, i, registry.answers[n])
  {
    hide Inv, Faithful, After, Given;
    CountsHold(k, s, events, i);
    var t := After(k, s, events, i);
    var answers := t.calls[id].registry.answers;
    assert CountOk(k, t, t.calls[id]);
    forall n | 0 <= n < |answers| ensures Given(k, s, events, i, answers[n]) {
      assert answers[n] in PcAnswers(t.calls[id]);
      AnswersGiven(k, s, events, i, answers[n]);
    }
  }
}
