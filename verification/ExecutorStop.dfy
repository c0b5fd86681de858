/** What a stop leaves behind, and when it leaves a run without an end. */
module ExecutorStop {
  import opened Common
  import opened Runs
  import opened Executor
  import opened ExecutorHistory

  ghost predicate NoneRunning(s: Store) { forall id :: id in s && s[id].mode.Async? ==> !s[id].status.Running? }

  // ---------- Before a stop nobody waits to stop ----------

  predicate StopperWake(c: Callback) { c.Wake? && c.gatherer.Stopper? }

  ghost predicate NoStoppers(l: Loop) {
    && (forall i :: 0 <= i < |l.ready| ==> !StopperWake(l.ready[i]))
    && (forall id :: id in l.jobs ==> Stopper !in l.jobs[id].gatherers)
  }

  ghost predicate StoppersOk(w: World) { w.started && w.stopping.None? ==> NoStoppers(w.loop) }

  lemma EndKeepsNoStoppers(l: Loop, id: nat)
    requires NoStoppers(l) && id in l.jobs
    ensures NoStoppers(EndJob(l, id))
  {
    var e, n := EndJob(l, id), |l.ready|;
    forall i | 0 <= i < |e.ready| ensures !StopperWake(e.ready[i]) {
      if i < n { assert e.ready[i] == l.ready[i]; }
      else if i == n { assert e.ready[i] == Completed(id); }
      else { assert e.ready[i] == Wake(id, l.jobs[id].gatherers[i - n - 1]); }
    }
  }

  lemma GiveKeepsNoStoppers(l: Loop, wake: Option<nat>)
    requires NoStoppers(l)
    ensures NoStoppers(GivePermit(l, wake))
  {
    if wake.Some? && wake.value in l.jobs { assert Stopper !in l.jobs[wake.value].gatherers; }
  }

  lemma StepKeepsNoStoppers(l: Loop, id: nat, wait: bool, ssh: SshResult, wake: Option<nat>)
    requires NoStoppers(l)
    ensures NoStoppers(StepJob(l, id, wait, ssh, wake))
  {
    if id in l.jobs {
      EndKeepsNoStoppers(l, id);
      GiveKeepsNoStoppers(EndJob(l, id), wake);
    }
    hide EndJob, GivePermit, Possible;
  }

  lemma StoppersKept(cfg: Config, w: World, a: Action)
    requires StoppersOk(w)
    ensures StoppersOk(Act(cfg, w, a).world)
  {
    match a
    case Submit(_, _, _, _, _) => hide ChooseSlot;
    case JobStep(x, wait, ssh, wake) => if NoStoppers(w.loop) { StepKeepsNoStoppers(w.loop, x, wait, ssh, wake); } hide StepJob, NoStoppers, RecordEnd;
    case RunReady => ReadyLoop(w); ReadyFlags(w); hide ReadyStep;
    case Cancel(_, _) => hide EndRun;
    case Stop => hide StopJobs;
    case LoseOwnership(_) => hide EndIf;
    case ForeignTake(_) =>
    case ForeignDrop(_) =>
  }

  /** Running a callback never starts the executor or forgets a stop without dropping the store. */
  lemma ReadyFlags(w: World)
    ensures var u := ReadyStep(w).world; u.started && u.stopping.None? ==> w.started && w.stopping.None?
  {
    hide EndIf, UnlockLease;
  }

  // ---------- A stop that has jobs to wait for ----------

  /** This job's completion callback comes before any wake-up of the stop. */
  ghost predicate Early(ready: seq<Callback>, id: nat) {
    exists q :: 0 <= q < |ready| && ready[q] == Completed(id) && forall p :: 0 <= p < q ==> !StopperWake(ready[p])
  }

  /** While the stop waits, every job is waited for or completes before the stop can go on; once it is over nothing runs. */
  ghost predicate StopScope(w: World) {
    && (w.started ==>
          w.stopping.Some? && forall id :: id in w.loop.jobs ==> id in w.stopping.value || Early(w.loop.ready, id))
    && (!w.started ==> w.loop.jobs.Keys == {} && NoneRunning(w.store))
  }

  lemma StopBegins(cfg: Config, w: World)
    requires QueueOk(w.loop) && w.started && w.stopping.None? && NoStoppers(w.loop) && LiveIds(w.loop.jobs) != {}
    ensures StopScope(StopStep(w))
  {
    var u := StopStep(w);
    forall id | id in u.loop.jobs ensures id in u.stopping.value || Early(u.loop.ready, id) {
      if w.loop.jobs[id].phase.Done? { assert ScheduledBy(w.loop.ready, id, |w.loop.ready|); }
    }
  }

  lemma EarlyGrows(a: seq<Callback>, b: seq<Callback>, id: nat)
    requires Early(a, id) && |a| <= |b| && forall i :: 0 <= i < |a| ==> b[i] == a[i]
    ensures Early(b, id)
  {
    var q :| 0 <= q < |a| && a[q] == Completed(id) && forall p :: 0 <= p < q ==> !StopperWake(a[p]);
    assert b[q] == Completed(id);
  }

  lemma EarlyShifts(ready: seq<Callback>, id: nat)
    requires Early(ready, id) && ready[0] != Completed(id)
    ensures Early(ready[1..], id) && !StopperWake(ready[0])
  {
    var q :| 0 <= q < |ready| && ready[q] == Completed(id) && forall p :: 0 <= p < q ==> !StopperWake(ready[p]);
    var rest := ready[1..];
    assert forall p :: 0 <= p < |rest| ==> rest[p] == ready[p + 1];
    assert rest[q - 1] == Completed(id) && !StopperWake(ready[0]);
  }

  lemma ReadyKeepsScope(w: World)
    requires QueueOk(w.loop) && RunsOk(w) && Owned(w) && StopScope(w)
    ensures StopScope(ReadyStep(w).world)
  {
    hide QueueOk, RunsOk, Owned, StopScope, Early;
    if w.loop.ready != [] {
      match w.loop.ready[0]
      case Completed(id) => CompletedKeepsScope(w, id); hide ReconcileStep;
      case Wake(id, Canceller(_)) => CancellerKeepsScope(w); hide ReconcileStep;
      case Wake(id, Stopper) =>
        WokenIsTerminal(w);
        StopperKeepsScope(w, id);
        hide ReconcileStep, StopProgress;
    }
  }

  lemma CompletedKeepsScope(w: World, id: nat)
    requires w.loop.ready != [] && w.loop.ready[0] == Completed(id) && StopScope(w)
    ensures StopScope(ReconcileStep(w.(loop := w.loop.(ready := w.loop.ready[1..])), id))
  {
    hide UnlockLease, EndIf, Early;
    EndIfEffect(w.started, w.store, id, UnknownOutcome, Some(LOST));
    forall x | x in w.loop.jobs && x != id && Early(w.loop.ready, x) ensures Early(w.loop.ready[1..], x) { EarlyShifts(w.loop.ready, x); }
  }

  lemma CancellerKeepsScope(w: World)
    requires w.loop.ready != [] && !w.loop.ready[0].Completed? && StopScope(w)
    ensures StopScope(w.(loop := w.loop.(ready := w.loop.ready[1..])))
  {
    hide Early;
    forall x | x in w.loop.jobs && Early(w.loop.ready, x) ensures Early(w.loop.ready[1..], x) { EarlyShifts(w.loop.ready, x); }
  }

  /** The stop is woken: whatever job is left is one it waits for. */
  lemma StopperKeepsScope(w: World, id: nat)
    requires w.loop.ready != [] && w.loop.ready[0] == Wake(id, Stopper) && id !in w.loop.jobs && Owned(w) && StopScope(w)
    ensures StopScope(StopProgress(w.(loop := w.loop.(ready := w.loop.ready[1..])), id))
  {
    hide Early;
    forall x | x in w.loop.jobs ensures !Early(w.loop.ready, x) {
      if Early(w.loop.ready, x) { EarlyShifts(w.loop.ready, x); }
    }
    assert w.started ==> forall x :: x in w.loop.jobs ==> x in w.stopping.value - {id};
  }

  lemma ActKeepsScope(cfg: Config, w: World, a: Action)
    requires QueueOk(w.loop) && RunsOk(w) && Owned(w) && StopScope(w) && !a.Submit?
    ensures StopScope(Act(cfg, w, a).world)
  {
    match a
    case JobStep(x, wait, ssh, wake) => StepKeepsScope(w, x, wait, ssh, wake); hide JobStepped, QueueOk, RunsOk, StopScope;
    case RunReady => ReadyKeepsScope(w); hide QueueOk, RunsOk, StopScope, ReadyStep;
    case Cancel(_, x) => hide QueueOk, RunsOk, EndRun, Early; if w.started { EndIfEffect(true, w.store, x, Interrupted, Some(LOST)); }
    case Stop => hide QueueOk, RunsOk, Early;
    case LoseOwnership(x) => hide QueueOk, RunsOk, Early, EndIf; EndIfEffect(w.started, w.store, x, UnknownOutcome, Some(LOST));
    case ForeignTake(_) => hide QueueOk, RunsOk, Early;
    case ForeignDrop(_) => hide QueueOk, RunsOk, Early;
  }

  lemma StepKeepsScope(w: World, x: nat, wait: bool, ssh: SshResult, wake: Option<nat>)
    requires StopScope(w)
    ensures StopScope(JobStepped(w, x, wait, ssh, wake))
  {
    var u := JobStepped(w, x, wait, ssh, wake);
    StepEffect(w.loop, x, wait, ssh, wake);
    hide StepJob, RecordEnd, Early;
    forall id | id in w.loop.jobs && Early(w.loop.ready, id) ensures Early(u.loop.ready, id) { EarlyGrows(w.loop.ready, u.loop.ready, id); }
  }

  // ---------- A stop that has nothing to wait for ----------

  ghost predicate AllDone(jobs: map<nat, Job>) { forall id :: id in jobs ==> jobs[id].phase.Done? }

  /** Once the store is dropped nothing is recorded any more, and done jobs only leave. */
  lemma DroppedKeeps(cfg: Config, w: World, a: Action)
    requires !w.started && !a.Submit?
    ensures var u := Act(cfg, w, a).world; !u.started && u.store == w.store && (AllDone(w.loop.jobs) ==> AllDone(u.loop.jobs))
  {
    match a
    case JobStep(x, wait, ssh, wake) => StepEffect(w.loop, x, wait, ssh, wake); hide StepJob;
    case RunReady => hide UnlockLease;
    case Cancel(_, _) =>
    case Stop =>
    case LoseOwnership(_) =>
    case ForeignTake(_) =>
    case ForeignDrop(_) =>
  }

  lemma {:induction false} DroppedStays(cfg: Config, w: World, actions: seq<Action>, i: nat, j: nat)
    requires i <= j <= |actions| && !After(cfg, w, actions, i).started && AllDone(After(cfg, w, actions, i).loop.jobs)
    requires forall k :: i <= k < j ==> !actions[k].Submit?
    ensures var u := After(cfg, w, actions, j);
            !u.started && u.store == After(cfg, w, actions, i).store && AllDone(u.loop.jobs)
  {
    hide After, Act, AllDone;
    if i < j {
      DroppedStays(cfg, w, actions, i, j - 1);
      AfterNext(cfg, w, actions, j - 1);
      DroppedKeeps(cfg, After(cfg, w, actions, j - 1), actions[j - 1]);
    }
  }

  // ---------- Every stop ----------

  /** A stop with something to wait for stays in scope until it is over, and afterwards. */
  lemma {:induction false} ScopeKept(cfg: Config, w: World, actions: seq<Action>, i: nat, j: nat)
    requires Inv(cfg, w) && Owned(w) && StoppersOk(w) && FreshIds(cfg, w, actions) && NeverOrphans(cfg, w, actions) && i < j <= |actions|
    requires After(cfg, w, actions, i).started && After(cfg, w, actions, i).stopping.None? && actions[i].Stop?
    requires LiveIds(After(cfg, w, actions, i).loop.jobs) != {} && forall k :: i <= k < j ==> !actions[k].Submit?
    ensures StopScope(After(cfg, w, actions, j))
  {
    hide After, LocksOk, PermitsOk, QueueOk, RunsOk, LeasesOwned, Owned, StopScope, Act, NeverOrphans, FreshIds, StopStep;
    EveryState(cfg, w, actions, j - 1);
    AfterNext(cfg, w, actions, j - 1);
    if i == j - 1 {
      StoppersAlways(cfg, w, actions, i);
      StopBegins(cfg, After(cfg, w, actions, i));
      StopIsStep(cfg, After(cfg, w, actions, i));
    } else {
      ScopeKept(cfg, w, actions, i, j - 1);
      ActKeepsScope(cfg, After(cfg, w, actions, j - 1), actions[j - 1]);
    }
  }

  lemma {:induction false} StoppersAlways(cfg: Config, w: World, actions: seq<Action>, i: nat)
    requires StoppersOk(w) && i <= |actions|
    ensures StoppersOk(After(cfg, w, actions, i))
  {
    hide StoppersOk, Act;
    if i > 0 {
      StoppersAlways(cfg, w, actions, i - 1);
      StoppersKept(cfg, After(cfg, w, actions, i - 1), actions[i - 1]);
    }
  }

  lemma StopIsStep(cfg: Config, w: World)
    ensures Act(cfg, w, Stop).world == StopStep(w)
  {
  }

  /**
   * When a stop with no later submission is over, no asynchronous run is left running iff the stop had a job to wait for, or the
   * run of every job that was already done had been published as ended.
   */
  lemma StopLeavesNothingIff(cfg: Config, w: World, actions: seq<Action>, i: nat, j: nat)
    requires Inv(cfg, w) && Owned(w) && StoppersOk(w) && FreshIds(cfg, w, actions) && NeverOrphans(cfg, w, actions) && i < j <= |actions|
    requires After(cfg, w, actions, i).started && After(cfg, w, actions, i).stopping.None? && actions[i].Stop?
    requires (forall k :: i <= k < j ==> !actions[k].Submit?) && !After(cfg, w, actions, j).started
    ensures
      var u := After(cfg, w, actions, i);
      NoneRunning(After(cfg, w, actions, j).store)
      <==> LiveIds(u.loop.jobs) != {} || forall id :: id in u.loop.jobs ==> !IsRunning(u.store, id)
  {
    hide After, LocksOk, PermitsOk, QueueOk, RunsOk, LeasesOwned, StopScope, Act, NeverOrphans, FreshIds, NoneRunning;
    var u := After(cfg, w, actions, i);
    if LiveIds(u.loop.jobs) != {} {
      ScopeKept(cfg, w, actions, i, j);
      OverMeansNone(After(cfg, w, actions, j));
    } else {
      EveryState(cfg, w, actions, i);
      AfterNext(cfg, w, actions, i);
      StopIsStep(cfg, u);
      assert forall id :: id in u.loop.jobs && !u.loop.jobs[id].phase.Done? ==> id in LiveIds(u.loop.jobs);
      DroppedStays(cfg, w, actions, i + 1, j);
      OwnedRunning(u);
    }
  }

  lemma OverMeansNone(w: World)
    requires StopScope(w) && !w.started
    ensures NoneRunning(w.store)
  {
  }

  /** What runs is owned, so nothing runs iff no job's run does. */
  lemma OwnedRunning(u: World)
    requires Owned(u) && RunsOk(u) && u.started
    ensures NoneRunning(u.store) <==> forall id :: id in u.loop.jobs ==> !IsRunning(u.store, id)
  {
  }

  /** After a stop the last callbacks release everything: with the queue empty no job, no slot and no permit is held. */
  lemma StopReleasesAll(cfg: Config, w: World, actions: seq<Action>, i: nat, j: nat)
    requires Inv(cfg, w) && Owned(w) && StoppersOk(w) && FreshIds(cfg, w, actions) && NeverOrphans(cfg, w, actions) && i < j <= |actions|
    requires After(cfg, w, actions, i).started && After(cfg, w, actions, i).stopping.None? && actions[i].Stop?
    requires (forall k :: i <= k < j ==> !actions[k].Submit?) && !After(cfg, w, actions, j).started
    requires After(cfg, w, actions, j).loop.ready == []
    ensures var u := After(cfg, w, actions, j);
            u.loop.jobs.Keys == {} && u.locks.leases.Keys == {} && u.locks.acquired == u.locks.released && u.loop.permits == cfg.maxConcurrency
  {
    hide After, LocksOk, PermitsOk, QueueOk, RunsOk, LeasesOwned, StopScope, Act, NeverOrphans, FreshIds, NoneRunning, AllDone;
    var u := After(cfg, w, actions, i);
    EveryState(cfg, w, actions, j);
    if LiveIds(u.loop.jobs) != {} {
      ScopeKept(cfg, w, actions, i, j);
      EmptyHoldsNothing(cfg, After(cfg, w, actions, j));
    } else {
      AfterNext(cfg, w, actions, i);
      StopIsStep(cfg, u);
      NoneLive(u.loop.jobs);
      DroppedStays(cfg, w, actions, i + 1, j);
      EmptyHoldsNothing(cfg, After(cfg, w, actions, j));
    }
  }

  lemma NoneLive(jobs: map<nat, Job>)
    requires LiveIds(jobs) == {}
    ensures AllDone(jobs)
  {
    assert forall id :: id in jobs && !jobs[id].phase.Done? ==> id in LiveIds(jobs);
  }

  lemma EmptyHoldsNothing(cfg: Config, w: World)
    requires Inv(cfg, w) && w.loop.ready == [] && !w.started && (StopScope(w) || AllDone(w.loop.jobs))
    ensures w.loop.jobs.Keys == {} && w.locks.leases.Keys == {} && w.locks.acquired == w.locks.released && w.loop.permits == cfg.maxConcurrency
  {
    hide RunsOk;
    assert forall id :: !ScheduledBy(w.loop.ready, id, 0);
    assert w.loop.jobs.Keys == {};
    assert Holders(w.loop.jobs) == {};
  }

  // ---------- A stop that comes too early ----------

  const ONE := Config(1, map[])

  /** A run is cancelled in the queue; its job is done, its completion callback is not. The stop drops the store before it. */
  const TOO_EARLY := [Submit(1, "t", false, false, NoFault), Cancel(7, 1), JobStep(1, false, CancelledInside, None), Stop, RunReady]

  lemma StopComesTooEarly()
    ensures
      var w := StartWorld(ONE, map[], {});
      && Inv(ONE, w) && Owned(w) && StoppersOk(w)
      && !After(ONE, w, TOO_EARLY, 5).started && After(ONE, w, TOO_EARLY, 5).loop.jobs.Keys == {}
      && IsRunning(After(ONE, w, TOO_EARLY, 5).store, 1)
  {
    var w := StartWorld(ONE, map[], {});
    StartInv(ONE, map[], {});
    hide Inv;
    var jobs := map[1 := Job(Done, true, [])];
    var w1 := After(ONE, w, TOO_EARLY, 1);
    assert w1 == w.(store := map[1 := NewRun], loop := Loop(map[1 := NewJob], 1, []));
    var w2 := After(ONE, w, TOO_EARLY, 2);
    assert w2 == w1.(reasons := map[1 := EXPLICIT], loop := Loop(map[1 := Asked(NewJob, 7)], 1, []));
    var w3 := After(ONE, w, TOO_EARLY, 3);
    assert w3.loop.jobs == jobs && w3.loop.ready[0] == Completed(1) && w3.store == w1.store;
    assert LiveIds(w3.loop.jobs) == {};
    var w4 := After(ONE, w, TOO_EARLY, 4);
    assert w4 == w3.(started := false);
    assert jobs - {1} == map[];
  }
}
