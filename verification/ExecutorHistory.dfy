/** What the executor guarantees over whole runs of its event loop. */
module ExecutorHistory {
  import opened Common
  import opened Runs
  import RunStores
  import opened Executor

  // ---------- Limits ----------

  ghost predicate Under(s: set<nat>, k: nat) { forall i :: i in s ==> i < k }

  lemma {:induction false} BoundedSet(s: set<nat>, k: nat)
    requires Under(s, k)
    ensures |s| <= k
  {
    if k == 0 {
      assert s == {};
    } else {
      BoundedSet(s - {k - 1}, k - 1);
      assert |s| <= |s - {k - 1}| + 1 by { if k - 1 in s { assert s == (s - {k - 1}) + {k - 1}; } else { assert s == s - {k - 1}; } }
    }
  }

  function HeavyOn(k: Locks, target: string): set<nat> { set id | id in k.leases && k.leases[id].target == target }

  /** A limited target never has more heavy runs at once than its limit. */
  lemma {:induction false} TargetLimit(cfg: Config, k: Locks, target: string, ids: set<nat>)
    requires LocksOk(cfg, k) && target in cfg.heavyLimits && ids <= HeavyOn(k, target)
    ensures |ids| <= cfg.heavyLimits[target]
  {
    var slots := set id | id in ids :: k.leases[id].index;
    SameSize(k, target, ids, slots);
    BoundedSet(slots, cfg.heavyLimits[target]);
  }

  lemma {:induction false} SameSize(k: Locks, target: string, ids: set<nat>, slots: set<nat>)
    requires Injective(k.leases) && ids <= HeavyOn(k, target) && slots == set id | id in ids :: k.leases[id].index
    ensures |slots| == |ids|
    decreases ids
  {
    if ids != {} {
      var x :| x in ids;
      var i := k.leases[x].index;
      assert i in slots;
      forall id | id in ids - {x} ensures k.leases[id].index != i {
        assert k.leases[id] == k.leases[x] ==> id == x;
      }
      assert slots - {i} == set id | id in ids - {x} :: k.leases[id].index;
      SameSize(k, target, ids - {x}, slots - {i});
    }
  }

  /** At most max_concurrency executions hold a permit at once. */
  lemma ConcurrencyLimit(cfg: Config, w: World)
    requires Inv(cfg, w)
    ensures |Holders(w.loop.jobs)| <= cfg.maxConcurrency
  {
  }

  /** An idle executor has every permit back, holds no slot, has released what it acquired, and runs nothing. */
  lemma IdleHoldsNothing(cfg: Config, w: World)
    requires Inv(cfg, w) && Owned(w) && w.loop.jobs == map[]
    ensures w.locks.leases == map[] && w.locks.locked == w.locks.foreign && w.locks.acquired == w.locks.released
    ensures w.loop.permits == cfg.maxConcurrency
    ensures w.started ==> forall id :: id in w.store && w.store[id].mode.Async? ==> !w.store[id].status.Running?
  {
    assert w.locks.leases.Keys == {};
    assert Holders(w.loop.jobs) == {};
    assert Image(w.locks.leases) == {};
  }

  // ---------- A run that ended stays as it is ----------

  lemma TerminalFrozen(cfg: Config, w: World, a: Action, id: nat)
    requires FreshId(w, a) && id in w.store && !IsRunning(w.store, id)
    ensures id in Act(cfg, w, a).world.store && Act(cfg, w, a).world.store[id] == w.store[id]
  {
    match a
    case Submit(_, _, _, _, _) => hide ChooseSlot;
    case JobStep(x, wait, ssh, wake) =>
      if EndsExecution(w.loop, x, ssh) { RecordEffect(w.started, w.store, w.reasons, x, ssh); }
      hide RecordEnd, StepJob;
    case RunReady =>
      if w.loop.ready != [] { EndIfEffect(w.started, w.store, w.loop.ready[0].id, UnknownOutcome, Some(LOST)); }
      hide EndIf;
    case Cancel(_, x) => EndIfEffect(true, w.store, x, Interrupted, Some(LOST)); hide EndRun;
    case Stop =>
    case LoseOwnership(x) => EndIfEffect(w.started, w.store, x, UnknownOutcome, Some(LOST)); hide EndIf;
    case ForeignTake(_) =>
    case ForeignDrop(_) =>
  }

  lemma {:induction false} TerminalForever(cfg: Config, w: World, actions: seq<Action>, i: nat, j: nat, id: nat)
    requires FreshIds(cfg, w, actions) && i <= j <= |actions|
    requires id in After(cfg, w, actions, i).store && !IsRunning(After(cfg, w, actions, i).store, id)
    ensures id in After(cfg, w, actions, j).store && After(cfg, w, actions, j).store[id] == After(cfg, w, actions, i).store[id]
  {
    hide Act;
    if i < j {
      assert FreshAt(cfg, w, actions, j - 1);
      TerminalForever(cfg, w, actions, i, j - 1, id);
      TerminalFrozen(cfg, After(cfg, w, actions, j - 1), actions[j - 1], id);
    }
  }

  // ---------- Wake-ups come after the end ----------

  /** Whoever gathered a job is woken only after its completion callback has run. */
  lemma WokenIsTerminal(w: World)
    requires QueueOk(w.loop) && RunsOk(w) && w.loop.ready != [] && w.loop.ready[0].Wake?
    ensures w.loop.ready[0].id !in w.loop.jobs
    ensures w.started ==> w.loop.ready[0].id in w.store && !IsRunning(w.store, w.loop.ready[0].id)
  {
    assert !ScheduledBy(w.loop.ready, w.loop.ready[0].id, 1);
  }

  lemma AfterNext(cfg: Config, w: World, actions: seq<Action>, i: nat)
    requires i < |actions|
    ensures After(cfg, w, actions, i + 1) == Act(cfg, After(cfg, w, actions, i), actions[i]).world
  {
  }

  // ---------- No wake-up is lost ----------

  /** Someone gathering a job is registered with it, or already queued to be woken. */
  ghost predicate Pending(l: Loop, id: nat, g: Gatherer) {
    || (id in l.jobs && !l.jobs[id].phase.Done? && g in l.jobs[id].gatherers)
    || (exists q :: 0 <= q < |l.ready| && l.ready[q] == Wake(id, g))
  }

  lemma StepKeepsPending(l: Loop, x: nat, wait: bool, ssh: SshResult, wake: Option<nat>, id: nat, g: Gatherer)
    requires Pending(l, id, g)
    ensures Pending(StepJob(l, x, wait, ssh, wake), id, g)
  {
    if exists q :: 0 <= q < |l.ready| && l.ready[q] == Wake(id, g) {
      var q :| 0 <= q < |l.ready| && l.ready[q] == Wake(id, g);
      hide StepJob;
      StepEffect(l, x, wait, ssh, wake);
      assert StepJob(l, x, wait, ssh, wake).ready[q] == Wake(id, g);
    } else if x == id {
      EndWakes(l, id, wake, g);
      hide EndJob, GivePermit, Possible;
    } else {
      hide Possible;
    }
  }

  /** A job that ends queues the wake-up of everyone gathering it. */
  lemma EndWakes(l: Loop, id: nat, wake: Option<nat>, g: Gatherer)
    requires id in l.jobs && g in l.jobs[id].gatherers
    ensures Pending(EndJob(l, id), id, g) && Pending(GivePermit(EndJob(l, id), wake), id, g)
  {
    var i :| 0 <= i < |l.jobs[id].gatherers| && l.jobs[id].gatherers[i] == g;
    var e := EndJob(l, id);
    assert e.ready[|l.ready| + 1 + i] == Wake(id, g);
    hide EndJob;
  }

  /** A gatherer stays pending until the very callback that wakes it. */
  lemma PendingKept(cfg: Config, w: World, a: Action, id: nat, g: Gatherer)
    requires QueueOk(w.loop) && RunsOk(w) && FreshId(w, a) && Pending(w.loop, id, g)
    requires !(a.RunReady? && w.loop.ready != [] && w.loop.ready[0] == Wake(id, g))
    ensures Pending(Act(cfg, w, a).world.loop, id, g)
  {
    match a
    case Submit(_, _, _, _, _) => hide QueueOk, ChooseSlot;
    case JobStep(x, wait, ssh, wake) => StepKeepsPending(w.loop, x, wait, ssh, wake, id, g); hide Pending, StepJob, QueueOk, RunsOk;
    case RunReady => ReadyKeepsPending(w, id, g); hide Pending, ReadyStep, QueueOk, RunsOk;
    case Cancel(_, _) => hide QueueOk, RunsOk, EndRun;
    case Stop => StopKeepsPending(w, id, g); hide QueueOk, RunsOk, StopStep, Pending;
    case LoseOwnership(_) => hide QueueOk, RunsOk;
    case ForeignTake(_) => hide QueueOk, RunsOk;
    case ForeignDrop(_) => hide QueueOk, RunsOk;
  }

  lemma ReadyKeepsPending(w: World, id: nat, g: Gatherer)
    requires QueueOk(w.loop) && Pending(w.loop, id, g) && (w.loop.ready != [] ==> w.loop.ready[0] != Wake(id, g))
    ensures Pending(ReadyStep(w).world.loop, id, g)
  {
    ReadyLoop(w);
    if w.loop.ready != [] {
      assert w.loop.ready[0].id in w.loop.jobs ==> w.loop.jobs[w.loop.ready[0].id].phase.Done?;
      if exists q :: 0 <= q < |w.loop.ready| && w.loop.ready[q] == Wake(id, g) {
        var q :| 0 <= q < |w.loop.ready| && w.loop.ready[q] == Wake(id, g);
        assert w.loop.ready[1..][q - 1] == Wake(id, g);
      }
    }
    hide ReadyStep, QueueOk;
  }

  lemma StopKeepsPending(w: World, id: nat, g: Gatherer)
    requires Pending(w.loop, id, g)
    ensures Pending(StopStep(w).loop, id, g)
  {
    hide StopJobs;
    if id in w.loop.jobs { StoppedJob(w.loop.jobs, id); }
  }

  /** Being asked to stop leaves a job where it is and keeps who gathers it. */
  lemma StoppedJob(jobs: map<nat, Job>, id: nat)
    requires id in jobs
    ensures id in StopJobs(jobs) && StopJobs(jobs)[id] == StopJob(jobs[id])
  {
  }

  ghost predicate StopWaits(w: World) {
    w.stopping.Some? ==> w.stopping.value != {} && forall id :: id in w.stopping.value ==> Pending(w.loop, id, Stopper)
  }

  lemma StopRegisters(w: World)
    requires w.stopping.None?
    ensures StopWaits(StopStep(w))
  {
    var u := StopStep(w);
    forall id | u.stopping.Some? && id in u.stopping.value ensures Pending(u.loop, id, Stopper) {
      var gs := u.loop.jobs[id].gatherers;
      assert gs[|gs| - 1] == Stopper;
    }
  }

  lemma ActKeepsWaits(cfg: Config, w: World, a: Action)
    requires QueueOk(w.loop) && RunsOk(w) && FreshId(w, a) && StopWaits(w)
    ensures StopWaits(Act(cfg, w, a).world)
  {
    var u := Act(cfg, w, a).world;
    hide QueueOk, RunsOk;
    if w.stopping.None? {
      StopRegisters(w);
      assert a.Stop? || u.stopping.None? by { hide StopStep, SubmitStep, JobStepped; }
      hide Act, StopWaits;
    } else {
      assert u.stopping.Some? ==> u.stopping.value != {} && u.stopping.value <= w.stopping.value by { hide SubmitStep, JobStepped, CancelStep; }
      forall id | u.stopping.Some? && id in u.stopping.value ensures Pending(u.loop, id, Stopper) {
        assert !(a.RunReady? && w.loop.ready != [] && w.loop.ready[0] == Wake(id, Stopper));
        PendingKept(cfg, w, a, id, Stopper);
      }
    }
  }

  lemma {:induction false} WaitsKept(cfg: Config, w: World, actions: seq<Action>, i: nat)
    requires Inv(cfg, w) && FreshIds(cfg, w, actions) && StopWaits(w) && i <= |actions|
    ensures StopWaits(After(cfg, w, actions, i))
  {
    hide Act, LocksOk, PermitsOk, QueueOk, RunsOk, LeasesOwned, StopWaits;
    if i > 0 {
      WaitsKept(cfg, w, actions, i - 1);
      EveryState(cfg, w, actions, i - 1);
      assert FreshAt(cfg, w, actions, i - 1);
      ActKeepsWaits(cfg, After(cfg, w, actions, i - 1), actions[i - 1]);
    }
  }

  /**
   * At every point of every run that began with no stop, a stop that waits still has a job to be woken by: once there is no job
   * and no queued callback, it has gone through.
   */
  lemma StopCompletes(cfg: Config, w: World, actions: seq<Action>, i: nat)
    requires Inv(cfg, w) && FreshIds(cfg, w, actions) && w.stopping.None? && i <= |actions|
    ensures
      var u := After(cfg, w, actions, i);
      u.stopping.Some? ==>
        && (exists id :: id in u.stopping.value && Pending(u.loop, id, Stopper))
        && (u.loop.jobs != map[] || u.loop.ready != [])
  {
    WaitsKept(cfg, w, actions, i);
    hide After, Inv, FreshIds;
    var u := After(cfg, w, actions, i);
    if u.stopping.Some? {
      var id :| id in u.stopping.value;
      assert Pending(u.loop, id, Stopper);
    }
  }

  // ---------- The three fields follow the run store ----------

  function Project(s: RunStores.RunState): Store {
    map id | id in s :: Run(s[id].mode, s[id].core.status, s[id].core.errorType)
  }

  /** The executor's writes are the run store's writes, seen through the three fields. */
  lemma RunsProject(s: RunStores.RunState, now: int, id: nat)
    requires forall x :: x in s ==> ValidRun(s[x])
    ensures forall e: Execution :: IsExecutionStatus(e.status) && IsRunning(Project(s), id) ==>
              Project(RunStores.FinishStep(s, now, id, e).state) == EndRun(Project(s), id, e.status, None)
    ensures forall status: Ending, error: string :: |error| <= 200 ==>
              Project(RunStores.EndStep(s, now, id, status, error).state) == EndRun(Project(s), id, status, Some(error))
  {
    forall e: Execution | IsExecutionStatus(e.status) && IsRunning(Project(s), id)
      ensures Project(RunStores.FinishStep(s, now, id, e).state) == EndRun(Project(s), id, e.status, None)
    {
      FinishProjects(s, now, id, e);
    }
    forall status: Ending, error: string | |error| <= 200
      ensures Project(RunStores.EndStep(s, now, id, status, error).state) == EndRun(Project(s), id, status, Some(error))
    {
      EndProjects(s, now, id, status, error);
    }
    hide Project, EndRun, RunStores.FinishStep, RunStores.EndStep, ValidRun;
  }

  lemma FinishProjects(s: RunStores.RunState, now: int, id: nat, e: Execution)
    requires IsExecutionStatus(e.status) && IsRunning(Project(s), id) && forall x :: x in s ==> ValidRun(s[x])
    ensures Project(RunStores.FinishStep(s, now, id, e).state) == EndRun(Project(s), id, e.status, None)
  {
    hide ExecutionSummary, ValidRun;
    assert RunStores.ReadRun(s, id) == Ok(s[id]);
    assert RunStores.FinishStep(s, now, id, e).state == s[id := Finished(s[id], now, e)];
  }

  lemma EndProjects(s: RunStores.RunState, now: int, id: nat, status: Ending, error: string)
    requires |error| <= 200 && forall x :: x in s ==> ValidRun(s[x])
    ensures Project(RunStores.EndStep(s, now, id, status, error).state) == EndRun(Project(s), id, status, Some(error))
  {
    hide InternalSummary, ValidRun;
    if IsRunning(Project(s), id) {
      assert RunStores.ReadRun(s, id) == Ok(s[id]);
      assert RunStores.EndStep(s, now, id, status, error).state == s[id := EndedWithout(s[id], now, status, error)];
    }
  }
}
