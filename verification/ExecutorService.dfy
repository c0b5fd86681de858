/** The executor service over its fields: each method takes exactly the event-loop step, and awaiting a run terminates. */
module ExecutorServices {
  import opened Common
  import opened Runs
  import opened Executor

  const MAX_WAIT := 90_000_000
  const POLL := 50_000

  datatype Reason = NotNeeded | OwnershipLost | ExecutorOwned | NoOwnerEvidence

  datatype AwaitReply = AwaitReply(id: nat, status: RunStatus, terminal: bool, reason: Reason)

  datatype AwaitError = BadArgument | NotStarted | NoSuchRun

  class ExecutorService {
    const cfg: Config
    var started: bool
    var stopping: Option<set<nat>>
    var store: Store
    var reasons: map<nat, string>
    var jobs: map<nat, Job>
    var permits: nat
    var ready: seq<Callback>
    var leases: map<nat, Slot>
    var locked: set<Slot>
    var foreign: set<Slot>
    var acquired: nat
    var released: nat
    var clock: int

    ghost function State(): World
      reads this
    {
      World(started, stopping, store, reasons, Loop(jobs, permits, ready), Locks(leases, locked, foreign, acquired, released))
    }

    ghost predicate Valid()
      reads this
    {
      Inv(cfg, State())
    }

    /** A fresh process: reconcile asynchronous runs left by the last one, then own nothing. */
    constructor (cfg: Config, persisted: Store, foreign: set<Slot>, now: int)
      ensures Valid() && this.cfg == cfg && clock == now
      ensures State() == StartWorld(cfg, persisted, foreign) && Owned(State())
    {
      this.cfg, started, stopping, reasons, jobs := cfg, true, None, map[], map[];
      permits, ready, leases, locked, this.foreign := cfg.maxConcurrency, [], map[], foreign, foreign;
      acquired, released, clock := 0, 0, now;
      store := map id | id in persisted ::
        if persisted[id].mode.Async? && persisted[id].status.Running? then Run(Async, Interrupted, Some("ExecutorRestart"))
        else persisted[id];
      new;
      StartInv(cfg, persisted, foreign);
    }

    // ---------- Heavy slots ----------

    /** Try the slots of a limited target in order and take the first that is free. */
    method AcquireExecutionLease(target: string, heavy: bool) returns (choice: SlotChoice)
      modifies this`locked, this`acquired
      ensures choice == old(ChooseSlot(cfg, State().locks, target, heavy))
      ensures choice.Take? ==> locked == old(locked) + {choice.slot} && acquired == old(acquired) + 1
      ensures !choice.Take? ==> locked == old(locked) && acquired == old(acquired)
      ensures choice == SlotChoice.NotNeeded <==> !(heavy && target in cfg.heavyLimits)
      ensures choice.Full? <==>
        heavy && target in cfg.heavyLimits && forall i: nat :: i < cfg.heavyLimits[target] ==> Slot(target, i) in old(locked)
      ensures choice.Take? ==>
        && choice.slot.target == target && choice.slot !in old(locked) && choice.slot.index < cfg.heavyLimits[target]
        && forall i: nat :: i < choice.slot.index ==> Slot(target, i) in old(locked)
    {
      if !heavy || target !in cfg.heavyLimits { return SlotChoice.NotNeeded; }
      var k := cfg.heavyLimits[target];
      ghost var free := FreeSlots(locked, target, k);
      for i := 0 to k
        invariant locked == old(locked) && acquired == old(acquired)
        invariant forall j :: j in free ==> i <= j
        invariant forall j: nat :: j < i ==> Slot(target, j) in locked
      {
        var slot := Slot(target, i);
        if slot !in locked {
          assert i in free;
          locked, acquired := locked + {slot}, acquired + 1;
          return Take(slot);
        }
      }
      assert free == {};
      return Full;
    }

    method Release(slot: Slot)
      modifies this`locked, this`released
      ensures locked == old(locked) - {slot} && released == old(released) + 1
    {
      locked, released := locked - {slot}, released + 1;
    }

    // ---------- Submission ----------

    /** Take a slot, create the record, spawn the job; a failure gives the slot back and publishes a created record. */
    method SubmitRun(a: Action) returns (answer: Answer)
      requires a.Submit? && FreshId(State(), a) && a.id !in leases
      modifies this
      ensures clock == old(clock) && Turn(State(), answer) == SubmitStep(cfg, old(State()), a)
      ensures answer == Submitted(a.id) ==>
        (a.id in leases <==> a.heavy && a.target in cfg.heavyLimits) && (a.id in leases ==> leases[a.id].target == a.target)
    {
      if a.rejected { return Raised; }
      var before := locked;
      ChosenIsFree(cfg, State().locks, a.target, a.heavy);
      hide ChooseSlot;
      var choice := AcquireExecutionLease(a.target, a.heavy);
      if choice.Full? { return Raised; }
      if !started || a.fault.CreateFails? {
        if choice.Take? { Release(choice.slot); assert locked == before; }
        return Raised;
      }
      store := store[a.id := NewRun];
      if choice.Take? { leases := leases[a.id := choice.slot]; }
      if a.fault.SpawnFails? {
        if choice.Take? {
          AbandonSubmission(a.id, choice.slot);
          assert locked == before && leases == old(leases);
        }
        return Raised;
      }
      jobs := jobs[a.id := NewJob];
      answer := Submitted(a.id);
    }

    /** The record of a submission that could not be started is published as unknown, and its slot given back. */
    method AbandonSubmission(id: nat, slot: Slot)
      modifies this`leases, this`store, this`locked, this`released
      ensures leases == old(leases) - {id} && locked == old(locked) - {slot} && released == old(released) + 1
      ensures store == EndIf(started, old(store), id, UnknownOutcome, Some(SUBMISSION_FAILED))
    {
      leases := leases - {id};
      EndStored(id, UnknownOutcome, Some(SUBMISSION_FAILED));
      Release(slot);
    }

    // ---------- One step of an execution ----------

    method EndStored(id: nat, status: RunStatus, error: Option<string>)
      modifies this`store
      ensures store == EndIf(started, old(store), id, status, error)
    {
      if started && id in store && store[id].status.Running? {
        var r := store[id];
        store := store[id := r.(status := status, errorType := if error.Some? then error else r.errorType)];
      }
    }

    method ReleasePermit(wake: Option<nat>)
      modifies this`jobs, this`permits
      ensures Loop(jobs, permits, ready) == GivePermit(old(Loop(jobs, permits, ready)), wake)
    {
      if wake.Some? && wake.value in jobs && jobs[wake.value].phase.Waiting? && !jobs[wake.value].cancelling {
        jobs := jobs[wake.value := jobs[wake.value].(phase := Granted)];
      } else {
        permits := permits + 1;
      }
    }

    method CompleteJob(id: nat)
      requires id in jobs
      modifies this`jobs, this`ready
      ensures Loop(jobs, permits, ready) == EndJob(old(Loop(jobs, permits, ready)), id)
    {
      var j := jobs[id];
      jobs := jobs[id := Job(Done, j.cancelling, [])];
      ready := ready + [Completed(id)] + Wakes(id, j.gatherers);
    }

    method RecordOutcome(id: nat, ssh: SshResult)
      modifies this`store, this`reasons
      ensures store == RecordEnd(started, old(store), old(reasons), id, ssh)
      ensures reasons == if ssh.CancelledInside? then old(reasons) - {id} else old(reasons)
    {
      match ssh
      case Returned(status) => EndStored(id, status, None);
      case LocalFailure(error) => EndStored(id, LocalError, Some(error));
      case OtherFailure(error) => EndStored(id, UnknownOutcome, Some(error));
      case CancelledInside =>
        var reason := if id in reasons then reasons[id] else SHUTDOWN;
        reasons := reasons - {id};
        EndStored(id, Interrupted, Some(reason));
    }

    /** Resume one execution coroutine until it suspends again or finishes. */
    method Execute(id: nat, wait: bool, ssh: SshResult, wake: Option<nat>)
      modifies this
      ensures clock == old(clock) && State() == JobStepped(old(State()), id, wait, ssh, wake)
    {
      OnlyExecutingEnds(State().loop, id, ssh);
      hide Possible, RecordEnd, EndJob, GivePermit, EndsExecution;
      if id !in jobs { return; }
      if jobs[id].phase.Executing? {
        if Possible(jobs[id], ssh) { FinishExecution(id, ssh, wake); }
      } else {
        ResumeWaiting(id, wait, ssh, wake);
      }
    }

    /** The suspensions before the remote command starts: on the semaphore, or not yet started. */
    method ResumeWaiting(id: nat, wait: bool, ssh: SshResult, wake: Option<nat>)
      requires id in jobs && !jobs[id].phase.Executing?
      modifies this`jobs, this`ready, this`permits
      ensures Loop(jobs, permits, ready) == StepJob(old(Loop(jobs, permits, ready)), id, wait, ssh, wake)
    {
      hide Possible, EndJob, GivePermit;
      var j := jobs[id];
      match j.phase
      case Done =>
      case Starting =>
        if j.cancelling { CompleteJob(id); }
        else if permits > 0 && !wait { permits, jobs := permits - 1, jobs[id := j.(phase := Executing)]; }
        else { jobs := jobs[id := j.(phase := Waiting)]; }
      case Waiting => if j.cancelling { CompleteJob(id); }
      case Granted =>
        if j.cancelling { CompleteJob(id); ReleasePermit(wake); } else { jobs := jobs[id := j.(phase := Executing)]; }
    }

    /** Record how the execution ended, finish the job, and leave the semaphore. */
    method FinishExecution(id: nat, ssh: SshResult, wake: Option<nat>)
      requires id in jobs
      modifies this`store, this`reasons, this`jobs, this`ready, this`permits
      ensures store == RecordEnd(started, old(store), old(reasons), id, ssh)
      ensures reasons == if ssh.CancelledInside? then old(reasons) - {id} else old(reasons)
      ensures Loop(jobs, permits, ready) == GivePermit(EndJob(old(Loop(jobs, permits, ready)), id), wake)
    {
      hide RecordEnd, EndJob, GivePermit;
      RecordOutcome(id, ssh);
      CompleteJob(id);
      ReleasePermit(wake);
    }

    // ---------- Ready callbacks ----------

    method ReconcileCompletedTask(id: nat)
      modifies this
      ensures clock == old(clock) && State() == ReconcileStep(old(State()), id)
    {
      EndStored(id, UnknownOutcome, Some(LOST));
      if id in leases {
        var slot := leases[id];
        leases := leases - {id};
        Release(slot);
      }
      jobs := jobs - {id};
    }

    method RunNext() returns (answer: Answer)
      modifies this
      ensures clock == old(clock) && Turn(State(), answer) == ReadyStep(old(State()))
    {
      hide ReconcileStep;
      if ready == [] { return Quiet; }
      var c := ready[0];
      ready := ready[1..];
      match c
      case Completed(id) => ReconcileCompletedTask(id); answer := Quiet;
      case Wake(id, Canceller(caller)) =>
        if !started || id !in store { return Raised; }
        var r := store[id];
        answer := CancelAnswer(caller, id, r.status, r.status.Interrupted? && r.errorType == Some(EXPLICIT));
      case Wake(id, Stopper) =>
        if stopping.Some? {
          var left := stopping.value - {id};
          if left == {} { stopping, started := None, false; } else { stopping := Some(left); }
        }
        answer := Quiet;
    }

    // ---------- Cancellation and stop ----------

    method CancelRun(caller: nat, id: nat) returns (answer: Answer)
      modifies this
      ensures clock == old(clock) && Turn(State(), answer) == CancelStep(old(State()), caller, id)
    {
      if !started || id !in store || !store[id].mode.Async? { return Raised; }
      if !store[id].status.Running? { return CancelAnswer(caller, id, store[id].status, false); }
      if id !in jobs || jobs[id].phase.Done? {
        EndStored(id, Interrupted, Some(LOST));
        return CancelAnswer(caller, id, store[id].status, false);
      }
      reasons := reasons[id := EXPLICIT];
      jobs := jobs[id := Asked(jobs[id], caller)];
      answer := Quiet;
    }

    /** Request the cancellation of every job in the table, in any order, and gather it. */
    method CancelAll()
      modifies this`jobs
      ensures jobs == StopJobs(old(jobs))
    {
      ghost var before := jobs;
      var all := Sorted(jobs.Keys);
      StoppedNone(before, all);
      hide StoppedAmong, StopJobs, StopJob, Sorted;
      for i := 0 to |all|
        invariant jobs == StoppedAmong(before, all[..i])
      {
        StoppedNext(before, all, i);
        jobs := jobs[all[i] := StopJob(jobs[all[i]])];
      }
    }

    /** Cancel every job and gather those that are not done; with none of those the store is dropped without suspending. */
    method StopService()
      modifies this
      ensures clock == old(clock) && State() == StopStep(old(State()))
    {
      if !started || stopping.Some? { return; }
      hide StopJobs, LiveIds;
      var live := LiveIds(jobs);
      if live == {} {
        DoneUntouched(jobs);
        CancelAll();
        started := false;
        return;
      }
      CancelAll();
      stopping := Some(live);
    }

    // ---------- Any event ----------

    method Perform(a: Action) returns (answer: Answer)
      requires Valid() && FreshId(State(), a)
      modifies this
      ensures Valid() && clock == old(clock) && Turn(State(), answer) == Act(cfg, old(State()), a)
    {
      ActKeepsInv(cfg, State(), a);
      FreshLease(cfg, State(), a);
      hide Inv, SubmitStep, JobStepped, ReadyStep, CancelStep, StopStep;
      match a
      case Submit(_, _, _, _, _) => answer := SubmitRun(a);
      case JobStep(id, wait, ssh, wake) => Execute(id, wait, ssh, wake); answer := Quiet;
      case RunReady => answer := RunNext();
      case Cancel(caller, id) => answer := CancelRun(caller, id);
      case Stop => StopService(); answer := Quiet;
      case LoseOwnership(id) =>
        if id in store && store[id].mode.Async? && id !in jobs { EndStored(id, UnknownOutcome, Some(LOST)); }
        answer := Quiet;
      case ForeignTake(slot) =>
        if slot !in locked { locked, foreign := locked + {slot}, foreign + {slot}; }
        answer := Quiet;
      case ForeignDrop(slot) =>
        if slot in foreign { locked, foreign := locked - {slot}, foreign - {slot}; }
        answer := Quiet;
    }

    // ---------- Waiting for a run ----------

    /** Suspend for a while: any events happen meanwhile, and the clock has advanced by at least the time asked for. */
    method Sleep(time: nat, extra: nat, events: seq<Action>)
      requires Valid()
      modifies this
      ensures Valid() && clock == old(clock) + time + extra
    {
      clock := clock + time + extra;
      ghost var woke := clock;
      for i := 0 to |events|
        invariant Valid() && clock == woke
      {
        if FreshIdNow(events[i]) { var _ := Perform(events[i]); }
      }
    }

    predicate FreshIdNow(a: Action)
      reads this
      ensures FreshIdNow(a) == FreshId(State(), a)
    {
      a.Submit? ==> a.id !in store
    }

    /** Any events, none of which reuses an identifier. */
    method Meanwhile(events: seq<Action>, ghost done: set<nat>, ghost n: int)
      requires Valid() && AllScheduled(State(), done, n)
      modifies this
      ensures Valid() && clock == old(clock) && AllScheduled(State(), done, n) && SameModes(old(store), store)
    {
      hide Inv, Act, AllScheduled;
      for i := 0 to |events|
        invariant Valid() && clock == old(clock) && AllScheduled(State(), done, n) && SameModes(old(store), store)
      {
        if FreshIdNow(events[i]) {
          EventKeepsScheduled(cfg, State(), events[i], done, n);
          var _ := Perform(events[i]);
        }
      }
    }

    /**
     * Yield once: everything that was ready runs before this coroutine resumes, so every done job is published. Any events may
     * come between two callbacks.
     */
    method Yield(events: nat -> seq<Action>)
      requires Valid()
      modifies this
      ensures Valid() && clock == old(clock)
      ensures forall id :: id in old(jobs) && old(jobs)[id].phase.Done? ==> id !in jobs
      ensures SameModes(old(store), store)
    {
      ghost var n := |ready|;
      ghost var done := DoneIds(jobs);
      DoneAreScheduled(cfg, State());
      hide Inv, ReadyStep, AllScheduled, Act;
      for i := 0 to |ready|
        invariant Valid() && clock == old(clock)
        invariant AllScheduled(State(), done, n - i)
        invariant SameModes(old(store), store)
      {
        Meanwhile(events(i), done, n - i);
        ReadyShrinks(cfg, State());
        DrainOne(cfg, State(), done, n - i);
        var _ := Perform(RunReady);
      }
      NoneScheduled(State(), done);
    }

    /**
     * Poll until the run has ended or the deadline passes. What else happens during the n-th sleep, and by how much that
     * sleep overruns, is up to the caller.
     */
    method AwaitTerminal(id: nat, maxWait: int, events: nat -> seq<Action>, overrun: nat -> nat) returns (r: Result<AwaitReply, AwaitError>)
      requires Valid()
      modifies this
      ensures Valid()
      ensures r == Err(BadArgument) <==> !(0 <= maxWait <= MAX_WAIT)
      ensures r.Ok? ==> started && id in store && r.value.status == store[id].status
      ensures r.Ok? ==> (r.value.terminal <==> !r.value.status.Running?)
      ensures r.Ok? && !r.value.terminal ==> clock >= old(clock) + maxWait
      ensures r == Err(NotStarted) ==> !started
      ensures r == Err(NoSuchRun) ==> started && id !in store
      ensures r.Ok? ==> r.value.id == id && (r.value.terminal <==> r.value.reason.NotNeeded? || r.value.reason.OwnershipLost?)
      ensures r.Ok? && !r.value.terminal ==> (r.value.reason.ExecutorOwned? <==> store[id].mode.Async?)
      ensures r.Ok? && r.value.reason.ExecutorOwned? ==> id in jobs && store[id].mode.Async?
      ensures r.Ok? && r.value.reason.NoOwnerEvidence? ==> store[id].mode.Sync?
      ensures r.Ok? && r.value.reason.OwnershipLost? ==> store[id].status.UnknownOutcome? && store[id].errorType == Some("ExecutorOwnershipLost")
      ensures (forall n :: overrun(n) == 0) && 0 <= maxWait ==> clock <= old(clock) + maxWait
    {
      if maxWait < 0 || maxWait > MAX_WAIT { return Err(BadArgument); }
      hide Inv, Act, LoseStep, ReadyStep, EndRun, EndIf;
      var deadline := clock + maxWait;
      var polls := 0;
      while true
        invariant Valid() && deadline == old(clock) + maxWait
        invariant (forall n :: overrun(n) == 0) ==> clock <= deadline
        decreases deadline - clock
      {
        if !started { return Err(NotStarted); }
        if id !in store { return Err(NoSuchRun); }
        if !store[id].status.Running? { return Ok(AwaitReply(id, store[id].status, true, Reason.NotNeeded)); }
        var reason := NoOwnerEvidence;
        if store[id].mode.Async? {
          if id !in jobs {
            LoseEnds(cfg, State(), id);
            var _ := Perform(LoseOwnership(id));
            return Ok(AwaitReply(id, store[id].status, true, OwnershipLost));
          }
          if jobs[id].phase.Done? {
            Yield(events);
            if !started { return Err(NotStarted); }
            if id !in store { return Err(NoSuchRun); }
            if store[id].status.Running? {
              LoseEnds(cfg, State(), id);
              var _ := Perform(LoseOwnership(id));
              return Ok(AwaitReply(id, store[id].status, true, OwnershipLost));
            }
            return Ok(AwaitReply(id, store[id].status, true, Reason.NotNeeded));
          }
          reason := ExecutorOwned;
        }
        var remaining := deadline - clock;
        if remaining <= 0 { return Ok(AwaitReply(id, store[id].status, false, reason)); }
        Sleep(if remaining < POLL then remaining else POLL, overrun(polls), events(polls));
        polls := polls + 1;
      }
    }
  }

  /** Of these jobs, each that is still in the table is done and has its completion among the next n callbacks. */
  ghost predicate AllScheduled(w: World, done: set<nat>, n: int) {
    forall id :: id in done ==>
      id in w.store && (id in w.loop.jobs ==> w.loop.jobs[id].phase.Done? && ScheduledBy(w.loop.ready, id, n))
  }

  /** Running one ready callback brings every queued completion one place forward. */
  lemma DrainOne(cfg: Config, w: World, done: set<nat>, n: int)
    requires AllScheduled(w, done, n)
    ensures AllScheduled(Act(cfg, w, RunReady).world, done, n - 1)
  {
    ReadyLoop(w);
    ReadyShrinks(cfg, w);
    var u := Act(cfg, w, RunReady).world;
    hide ReadyStep;
    forall id | id in done && id in u.loop.jobs ensures ScheduledBy(u.loop.ready, id, n - 1) {
      var q :| 0 <= q < n && q < |w.loop.ready| && w.loop.ready[q] == Completed(id);
      if q > 0 { assert w.loop.ready[1..][q - 1] == Completed(id); }
    }
  }

  /** No event delays a queued completion. */
  lemma EventKeepsScheduled(cfg: Config, w: World, a: Action, done: set<nat>, n: int)
    requires AllScheduled(w, done, n) && FreshId(w, a)
    ensures AllScheduled(Act(cfg, w, a).world, done, n) && SameModes(w.store, Act(cfg, w, a).world.store)
  {
    match a
    case Submit(_, _, _, _, _) => hide ChooseSlot;
    case JobStep(id, wait, ssh, wake) => StepKeepsScheduled(w, id, wait, ssh, wake, done, n); hide JobStepped, AllScheduled;
    case RunReady =>
      DrainOne(cfg, w, done, n);
      ReadyShrinks(cfg, w);
      SoonerScheduled(ReadyStep(w).world, done, n);
      hide ReadyStep, AllScheduled;
    case Cancel(_, id) => hide ScheduledBy;
    case Stop => hide ScheduledBy;
    case LoseOwnership(_) => hide ScheduledBy;
    case ForeignTake(_) => hide ScheduledBy;
    case ForeignDrop(_) => hide ScheduledBy;
  }

  lemma SoonerScheduled(w: World, done: set<nat>, n: int)
    requires AllScheduled(w, done, n - 1)
    ensures AllScheduled(w, done, n)
  {
    forall id | id in done && id in w.loop.jobs ensures ScheduledBy(w.loop.ready, id, n) {
      var q :| 0 <= q < n - 1 && q < |w.loop.ready| && w.loop.ready[q] == Completed(id);
    }
  }

  lemma StepKeepsScheduled(w: World, x: nat, wait: bool, ssh: SshResult, wake: Option<nat>, done: set<nat>, n: int)
    requires AllScheduled(w, done, n)
    ensures AllScheduled(JobStepped(w, x, wait, ssh, wake), done, n) && SameModes(w.store, JobStepped(w, x, wait, ssh, wake).store)
  {
    StepEffect(w.loop, x, wait, ssh, wake);
    if EndsExecution(w.loop, x, ssh) { RecordEffect(w.started, w.store, w.reasons, x, ssh); }
    var u := JobStepped(w, x, wait, ssh, wake);
    hide StepJob, RecordEnd;
    forall id | id in done && id in u.loop.jobs ensures ScheduledBy(u.loop.ready, id, n) {
      var q :| 0 <= q < n && q < |w.loop.ready| && w.loop.ready[q] == Completed(id);
      assert u.loop.ready[q] == Completed(id);
    }
  }

  lemma DoneAreScheduled(cfg: Config, w: World)
    requires Inv(cfg, w)
    ensures AllScheduled(w, DoneIds(w.loop.jobs), |w.loop.ready|)
  {
    hide LocksOk, PermitsOk;
  }

  ghost predicate SameModes(s: Store, t: Store) { forall id :: id in s ==> id in t && t[id].mode == s[id].mode }

  lemma ReadyShrinks(cfg: Config, w: World)
    ensures Act(cfg, w, RunReady).world.loop.jobs.Keys <= w.loop.jobs.Keys
    ensures SameModes(w.store, Act(cfg, w, RunReady).world.store)
  {
    hide UnlockLease;
  }

  lemma NoneScheduled(w: World, done: set<nat>)
    requires AllScheduled(w, done, 0)
    ensures forall id :: id in done ==> id !in w.loop.jobs
  {
  }

  lemma OnlyExecutingEnds(l: Loop, id: nat, ssh: SshResult)
    ensures EndsExecution(l, id, ssh) <==> id in l.jobs && l.jobs[id].phase.Executing? && Possible(l.jobs[id], ssh)
  {
  }

  /** The jobs after some of them were asked to stop. */
  ghost function StoppedAmong(jobs: map<nat, Job>, ids: seq<nat>): map<nat, Job> {
    map id | id in jobs :: if id in ids then StopJob(jobs[id]) else jobs[id]
  }

  lemma StoppedNone(jobs: map<nat, Job>, ids: seq<nat>)
    requires forall id :: id in ids <==> id in jobs
    ensures StoppedAmong(jobs, ids[..0]) == jobs && StoppedAmong(jobs, ids[..|ids|]) == StopJobs(jobs)
  {
    hide StopJob;
    assert ids[..|ids|] == ids;
  }

  lemma StoppedNext(jobs: map<nat, Job>, ids: seq<nat>, i: nat)
    requires Ascending(ids) && i < |ids| && forall id :: id in ids <==> id in jobs
    ensures ids[i] in StoppedAmong(jobs, ids[..i])
    ensures StoppedAmong(jobs, ids[..i + 1]) == StoppedAmong(jobs, ids[..i])[ids[i] := StopJob(StoppedAmong(jobs, ids[..i])[ids[i]])]
  {
    hide StopJob;
    assert ids[..i + 1] == ids[..i] + [ids[i]];
    assert forall j :: 0 <= j < i ==> ids[j] < ids[i];
    assert ids[i] in ids;
  }

  /** Cancelling a job that is done has no effect. */
  lemma DoneUntouched(jobs: map<nat, Job>)
    requires LiveIds(jobs) == {}
    ensures StopJobs(jobs) == jobs
  {
    assert forall id :: id in jobs && !jobs[id].phase.Done? ==> id in LiveIds(jobs);
  }

  /** Publishing lost ownership ends a run that nobody owns. */
  lemma LoseEnds(cfg: Config, w: World, id: nat)
    requires w.started && id in w.store && w.store[id].mode.Async? && id !in w.loop.jobs
    ensures var u := Act(cfg, w, LoseOwnership(id)).world;
            && u.started && id in u.store && !u.store[id].status.Running?
            && (w.store[id].status.Running? ==> u.store[id] == Run(Async, UnknownOutcome, Some("ExecutorOwnershipLost")))
  {
  }

  lemma ChosenIsFree(cfg: Config, k: Locks, target: string, heavy: bool)
    ensures ChooseSlot(cfg, k, target, heavy).Take? ==> ChooseSlot(cfg, k, target, heavy).slot !in k.locked
  {
  }

  lemma FreshLease(cfg: Config, w: World, a: Action)
    requires Inv(cfg, w) && FreshId(w, a)
    ensures a.Submit? ==> a.id !in w.locks.leases
  {
    assert a.Submit? ==> a.id !in w.loop.jobs;
    hide LocksOk, PermitsOk, QueueOk;
  }
}
