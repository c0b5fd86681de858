/**
 * Heavy submissions and slots, said of the submissions themselves: who gets a slot, who is refused, and that every heavy job of a
 * limited target holds one for as long as it is in the table. And what each step of the executor writes into a run.
 */
module ExecutorSlots {
  import opened Common
  import opened Runs
  import opened Executor
  import opened ExecutorHistory

  // ---------- One submission ----------

  predicate Limited(cfg: Config, a: Action)
    requires a.Submit?
  {
    a.heavy && a.target in cfg.heavyLimits
  }

  /** Every slot of the target is locked, by whomever. */
  predicate AllTaken(cfg: Config, w: World, target: string)
    requires target in cfg.heavyLimits
  {
    forall i: nat :: i < cfg.heavyLimits[target] ==> Slot(target, i) in w.locks.locked
  }

  /** The free slot with the least index of the target. */
  predicate FirstFree(cfg: Config, w: World, target: string, slot: Slot)
    requires target in cfg.heavyLimits
  {
    && slot.target == target && slot.index < cfg.heavyLimits[target] && slot !in w.locks.locked
    && forall i: nat :: i < slot.index ==> Slot(target, i) in w.locks.locked
  }

  lemma Chosen(cfg: Config, w: World, a: Action)
    requires a.Submit?
    ensures
      var choice := ChooseSlot(cfg, w.locks, a.target, a.heavy);
      && (choice.NotNeeded? <==> !Limited(cfg, a)) && (choice.Full? <==> Limited(cfg, a) && AllTaken(cfg, w, a.target))
      && (choice.Take? <==> Limited(cfg, a) && !AllTaken(cfg, w, a.target))
      && (choice.Take? ==> FirstFree(cfg, w, a.target, choice.slot))
  {
    if Limited(cfg, a) {
      var k := cfg.heavyLimits[a.target];
      var free := FreeSlots(w.locks.locked, a.target, k);
      assert forall i: nat :: i < k ==> (i in free <==> Slot(a.target, i) !in w.locks.locked);
    }
  }

  /** Exactly one slot more is locked, and held by this run. */
  ghost predicate TakesSlot(w: World, u: World, id: nat, slot: Slot) {
    u.locks.locked == w.locks.locked + {slot} && u.locks.leases == w.locks.leases[id := slot] && u.locks.foreign == w.locks.foreign
  }

  predicate SameSlots(w: World, u: World) {
    u.locks.locked == w.locks.locked && u.locks.leases == w.locks.leases && u.locks.foreign == w.locks.foreign
  }

  /**
   * A submission is accepted exactly if its checks pass, the store is there, nothing fails, and, if it is heavy on a limited target,
   * some slot of the target is free: it then takes the first of those. A normal one, one on a target without a limit and a refused
   * one leave the slots as they were.
   */
  lemma SubmissionSlots(cfg: Config, w: World, a: Action)
    requires a.Submit?
    ensures
      var t := Act(cfg, w, a);
      && (t.answer == Submitted(a.id) <==>
            !a.rejected && w.started && a.fault.NoFault? && (Limited(cfg, a) ==> !AllTaken(cfg, w, a.target)))
      && (t.answer != Submitted(a.id) ==> t.answer == Raised && t.world.loop == w.loop && SameSlots(w, t.world))
      && (t.answer == Submitted(a.id) ==>
            && t.world.loop == w.loop.(jobs := w.loop.jobs[a.id := Job(Starting, false, [])])
            && t.world.store == w.store[a.id := Run(Async, Running, None)]
            && (Limited(cfg, a) ==> exists slot :: FirstFree(cfg, w, a.target, slot) && TakesSlot(w, t.world, a.id, slot))
            && (!Limited(cfg, a) ==> t.world.locks == w.locks))
  {
    Chosen(cfg, w, a);
    hide ChooseSlot, AllTaken;
  }

  /** What a failed submission leaves in the store: nothing before the record exists; afterwards an unknown outcome, or a running run without a slot. */
  lemma FailedSubmission(cfg: Config, w: World, a: Action)
    requires a.Submit? && Act(cfg, w, a).answer == Raised
    ensures
      var store := Act(cfg, w, a).world.store;
      var created := !a.rejected && w.started && a.fault.SpawnFails? && (Limited(cfg, a) ==> !AllTaken(cfg, w, a.target));
      && (!created ==> store == w.store)
      && (created ==>
            store == w.store[a.id := if Limited(cfg, a) then Run(Async, UnknownOutcome, Some("ExecutorSubmissionFailed")) else Run(Async, Running, None)])
  {
    Chosen(cfg, w, a);
    hide ChooseSlot, AllTaken;
  }

  // ---------- Over whole histories ----------

  /** Action j was a heavy submission on this target, and it was accepted. */
  ghost predicate HeavySubmission(cfg: Config, w: World, actions: seq<Action>, j: nat, id: nat, target: string)
    requires j < |actions|
  {
    && actions[j].Submit? && actions[j].id == id && actions[j].target == target && actions[j].heavy
    && Act(cfg, After(cfg, w, actions, j), actions[j]).answer == Submitted(id)
  }

  /** A heavy job: some heavy submission of it was accepted, and it is still in the table. */
  ghost predicate HeavyJob(cfg: Config, w: World, actions: seq<Action>, i: nat, id: nat, target: string)
    requires i <= |actions|
  {
    id in After(cfg, w, actions, i).loop.jobs && exists j :: 0 <= j < i && HeavySubmission(cfg, w, actions, j, id, target)
  }

  /** The run holds a slot of the target, within its limit, and the slot is locked. */
  ghost predicate HoldsSlot(cfg: Config, w: World, id: nat, target: string)
    requires target in cfg.heavyLimits
  {
    && id in w.locks.leases && w.locks.leases[id].target == target && w.locks.leases[id].index < cfg.heavyLimits[target]
    && w.locks.leases[id] in w.locks.locked
  }

  lemma LeaseIsHeld(cfg: Config, w: World, id: nat, target: string)
    requires LocksOk(cfg, w.locks) && target in cfg.heavyLimits && id in w.locks.leases && w.locks.leases[id].target == target
    ensures HoldsSlot(cfg, w, id, target)
  {
    assert w.locks.leases[id] in Image(w.locks.leases);
  }

  /** A lease stays with its job: it goes only when the completion callback takes the job out of the table. */
  lemma LeaseStays(cfg: Config, w: World, a: Action, id: nat)
    requires RunsOk(w) && FreshId(w, a) && id in w.loop.jobs && id in w.locks.leases && id in Act(cfg, w, a).world.loop.jobs
    ensures id in Act(cfg, w, a).world.locks.leases && Act(cfg, w, a).world.locks.leases[id] == w.locks.leases[id]
  {
    match a
    case Submit(_, _, _, _, _) => hide ChooseSlot;
    case JobStep(_, _, _, _) => hide StepJob, RecordEnd;
    case RunReady => hide EndIf;
    case Cancel(_, _) => hide EndRun;
    case Stop => hide StopJobs, LiveIds;
    case LoseOwnership(_) => hide EndIf;
    case ForeignTake(_) =>
    case ForeignDrop(_) =>
  }

  /** No job comes into the table but by its submission. */
  lemma JobWasThere(cfg: Config, w: World, a: Action, id: nat)
    requires id in Act(cfg, w, a).world.loop.jobs
    ensures id in w.loop.jobs || (a.Submit? && a.id == id && Act(cfg, w, a).answer == Submitted(id))
  {
    match a
    case Submit(_, _, _, _, _) => hide ChooseSlot;
    case JobStep(_, _, _, _) => hide RecordEnd, Possible;
    case RunReady => hide EndIf;
    case Cancel(_, _) => hide EndRun;
    case Stop =>
    case LoseOwnership(_) => hide EndIf;
    case ForeignTake(_) =>
    case ForeignDrop(_) =>
  }

  lemma RecordStays(cfg: Config, w: World, a: Action, id: nat)
    requires id in w.store
    ensures id in Act(cfg, w, a).world.store
  {
    match a
    case Submit(_, _, _, _, _) => hide ChooseSlot;
    case JobStep(_, _, _, _) => hide StepJob, Possible;
    case RunReady => hide UnlockLease;
    case Cancel(_, _) =>
    case Stop => hide StopJobs, LiveIds;
    case LoseOwnership(_) =>
    case ForeignTake(_) =>
    case ForeignDrop(_) =>
  }

  lemma {:induction false} RecordsStay(cfg: Config, w: World, actions: seq<Action>, i: nat, j: nat, id: nat)
    requires i <= j <= |actions| && id in After(cfg, w, actions, i).store
    ensures id in After(cfg, w, actions, j).store
  {
    hide Act;
    if i < j {
      RecordsStay(cfg, w, actions, i, j - 1, id);
      RecordStays(cfg, After(cfg, w, actions, j - 1), actions[j - 1], id);
    }
  }

  /** The submission that was accepted gave the job its slot. */
  lemma SubmittedHolds(cfg: Config, w: World, actions: seq<Action>, j: nat, id: nat, target: string)
    requires Inv(cfg, w) && FreshIds(cfg, w, actions) && target in cfg.heavyLimits && j < |actions|
    requires HeavySubmission(cfg, w, actions, j, id, target)
    ensures HoldsSlot(cfg, After(cfg, w, actions, j + 1), id, target) && id in After(cfg, w, actions, j + 1).store
  {
    hide Act, Inv, FreshIds;
    EveryState(cfg, w, actions, j + 1);
    AfterNext(cfg, w, actions, j);
    SubmissionSlots(cfg, After(cfg, w, actions, j), actions[j]);
    hide After, AllTaken;
    var u := After(cfg, w, actions, j + 1);
    assert LocksOk(cfg, u.locks) by { InvLocks(cfg, u); }
    hide LocksOk;
    LeaseIsHeld(cfg, u, id, target);
  }

  lemma InvLocks(cfg: Config, w: World)
    requires Inv(cfg, w)
    ensures LocksOk(cfg, w.locks) && RunsOk(w) && w.locks.leases.Keys <= w.loop.jobs.Keys
  {
  }

  /** In every history, a heavy job of a limited target holds a slot of it for as long as it is in the table. */
  lemma {:induction false} HeavyHoldsSlot(cfg: Config, w: World, actions: seq<Action>, i: nat, id: nat, target: string)
    requires Inv(cfg, w) && FreshIds(cfg, w, actions) && target in cfg.heavyLimits && i <= |actions|
    requires HeavyJob(cfg, w, actions, i, id, target)
    ensures HoldsSlot(cfg, After(cfg, w, actions, i), id, target)
  {
    hide Act, Inv, FreshIds, HeavySubmission, HoldsSlot, After;
    var j :| 0 <= j < i && HeavySubmission(cfg, w, actions, j, id, target);
    SubmittedHolds(cfg, w, actions, j, id, target);
    if j < i - 1 {
      var v, u := After(cfg, w, actions, i - 1), After(cfg, w, actions, i);
      AfterNext(cfg, w, actions, i - 1);
      RecordsStay(cfg, w, actions, j + 1, i - 1, id);
      FreshNow(cfg, w, actions, i - 1);
      JobWasThere(cfg, v, actions[i - 1], id);
      assert HeavyJob(cfg, w, actions, i - 1, id, target);
      HeavyHoldsSlot(cfg, w, actions, i - 1, id, target);
      EveryState(cfg, w, actions, i - 1);
      EveryState(cfg, w, actions, i);
      InvLocks(cfg, v);
      InvLocks(cfg, u);
      HeldLease(cfg, v, id, target);
      LeaseStays(cfg, v, actions[i - 1], id);
      LeaseIsHeld(cfg, u, id, target);
    }
  }

  lemma HeldLease(cfg: Config, w: World, id: nat, target: string)
    requires target in cfg.heavyLimits && HoldsSlot(cfg, w, id, target)
    ensures id in w.locks.leases && w.locks.leases[id].target == target
  {
  }

  lemma FreshNow(cfg: Config, w: World, actions: seq<Action>, i: nat)
    requires FreshIds(cfg, w, actions) && i < |actions|
    ensures FreshId(After(cfg, w, actions, i), actions[i])
  {
    hide After;
    assert FreshAt(cfg, w, actions, i);
  }

  /** Counted from the heavy flags of the submissions: a limited target never has more heavy jobs than its limit. */
  lemma HeavyLimit(cfg: Config, w: World, actions: seq<Action>, i: nat, target: string, ids: set<nat>)
    requires Inv(cfg, w) && FreshIds(cfg, w, actions) && target in cfg.heavyLimits && i <= |actions|
    requires forall id :: id in ids ==> HeavyJob(cfg, w, actions, i, id, target)
    ensures |ids| <= cfg.heavyLimits[target]
  {
    hide Act, Inv, FreshIds, After, HeavyJob, HoldsSlot;
    var u := After(cfg, w, actions, i);
    EveryState(cfg, w, actions, i);
    InvLocks(cfg, u);
    forall id | id in ids ensures id in HeavyOn(u.locks, target) {
      HeavyHoldsSlot(cfg, w, actions, i, id, target);
      HeldLease(cfg, u, id, target);
    }
    TargetLimit(cfg, u.locks, target, ids);
  }

  // ---------- What the steps write into a run ----------

  /** One run has a new status and error type, and no other run has changed. */
  ghost predicate Publishes(a: Store, b: Store, id: nat, status: RunStatus, error: Option<string>) {
    && b.Keys == a.Keys && id in a && b[id] == Run(a[id].mode, status, error)
    && forall x :: x in a && x != id ==> b[x] == a[x]
  }

  /** The body of the job ends now, in a way it can end. */
  predicate BodyEnds(w: World, id: nat, ssh: SshResult) {
    && id in w.loop.jobs && w.loop.jobs[id].phase.Executing? && (ssh.CancelledInside? ==> w.loop.jobs[id].cancelling)
    && (ssh.Returned? ==> ssh.status.Succeeded? || ssh.status.RemoteError? || ssh.status.TransportError? || ssh.status.TimedOut?)
  }

  /**
   * An execution that ends publishes a running run, while there is a store: the status of its result; a local error or an unknown
   * outcome with the name of the exception; or interruption with the reason given, if any. Every other step of a job writes nothing.
   */
  lemma ExecutionPublishes(cfg: Config, w: World, id: nat, wait: bool, ssh: SshResult, wake: Option<nat>)
    ensures
      var store := Act(cfg, w, JobStep(id, wait, ssh, wake)).world.store;
      if BodyEnds(w, id, ssh) && w.started && id in w.store && w.store[id].status.Running? then
        match ssh
        case Returned(status) => Publishes(w.store, store, id, status, w.store[id].errorType)
        case LocalFailure(error) => Publishes(w.store, store, id, LocalError, Some(error))
        case OtherFailure(error) => Publishes(w.store, store, id, UnknownOutcome, Some(error))
        case CancelledInside => Publishes(w.store, store, id, Interrupted, Some(if id in w.reasons then w.reasons[id] else "ExecutorShutdown"))
      else store == w.store
  {
    hide StepJob;
  }

  /** The completion callback publishes a run that nobody published, frees the slot of the job, and takes it out of the table. */
  lemma CompletionPublishes(cfg: Config, w: World)
    requires w.loop.ready != [] && w.loop.ready[0].Completed?
    ensures
      var id, u := w.loop.ready[0].id, Act(cfg, w, RunReady).world;
      && (if w.started && id in w.store && w.store[id].status.Running? then Publishes(w.store, u.store, id, UnknownOutcome, Some("ExecutorOwnershipLost"))
          else u.store == w.store)
      && id !in u.loop.jobs && (forall x :: x in w.loop.jobs && x != id ==> x in u.loop.jobs && u.loop.jobs[x] == w.loop.jobs[x])
      && id !in u.locks.leases && u.loop.ready == w.loop.ready[1..]
      && u.locks.locked == if id in w.locks.leases then w.locks.locked - {w.locks.leases[id]} else w.locks.locked
  {
  }

  /** A cancellation publishes at once only where no job can: then as lost. Otherwise it leaves its reason and waits. */
  lemma CancellationPublishes(cfg: Config, w: World, caller: nat, id: nat)
    ensures
      var u := Act(cfg, w, Cancel(caller, id)).world;
      var running := w.started && id in w.store && w.store[id].mode.Async? && w.store[id].status.Running?;
      var owned := id in w.loop.jobs && !w.loop.jobs[id].phase.Done?;
      && (running && !owned ==> Publishes(w.store, u.store, id, Interrupted, Some("ExecutorOwnershipLost")) && u.reasons == w.reasons)
      && (running && owned ==>
            && u.store == w.store && u.reasons == w.reasons[id := "ExplicitCancellation"] && u.loop.jobs.Keys == w.loop.jobs.Keys
            && u.loop.jobs[id].cancelling && u.loop.jobs[id].phase == w.loop.jobs[id].phase
            && u.loop.jobs[id].gatherers == w.loop.jobs[id].gatherers + [Canceller(caller)])
      && (!running ==> u == w) && u.locks == w.locks
  {
  }

  /** A new process publishes what the last one left running asynchronously, and nothing else. */
  lemma RestartPublishes(cfg: Config, store: Store, foreign: set<Slot>, id: nat)
    requires id in store
    ensures
      var u := StartWorld(cfg, store, foreign);
      && u.started && u.store.Keys == store.Keys && u.loop.jobs == map[] && u.loop.permits == cfg.maxConcurrency
      && u.store[id] == if store[id].mode.Async? && store[id].status.Running? then Run(Async, Interrupted, Some("ExecutorRestart")) else store[id]
  {
  }

  // ---------- Permits ----------

  /** A job that nobody asked to stop begins to execute when it was granted a permit, or on its first step if one is free. */
  lemma BeginsExecution(cfg: Config, w: World, id: nat, wait: bool, ssh: SshResult, wake: Option<nat>)
    requires id in w.loop.jobs && !w.loop.jobs[id].cancelling && !w.loop.jobs[id].phase.Executing?
    ensures
      var a, u := w.loop.jobs[id].phase, Act(cfg, w, JobStep(id, wait, ssh, wake)).world.loop;
      && id in u.jobs
      && (u.jobs[id].phase.Executing? <==> a.Granted? || (a.Starting? && w.loop.permits > 0 && !wait))
      && (a.Starting? && !u.jobs[id].phase.Executing? ==> u.jobs[id].phase.Waiting?)
      && u.permits == w.loop.permits - (if a.Starting? && u.jobs[id].phase.Executing? then 1 else 0)
  {
    hide Possible;
  }

  /** The permit of an execution that ends goes to the waiter that is woken, if it still waits, and back to the pool otherwise. */
  lemma PermitPasses(cfg: Config, w: World, id: nat, wait: bool, ssh: SshResult, wake: Option<nat>)
    requires BodyEnds(w, id, ssh)
    ensures
      var u := Act(cfg, w, JobStep(id, wait, ssh, wake)).world.loop;
      var next := wake.Some? && wake.value in w.loop.jobs && wake.value != id && w.loop.jobs[wake.value].phase.Waiting? && !w.loop.jobs[wake.value].cancelling;
      && u.jobs.Keys == w.loop.jobs.Keys && u.jobs[id].phase.Done? && Completed(id) in u.ready
      && (if next then u.permits == w.loop.permits && u.jobs[wake.value].phase.Granted? else u.permits == w.loop.permits + 1)
  {
    hide Wakes;
    assert (w.loop.ready + [Completed(id)] + Wakes(id, w.loop.jobs[id].gatherers))[|w.loop.ready|] == Completed(id);
  }
}
