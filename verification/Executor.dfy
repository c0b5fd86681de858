/**
 * The asynchronous executor as an event-loop state machine.
 *
 * One action is one uninterrupted piece of the loop: a submission, one coroutine step, one ready callback, a
 * cancellation up to its first await, a stop request up to its first await. Runs are kept to the three fields the
 * executor looks at; ExecutorHistory ties them to the run store.
 */
module Executor {
  import opened Common
  import opened Runs

  datatype Slot = Slot(target: string, index: nat)

  datatype Config = Config(maxConcurrency: nat, heavyLimits: map<string, nat>)

  datatype Run = Run(mode: Mode, status: RunStatus, errorType: Option<string>)

  type Store = map<nat, Run>

  /** Where an execution coroutine is suspended. */
  datatype Phase = Starting | Waiting | Granted | Executing | Done

  datatype Gatherer = Canceller(caller: nat) | Stopper

  datatype Job = Job(phase: Phase, cancelling: bool, gatherers: seq<Gatherer>)

  /** Ready callbacks: the completion callback of a job, or the wake-up of a coroutine gathering it. */
  datatype Callback = Completed(id: nat) | Wake(id: nat, gatherer: Gatherer)

  /** The jobs the executor owns, the semaphore and the queue of ready callbacks. */
  datatype Loop = Loop(jobs: map<nat, Job>, permits: nat, ready: seq<Callback>)

  /** Heavy slots: the executor's leases and the lock table it shares with other owners. */
  datatype Locks = Locks(leases: map<nat, Slot>, locked: set<Slot>, foreign: set<Slot>, acquired: nat, released: nat)

  /** started is false once the store has been dropped; stopping holds the jobs a stop still waits for. */
  datatype World = World(started: bool, stopping: Option<set<nat>>, store: Store, reasons: map<nat, string>, loop: Loop, locks: Locks)

  datatype Fault = NoFault | CreateFails | SpawnFails

  datatype SshResult =
    | Returned(status: RunStatus)
    | LocalFailure(error: string)
    | OtherFailure(error: string)
    | CancelledInside

  datatype Action =
    | Submit(id: nat, target: string, heavy: bool, rejected: bool, fault: Fault)
    | JobStep(id: nat, wait: bool, ssh: SshResult, wake: Option<nat>)
    | RunReady
    | Cancel(caller: nat, id: nat)
    | Stop
    | LoseOwnership(id: nat)
    | ForeignTake(slot: Slot)
    | ForeignDrop(slot: Slot)

  datatype Answer =
    | Quiet
    | Submitted(id: nat)
    | Raised
    | CancelAnswer(caller: nat, id: nat, status: RunStatus, cancelled: bool)

  datatype Turn = Turn(world: World, answer: Answer)

  const LOST := "ExecutorOwnershipLost"
  const EXPLICIT := "ExplicitCancellation"
  const SHUTDOWN := "ExecutorShutdown"
  const SUBMISSION_FAILED := "ExecutorSubmissionFailed"

  // ---------- Runs ----------

  predicate IsRunning(s: Store, id: nat) { id in s && s[id].status.Running? }

  /** Ending a run that is not running changes nothing. */
  function EndRun(s: Store, id: nat, status: RunStatus, error: Option<string>): Store {
    if IsRunning(s, id) then s[id := Run(s[id].mode, status, if error.Some? then error else s[id].errorType)] else s
  }

  /** Every write goes through the store, which is gone after a stop. */
  function EndIf(started: bool, s: Store, id: nat, status: RunStatus, error: Option<string>): Store {
    if started then EndRun(s, id, status, error) else s
  }

  predicate Possible(j: Job, ssh: SshResult) {
    (ssh.CancelledInside? ==> j.cancelling) && (ssh.Returned? ==> IsExecutionStatus(ssh.status))
  }

  /** How the body of the coroutine records the end of its execution. */
  function RecordEnd(started: bool, s: Store, reasons: map<nat, string>, id: nat, ssh: SshResult): Store {
    match ssh
    case Returned(status) => EndIf(started, s, id, status, None)
    case LocalFailure(error) => EndIf(started, s, id, LocalError, Some(error))
    case OtherFailure(error) => EndIf(started, s, id, UnknownOutcome, Some(error))
    case CancelledInside => EndIf(started, s, id, Interrupted, Some(if id in reasons then reasons[id] else SHUTDOWN))
  }

  // ---------- Jobs ----------

  /** A released permit passes to a waiter, or returns to the pool. */
  function GivePermit(l: Loop, wake: Option<nat>): Loop {
    if wake.Some? && wake.value in l.jobs && l.jobs[wake.value].phase.Waiting? && !l.jobs[wake.value].cancelling then
      l.(jobs := l.jobs[wake.value := l.jobs[wake.value].(phase := Granted)])
    else l.(permits := l.permits + 1)
  }

  function Wakes(id: nat, gatherers: seq<Gatherer>): (c: seq<Callback>)
    ensures |c| == |gatherers| && forall i :: 0 <= i < |c| ==> c[i] == Wake(id, gatherers[i])
  {
    seq(|gatherers|, i requires 0 <= i < |gatherers| => Wake(id, gatherers[i]))
  }

  /** A finished job schedules its completion callback first, then whoever gathers it. */
  function EndJob(l: Loop, id: nat): Loop
    requires id in l.jobs
  {
    l.(jobs := l.jobs[id := Job(Done, l.jobs[id].cancelling, [])],
       ready := l.ready + [Completed(id)] + Wakes(id, l.jobs[id].gatherers))
  }

  function SetPhase(l: Loop, id: nat, phase: Phase): Loop
    requires id in l.jobs
  {
    l.(jobs := l.jobs[id := l.jobs[id].(phase := phase)])
  }

  predicate EndsExecution(l: Loop, id: nat, ssh: SshResult) {
    id in l.jobs && l.jobs[id].phase.Executing? && Possible(l.jobs[id], ssh)
  }

  function StepJob(l: Loop, id: nat, wait: bool, ssh: SshResult, wake: Option<nat>): Loop {
    if id !in l.jobs then l
    else
      var j := l.jobs[id];
      match j.phase
      case Done => l
      case Starting =>
        if j.cancelling then EndJob(l, id)
        else if l.permits > 0 && !wait then SetPhase(l, id, Executing).(permits := l.permits - 1)
        else SetPhase(l, id, Waiting)
      case Waiting => if j.cancelling then EndJob(l, id) else l
      case Granted => if j.cancelling then GivePermit(EndJob(l, id), wake) else SetPhase(l, id, Executing)
      case Executing => if Possible(j, ssh) then GivePermit(EndJob(l, id), wake) else l
  }

  // ---------- Slots ----------

  function FreeSlots(locked: set<Slot>, target: string, k: nat): set<nat> {
    set i | 0 <= i < k && Slot(target, i) !in locked
  }

  function LockLease(k: Locks, id: nat, slot: Slot): Locks {
    k.(leases := k.leases[id := slot], locked := k.locked + {slot}, acquired := k.acquired + 1)
  }

  function UnlockLease(k: Locks, id: nat): Locks {
    if id in k.leases then
      k.(leases := k.leases - {id}, locked := k.locked - {k.leases[id]}, released := k.released + 1)
    else k
  }

  /** A slot that was taken for a submission that then failed. */
  function TakeAndReturn(k: Locks): Locks { k.(acquired := k.acquired + 1, released := k.released + 1) }

  datatype SlotChoice = NotNeeded | Full | Take(slot: Slot)

  /** Heavy runs on a limited target take the first free slot. */
  function ChooseSlot(cfg: Config, k: Locks, target: string, heavy: bool): SlotChoice {
    if !heavy || target !in cfg.heavyLimits then NotNeeded
    else
      var free := FreeSlots(k.locked, target, cfg.heavyLimits[target]);
      if free == {} then Full else Take(Slot(target, Min(free)))
  }

  // ---------- Actions ----------

  const NewRun := Run(Async, Running, None)
  const NewJob := Job(Starting, false, [])

  function SubmitStep(cfg: Config, w: World, a: Action): Turn
    requires a.Submit?
  {
    var choice := ChooseSlot(cfg, w.locks, a.target, a.heavy);
    if a.rejected || choice.Full? then Turn(w, Raised)
    else if !w.started || a.fault.CreateFails? then
      Turn(if choice.Take? then w.(locks := TakeAndReturn(w.locks)) else w, Raised)
    else if a.fault.SpawnFails? then
      if choice.Take? then
        Turn(w.(locks := TakeAndReturn(w.locks), store := w.store[a.id := Run(Async, UnknownOutcome, Some(SUBMISSION_FAILED))]), Raised)
      else Turn(w.(store := w.store[a.id := NewRun]), Raised)
    else
      Turn(w.(locks := if choice.Take? then LockLease(w.locks, a.id, choice.slot) else w.locks,
              store := w.store[a.id := NewRun], loop := w.loop.(jobs := w.loop.jobs[a.id := NewJob])),
           Submitted(a.id))
  }

  function JobStepped(w: World, id: nat, wait: bool, ssh: SshResult, wake: Option<nat>): World {
    var ends := EndsExecution(w.loop, id, ssh);
    w.(loop := StepJob(w.loop, id, wait, ssh, wake),
       store := if ends then RecordEnd(w.started, w.store, w.reasons, id, ssh) else w.store,
       reasons := if ends && ssh.CancelledInside? then w.reasons - {id} else w.reasons)
  }

  /** The completion callback: publish ownership loss if nothing was published, then release what the job held. */
  function ReconcileStep(w: World, id: nat): World {
    w.(store := EndIf(w.started, w.store, id, UnknownOutcome, Some(LOST)), locks := UnlockLease(w.locks, id),
       loop := w.loop.(jobs := w.loop.jobs - {id}))
  }

  function CancelReport(w: World, caller: nat, id: nat): Answer {
    if !w.started || id !in w.store then Raised
    else
      var r := w.store[id];
      CancelAnswer(caller, id, r.status, r.status.Interrupted? && r.errorType == Some(EXPLICIT))
  }

  /** A stop whose last gathered job has completed drops the store. */
  function StopProgress(w: World, id: nat): World {
    if w.stopping.None? then w
    else
      var left := w.stopping.value - {id};
      if left == {} then w.(stopping := None, started := false) else w.(stopping := Some(left))
  }

  function ReadyStep(w: World): Turn {
    if w.loop.ready == [] then Turn(w, Quiet)
    else
      var u := w.(loop := w.loop.(ready := w.loop.ready[1..]));
      match w.loop.ready[0]
      case Completed(id) => Turn(ReconcileStep(u, id), Quiet)
      case Wake(id, Canceller(caller)) => Turn(u, CancelReport(u, caller, id))
      case Wake(id, Stopper) => Turn(StopProgress(u, id), Quiet)
  }

  function Asked(j: Job, caller: nat): Job { j.(cancelling := true, gatherers := j.gatherers + [Canceller(caller)]) }

  /** A cancellation up to its first await. */
  function CancelStep(w: World, caller: nat, id: nat): Turn {
    if !w.started || id !in w.store || !w.store[id].mode.Async? then Turn(w, Raised)
    else if !w.store[id].status.Running? then Turn(w, CancelAnswer(caller, id, w.store[id].status, false))
    else if id !in w.loop.jobs || w.loop.jobs[id].phase.Done? then
      Turn(w.(store := EndRun(w.store, id, Interrupted, Some(LOST))), CancelAnswer(caller, id, Interrupted, false))
    else
      Turn(w.(reasons := w.reasons[id := EXPLICIT],
              loop := w.loop.(jobs := w.loop.jobs[id := Asked(w.loop.jobs[id], caller)])),
           Quiet)
  }

  function StopJob(j: Job): Job { if j.phase.Done? then j else j.(cancelling := true, gatherers := j.gatherers + [Stopper]) }

  function StopJobs(jobs: map<nat, Job>): map<nat, Job> { map id | id in jobs :: StopJob(jobs[id]) }

  function DoneIds(jobs: map<nat, Job>): set<nat> { set id | id in jobs && jobs[id].phase.Done? }

  function LiveIds(jobs: map<nat, Job>): set<nat> { set id | id in jobs && !jobs[id].phase.Done? }

  /**
   * A stop request: cancel every job, then gather those that are not done. Gathering none of them does not suspend, so the store
   * is dropped at once, before the completion callbacks of jobs that are already done have run.
   */
  function StopStep(w: World): World {
    if !w.started || w.stopping.Some? then w
    else if LiveIds(w.loop.jobs) == {} then w.(started := false)
    else w.(stopping := Some(LiveIds(w.loop.jobs)), loop := w.loop.(jobs := StopJobs(w.loop.jobs)))
  }

  /** An asynchronous run without an owner is found running, and published as lost. */
  function LoseStep(w: World, id: nat): World {
    if id in w.store && w.store[id].mode.Async? && id !in w.loop.jobs then
      w.(store := EndIf(w.started, w.store, id, UnknownOutcome, Some(LOST)))
    else w
  }

  function Act(cfg: Config, w: World, a: Action): Turn {
    match a
    case Submit(_, _, _, _, _) => SubmitStep(cfg, w, a)
    case JobStep(id, wait, ssh, wake) => Turn(JobStepped(w, id, wait, ssh, wake), Quiet)
    case RunReady => ReadyStep(w)
    case Cancel(caller, id) => CancelStep(w, caller, id)
    case Stop => Turn(StopStep(w), Quiet)
    case LoseOwnership(id) => Turn(LoseStep(w, id), Quiet)
    case ForeignTake(slot) => Turn(w.(locks := Taken(w.locks, slot)), Quiet)
    case ForeignDrop(slot) => Turn(w.(locks := Dropped(w.locks, slot)), Quiet)
  }

  /** Another process, or a synchronous run, takes or gives up a slot. */
  function Taken(k: Locks, slot: Slot): Locks {
    if slot in k.locked then k else k.(locked := k.locked + {slot}, foreign := k.foreign + {slot})
  }

  function Dropped(k: Locks, slot: Slot): Locks {
    if slot in k.foreign then k.(locked := k.locked - {slot}, foreign := k.foreign - {slot}) else k
  }

  /** A new process reconciles asynchronous runs before it accepts work. */
  function StartWorld(cfg: Config, store: Store, foreign: set<Slot>): World {
    World(true, None,
          map id | id in store ::
            if store[id].mode.Async? && store[id].status.Running? then Run(Async, Interrupted, Some("ExecutorRestart")) else store[id],
          map[], Loop(map[], cfg.maxConcurrency, []), Locks(map[], foreign, foreign, 0, 0))
  }

  function After(cfg: Config, w: World, actions: seq<Action>, i: nat): World
    requires i <= |actions|
  {
    if i == 0 then w else Act(cfg, After(cfg, w, actions, i - 1), actions[i - 1]).world
  }

  predicate FreshId(w: World, a: Action) { a.Submit? ==> a.id !in w.store }

  predicate FreshAt(cfg: Config, w: World, actions: seq<Action>, i: nat)
    requires i < |actions|
  {
    FreshId(After(cfg, w, actions, i), actions[i])
  }

  /** Every submitted identifier is new. */
  ghost predicate FreshIds(cfg: Config, w: World, actions: seq<Action>) {
    forall i :: 0 <= i < |actions| ==> FreshAt(cfg, w, actions, i)
  }

  // ---------- Invariants ----------

  function Image(leases: map<nat, Slot>): set<Slot> { set id | id in leases :: leases[id] }

  ghost predicate Injective(leases: map<nat, Slot>) {
    forall a, b :: a in leases && b in leases && leases[a] == leases[b] ==> a == b
  }

  ghost predicate WithinLimits(cfg: Config, leases: map<nat, Slot>) {
    forall id :: id in leases ==>
      leases[id].target in cfg.heavyLimits && leases[id].index < cfg.heavyLimits[leases[id].target]
  }

  /** The lock table is exactly the slots of live leases and of other owners; no slot has two holders. */
  ghost predicate LocksOk(cfg: Config, k: Locks) {
    && k.locked == Image(k.leases) + k.foreign && Image(k.leases) !! k.foreign
    && Injective(k.leases) && WithinLimits(cfg, k.leases)
    && k.acquired == k.released + |k.leases.Keys|
  }

  predicate Holding(j: Job) { j.phase.Granted? || j.phase.Executing? }

  function Holders(jobs: map<nat, Job>): set<nat> { set id | id in jobs && Holding(jobs[id]) }

  ghost predicate PermitsOk(cfg: Config, l: Loop) { l.permits + |Holders(l.jobs)| == cfg.maxConcurrency }

  ghost predicate ScheduledBy(ready: seq<Callback>, id: nat, n: int) {
    exists q :: 0 <= q < n && q < |ready| && ready[q] == Completed(id)
  }

  /** A done job has its completion callback queued, and nobody gathering it is woken before that callback. */
  ghost predicate QueueOk(l: Loop) {
    && (forall id :: id in l.jobs && l.jobs[id].phase.Done? ==> ScheduledBy(l.ready, id, |l.ready|))
    && (forall i :: 0 <= i < |l.ready| && l.ready[i].id in l.jobs ==> ScheduledBy(l.ready, l.ready[i].id, i + 1))
    && (forall i :: 0 <= i < |l.ready| && l.ready[i].id in l.jobs ==> l.jobs[l.ready[i].id].phase.Done?)
  }

  /** Jobs stand for asynchronous runs, still running until the job is done; a queued wake-up without a job finds its run ended. */
  ghost predicate RunsOk(w: World) {
    && (forall id :: id in w.loop.jobs ==> id in w.store && w.store[id].mode.Async?)
    && (w.started ==> forall id :: id in w.loop.jobs && !w.loop.jobs[id].phase.Done? ==> IsRunning(w.store, id))
    && (forall i :: 0 <= i < |w.loop.ready| ==>
          var id := w.loop.ready[i].id;
          id in w.store && (w.started && id !in w.loop.jobs ==> !IsRunning(w.store, id)))
  }

  ghost predicate LeasesOwned(w: World) { w.locks.leases.Keys <= w.loop.jobs.Keys }

  /** Every asynchronous running run has an entry in the executor's table. */
  ghost predicate Owned(w: World) {
    w.started ==> forall id :: id in w.store && w.store[id].mode.Async? && w.store[id].status.Running? ==> id in w.loop.jobs
  }

  ghost predicate Inv(cfg: Config, w: World) {
    LocksOk(cfg, w.locks) && PermitsOk(cfg, w.loop) && QueueOk(w.loop) && RunsOk(w) && LeasesOwned(w)
  }

  // ---------- Slots are conserved ----------

  lemma UnlockKeepsLocks(cfg: Config, k: Locks, id: nat)
    requires LocksOk(cfg, k)
    ensures LocksOk(cfg, UnlockLease(k, id))
  {
    if id in k.leases {
      var left := k.leases - {id};
      assert left.Keys == k.leases.Keys - {id};
      assert Image(left) == Image(k.leases) - {k.leases[id]} by { ImageWithout(k.leases, id); }
      assert k.leases[id] in Image(k.leases);
      hide Image;
    }
  }

  lemma ImageWithout(leases: map<nat, Slot>, id: nat)
    requires id in leases && Injective(leases)
    ensures Image(leases - {id}) == Image(leases) - {leases[id]}
  {
    var left := leases - {id};
    forall s | s in Image(leases) - {leases[id]} ensures s in Image(left) {
      var x :| x in leases && leases[x] == s;
      assert x in left && left[x] == s;
    }
  }

  lemma ImageWith(leases: map<nat, Slot>, id: nat, slot: Slot)
    requires id !in leases
    ensures Image(leases[id := slot]) == Image(leases) + {slot}
  {
    var m := leases[id := slot];
    assert forall x :: x in leases ==> m[x] == leases[x];
    assert m[id] == slot;
    forall s | s in Image(leases) + {slot} ensures s in Image(m) {
      if s != slot {
        var x :| x in leases && leases[x] == s;
        assert x in m && m[x] == s;
      }
    }
  }

  lemma LockKeepsLocks(cfg: Config, k: Locks, id: nat, slot: Slot)
    requires LocksOk(cfg, k) && id !in k.leases && slot !in k.locked
    requires slot.target in cfg.heavyLimits && slot.index < cfg.heavyLimits[slot.target]
    ensures LocksOk(cfg, LockLease(k, id, slot))
  {
    var m := k.leases[id := slot];
    ImageWith(k.leases, id, slot);
    assert m.Keys == k.leases.Keys + {id};
    InjectiveWith(cfg, k.leases, id, slot);
    hide Image, Injective, WithinLimits;
  }

  lemma InjectiveWith(cfg: Config, leases: map<nat, Slot>, id: nat, slot: Slot)
    requires Injective(leases) && WithinLimits(cfg, leases) && slot !in Image(leases)
    requires slot.target in cfg.heavyLimits && slot.index < cfg.heavyLimits[slot.target]
    ensures Injective(leases[id := slot]) && WithinLimits(cfg, leases[id := slot])
  {
    assert forall x :: x in leases ==> leases[x] in Image(leases);
    hide Image;
  }

  lemma LocksKept(cfg: Config, w: World, a: Action)
    requires LocksOk(cfg, w.locks) && (a.Submit? ==> a.id !in w.locks.leases)
    ensures LocksOk(cfg, Act(cfg, w, a).world.locks)
  {
    match a
    case Submit(id, target, heavy, _, _) =>
      var choice := ChooseSlot(cfg, w.locks, target, heavy);
      if choice.Take? { LockKeepsLocks(cfg, w.locks, id, choice.slot); }
      hide LocksOk, LockLease, ChooseSlot;
      assert LocksOk(cfg, TakeAndReturn(w.locks)) by { TakenAndReturned(cfg, w.locks); }
    case RunReady =>
      if w.loop.ready != [] { UnlockKeepsLocks(cfg, w.locks, w.loop.ready[0].id); }
      hide LocksOk, UnlockLease;
    case JobStep(_, _, _, _) => hide LocksOk;
    case Cancel(_, _) => hide LocksOk;
    case Stop => hide LocksOk;
    case LoseOwnership(_) => hide LocksOk;
    case ForeignTake(slot) => ForeignKeepsLocks(cfg, w.locks, slot); hide LocksOk;
    case ForeignDrop(slot) => ForeignKeepsLocks(cfg, w.locks, slot); hide LocksOk;
  }

  lemma TakenAndReturned(cfg: Config, k: Locks)
    requires LocksOk(cfg, k)
    ensures LocksOk(cfg, TakeAndReturn(k))
  {
  }

  lemma ForeignKeepsLocks(cfg: Config, k: Locks, slot: Slot)
    requires LocksOk(cfg, k)
    ensures LocksOk(cfg, Taken(k, slot)) && LocksOk(cfg, Dropped(k, slot))
  {
    hide Image, Injective, WithinLimits;
    var i := Image(k.leases);
    assert slot in k.foreign ==> slot !in i;
    assert slot in k.foreign ==> (i + k.foreign) - {slot} == i + (k.foreign - {slot});
    assert i + k.foreign + {slot} == i + (k.foreign + {slot});
  }

  // ---------- Permits are conserved ----------

  lemma HoldersUpdate(jobs: map<nat, Job>, id: nat, j: Job)
    ensures Holders(jobs[id := j]) == if Holding(j) then Holders(jobs) + {id} else Holders(jobs) - {id}
  {
  }

  lemma GiveKeepsPermits(l: Loop, wake: Option<nat>)
    ensures GivePermit(l, wake).permits + |Holders(GivePermit(l, wake).jobs)| == l.permits + |Holders(l.jobs)| + 1
  {
    if wake.Some? && wake.value in l.jobs {
      HoldersUpdate(l.jobs, wake.value, l.jobs[wake.value].(phase := Granted));
      assert wake.value in Holders(l.jobs) <==> Holding(l.jobs[wake.value]);
      hide Holders;
    }
  }

  lemma PhaseKeepsPermits(l: Loop, id: nat, phase: Phase)
    requires id in l.jobs && !phase.Done?
    ensures |Holders(SetPhase(l, id, phase).jobs)|
            == |Holders(l.jobs)| + (if phase.Granted? || phase.Executing? then 1 else 0) - (if Holding(l.jobs[id]) then 1 else 0)
  {
    var h := Holders(l.jobs);
    assert id in h <==> Holding(l.jobs[id]);
    HoldersUpdate(l.jobs, id, l.jobs[id].(phase := phase));
    hide Holders;
    assert id in h ==> h + {id} == h && |h - {id}| == |h| - 1;
    assert id !in h ==> h - {id} == h && |h + {id}| == |h| + 1;
  }

  lemma EndPermits(l: Loop, id: nat)
    requires id in l.jobs
    ensures |Holders(EndJob(l, id).jobs)| == |Holders(l.jobs)| - (if Holding(l.jobs[id]) then 1 else 0)
    ensures EndJob(l, id).permits == l.permits
  {
    var h := Holders(l.jobs);
    assert id in h <==> Holding(l.jobs[id]);
    HoldersUpdate(l.jobs, id, Job(Done, l.jobs[id].cancelling, []));
    hide Holders;
    assert id in h ==> |h - {id}| == |h| - 1;
    assert id !in h ==> h - {id} == h;
  }

  lemma StepKeepsPermits(cfg: Config, l: Loop, id: nat, wait: bool, ssh: SshResult, wake: Option<nat>)
    requires PermitsOk(cfg, l)
    ensures PermitsOk(cfg, StepJob(l, id, wait, ssh, wake))
  {
    hide Holders, EndJob, GivePermit, Possible;
    if id in l.jobs {
      PhaseKeepsPermits(l, id, Executing);
      PhaseKeepsPermits(l, id, Waiting);
      EndPermits(l, id);
      GiveKeepsPermits(EndJob(l, id), wake);
    }
  }

  lemma AskedHolders(jobs: map<nat, Job>, id: nat, caller: nat)
    requires id in jobs
    ensures Holders(jobs[id := Asked(jobs[id], caller)]) == Holders(jobs)
  {
    HoldersUpdate(jobs, id, Asked(jobs[id], caller));
    assert id in Holders(jobs) <==> Holding(jobs[id]);
  }

  lemma ReadyKeepsPermits(cfg: Config, w: World)
    requires PermitsOk(cfg, w.loop) && QueueOk(w.loop)
    ensures PermitsOk(cfg, ReadyStep(w).world.loop)
  {
    if w.loop.ready != [] {
      var id := w.loop.ready[0].id;
      assert id in w.loop.jobs ==> w.loop.jobs[id].phase.Done?;
      assert Holders(w.loop.jobs - {id}) == Holders(w.loop.jobs);
    }
    hide Holders, QueueOk, UnlockLease, EndIf;
  }

  lemma PermitsKept(cfg: Config, w: World, a: Action)
    requires PermitsOk(cfg, w.loop) && QueueOk(w.loop) && (a.Submit? ==> a.id !in w.loop.jobs)
    ensures PermitsOk(cfg, Act(cfg, w, a).world.loop)
  {
    var jobs := w.loop.jobs;
    match a
    case Submit(id, _, _, _, _) =>
      HoldersUpdate(jobs, id, NewJob);
      assert Holders(jobs) - {id} == Holders(jobs);
      hide Holders, QueueOk, ChooseSlot;
    case JobStep(id, wait, ssh, wake) => StepKeepsPermits(cfg, w.loop, id, wait, ssh, wake); hide PermitsOk, StepJob, QueueOk;
    case RunReady => ReadyKeepsPermits(cfg, w); hide PermitsOk, ReadyStep, QueueOk;
    case Cancel(caller, id) =>
      if id in jobs { AskedHolders(jobs, id, caller); }
      hide Holders, QueueOk, Asked;
    case Stop => assert Holders(StopJobs(jobs)) == Holders(jobs); hide Holders, QueueOk, StopJobs;
    case LoseOwnership(_) => hide PermitsOk;
    case ForeignTake(slot) => hide PermitsOk;
    case ForeignDrop(slot) => hide PermitsOk;
  }

  // ---------- The completion callback runs before any wake-up of its job ----------

  lemma ScheduledGrows(a: seq<Callback>, b: seq<Callback>, id: nat, k: int)
    requires |a| <= |b| && a == b[..|a|] && ScheduledBy(a, id, k)
    ensures ScheduledBy(b, id, k)
  {
    var q :| 0 <= q < k && q < |a| && a[q] == Completed(id);
    assert b[q] == Completed(id);
  }

  lemma ScheduledAt(ready: seq<Callback>, id: nat, q: nat, k: int)
    requires q < k && q < |ready| && ready[q] == Completed(id)
    ensures ScheduledBy(ready, id, k)
  {
  }

  /** What the end of a job appends: callbacks of that job alone, its completion first. */
  lemma EndAppends(l: Loop, id: nat)
    requires id in l.jobs
    ensures var m := EndJob(l, id);
            && |l.ready| < |m.ready| && m.ready[..|l.ready|] == l.ready && m.ready[|l.ready|] == Completed(id)
            && (forall q :: |l.ready| <= q < |m.ready| ==> m.ready[q].id == id)
            && m.jobs.Keys == l.jobs.Keys && m.jobs[id].phase.Done? && forall x :: x in l.jobs && x != id ==> m.jobs[x] == l.jobs[x]
  {
  }

  lemma EndSchedulesDone(l: Loop, id: nat, x: nat)
    requires QueueOk(l) && id in l.jobs && x in l.jobs && (x == id || l.jobs[x].phase.Done?)
    ensures var ready := EndJob(l, id).ready; ScheduledBy(ready, x, |ready|)
  {
    hide EndJob, ScheduledBy;
    EndAppends(l, id);
    var ready := EndJob(l, id).ready;
    if x == id {
      ScheduledAt(ready, id, |l.ready|, |ready|);
    } else {
      ScheduledGrows(l.ready, ready, x, |l.ready|);
      ScheduledLater(ready, x, |l.ready|, |ready|);
    }
  }

  lemma EndSchedulesReady(l: Loop, id: nat, i: nat)
    requires QueueOk(l) && id in l.jobs && i < |EndJob(l, id).ready|
    ensures var m := EndJob(l, id);
            m.ready[i].id in m.jobs ==> ScheduledBy(m.ready, m.ready[i].id, i + 1) && m.jobs[m.ready[i].id].phase.Done?
  {
    hide EndJob, ScheduledBy;
    EndAppends(l, id);
    var m := EndJob(l, id);
    var n := |l.ready|;
    if i < n {
      assert m.ready[i] == m.ready[..n][i];
      if m.ready[i].id in m.jobs { ScheduledGrows(l.ready, m.ready, m.ready[i].id, i + 1); }
    } else {
      ScheduledAt(m.ready, id, n, i + 1);
    }
  }

  lemma EndKeepsQueue(l: Loop, id: nat)
    requires QueueOk(l) && id in l.jobs && !l.jobs[id].phase.Done?
    ensures QueueOk(EndJob(l, id))
  {
    hide EndJob, ScheduledBy;
    var m := EndJob(l, id);
    EndAppends(l, id);
    forall x | x in m.jobs && m.jobs[x].phase.Done? ensures ScheduledBy(m.ready, x, |m.ready|) { EndSchedulesDone(l, id, x); }
    forall i | 0 <= i < |m.ready|
      ensures m.ready[i].id in m.jobs ==> ScheduledBy(m.ready, m.ready[i].id, i + 1) && m.jobs[m.ready[i].id].phase.Done?
    {
      EndSchedulesReady(l, id, i);
    }
  }

  lemma ScheduledLater(ready: seq<Callback>, id: nat, k: int, n: int)
    requires ScheduledBy(ready, id, k) && k <= n
    ensures ScheduledBy(ready, id, n)
  {
  }

  lemma QueueOfJobs(l: Loop, m: Loop)
    requires QueueOk(l) && m.ready == l.ready && m.jobs.Keys == l.jobs.Keys
    requires forall id :: id in l.jobs ==> (m.jobs[id].phase.Done? <==> l.jobs[id].phase.Done?)
    ensures QueueOk(m)
  {
  }

  lemma GiveKeepsQueue(l: Loop, wake: Option<nat>)
    requires QueueOk(l)
    ensures QueueOk(GivePermit(l, wake))
  {
    hide QueueOk;
    QueueOfJobs(l, GivePermit(l, wake));
  }

  lemma PhaseKeepsQueue(l: Loop, id: nat, phase: Phase, permits: nat)
    requires QueueOk(l) && id in l.jobs && !l.jobs[id].phase.Done? && !phase.Done?
    ensures QueueOk(SetPhase(l, id, phase).(permits := permits))
  {
    hide QueueOk;
    QueueOfJobs(l, SetPhase(l, id, phase).(permits := permits));
  }

  lemma StepKeepsQueue(l: Loop, id: nat, wait: bool, ssh: SshResult, wake: Option<nat>)
    requires QueueOk(l)
    ensures QueueOk(StepJob(l, id, wait, ssh, wake))
  {
    hide QueueOk, EndJob, GivePermit, Possible;
    if id in l.jobs && !l.jobs[id].phase.Done? {
      EndKeepsQueue(l, id);
      GiveKeepsQueue(EndJob(l, id), wake);
      PhaseKeepsQueue(l, id, Executing, if l.permits > 0 then l.permits - 1 else 0);
      PhaseKeepsQueue(l, id, Executing, l.permits);
      PhaseKeepsQueue(l, id, Waiting, l.permits);
      assert SetPhase(l, id, Executing).(permits := l.permits) == SetPhase(l, id, Executing);
      assert SetPhase(l, id, Waiting).(permits := l.permits) == SetPhase(l, id, Waiting);
    }
  }

  /** Dropping the front callback, together with its job when it is a completion. */
  lemma ReadyKeepsQueue(l: Loop)
    requires QueueOk(l) && l.ready != []
    ensures var jobs := if l.ready[0].Completed? then l.jobs - {l.ready[0].id} else l.jobs;
            QueueOk(l.(jobs := jobs, ready := l.ready[1..]))
  {
    var rest := l.ready[1..];
    assert forall q :: 0 <= q < |rest| ==> rest[q] == l.ready[q + 1];
    var front := l.ready[0];
    forall x, k: int | 0 <= k <= |rest| && ScheduledBy(l.ready, x, k + 1) && l.ready[0] != Completed(x)
      ensures ScheduledBy(rest, x, k)
    {
      var q :| 0 <= q < k + 1 && q < |l.ready| && l.ready[q] == Completed(x);
      assert rest[q - 1] == Completed(x);
    }
  }

  lemma StopKeepsQueue(l: Loop)
    requires QueueOk(l)
    ensures QueueOk(l.(jobs := StopJobs(l.jobs)))
  {
    hide QueueOk;
    QueueOfJobs(l, l.(jobs := StopJobs(l.jobs)));
  }

  lemma AddKeepsQueue(l: Loop, id: nat)
    requires QueueOk(l) && id !in l.jobs && forall i :: 0 <= i < |l.ready| ==> l.ready[i].id != id
    ensures QueueOk(l.(jobs := l.jobs[id := NewJob]))
  {
  }

  lemma QueueKept(cfg: Config, w: World, a: Action)
    requires QueueOk(w.loop) && RunsOk(w) && FreshId(w, a)
    ensures QueueOk(Act(cfg, w, a).world.loop)
  {
    match a
    case Submit(id, _, _, _, _) =>
      assert forall i :: 0 <= i < |w.loop.ready| ==> w.loop.ready[i].id != id;
      AddKeepsQueue(w.loop, id);
      hide ChooseSlot, RunsOk, QueueOk;
    case JobStep(id, wait, ssh, wake) => StepKeepsQueue(w.loop, id, wait, ssh, wake); hide QueueOk, StepJob, RunsOk;
    case RunReady => ReadyLoop(w); if w.loop.ready != [] { ReadyKeepsQueue(w.loop); } hide QueueOk, ReadyStep, RunsOk;
    case Cancel(caller, id) => CancelKeepsQueue(w, caller, id); hide QueueOk, CancelStep, RunsOk;
    case Stop => StopKeepsQueue(w.loop); hide QueueOk, StopJobs, RunsOk;
    case LoseOwnership(_) => hide QueueOk, RunsOk;
    case ForeignTake(slot) => hide QueueOk, RunsOk;
    case ForeignDrop(slot) => hide QueueOk, RunsOk;
  }

  /** What a ready callback does to the loop. */
  lemma ReadyLoop(w: World)
    ensures w.loop.ready == [] ==> ReadyStep(w).world == w
    ensures w.loop.ready != [] ==>
              var jobs := if w.loop.ready[0].Completed? then w.loop.jobs - {w.loop.ready[0].id} else w.loop.jobs;
              ReadyStep(w).world.loop == w.loop.(jobs := jobs, ready := w.loop.ready[1..])
  {
    hide EndIf, UnlockLease;
  }

  lemma CancelKeepsQueue(w: World, caller: nat, id: nat)
    requires QueueOk(w.loop)
    ensures QueueOk(CancelStep(w, caller, id).world.loop)
  {
    if id in w.loop.jobs { QueueOfJobs(w.loop, w.loop.(jobs := w.loop.jobs[id := Asked(w.loop.jobs[id], caller)])); }
    hide QueueOk, EndRun;
  }

  // ---------- Jobs stand for running runs ----------

  lemma EndIfEffect(started: bool, s: Store, id: nat, status: RunStatus, error: Option<string>)
    requires !status.Running?
    ensures var t := EndIf(started, s, id, status, error);
            && t.Keys == s.Keys && (forall x :: x in s ==> t[x].mode == s[x].mode && (x != id ==> t[x] == s[x]))
            && (started ==> !IsRunning(t, id)) && (!IsRunning(s, id) ==> t == s)
            && forall x :: IsRunning(t, x) ==> IsRunning(s, x)
  {
  }

  lemma RecordEffect(started: bool, s: Store, reasons: map<nat, string>, id: nat, ssh: SshResult)
    requires ssh.Returned? ==> IsExecutionStatus(ssh.status)
    ensures var t := RecordEnd(started, s, reasons, id, ssh);
            && t.Keys == s.Keys && (forall x :: x in s ==> t[x].mode == s[x].mode && (x != id ==> t[x] == s[x]))
            && (started ==> !IsRunning(t, id)) && (!IsRunning(s, id) ==> t == s)
            && forall x :: IsRunning(t, x) ==> IsRunning(s, x)
  {
    match ssh
    case Returned(status) => EndIfEffect(started, s, id, status, None);
    case LocalFailure(error) => EndIfEffect(started, s, id, LocalError, Some(error));
    case OtherFailure(error) => EndIfEffect(started, s, id, UnknownOutcome, Some(error));
    case CancelledInside => EndIfEffect(started, s, id, Interrupted, Some(if id in reasons then reasons[id] else SHUTDOWN));
  }

  /** What one step of a job does to the table and the queue. */
  lemma StepEffect(l: Loop, id: nat, wait: bool, ssh: SshResult, wake: Option<nat>)
    ensures var m := StepJob(l, id, wait, ssh, wake);
            && m.jobs.Keys == l.jobs.Keys
            && (forall x :: x in l.jobs && x != id ==> (m.jobs[x].phase.Done? <==> l.jobs[x].phase.Done?))
            && (id in l.jobs && l.jobs[id].phase.Done? ==> m == l)
            && |l.ready| <= |m.ready| && (forall i :: 0 <= i < |l.ready| ==> m.ready[i] == l.ready[i])
            && (forall i :: |l.ready| <= i < |m.ready| ==> m.ready[i].id == id && id in l.jobs)
            && (EndsExecution(l, id, ssh) ==> m.jobs[id].phase.Done?)
  {
    hide Possible;
  }

  lemma StepKeepsRuns(w: World, id: nat, wait: bool, ssh: SshResult, wake: Option<nat>)
    requires RunsOk(w)
    ensures RunsOk(JobStepped(w, id, wait, ssh, wake))
  {
    StepEffect(w.loop, id, wait, ssh, wake);
    if EndsExecution(w.loop, id, ssh) { RecordEffect(w.started, w.store, w.reasons, id, ssh); }
    hide StepJob, RecordEnd;
  }

  lemma EndKeepsRuns(w: World, id: nat, status: RunStatus, error: Option<string>)
    requires RunsOk(w) && !status.Running? && (id in w.loop.jobs ==> w.loop.jobs[id].phase.Done?)
    ensures RunsOk(w.(store := EndIf(w.started, w.store, id, status, error)))
  {
    EndIfEffect(w.started, w.store, id, status, error);
    hide EndIf;
  }

  lemma ReadyKeepsRuns(w: World)
    requires RunsOk(w) && QueueOk(w.loop) && w.loop.ready != []
    ensures RunsOk(ReadyStep(w).world)
  {
    hide QueueOk, UnlockLease, EndIf, CancelReport;
    if w.loop.ready[0].Completed? {
      hide RunsOk, ReconcileStep;
      ReconcileKeepsRuns(w, w.loop.ready[0].id);
    } else {
      hide ReconcileStep, IsRunning;
      assert forall i :: 0 <= i < |w.loop.ready[1..]| ==> w.loop.ready[1..][i] == w.loop.ready[i + 1];
    }
  }

  lemma ReconcileKeepsRuns(w: World, id: nat)
    requires RunsOk(w) && w.loop.ready != []
    ensures RunsOk(ReconcileStep(w.(loop := w.loop.(ready := w.loop.ready[1..])), id))
  {
    EndIfEffect(w.started, w.store, id, UnknownOutcome, Some(LOST));
    assert forall i :: 0 <= i < |w.loop.ready[1..]| ==> w.loop.ready[1..][i] == w.loop.ready[i + 1];
    hide EndIf, UnlockLease;
  }

  lemma SubmitKeepsRuns(cfg: Config, w: World, a: Action)
    requires RunsOk(w) && a.Submit? && FreshId(w, a)
    ensures RunsOk(SubmitStep(cfg, w, a).world)
  {
    hide ChooseSlot;
  }

  lemma CancelKeepsRuns(w: World, caller: nat, id: nat)
    requires RunsOk(w)
    ensures RunsOk(CancelStep(w, caller, id).world)
  {
    if id !in w.loop.jobs || w.loop.jobs[id].phase.Done? { EndKeepsRuns(w, id, Interrupted, Some(LOST)); }
    assert id in w.loop.jobs ==> Asked(w.loop.jobs[id], caller).phase == w.loop.jobs[id].phase;
    hide EndRun, Asked;
  }

  lemma StopKeepsRuns(w: World)
    requires RunsOk(w)
    ensures RunsOk(StopStep(w))
  {
  }

  lemma RunsKept(cfg: Config, w: World, a: Action)
    requires RunsOk(w) && QueueOk(w.loop) && FreshId(w, a)
    ensures RunsOk(Act(cfg, w, a).world)
  {
    hide QueueOk;
    match a
    case Submit(_, _, _, _, _) => SubmitKeepsRuns(cfg, w, a); hide RunsOk, SubmitStep;
    case JobStep(id, wait, ssh, wake) => StepKeepsRuns(w, id, wait, ssh, wake); hide RunsOk, JobStepped;
    case RunReady => if w.loop.ready != [] { ReadyKeepsRuns(w); } hide RunsOk;
    case Cancel(caller, id) => CancelKeepsRuns(w, caller, id); hide RunsOk, CancelStep;
    case Stop => StopKeepsRuns(w); hide RunsOk, StopStep;
    case LoseOwnership(id) => if id !in w.loop.jobs { EndKeepsRuns(w, id, UnknownOutcome, Some(LOST)); } hide RunsOk, EndIf;
    case ForeignTake(slot) => hide Taken;
    case ForeignDrop(slot) => hide Dropped;
  }

  // ---------- Ownership ----------

  /** A submission that creates its record, then cannot spawn, and holds no heavy slot, leaves its run without an owner. */
  predicate Orphans(cfg: Config, w: World, a: Action) {
    a.Submit? && !a.rejected && w.started && a.fault.SpawnFails? && ChooseSlot(cfg, w.locks, a.target, a.heavy).NotNeeded?
  }

  lemma SubmitOwnsIff(cfg: Config, w: World, a: Action)
    requires Owned(w) && a.Submit? && FreshId(w, a) && a.id !in w.loop.jobs
    ensures Owned(SubmitStep(cfg, w, a).world) <==> !Orphans(cfg, w, a)
  {
    if Orphans(cfg, w, a) { assert SubmitStep(cfg, w, a).world.store[a.id] == NewRun; }
    hide ChooseSlot;
  }

  lemma ReadyKeepsOwned(w: World)
    requires Owned(w)
    ensures Owned(ReadyStep(w).world)
  {
    if w.loop.ready != [] { EndIfEffect(w.started, w.store, w.loop.ready[0].id, UnknownOutcome, Some(LOST)); }
    hide EndIf, UnlockLease;
  }

  lemma StepKeepsOwned(w: World, id: nat, wait: bool, ssh: SshResult, wake: Option<nat>)
    requires Owned(w)
    ensures Owned(JobStepped(w, id, wait, ssh, wake))
  {
    StepEffect(w.loop, id, wait, ssh, wake);
    if EndsExecution(w.loop, id, ssh) { RecordEffect(w.started, w.store, w.reasons, id, ssh); }
    hide StepJob, RecordEnd;
  }

  /** Exactly the orphaning submissions break ownership; nothing else ever does. */
  lemma OwnedKeptIff(cfg: Config, w: World, a: Action)
    requires RunsOk(w) && Owned(w) && FreshId(w, a)
    ensures Owned(Act(cfg, w, a).world) <==> !Orphans(cfg, w, a)
  {
    match a
    case Submit(id, _, _, _, _) => assert id !in w.loop.jobs; SubmitOwnsIff(cfg, w, a); hide Owned, SubmitStep, RunsOk;
    case JobStep(id, wait, ssh, wake) => StepKeepsOwned(w, id, wait, ssh, wake); hide Owned, JobStepped, RunsOk;
    case RunReady => ReadyKeepsOwned(w); hide Owned, ReadyStep, RunsOk;
    case Cancel(_, id) => EndIfEffect(true, w.store, id, Interrupted, Some(LOST)); hide EndRun;
    case Stop => hide StopJobs;
    case LoseOwnership(id) => EndIfEffect(w.started, w.store, id, UnknownOutcome, Some(LOST)); hide EndIf;
    case ForeignTake(slot) => hide Taken;
    case ForeignDrop(slot) => hide Dropped;
  }

  lemma LeasesKept(cfg: Config, w: World, a: Action)
    requires LeasesOwned(w)
    ensures LeasesOwned(Act(cfg, w, a).world)
  {
    match a
    case Submit(_, _, _, _, _) => hide ChooseSlot;
    case JobStep(id, wait, ssh, wake) => StepEffect(w.loop, id, wait, ssh, wake); hide StepJob;
    case RunReady => hide EndIf;
    case Cancel(_, _) => hide EndRun;
    case Stop =>
    case LoseOwnership(_) =>
    case ForeignTake(_) =>
    case ForeignDrop(_) =>
  }

  // ---------- Every reachable state ----------

  lemma ActKeepsInv(cfg: Config, w: World, a: Action)
    requires Inv(cfg, w) && FreshId(w, a)
    ensures Inv(cfg, Act(cfg, w, a).world)
  {
    assert a.Submit? ==> a.id !in w.loop.jobs && a.id !in w.locks.leases;
    LocksKept(cfg, w, a);
    PermitsKept(cfg, w, a);
    QueueKept(cfg, w, a);
    RunsKept(cfg, w, a);
    LeasesKept(cfg, w, a);
    hide Act, LocksOk, PermitsOk, QueueOk, RunsOk, LeasesOwned;
  }

  lemma StartInv(cfg: Config, store: Store, foreign: set<Slot>)
    ensures Inv(cfg, StartWorld(cfg, store, foreign)) && Owned(StartWorld(cfg, store, foreign))
  {
  }

  predicate OrphansAt(cfg: Config, w: World, actions: seq<Action>, i: nat)
    requires i < |actions|
  {
    Orphans(cfg, After(cfg, w, actions, i), actions[i])
  }

  ghost predicate NeverOrphans(cfg: Config, w: World, actions: seq<Action>) {
    forall i :: 0 <= i < |actions| ==> !OrphansAt(cfg, w, actions, i)
  }

  /** The invariant holds after every event-loop step, and ownership too as long as no submission orphans its run. */
  lemma {:induction false} EveryState(cfg: Config, w: World, actions: seq<Action>, i: nat)
    requires Inv(cfg, w) && FreshIds(cfg, w, actions) && i <= |actions|
    ensures Inv(cfg, After(cfg, w, actions, i))
    ensures Owned(w) && NeverOrphans(cfg, w, actions) ==> Owned(After(cfg, w, actions, i))
  {
    hide Act, LocksOk, PermitsOk, QueueOk, RunsOk, LeasesOwned, Owned, Orphans;
    if i > 0 {
      EveryState(cfg, w, actions, i - 1);
      assert FreshAt(cfg, w, actions, i - 1);
      assert NeverOrphans(cfg, w, actions) ==> !OrphansAt(cfg, w, actions, i - 1);
      ActKeepsInv(cfg, After(cfg, w, actions, i - 1), actions[i - 1]);
      if Owned(After(cfg, w, actions, i - 1)) { OwnedKeptIff(cfg, After(cfg, w, actions, i - 1), actions[i - 1]); }
    }
  }
}
