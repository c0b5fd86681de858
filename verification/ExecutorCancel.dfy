/** What a cancellation call answers, and when it reports success. */
module ExecutorCancel {
  import opened Common
  import opened Runs
  import opened Executor
  import opened ExecutorHistory

  ghost predicate ExplicitlyCancelled(w: World, id: nat) {
    id in w.store && w.store[id].status.Interrupted? && w.store[id].errorType == Some(EXPLICIT)
  }

  // ---------- Every answer ----------

  /**
   * A cancel call answers only once its run has ended, with the status the run has; and it says cancelled exactly when it had to
   * wait and the run is recorded as explicitly cancelled.
   */
  lemma CancelAnswersIff(cfg: Config, w: World, a: Action)
    requires Inv(cfg, w)
    ensures
      var t := Act(cfg, w, a);
      t.answer.CancelAnswer? ==>
        && t.answer.id in t.world.store && t.world.store[t.answer.id].status == t.answer.status
        && !t.answer.status.Running?
        && (t.answer.cancelled <==> a.RunReady? && ExplicitlyCancelled(t.world, t.answer.id))
  {
    hide LocksOk, PermitsOk;
    match a
    case Submit(_, _, _, _, _) => hide ChooseSlot;
    case JobStep(_, _, _, _) => hide JobStepped;
    case RunReady => if w.loop.ready != [] && w.loop.ready[0].Wake? { WokenIsTerminal(w); } hide ReconcileStep, QueueOk, RunsOk;
    case Cancel(_, x) =>
    case Stop => hide StopStep;
    case LoseOwnership(_) => hide LoseStep;
    case ForeignTake(_) =>
    case ForeignDrop(_) =>
  }

  /** Cancelling an explicitly cancelled run again answers at once that it did not cancel it. */
  lemma SecondCancelSaysNo(cfg: Config, w: World, caller: nat, id: nat)
    requires w.started && ExplicitlyCancelled(w, id) && w.store[id].mode.Async?
    ensures Act(cfg, w, Cancel(caller, id)) == Turn(w, CancelAnswer(caller, id, Interrupted, false))
  {
  }

  // ---------- A cancellation that has to wait ----------

  /** The call finds a live job, asks it to stop, and waits for it. */
  ghost predicate Waits(w: World, a: Action) {
    && a.Cancel? && w.started && IsRunning(w.store, a.id) && w.store[a.id].mode.Async?
    && a.id in w.loop.jobs && !w.loop.jobs[a.id].phase.Done?
  }

  /** The execution ends by letting the cancellation through. */
  ghost predicate GivesUp(w: World, a: Action, id: nat) {
    a.JobStep? && a.id == id && a.ssh == CancelledInside && EndsExecution(w.loop, id, CancelledInside)
  }

  ghost predicate GaveUpAt(cfg: Config, w: World, actions: seq<Action>, k: nat, id: nat)
    requires k < |actions|
  {
    GivesUp(After(cfg, w, actions, k), actions[k], id)
  }

  ghost predicate GaveUpBetween(cfg: Config, w: World, actions: seq<Action>, i: nat, j: nat, id: nat)
    requires j <= |actions|
  {
    exists k :: i < k < j && GaveUpAt(cfg, w, actions, k, id)
  }

  /** The run goes on executing under an explicit request, or has ended: as explicitly cancelled iff the execution gave up. */
  ghost predicate Tracks(w: World, id: nat, gave: bool) {
    w.started ==>
      && id in w.store
      && (IsRunning(w.store, id) ==>
            && !gave && id in w.loop.jobs && w.loop.jobs[id].phase.Executing?
            && id in w.reasons && w.reasons[id] == EXPLICIT)
      && (!IsRunning(w.store, id) ==> (gave <==> ExplicitlyCancelled(w, id)))
  }

  lemma EndTracks(w: World, id: nat, wait: bool, ssh: SshResult, wake: Option<nat>)
    requires Tracks(w, id, false) && w.started && IsRunning(w.store, id)
    ensures Tracks(JobStepped(w, id, wait, ssh, wake), id, ssh.CancelledInside? && EndsExecution(w.loop, id, ssh))
  {
    assert EXPLICIT != SHUTDOWN by { assert |EXPLICIT| == 20 && |SHUTDOWN| == 16; }
    hide EndJob, GivePermit;
  }

  lemma OtherTracks(w: World, x: nat, wait: bool, ssh: SshResult, wake: Option<nat>, id: nat)
    requires Tracks(w, id, false) && w.started && IsRunning(w.store, id) && x != id
    ensures Tracks(JobStepped(w, x, wait, ssh, wake), id, false)
  {
    if EndsExecution(w.loop, x, ssh) { RecordEffect(w.started, w.store, w.reasons, x, ssh); }
    OtherJob(w.loop, x, wait, ssh, wake, id);
    hide RecordEnd, StepJob, Possible;
  }

  /** A step of another job does not touch an executing one. */
  lemma OtherJob(l: Loop, x: nat, wait: bool, ssh: SshResult, wake: Option<nat>, id: nat)
    requires id in l.jobs && x != id && l.jobs[id].phase.Executing?
    ensures var m := StepJob(l, x, wait, ssh, wake); id in m.jobs && m.jobs[id] == l.jobs[id]
  {
    hide Possible;
  }

  lemma RunningTracks(cfg: Config, w: World, a: Action, id: nat)
    requires Tracks(w, id, false) && w.started && IsRunning(w.store, id) && QueueOk(w.loop) && FreshId(w, a)
    ensures Tracks(Act(cfg, w, a).world, id, GivesUp(w, a, id))
  {
    match a
    case Submit(_, _, _, _, _) => hide ChooseSlot, QueueOk;
    case JobStep(x, wait, ssh, wake) =>
      if x == id { EndTracks(w, id, wait, ssh, wake); } else { OtherTracks(w, x, wait, ssh, wake, id); }
      hide JobStepped, QueueOk, Tracks;
    case RunReady => assert w.loop.ready != [] ==> w.loop.ready[0].id != id; hide UnlockLease, QueueOk;
    case Cancel(_, x) => hide QueueOk;
    case Stop => hide QueueOk;
    case LoseOwnership(x) => hide QueueOk;
    case ForeignTake(_) => hide QueueOk;
    case ForeignDrop(_) => hide QueueOk;
  }

  lemma EndedTracks(cfg: Config, w: World, a: Action, id: nat, gave: bool)
    requires Tracks(w, id, gave) && w.started && !IsRunning(w.store, id) && RunsOk(w) && FreshId(w, a)
    ensures Tracks(Act(cfg, w, a).world, id, gave) && !GivesUp(w, a, id)
  {
    TerminalFrozen(cfg, w, a, id);
    hide Act, RunsOk;
  }

  lemma StoppedStays(cfg: Config, w: World, a: Action)
    requires !w.started
    ensures !Act(cfg, w, a).world.started
  {
    hide ChooseSlot, StepJob, RecordEnd, EndIf, UnlockLease;
  }

  lemma {:induction false} Tracked(cfg: Config, w: World, actions: seq<Action>, i: nat, j: nat)
    requires Inv(cfg, w) && FreshIds(cfg, w, actions) && i < j <= |actions|
    requires Waits(After(cfg, w, actions, i), actions[i]) && After(cfg, w, actions, i).loop.jobs[actions[i].id].phase.Executing?
    ensures Tracks(After(cfg, w, actions, j), actions[i].id, GaveUpBetween(cfg, w, actions, i, j, actions[i].id))
  {
    var id := actions[i].id;
    hide After, Act, LocksOk, PermitsOk, QueueOk, RunsOk, LeasesOwned, Tracks, GivesUp, FreshId, Waits;
    AfterNext(cfg, w, actions, j - 1);
    var u := After(cfg, w, actions, j - 1);
    if j == i + 1 {
      CallTracks(cfg, u, actions[i]);
    } else {
      assert FreshAt(cfg, w, actions, j - 1);
      EveryState(cfg, w, actions, j - 1);
      Tracked(cfg, w, actions, i, j - 1);
      BetweenNext(cfg, w, actions, i, j - 1, id);
      NextTracks(cfg, u, actions[j - 1], id, GaveUpBetween(cfg, w, actions, i, j - 1, id));
    }
  }

  lemma CallTracks(cfg: Config, u: World, a: Action)
    requires Waits(u, a) && u.loop.jobs[a.id].phase.Executing?
    ensures Tracks(Act(cfg, u, a).world, a.id, false)
  {
  }

  lemma NextTracks(cfg: Config, u: World, a: Action, id: nat, gave: bool)
    requires Tracks(u, id, gave) && QueueOk(u.loop) && RunsOk(u) && FreshId(u, a)
    ensures Tracks(Act(cfg, u, a).world, id, gave || GivesUp(u, a, id))
  {
    hide Act, QueueOk, RunsOk, GivesUp, FreshId;
    if !u.started {
      StoppedStays(cfg, u, a);
    } else if IsRunning(u.store, id) {
      RunningTracks(cfg, u, a, id);
    } else {
      EndedTracks(cfg, u, a, id, gave);
    }
  }

  lemma BetweenNext(cfg: Config, w: World, actions: seq<Action>, i: nat, j: nat, id: nat)
    requires i < j < |actions|
    ensures GaveUpBetween(cfg, w, actions, i, j + 1, id)
            <==> GaveUpBetween(cfg, w, actions, i, j, id) || GivesUp(After(cfg, w, actions, j), actions[j], id)
  {
    hide After, GivesUp;
    if GivesUp(After(cfg, w, actions, j), actions[j], id) { assert GaveUpAt(cfg, w, actions, j, id); }
  }

  /**
   * The answer to a call that waits: it reports success iff the job was already executing when the call came in and its execution
   * then ended by letting the cancellation through.
   */
  lemma {:induction false} AwaitedCancelIff(cfg: Config, w: World, actions: seq<Action>, i: nat, j: nat, caller: nat)
    requires Inv(cfg, w) && FreshIds(cfg, w, actions) && i < j < |actions| && Waits(After(cfg, w, actions, i), actions[i])
    requires
      var u := After(cfg, w, actions, j);
      u.started && u.loop.ready != [] && u.loop.ready[0] == Wake(actions[i].id, Canceller(caller))
    ensures
      var answer := Act(cfg, After(cfg, w, actions, j), RunReady).answer;
      && answer.CancelAnswer? && answer.id == actions[i].id
      && (answer.cancelled <==>
            && After(cfg, w, actions, i).loop.jobs[actions[i].id].phase.Executing?
            && GaveUpBetween(cfg, w, actions, i, j, actions[i].id))
  {
    hide After, LocksOk, PermitsOk, QueueOk, RunsOk, LeasesOwned, GaveUpBetween, Doomed;
    var u, id := After(cfg, w, actions, j), actions[i].id;
    EveryState(cfg, w, actions, i);
    EveryState(cfg, w, actions, j);
    WokenIsTerminal(u);
    WakeReports(cfg, u);
    if After(cfg, w, actions, i).loop.jobs[id].phase.Executing? {
      Tracked(cfg, w, actions, i, j);
    } else {
      AfterNext(cfg, w, actions, i);
      QueuedIsDoomed(cfg, After(cfg, w, actions, i), actions[i]);
      QueuedCancelIsLost(cfg, w, actions, i + 1, j, id);
      DoomedIsNotExplicit(u, id);
    }
    hide Act;
  }

  /** The callback that resumes a waiting call reports what is recorded. */
  lemma WakeReports(cfg: Config, u: World)
    requires u.started && u.loop.ready != [] && u.loop.ready[0].Wake? && u.loop.ready[0].gatherer.Canceller? && u.loop.ready[0].id in u.store
    ensures
      var answer := Act(cfg, u, RunReady).answer;
      && answer.CancelAnswer? && answer.id == u.loop.ready[0].id && (answer.cancelled <==> ExplicitlyCancelled(u, answer.id))
  {
  }

  // ---------- Cancelled while queued ----------

  /** Cancelled before it got to execute: it can only be published as lost ownership. */
  ghost predicate Doomed(w: World, id: nat) {
    w.started ==>
      && id in w.store
      && (IsRunning(w.store, id) ==>
            id in w.loop.jobs && !w.loop.jobs[id].phase.Executing? && (w.loop.jobs[id].phase.Done? || w.loop.jobs[id].cancelling))
      && (!IsRunning(w.store, id) ==> w.store[id].errorType == Some(LOST))
  }

  lemma QueuedIsDoomed(cfg: Config, u: World, a: Action)
    requires Waits(u, a) && !u.loop.jobs[a.id].phase.Executing?
    ensures Doomed(Act(cfg, u, a).world, a.id)
  {
  }

  lemma DoomedIsNotExplicit(u: World, id: nat)
    requires Doomed(u, id) && u.started && !IsRunning(u.store, id)
    ensures !ExplicitlyCancelled(u, id)
  {
    assert LOST != EXPLICIT by { assert |LOST| == 21 && |EXPLICIT| == 20; }
  }

  lemma StepKeepsDoomed(w: World, x: nat, wait: bool, ssh: SshResult, wake: Option<nat>, id: nat)
    requires Doomed(w, id) && w.started && IsRunning(w.store, id)
    ensures Doomed(JobStepped(w, x, wait, ssh, wake), id)
  {
    if EndsExecution(w.loop, x, ssh) { RecordEffect(w.started, w.store, w.reasons, x, ssh); }
    StepOfCancelled(w.loop, x, wait, ssh, wake, id);
    hide RecordEnd, StepJob, Possible;
  }

  lemma StepOfCancelled(l: Loop, x: nat, wait: bool, ssh: SshResult, wake: Option<nat>, id: nat)
    requires id in l.jobs && !l.jobs[id].phase.Executing? && (l.jobs[id].phase.Done? || l.jobs[id].cancelling)
    ensures var m := StepJob(l, x, wait, ssh, wake);
            id in m.jobs && !m.jobs[id].phase.Executing? && (m.jobs[id].phase.Done? || m.jobs[id].cancelling)
  {
    hide Possible;
  }

  lemma ActKeepsDoomed(cfg: Config, w: World, a: Action, id: nat)
    requires Doomed(w, id) && RunsOk(w) && FreshId(w, a)
    ensures Doomed(Act(cfg, w, a).world, id)
  {
    hide RunsOk;
    match a
    case Submit(_, _, _, _, _) => hide ChooseSlot, RunsOk;
    case JobStep(x, wait, ssh, wake) =>
      if w.started && !IsRunning(w.store, id) {
        TerminalFrozen(cfg, w, a, id);
        hide JobStepped, RunsOk;
        assert JobStepped(w, x, wait, ssh, wake).started == w.started by { StartedKept(w, x, wait, ssh, wake); }
      } else if w.started {
        StepKeepsDoomed(w, x, wait, ssh, wake, id);
        hide JobStepped, RunsOk, Doomed;
      }
    case RunReady => hide RunsOk, UnlockLease;
    case Cancel(_, x) => hide RunsOk;
    case Stop => hide RunsOk;
    case LoseOwnership(x) => hide RunsOk;
    case ForeignTake(_) => hide RunsOk;
    case ForeignDrop(_) => hide RunsOk;
  }

  lemma StartedKept(w: World, x: nat, wait: bool, ssh: SshResult, wake: Option<nat>)
    ensures JobStepped(w, x, wait, ssh, wake).started == w.started
  {
  }

  /** A run cancelled while it is still queued never ends as an explicit cancellation: it ends as lost ownership. */
  lemma {:induction false} QueuedCancelIsLost(cfg: Config, w: World, actions: seq<Action>, i: nat, j: nat, id: nat)
    requires Inv(cfg, w) && FreshIds(cfg, w, actions) && i <= j <= |actions| && Doomed(After(cfg, w, actions, i), id)
    ensures Doomed(After(cfg, w, actions, j), id)
  {
    hide After, FreshId, Act, LocksOk, PermitsOk, QueueOk, RunsOk, LeasesOwned, Doomed;
    if i < j {
      assert FreshAt(cfg, w, actions, j - 1);
      AfterNext(cfg, w, actions, j - 1);
      QueuedCancelIsLost(cfg, w, actions, i, j - 1, id);
      EveryState(cfg, w, actions, j - 1);
      ActKeepsDoomed(cfg, After(cfg, w, actions, j - 1), actions[j - 1], id);
    }
  }

  /** No cancel call on a run that was cancelled in the queue ever answers cancelled. */
  lemma {:induction false} QueuedCancelAnswers(cfg: Config, w: World, actions: seq<Action>, i: nat, j: nat, caller: nat, id: nat)
    requires Inv(cfg, w) && FreshIds(cfg, w, actions) && i < j < |actions| && actions[i] == Cancel(caller, id)
    requires Waits(After(cfg, w, actions, i), actions[i]) && !ExecutesAt(cfg, w, actions, i, id)
    ensures
      var answer := Act(cfg, After(cfg, w, actions, j), actions[j]).answer;
      answer.CancelAnswer? && answer.id == id ==> !answer.cancelled
  {
    hide *;
    EveryState(cfg, w, actions, i);
    AfterNext(cfg, w, actions, i);
    NotExecuting(cfg, w, actions, i, id);
    QueuedIsDoomed(cfg, After(cfg, w, actions, i), actions[i]);
    QueuedCancelIsLost(cfg, w, actions, i + 1, j, id);
    DoomedAnswer(cfg, After(cfg, w, actions, j), actions[j], id);
  }

  /** The job of this run is executing before command i. */
  ghost predicate ExecutesAt(cfg: Config, w: World, actions: seq<Action>, i: nat, id: nat)
    requires i <= |actions|
  {
    var jobs := After(cfg, w, actions, i).loop.jobs;
    id in jobs && jobs[id].phase.Executing?
  }

  lemma NotExecuting(cfg: Config, w: World, actions: seq<Action>, i: nat, id: nat)
    requires i < |actions| && Waits(After(cfg, w, actions, i), actions[i]) && actions[i].id == id && !ExecutesAt(cfg, w, actions, i, id)
    ensures id in After(cfg, w, actions, i).loop.jobs && !After(cfg, w, actions, i).loop.jobs[id].phase.Executing?
  {
    hide After;
  }

  lemma DoomedAnswer(cfg: Config, u: World, a: Action, id: nat)
    requires Doomed(u, id)
    ensures var answer := Act(cfg, u, a).answer; answer.CancelAnswer? && answer.id == id ==> !answer.cancelled
  {
    assert LOST != EXPLICIT by { assert |LOST| == 21 && |EXPLICIT| == 20; }
    hide ChooseSlot, JobStepped, UnlockLease, EndRun, StopProgress;
  }

  /** Once an execution gave up under an explicit request, its run is and stays explicitly cancelled. */
  lemma {:induction false} ExplicitCancelSucceeds(cfg: Config, w: World, actions: seq<Action>, i: nat, k: nat, j: nat)
    requires Inv(cfg, w) && FreshIds(cfg, w, actions) && i < k < j <= |actions| && After(cfg, w, actions, j).started
    requires Waits(After(cfg, w, actions, i), actions[i]) && After(cfg, w, actions, i).loop.jobs[actions[i].id].phase.Executing?
    requires GaveUpAt(cfg, w, actions, k, actions[i].id)
    ensures ExplicitlyCancelled(After(cfg, w, actions, j), actions[i].id)
  {
    var id := actions[i].id;
    hide After, LocksOk, PermitsOk, QueueOk, RunsOk, LeasesOwned, Waits, GaveUpAt;
    Tracked(cfg, w, actions, i, j);
    assert GaveUpBetween(cfg, w, actions, i, j, id);
  }
}
