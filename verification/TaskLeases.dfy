/** Lease exclusivity over whole runs: the history of one task's leases is a list of disjoint intervals. */
module TaskLeases {
  import opened Common
  import opened TaskModel
  import opened TaskSpec
  import opened TaskHistory

  /** One grant: who held the lease, from when, and until when (expiry, release or close). */
  datatype Interval = Interval(leaseId: nat, executor: string, scope: string, from: int, until: int)

  /** Record what one command did to the live lease. */
  function Extend(history: seq<Interval>, a: Option<Lease>, b: Option<Lease>, now: int): seq<Interval> {
    if a.None? && b.Some? then
      history + [Interval(b.value.leaseId, b.value.executor, b.value.scope, now, b.value.expiresAt)]
    else if a == b || history == [] then history
    else
      var last := history[|history| - 1];
      history[|history| - 1 := last.(until := if b.Some? then b.value.expiresAt else now)]
  }

  /** The grants of a task made by the first i commands of a run that starts with no lease. */
  function Grants(kind: LayoutKind, s: State, run: seq<Timed>, i: nat, id: nat): seq<Interval>
    requires i <= |run|
  {
    if i == 0 then []
    else
      var before, now := StateAt(kind, s, run, i - 1), run[i - 1].now;
      Extend(Grants(kind, s, run, i - 1, id), HeldAt(Expire(before, now), id), HeldAt(StateAt(kind, s, run, i), id), now)
  }

  ghost predicate Disjoint(history: seq<Interval>) {
    && (forall i :: 0 <= i < |history| ==> history[i].from <= history[i].until)
    && (forall i, j :: 0 <= i < j < |history| ==> history[i].until <= history[j].from)
  }

  function Current(lease: Lease, from: int): Interval { Interval(lease.leaseId, lease.executor, lease.scope, from, lease.expiresAt) }

  /** The history is disjoint and its last interval is the stored lease, or it has already ended. */
  ghost predicate Tracks(history: seq<Interval>, held: Option<Lease>, clock: int) {
    && Disjoint(history)
    && (forall i :: 0 <= i < |history| ==> history[i].from <= clock)
    && (held.Some? ==> |history| > 0 && history[|history| - 1] == Current(held.value, history[|history| - 1].from))
    && (held.None? ==> forall i :: 0 <= i < |history| ==> history[i].until <= clock)
  }

  lemma ExtendTracks(history: seq<Interval>, stored: Option<Lease>, clock: int, now: int, c: Cmd, id: nat, b: Option<Lease>)
    requires Tracks(history, stored, clock) && clock <= now
    requires var a := if stored.Some? && stored.value.expiresAt > now then stored else None; LeaseStep(a, b, now, c, id)
    ensures
      var a := if stored.Some? && stored.value.expiresAt > now then stored else None;
      Tracks(Extend(history, a, b, now), b, now)
  {
    var a := if stored.Some? && stored.value.expiresAt > now then stored else None;
    if a.None? {
      assert forall i :: 0 <= i < |history| ==> history[i].until <= now;
    }
  }

  lemma HeldAfterExpiry(s: State, now: int, id: nat)
    ensures HeldAt(Expire(s, now), id)
            == (if HeldAt(s, id).Some? && HeldAt(s, id).value.expiresAt > now then HeldAt(s, id) else None)
  {
  }

  lemma {:induction false} GrantsTrack(kind: LayoutKind, s: State, run: seq<Timed>, i: nat, id: nat)
    requires WfState(s) && id !in s.leases && Monotone(run) && 0 < i <= |run|
    ensures Tracks(Grants(kind, s, run, i, id), HeldAt(StateAt(kind, s, run, i), id), run[i - 1].now)
  {
    hide Step, LeaseStep, ValidRecord;
    var before, now, c := StateAt(kind, s, run, i - 1), run[i - 1].now, run[i - 1].cmd;
    StateAtWf(kind, s, run, i - 1);
    StepLease(kind, before, now, c, id);
    HeldAfterExpiry(before, now, id);
    var clock := if i == 1 then now else run[i - 2].now;
    if i > 1 { GrantsTrack(kind, s, run, i - 1, id); }
    ExtendTracks(Grants(kind, s, run, i - 1, id), HeldAt(before, id), clock, now, c, id, HeldAt(StateAt(kind, s, run, i), id));
  }

  /**
   * At no time do two grants of one task overlap: whoever acquires a lease does so after the
   * previous one was released, closed or expired, refreshes included.
   */
  lemma GrantsNeverOverlap(kind: LayoutKind, s: State, run: seq<Timed>, i: nat, id: nat)
    requires WfState(s) && id !in s.leases && Monotone(run) && i <= |run|
    ensures Disjoint(Grants(kind, s, run, i, id))
  {
    if i > 0 { GrantsTrack(kind, s, run, i, id); }
  }

  /** Whenever the content of a task changes, the command presents the lease of every interval covering that moment. */
  lemma HolderAloneChangesContent(kind: LayoutKind, s: State, run: seq<Timed>, i: nat, id: nat, g: nat)
    requires WfState(s) && id !in s.leases && Monotone(run) && i < |run| && NeverDrawn(run, id)
    requires Changes(kind, s, run, i, id)
    requires g < |Grants(kind, s, run, i, id)|
    requires
      var grant := Grants(kind, s, run, i, id)[g];
      grant.from <= run[i].now < grant.until
    ensures
      var grant := Grants(kind, s, run, i, id)[g];
      match run[i].cmd
      case Update(target, _, _, _, _, leaseId) => target == id && leaseId == Some(grant.leaseId)
      case Mark(target, _, leaseId) => target == id && leaseId == Some(grant.leaseId)
      case Close(target, _, _, _, leaseId) => target == id && leaseId == Some(grant.leaseId)
      case _ => false
  {
    hide Step, ValidRecord, Finalised, Rewritten;
    GrantsTrack(kind, s, run, i, id);
    EntryMoves(kind, s, run, i, id);
    HeldAfterExpiry(StateAt(kind, s, run, i), run[i].now, id);
    var history := Grants(kind, s, run, i, id);
    var last := history[|history| - 1];
    assert last.from <= run[i].now;
  }

  /** Acquiring, refreshing, releasing, checking or losing a lease never changes any task. */
  lemma LeasesNeverChangeContent(kind: LayoutKind, s: State, now: int, c: Cmd)
    requires WfState(s) && (c.Acquire? || c.Refresh? || c.Release? || c.Authorize?)
    ensures Step(kind, s, now, c).state.tasks == s.tasks
    ensures Step(kind, s, now, c).reply == Step(kind, Expire(s, now), now, c).reply
  {
    hide ValidRecord;
    ExpireWf(s, now);
    ExpireWf(Expire(s, now), now);
    LeaseCommandsKeepTasks(Expire(s, now), now, c);
    assert Expire(Expire(s, now), now) == Expire(s, now);
  }
}
