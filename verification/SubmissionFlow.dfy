/** Where the runs of the server come from: every one stands for a submission that was prepared, and none is lost or doubled on the way. */
module SubmissionFlow {
  import opened Common
  import opened TaskModel
  import opened TaskSpec
  import opened TaskContents
  import opened Reconciliation

  // ---------- Preparation ----------

  /** The task of a submission is open and readable, its lease presented if the submission mutates, and its mark fits the layout. */
  ghost predicate MayPrepare(kind: LayoutKind, s: State, now: int, sub: Submission) {
    sub.task.Some? ==>
      && OpenTask(s, sub.task.value)
      && (sub.mutates ==>
            && TaskContents.MayWrite(s, now, sub.task.value, sub.leaseId)
            && exists b :: Marks(s.tasks[sub.task.value].record, b, now, sub.purpose) && (kind.DatabaseLayout? ==> ValidRecord(b)))
  }

  /** Preparation goes through exactly then; a mutating submission leaves its task marked with its own purpose, any other leaves all tasks. */
  lemma PreparationMarks(kind: LayoutKind, s: State, now: int, sub: Submission)
    requires WellKeyed(s)
    ensures
      var o := Step(kind, s, now, PrepareCmd(sub));
      && (Prepared(kind, s, now, sub) <==> MayPrepare(kind, s, now, sub))
      && (sub.task.None? || !sub.mutates ==> o.state.tasks == s.tasks)
      && (sub.task.Some? && sub.mutates && Prepared(kind, s, now, sub) ==>
            && o.reply.Record? && Marks(s.tasks[sub.task.value].record, o.reply.record, now, sub.purpose)
            && o.state.tasks == s.tasks[sub.task.value := Entry(o.reply.record, false)])
  {
    hide ValidRecord, Marks;
    if sub.task.Some? && sub.mutates {
      MarkStores(kind, s, now, PrepareCmd(sub));
      hide Step;
    }
  }

  // ---------- One segment ----------

  predicate Recorded(y: Sys, t: Sys, runId: nat, sub: Submission) { runId !in y.runs && t.runs == y.runs[runId := sub] }

  /** Which segments record a run: an in-process dispatch that is prepared and does not fail, and the acceptance of a waiting submission. */
  lemma SegmentRecords(kind: LayoutKind, y: Sys, t: Tick)
    ensures
      var n := SysStep(kind, y, t);
      match t.segment
      case TaskRequest(_) => n.runs == y.runs && n.waiting == y.waiting
      case Dispatch(sub, runId, fault) =>
        && n.waiting == y.waiting
        && if fault.NoFault? && Prepared(kind, y.tasks, t.now, sub) && runId !in y.runs then Recorded(y, n, runId, sub) else n.runs == y.runs
      case Prepare(sub) =>
        n.runs == y.runs && n.waiting == if Prepared(kind, y.tasks, t.now, sub) then y.waiting + [sub] else y.waiting
      case Accept(i, runId) =>
        if i < |y.waiting| && runId !in y.runs then
          Recorded(y, n, runId, y.waiting[i]) && multiset(n.waiting) == multiset(y.waiting) - multiset{y.waiting[i]}
        else n.runs == y.runs && n.waiting == y.waiting
  {
    hide Step, Prepared;
    if t.segment.Accept? && t.segment.waiting < |y.waiting| {
      var i := t.segment.waiting;
      assert y.waiting == y.waiting[..i] + [y.waiting[i]] + y.waiting[i + 1..];
    }
  }

  // ---------- Whole traces ----------

  ghost function SentNow(kind: LayoutKind, y: Sys, t: Tick): multiset<Submission> {
    if t.segment.Prepare? && Prepared(kind, y.tasks, t.now, t.segment.submission) then multiset{t.segment.submission} else multiset{}
  }

  ghost function ReceivedNow(y: Sys, t: Tick, n: Sys): multiset<Submission> {
    if t.segment.Accept? && t.segment.runId !in y.runs && t.segment.runId in n.runs then multiset{n.runs[t.segment.runId]} else multiset{}
  }

  lemma FlowNext(kind: LayoutKind, y: Sys, t: Tick)
    ensures
      var n := SysStep(kind, y, t);
      multiset(n.waiting) + ReceivedNow(y, t, n) == multiset(y.waiting) + SentNow(kind, y, t)
  {
    SegmentRecords(kind, y, t);
    hide SysStep, Prepared;
    match t.segment
    case Accept(i, runId) => if i < |y.waiting| { assert y.waiting[i] in multiset(y.waiting); }
    case _ =>
  }

  /** The submissions prepared for the socket so far. */
  ghost function Sent(kind: LayoutKind, y: Sys, trace: seq<Tick>, i: nat): multiset<Submission>
    requires i <= |trace|
  {
    if i == 0 then multiset{}
    else Sent(kind, y, trace, i - 1) + SentNow(kind, SysAt(kind, y, trace, i - 1), trace[i - 1])
  }

  /** The submissions of the runs accepted from the socket so far. */
  ghost function Received(kind: LayoutKind, y: Sys, trace: seq<Tick>, i: nat): multiset<Submission>
    requires i <= |trace|
  {
    if i == 0 then multiset{}
    else Received(kind, y, trace, i - 1) + ReceivedNow(SysAt(kind, y, trace, i - 1), trace[i - 1], SysAt(kind, y, trace, i))
  }

  lemma Balance(w: multiset<Submission>, u: multiset<Submission>, r: multiset<Submission>, more: multiset<Submission>,
                first: multiset<Submission>, s: multiset<Submission>, sent: multiset<Submission>)
    requires w + r == first + s && u + more == w + sent
    ensures u + (r + more) == first + (s + sent)
  {
    assert u + (r + more) == (u + more) + r;
    assert (w + sent) + r == (w + r) + sent;
    assert (first + s) + sent == first + (s + sent);
  }

  /** No submission is lost or doubled on the socket: what was sent is waiting or was received. */
  lemma {:induction false} SubmissionsConserved(kind: LayoutKind, y: Sys, trace: seq<Tick>, i: nat)
    requires i <= |trace|
    ensures multiset(SysAt(kind, y, trace, i).waiting) + Received(kind, y, trace, i) == multiset(y.waiting) + Sent(kind, y, trace, i)
  {
    hide SysStep, SentNow, ReceivedNow;
    if i > 0 {
      SubmissionsConserved(kind, y, trace, i - 1);
      var a, b, t := SysAt(kind, y, trace, i - 1), SysAt(kind, y, trace, i), trace[i - 1];
      FlowNext(kind, a, t);
      Balance(multiset(a.waiting), multiset(b.waiting), Received(kind, y, trace, i - 1), ReceivedNow(a, t, b), multiset(y.waiting),
              Sent(kind, y, trace, i - 1), SentNow(kind, a, t));
    }
  }

  /** Segment i recorded this run for this submission. */
  ghost predicate RecordsFor(kind: LayoutKind, y: Sys, trace: seq<Tick>, i: nat, runId: nat, sub: Submission)
    requires i < |trace|
  {
    var before := SysAt(kind, y, trace, i);
    match trace[i].segment
    case Dispatch(s, id, fault) => s == sub && id == runId && fault.NoFault? && Prepared(kind, before.tasks, trace[i].now, sub)
    case Accept(n, id) => id == runId && n < |before.waiting| && before.waiting[n] == sub
    case _ => false
  }

  /** Every run of a trace stands for the submission of the segment that recorded it. */
  lemma RunIsSubmission(kind: LayoutKind, y: Sys, trace: seq<Tick>, j: nat, runId: nat) returns (i: nat)
    requires j <= |trace| && runId !in y.runs && runId in SysAt(kind, y, trace, j).runs
    ensures i < j && RecordsFor(kind, y, trace, i, runId, SysAt(kind, y, trace, j).runs[runId])
  {
    hide SysStep, Prepared;
    i := RunCreatedOnce(kind, y, trace, j, runId);
    SegmentRecords(kind, SysAt(kind, y, trace, i), trace[i]);
  }
}
