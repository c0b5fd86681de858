/** Equivalent open tasks: creation never makes a second one, and exactly one kind of update can. */
module TaskTwins {
  import opened Common
  import opened TaskModel
  import opened TaskSpec
  import opened TaskHistory

  /** An open task that can be read. */
  predicate OpenTask(s: State, id: nat) {
    id in s.tasks && !s.tasks[id].archived && ValidRecord(s.tasks[id].record) && !IsTerminal(s.tasks[id].record.status)
  }

  /** No two open tasks share title, objective and project. */
  ghost predicate NoTwins(s: State) {
    forall a, b :: OpenTask(s, a) && OpenTask(s, b) && RecordIdentity(s.tasks[a].record) == RecordIdentity(s.tasks[b].record) ==> a == b
  }

  /** The identity an edit would give a record. */
  function EditedIdentity(r: TaskRecord, e: Edit): Identity {
    IdentityOf(Or(e.title, r.title), Or(e.objective, r.objective),
               if e.clearProjectRef then None else if e.projectRef.Some? then e.projectRef else r.projectRef)
  }

  /** The command edits an open task so that it takes the identity of another open task. */
  ghost predicate TakesIdentity(s: State, c: Cmd) {
    && c.Update? && (c.status.Some? ==> !IsTerminal(c.status.value)) && OpenTask(s, c.id)
    && exists b :: b != c.id && OpenTask(s, b) && RecordIdentity(s.tasks[b].record) == EditedIdentity(s.tasks[c.id].record, c.edit)
  }

  // ---------- What each command does to the open tasks ----------

  /** No open task appears or changes its identity. */
  ghost predicate OpenShrinks(s: State, t: State) {
    forall id :: OpenTask(t, id) ==> OpenTask(s, id) && RecordIdentity(t.tasks[id].record) == RecordIdentity(s.tasks[id].record)
  }

  lemma ShrinkingKeeps(s: State, t: State)
    requires NoTwins(s) && OpenShrinks(s, t)
    ensures NoTwins(t)
  {
    hide OpenTask, RecordIdentity;
  }

  /** A scan that finds nothing has read every active task, and none of the open ones has this identity. */
  lemma {:induction false} NothingFound(s: State, ids: seq<nat>, identity: Identity)
    requires forall id :: id in ids ==> id in s.tasks
    requires ScanEquivalent(s, ids, identity) == Ok(None)
    ensures forall id :: id in ids ==> ValidRecord(s.tasks[id].record) && !MatchesOpen(s, id, identity)
  {
    hide ValidRecord, RecordIdentity;
    if ids != [] {
      assert ids == [ids[0]] + ids[1..];
      NothingFound(s, ids[1..], identity);
    }
  }

  lemma CreateKeeps(s: State, now: int, c: Cmd)
    requires WfState(s) && NoTwins(s) && c.Create?
    ensures NoTwins(CreateStep(s, now, c).state)
  {
    hide ValidRecord, IdentityOf, Sorted, ScanEquivalent;
    var identity := IdentityOf(c.title, c.objective, c.projectRef);
    var ids := Sorted(ActiveIds(s));
    var found := ScanEquivalent(s, ids, identity);
    if found == Ok(None) {
      NothingFound(s, ids, identity);
      assert forall id :: OpenTask(s, id) ==> id in ids;
      CreatedIsSingle(s, NewRecord(c, now), identity);
    }
  }

  lemma CreatedIsSingle(s: State, r: TaskRecord, identity: Identity)
    requires NoTwins(s) && RecordIdentity(r) == identity
    requires forall id :: OpenTask(s, id) ==> RecordIdentity(s.tasks[id].record) != identity
    ensures NoTwins(WriteRecord(s, r))
  {
    hide ValidRecord, RecordIdentity;
    var t := WriteRecord(s, r);
    assert forall id :: id != r.id ==> (OpenTask(t, id) <==> OpenTask(s, id));
    hide OpenTask;
  }

  lemma UpdateIdentity(r: TaskRecord, now: int, c: Cmd)
    requires c.Update? && (c.status.Some? ==> !IsTerminal(c.status.value)) && ValidRecord(r) && UpdateRecord(r, now, c).Ok?
    ensures var n := UpdateRecord(r, now, c).value;
            ValidRecord(n) && !IsTerminal(n.status) && n.id == r.id && !IsTerminal(r.status) && RecordIdentity(n) == EditedIdentity(r, c.edit)
  {
    hide ValidContinuity, HasPending, IdentityOf;
  }

  lemma UpdateTwinsIff(s: State, now: int, c: Cmd)
    requires WfState(s) && NoTwins(s) && c.Update? && (c.status.Some? ==> !IsTerminal(c.status.value))
    ensures var d := UpdateDecision(s, now, c);
            NoTwins(Written(s, d).state) <==> !(d.Ok? && TakesIdentity(s, c))
  {
    hide ValidRecord, IdentityOf, RecordIdentity, UpdateRecord, EditedIdentity;
    var d := UpdateDecision(s, now, c);
    if d.Ok? {
      var r := s.tasks[c.id].record;
      UpdateIdentity(r, now, c);
      RewriteTwinsIff(s, d.value, EditedIdentity(r, c.edit));
    }
  }

  /** Rewriting an open task makes a twin iff another open task already has its new identity. */
  lemma RewriteTwinsIff(s: State, n: TaskRecord, identity: Identity)
    requires NoTwins(s) && OpenTask(s, n.id) && ValidRecord(n) && !IsTerminal(n.status) && RecordIdentity(n) == identity
    ensures NoTwins(WriteRecord(s, n)) <==> forall b :: b != n.id && OpenTask(s, b) ==> RecordIdentity(s.tasks[b].record) != identity
  {
    hide ValidRecord, RecordIdentity;
    var t := WriteRecord(s, n);
    assert forall id :: OpenTask(t, id) <==> OpenTask(s, id);
    assert t.tasks[n.id].record == n && forall id :: id != n.id && OpenTask(s, id) ==> t.tasks[id] == s.tasks[id];
    hide OpenTask;
    if b :| b != n.id && OpenTask(s, b) && RecordIdentity(s.tasks[b].record) == identity {
      assert RecordIdentity(t.tasks[b].record) == RecordIdentity(t.tasks[n.id].record);
    }
  }

  lemma MarkKeeps(kind: LayoutKind, s: State, now: int, c: Cmd)
    requires WfState(s) && NoTwins(s) && c.Mark?
    ensures NoTwins(MarkStep(kind, s, now, c).state)
  {
    hide ValidRecord, IdentityOf, MarkedBlockers;
    ShrinkingKeeps(s, MarkStep(kind, s, now, c).state);
  }

  /** A command that is no creation, mark or plain update only archives, removes or leases tasks. */
  lemma OthersShrink(kind: LayoutKind, before: State, now: int, c: Cmd)
    requires WfState(before)
    requires !c.Create? && !c.Mark? && !(c.Update? && (c.status.Some? ==> !IsTerminal(c.status.value)))
    ensures OpenShrinks(before, Step(kind, before, now, c).state)
  {
    hide Step, ValidRecord, RecordIdentity, HasPending;
    var t := Step(kind, before, now, c).state;
    forall id | OpenTask(t, id)
      ensures OpenTask(before, id) && RecordIdentity(t.tasks[id].record) == RecordIdentity(before.tasks[id].record)
    {
      StepEntry(kind, before, now, c, id);
      ClosingUpdateKeeps(kind, before, now, c, id);
      assert EntryAt(t, id) == Some(t.tasks[id]);
    }
  }

  /** An update that asks for a final status archives or does nothing. */
  lemma ClosingUpdateKeeps(kind: LayoutKind, before: State, now: int, c: Cmd, id: nat)
    requires WfState(before) && !(c.Update? && (c.status.Some? ==> !IsTerminal(c.status.value)))
    ensures var t := Step(kind, before, now, c).state;
            c.Update? && id in t.tasks && !t.tasks[id].archived ==> EntryAt(t, id) == EntryAt(before, id)
  {
    hide ValidRecord, CloseStep, LiveLeases, WfState;
    if c.Update? {
      ExpireWf(before, now);
      CloseOutcome(Expire(before, now), now, c.id, c.status.value, c.expected, c.edit, c.leaseId);
    }
  }

  // ---------- One command, and whole runs ----------

  /** A command makes two open tasks equivalent iff it is an accepted update that takes the identity of another open task. */
  lemma TwinsIff(kind: LayoutKind, before: State, now: int, c: Cmd)
    requires WfState(before) && NoTwins(before)
    ensures NoTwins(Step(kind, before, now, c).state) <==> !(Step(kind, before, now, c).reply.Record? && TakesIdentity(before, c))
  {
    var s := Expire(before, now);
    ExpireWf(before, now);
    assert NoTwins(s) && (TakesIdentity(s, c) <==> TakesIdentity(before, c)) by { SameOpen(before, s, c); }
    hide NoTwins, TakesIdentity, CreateStep, MarkStep, CloseStep, UpdateDecision, LiveLeases, Expire, WfState;
    if c.Create? {
      CreateKeeps(s, now, c);
      OnlyUpdatesTake(before, c);
    } else if c.Mark? {
      MarkKeeps(kind, s, now, c);
      OnlyUpdatesTake(before, c);
    } else if c.Update? && (c.status.Some? ==> !IsTerminal(c.status.value)) {
      UpdateTwinsIff(s, now, c);
    } else {
      OthersShrink(kind, before, now, c);
      ShrinkingKeeps(before, Step(kind, before, now, c).state);
      OnlyUpdatesTake(before, c);
    }
  }

  lemma SameOpen(s: State, t: State, c: Cmd)
    requires t.tasks == s.tasks
    ensures NoTwins(s) <==> NoTwins(t)
    ensures TakesIdentity(s, c) <==> TakesIdentity(t, c)
  {
    hide ValidRecord, RecordIdentity, EditedIdentity;
    assert forall id :: OpenTask(s, id) <==> OpenTask(t, id);
    hide OpenTask;
  }

  lemma OnlyUpdatesTake(s: State, c: Cmd)
    ensures TakesIdentity(s, c) ==> c.Update? && (c.status.Some? ==> !IsTerminal(c.status.value))
  {
  }

  /** Over a run in which no update takes another open task's identity, no two open tasks are ever equivalent. */
  lemma {:induction false} NeverTwins(kind: LayoutKind, s: State, run: seq<Timed>, i: nat)
    requires WfState(s) && NoTwins(s) && i <= |run|
    requires forall k :: 0 <= k < |run| ==> !TakesIdentity(StateAt(kind, s, run, k), run[k].cmd)
    ensures NoTwins(StateAt(kind, s, run, i))
  {
    hide Step, NoTwins, TakesIdentity, WfState;
    if i > 0 {
      NeverTwins(kind, s, run, i - 1);
      StateAtWf(kind, s, run, i - 1);
      TwinsIff(kind, StateAt(kind, s, run, i - 1), run[i - 1].now, run[i - 1].cmd);
    }
  }

  // ---------- An update that makes a twin ----------

  function OpenRecord(id: nat, title: string): TaskRecord {
    TaskRecord(2, 1, id, title, "o", None, Active, None, EmptyContinuity, false, 0, 0, None)
  }

  const TWO := State(map[1 := Entry(OpenRecord(1, "a"), false), 2 := Entry(OpenRecord(2, "b"), false)], map[])

  const RENAME := Update(2, None, None, NoEdit.(title := Some("a")), None, None)

  lemma OpenRecordOk(id: nat, title: string)
    requires title == "a" || title == "b"
    ensures ValidRecord(OpenRecord(id, title)) && RecordIdentity(OpenRecord(id, title)) == Identity(title, "o", None)
  {
    assert Strip(title) == title && Strip("o") == "o";
  }

  lemma RenameAccepted()
    ensures UpdateRecord(OpenRecord(2, "b"), 1, RENAME).Ok?
    ensures EditedIdentity(OpenRecord(2, "b"), RENAME.edit) == Identity("a", "o", None)
  {
    assert Strip("a") == "a" && Strip("o") == "o";
    assert !HasPending([]);
  }

  lemma RenameReplies()
    ensures Step(FileLayout, TWO, 1, RENAME).reply.Record?
  {
    hide ValidContinuity, UpdateRecord, RecordIdentity, EditedIdentity;
    OpenRecordOk(2, "b");
    RenameAccepted();
    assert Expire(TWO, 1) == TWO && ReadActive(TWO, 2) == Ok(OpenRecord(2, "b"));
    assert UpdateDecision(TWO, 1, RENAME).Ok?;
    hide UpdateDecision;
  }

  lemma RenameTakes()
    ensures NoTwins(TWO) && TakesIdentity(TWO, RENAME) && WfState(TWO)
  {
    hide ValidRecord, RecordIdentity, EditedIdentity;
    OpenRecordOk(1, "a");
    OpenRecordOk(2, "b");
    RenameAccepted();
    assert OpenTask(TWO, 1) && OpenTask(TWO, 2);
  }

  /** Renaming task 2 to the title of task 1. */
  lemma RenameMakesTwin()
    ensures NoTwins(TWO) && Step(FileLayout, TWO, 1, RENAME).reply.Record? && !NoTwins(Step(FileLayout, TWO, 1, RENAME).state)
  {
    hide Step, NoTwins, TakesIdentity, WfState;
    RenameTakes();
    RenameReplies();
    TwinsIff(FileLayout, TWO, 1, RENAME);
  }
}
