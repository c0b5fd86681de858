/**
 * Database scopes: a scope opened inside another by the same owner joins it, so the outermost scope alone commits or rolls
 * back; a scope inherited by another task or thread is not joined but opened afresh.
 *
 * Get and Put stand for the statements a store issues. Spawn runs its body as another owner and waits for it.
 */
module Transactions {
  import opened Common

  datatype Stmt =
    | Put(key: nat, value: nat)
    | Get(key: nat)
    | Raise
    | With(write: bool, body: Prog)
    | Catch(body: Prog)
    | Spawn(body: Prog)

  datatype Prog = Done | Then(first: Stmt, rest: Prog)

  /**
   * An open transaction. A write scope takes the lock and its view at once; a read scope is deferred: it takes its view at its
   * first statement, and the lock at its first write.
   */
  datatype Txn = Txn(writable: bool, locked: bool, wrote: bool, view: Option<map<nat, nat>>, base: nat)

  /** commits counts the commits that wrote. busy: another owner holds the write lock. log: what Get has read. */
  datatype St = St(committed: map<nat, nat>, commits: nat, active: Option<Txn>, busy: bool, log: seq<Option<nat>>)

  datatype Out = Out(st: St, raised: bool)

  function Look(m: map<nat, nat>, k: nat): Option<nat> { if k in m then Some(m[k]) else None }

  /** The owner holds the write lock. */
  predicate Writing(st: St) { st.active.Some? && st.active.value.locked }

  /** What the transaction sees, from its first statement on. */
  function View(st: St): map<nat, nat>
    requires st.active.Some?
  {
    if st.active.value.view.Some? then st.active.value.view.value else st.committed
  }

  /** A transaction without the lock can get it, unless another owner has it or has committed since the view was taken. */
  predicate MayWrite(st: St)
    requires st.active.Some?
  {
    st.active.value.locked || (!st.busy && (st.active.value.view.Some? ==> st.active.value.base == st.commits))
  }

  function Written(st: St, k: nat, v: nat): St
    requires st.active.Some?
  {
    st.(active := Some(st.active.value.(locked := true, wrote := true, view := Some(View(st)[k := v]), base := st.commits)))
  }

  function Seen(st: St, k: nat): St
    requires st.active.Some?
  {
    var t := st.active.value;
    st.(log := st.log + [Look(View(st), k)],
        active := Some(if t.view.Some? then t else t.(view := Some(st.committed), base := st.commits)))
  }

  // ---------- What a program does ----------

  function Exec(p: Prog, st: St): Out
    decreases p
  {
    match p
    case Done => Out(st, false)
    case Then(first, rest) =>
      var o := ExecStmt(first, st);
      if o.raised then o else Exec(rest, o.st)
  }

  function Begin(st: St, write: bool): St {
    st.(active := Some(Txn(write, write, false, if write then Some(st.committed) else None, st.commits)))
  }

  /** Leaving the outermost scope: commit what was written, or drop it. */
  function End(o: Out): Out {
    if o.st.active.None? then o
    else if o.raised || !o.st.active.value.wrote then Out(o.st.(active := None), o.raised)
    else Out(o.st.(committed := View(o.st), commits := o.st.commits + 1, active := None), false)
  }

  function ExecStmt(s: Stmt, st: St): Out
    decreases s
  {
    match s
    case Put(k, v) =>
      if st.active.Some? && MayWrite(st) then Out(Written(st, k, v), false) else Out(st, true)
    case Get(k) =>
      if st.active.Some? then Out(Seen(st, k), false) else Out(st, true)
    case Raise => Out(st, true)
    case With(write, body) =>
      if st.active.Some? then
        if write && !st.active.value.writable then Out(st, true) else Exec(body, st)
      else if write && st.busy then Out(st, true)
      else End(Exec(body, Begin(st, write)))
    case Catch(body) => Out(Exec(body, st).st, false)
    case Spawn(body) =>
      var child := Exec(body, Alone(st));
      Out(child.st.(active := st.active, busy := st.busy), child.raised)
  }

  /** What another owner starts from. */
  function Alone(st: St): St { st.(active := None, busy := st.busy || Writing(st)) }

  // ---------- The class: scopes as enter and leave ----------

  class ReachDatabase {
    var committed: map<nat, nat>
    var commits: nat
    var active: Option<Txn>
    var busy: bool
    var log: seq<Option<nat>>

    ghost function State(): St
      reads this
    {
      St(committed, commits, active, busy, log)
    }

    constructor (stored: map<nat, nat>)
      ensures State() == St(stored, 0, None, false, [])
    {
      committed, commits, active, busy, log := stored, 0, None, false, [];
    }

    /** Enter a scope: join the owner's own scope if there is one, otherwise begin a transaction. */
    method Enter(write: bool) returns (ok: bool, outermost: bool)
      modifies this`active
      ensures outermost == old(active).None?
      ensures ok == if outermost then !(write && busy) else !(write && !old(active).value.writable)
      ensures State() == if ok && outermost then Begin(old(State()), write) else old(State())
    {
      outermost := active.None?;
      if !outermost { return !write || active.value.writable, false; }
      if write && busy { return false, true; }
      active := Some(Txn(write, write, false, if write then Some(committed) else None, commits));
      ok := true;
    }

    /** Leave a scope; only the outermost one ends the transaction. */
    method Leave(outermost: bool, raised: bool)
      modifies this`active, this`committed, this`commits
      ensures State() == if outermost then End(Out(old(State()), raised)).st else old(State())
    {
      if outermost && active.Some? {
        if !raised && active.value.wrote {
          if active.value.view.Some? { committed := active.value.view.value; }
          commits := commits + 1;
        }
        active := None;
      }
    }

    method Run(p: Prog) returns (raised: bool)
      modifies this
      ensures Out(State(), raised) == Exec(p, old(State()))
      decreases p
    {
      match p
      case Done => raised := false;
      case Then(first, rest) =>
        raised := RunStmt(first);
        if !raised { raised := Run(rest); }
    }

    method RunStmt(s: Stmt) returns (raised: bool)
      modifies this
      ensures Out(State(), raised) == ExecStmt(s, old(State()))
      decreases s
    {
      match s
      case Put(k, v) =>
        if active.None? { return true; }
        var t := active.value;
        if !t.locked && (busy || (t.view.Some? && t.base != commits)) { return true; }
        var view := if t.view.Some? then t.view.value else committed;
        active := Some(t.(locked := true, wrote := true, view := Some(view[k := v]), base := commits));
        raised := false;
      case Get(k) =>
        if active.None? { return true; }
        if active.value.view.None? { active := Some(active.value.(view := Some(committed), base := commits)); }
        log := log + [Look(active.value.view.value, k)];
        raised := false;
      case Raise => raised := true;
      case With(write, body) =>
        ghost var before := State();
        var ok, outermost := Enter(write);
        if !ok { return true; }
        raised := Run(body);
        if outermost { StaysActive(body, Begin(before, write)); }
        Leave(outermost, raised);
      case Catch(body) =>
        var _ := Run(body);
        raised := false;
      case Spawn(body) =>
        var own, lock := active, busy;
        active, busy := None, busy || (active.Some? && active.value.locked);
        raised := Run(body);
        active, busy := own, lock;
    }
  }

  // ---------- Inside a scope ----------

  /** Nothing inside a scope ends it, and once its owner holds the write lock nothing at all is committed. */
  lemma {:induction false} StaysActive(p: Prog, st: St)
    requires st.active.Some?
    ensures var o := Exec(p, st).st;
            && o.active.Some? && o.active.value.writable == st.active.value.writable && o.busy == st.busy
            && (Writing(st) ==> Writing(o) && o.committed == st.committed && o.commits == st.commits)
    decreases p
  {
    match p
    case Done =>
    case Then(first, rest) =>
      StmtStaysActive(first, st);
      if !ExecStmt(first, st).raised { StaysActive(rest, ExecStmt(first, st).st); }
  }

  lemma {:induction false} StmtStaysActive(s: Stmt, st: St)
    requires st.active.Some?
    ensures var o := ExecStmt(s, st).st;
            && o.active.Some? && o.active.value.writable == st.active.value.writable && o.busy == st.busy
            && (Writing(st) ==> Writing(o) && o.committed == st.committed && o.commits == st.commits)
    decreases s
  {
    match s
    case Put(_, _) =>
    case Get(_) =>
    case Raise =>
    case With(write, body) => StaysActive(body, st);
    case Catch(body) => StaysActive(body, st);
    case Spawn(body) => if Writing(st) { LockedOut(body, Alone(st)); }
  }

  /** An owner without a scope, while another holds the write lock, cannot commit anything. */
  lemma {:induction false} LockedOut(p: Prog, st: St)
    requires st.busy && !Writing(st)
    ensures var o := Exec(p, st).st; o.committed == st.committed && o.commits == st.commits && o.busy && !Writing(o)
    decreases p
  {
    match p
    case Done =>
    case Then(first, rest) =>
      StmtLockedOut(first, st);
      if !ExecStmt(first, st).raised { LockedOut(rest, ExecStmt(first, st).st); }
  }

  lemma {:induction false} StmtLockedOut(s: Stmt, st: St)
    requires st.busy && !Writing(st)
    ensures var o := ExecStmt(s, st).st; o.committed == st.committed && o.commits == st.commits && o.busy && !Writing(o)
    decreases s
  {
    match s
    case Put(_, _) =>
    case Get(_) =>
    case Raise =>
    case With(write, body) =>
      if st.active.Some? { LockedOut(body, st); }
      else if !write { LockedOut(body, Begin(st, write)); UnwrittenWithoutLock(body, Begin(st, write)); }
    case Catch(body) => LockedOut(body, st);
    case Spawn(body) => LockedOut(body, Alone(st));
  }

  /** Only who holds the lock has written. */
  lemma {:induction false} UnwrittenWithoutLock(p: Prog, st: St)
    requires st.active.Some? && (st.active.value.wrote ==> Writing(st))
    ensures var o := Exec(p, st).st; o.active.Some? && (o.active.value.wrote ==> Writing(o))
    decreases p
  {
    match p
    case Done =>
    case Then(first, rest) =>
      StmtUnwritten(first, st);
      if !ExecStmt(first, st).raised { UnwrittenWithoutLock(rest, ExecStmt(first, st).st); }
  }

  lemma {:induction false} StmtUnwritten(s: Stmt, st: St)
    requires st.active.Some? && (st.active.value.wrote ==> Writing(st))
    ensures var o := ExecStmt(s, st).st; o.active.Some? && (o.active.value.wrote ==> Writing(o))
    decreases s
  {
    match s
    case With(_, body) => UnwrittenWithoutLock(body, st);
    case Catch(body) => UnwrittenWithoutLock(body, st);
    case _ =>
  }

  // ---------- Nested scopes are nothing but their contents ----------

  function Append(a: Prog, b: Prog): Prog
    decreases a
  {
    match a
    case Done => b
    case Then(first, rest) => Then(first, Append(rest, b))
  }

  /** Drop the nested scopes of a scope body; asking a read scope to write is an error where it stands. */
  function Erase(p: Prog, writable: bool): Prog
    decreases p
  {
    match p
    case Done => Done
    case Then(first, rest) => Append(EraseStmt(first, writable), Erase(rest, writable))
  }

  function EraseStmt(s: Stmt, writable: bool): Prog
    decreases s
  {
    match s
    case With(write, body) => if write && !writable then Then(Raise, Done) else Erase(body, writable)
    case Catch(body) => Then(Catch(Erase(body, writable)), Done)
    case _ => Then(s, Done)
  }

  lemma {:induction false} ExecAppend(a: Prog, b: Prog, st: St)
    ensures Exec(Append(a, b), st) == if Exec(a, st).raised then Exec(a, st) else Exec(b, Exec(a, st).st)
    decreases a
  {
    match a
    case Done =>
    case Then(first, rest) => if !ExecStmt(first, st).raised { ExecAppend(rest, b, ExecStmt(first, st).st); }
  }

  /** Inside a scope, a program and its scope-free form do the same: same writes, same reads, same failure. */
  lemma {:induction false} NestedScopesVanish(p: Prog, st: St)
    requires st.active.Some?
    ensures Exec(p, st) == Exec(Erase(p, st.active.value.writable), st)
    decreases p
  {
    match p
    case Done =>
    case Then(first, rest) =>
      var w := st.active.value.writable;
      StmtVanishes(first, st);
      ExecAppend(EraseStmt(first, w), Erase(rest, w), st);
      StmtStaysActive(first, st);
      if !ExecStmt(first, st).raised { NestedScopesVanish(rest, ExecStmt(first, st).st); }
  }

  lemma {:induction false} StmtVanishes(s: Stmt, st: St)
    requires st.active.Some?
    ensures ExecStmt(s, st) == Exec(EraseStmt(s, st.active.value.writable), st)
    decreases s
  {
    var w := st.active.value.writable;
    match s
    case With(write, body) => if !write || w { NestedScopesVanish(body, st); } else { OneStmt(Raise, st); }
    case Catch(body) => NestedScopesVanish(body, st); OneStmt(Catch(Erase(body, w)), st);
    case _ => OneStmt(s, st);
  }

  lemma OneStmt(s: Stmt, st: St)
    ensures Exec(Then(s, Done), st) == ExecStmt(s, st)
  {
    hide ExecStmt;
  }

  /** No scope statement is left, except in what other owners run. */
  predicate ScopeFree(p: Prog)
    decreases p
  {
    p.Then? ==> !p.first.With? && (p.first.Catch? ==> ScopeFree(p.first.body)) && ScopeFree(p.rest)
  }

  lemma {:induction false} EraseIsScopeFree(p: Prog, w: bool)
    ensures ScopeFree(Erase(p, w))
    decreases p
  {
    match p
    case Done =>
    case Then(first, rest) =>
      EraseIsScopeFree(rest, w);
      EraseStmtIsScopeFree(first, w);
      AppendScopeFree(EraseStmt(first, w), Erase(rest, w));
  }

  lemma {:induction false} EraseStmtIsScopeFree(s: Stmt, w: bool)
    ensures ScopeFree(EraseStmt(s, w))
    decreases s
  {
    match s
    case With(_, body) => EraseIsScopeFree(body, w);
    case Catch(body) => EraseIsScopeFree(body, w);
    case _ =>
  }

  lemma {:induction false} AppendScopeFree(a: Prog, b: Prog)
    requires ScopeFree(a) && ScopeFree(b)
    ensures ScopeFree(Append(a, b))
    decreases a
  {
    if a.Then? { AppendScopeFree(a.rest, b); }
  }

  // ---------- The outermost scope decides ----------

  /**
   * An outermost scope does what its scope-free body does, and then commits all it wrote or nothing: nested scopes have no commit
   * and no rollback of their own. Inside a write scope nobody commits.
   */
  lemma OutermostDecides(body: Prog, write: bool, st: St)
    requires st.active.None? && !(write && st.busy)
    ensures
      var inner := Exec(Erase(body, write), Begin(st, write));
      var o := ExecStmt(With(write, body), st);
      && ScopeFree(Erase(body, write)) && o == ExecStmt(With(write, Erase(body, write)), st)
      && o.st.active.None? && o.raised == inner.raised && o.st.log == inner.st.log
      && inner.st.active.Some? && (write ==> inner.st.committed == st.committed)
      && o.st.committed == if inner.raised || !inner.st.active.value.wrote then inner.st.committed else View(inner.st)
  {
    EraseIsScopeFree(body, write);
    NestedScopesVanish(body, Begin(st, write));
    StaysActive(body, Begin(st, write));
    hide Exec, Erase;
  }

  /** An inner scope whose failure is caught inside the outer one keeps its writes: they wait for the outer commit. */
  lemma CaughtScopeKeepsWrites(body: Prog, st: St)
    requires st.active.Some? && st.active.value.writable
    ensures ExecStmt(Catch(Then(With(true, body), Done)), st) == Out(Exec(body, st).st, false)
  {
    OneStmt(With(true, body), st);
  }

  // ---------- Read scopes ----------

  /** The program with nothing left in its write scopes. */
  function Blank(p: Prog): Prog
    decreases p
  {
    if p.Done? then p else Then(BlankStmt(p.first), Blank(p.rest))
  }

  function BlankStmt(s: Stmt): Stmt
    decreases s
  {
    match s
    case With(write, body) => if write then With(true, Done) else With(false, Blank(body))
    case Catch(body) => Catch(Blank(body))
    case _ => s
  }

  /** A read scope is never turned into a write scope: whatever stands in a write scope inside it is never done. */
  lemma {:induction false} NoUpgrade(p: Prog, st: St)
    requires st.active.Some? && !st.active.value.writable
    ensures Exec(p, st) == Exec(Blank(p), st)
    decreases p
  {
    if p.Then? {
      NoStmtUpgrade(p.first, st);
      StmtStaysActive(p.first, st);
      if !ExecStmt(p.first, st).raised { NoUpgrade(p.rest, ExecStmt(p.first, st).st); }
    }
  }

  lemma {:induction false} NoStmtUpgrade(s: Stmt, st: St)
    requires st.active.Some? && !st.active.value.writable
    ensures ExecStmt(s, st) == ExecStmt(BlankStmt(s), st)
    decreases s
  {
    match s
    case With(_, body) => NoUpgrade(body, st);
    case Catch(body) => NoUpgrade(body, st);
    case _ =>
  }

  /** Yet a read scope can write without a write scope: a bare write commits iff no other owner holds the lock. */
  lemma ReadScopeWrites(st: St, k: nat, v: nat)
    requires st.active.None?
    ensures
      var o := ExecStmt(With(false, Then(Put(k, v), Done)), st);
      && (o.raised <==> st.busy)
      && o.st.committed == if st.busy then st.committed else st.committed[k := v]
  {
    OneStmt(Put(k, v), Begin(st, false));
  }

  /** From its first statement on, a transaction that does not write keeps its view, whatever others commit meanwhile. */
  lemma {:induction false} ViewIsKept(p: Prog, st: St)
    requires st.active.Some? && st.active.value.view.Some? && !Writing(Exec(p, st).st)
    ensures var o := Exec(p, st).st; o.active.Some? && o.active.value.view == st.active.value.view
    decreases p
  {
    if p.Then? {
      var o := ExecStmt(p.first, st);
      StmtStaysActive(p.first, st);
      if !o.raised { StaysActive(p.rest, o.st); }
      StmtViewIsKept(p.first, st);
      if !o.raised { ViewIsKept(p.rest, o.st); }
    }
  }

  lemma {:induction false} StmtViewIsKept(s: Stmt, st: St)
    requires st.active.Some? && st.active.value.view.Some? && !Writing(ExecStmt(s, st).st)
    ensures var o := ExecStmt(s, st).st; o.active.Some? && o.active.value.view == st.active.value.view
    decreases s
  {
    match s
    case With(_, body) => if ExecStmt(s, st) == Exec(body, st) { ViewIsKept(body, st); }
    case Catch(body) => ViewIsKept(body, st);
    case _ =>
  }

  /** A transaction that read, and then finds that another owner has committed a write, cannot write: no update is lost. */
  lemma StaleWriteRefused(st: St, k: nat, v: nat, w: nat)
    requires st.active.None? && !st.busy
    ensures
      var other := Spawn(Then(With(true, Then(Put(k, v), Done)), Done));
      var o := ExecStmt(With(false, Then(Get(k), Then(other, Then(Put(k, w), Done)))), st);
      o.raised && o.st.committed == st.committed[k := v]
  {
    var s0 := Begin(st, false);
    var s1 := Seen(s0, k);
    var write := With(true, Then(Put(k, v), Done));
    OneStmt(Put(k, v), Begin(Alone(s1), true));
    OneStmt(write, Alone(s1));
    var other := Spawn(Then(write, Done));
    var s2 := ExecStmt(other, s1).st;
    assert s2.commits == s1.commits + 1 && s2.committed == st.committed[k := v] && s2.active == s1.active;
    OneStmt(Put(k, w), s2);
    assert ExecStmt(Put(k, w), s2) == Out(s2, true);
    assert Exec(Then(other, Then(Put(k, w), Done)), s1) == Out(s2, true);
    assert Exec(Then(Get(k), Then(other, Then(Put(k, w), Done))), s0) == Out(s2, true);
  }

  /** Another owner does not join an inherited scope: it neither sees the uncommitted writes nor adds to them. */
  lemma InheritedScopeIsNotJoined(body: Prog, st: St, other: map<nat, nat>)
    requires Writing(st)
    ensures
      var o := ExecStmt(Spawn(body), st);
      var p := ExecStmt(Spawn(body), st.(active := Some(st.active.value.(view := Some(other)))));
      && o.st.active == st.active && o.st.committed == st.committed
      && p.st.log == o.st.log && p.raised == o.raised && p.st.committed == o.st.committed
  {
    LockedOut(body, Alone(st));
    assert Alone(st.(active := Some(st.active.value.(view := Some(other))))) == Alone(st);
    hide Exec;
  }
}
