/** A write scope is a plain memory: what the statements of a program read and write, independently of transactions. */
module ScopeMemory {
  import opened Common
  import opened Transactions

  /** What a program has made of a memory, what it has read, and whether it has failed. */
  datatype Memory = Memory(cells: map<nat, nat>, seen: seq<Option<nat>>, failed: bool)

  /** No statement is run by another owner. */
  predicate OwnWork(p: Prog)
    decreases p
  {
    p.Then? ==>
      !p.first.Spawn? && (p.first.With? ==> OwnWork(p.first.body)) && (p.first.Catch? ==> OwnWork(p.first.body)) && OwnWork(p.rest)
  }

  /** A write overwrites one cell, a read reads one, a failure stops, and a caught failure keeps what was written before it. */
  function Remember(p: Prog, cells: map<nat, nat>, seen: seq<Option<nat>>): Memory
    decreases p
  {
    match p
    case Done => Memory(cells, seen, false)
    case Then(first, rest) =>
      match first
      case Put(k, v) => Remember(rest, cells[k := v], seen)
      case Get(k) => Remember(rest, cells, seen + [if k in cells then Some(cells[k]) else None])
      case Raise => Memory(cells, seen, true)
      case With(_, body) =>
        var inner := Remember(body, cells, seen);
        if inner.failed then inner else Remember(rest, inner.cells, inner.seen)
      case Catch(body) =>
        var inner := Remember(body, cells, seen);
        Remember(rest, inner.cells, inner.seen)
      case Spawn(_) => Memory(cells, seen, true)
  }

  /** The scope can write, and sees these cells. */
  predicate Sees(st: St, cells: map<nat, nat>) {
    st.active.Some? && st.active.value.writable && st.active.value.locked && st.active.value.view == Some(cells)
  }

  /** What a program leaves in a write scope is what it leaves in a memory; nothing is committed meanwhile. */
  lemma {:induction false} ScopeIsMemory(p: Prog, st: St, cells: map<nat, nat>)
    requires Sees(st, cells) && OwnWork(p)
    ensures
      var o, m := Exec(p, st), Remember(p, cells, st.log);
      && Sees(o.st, m.cells) && o.st.log == m.seen && o.raised == m.failed && o.st.committed == st.committed
      && (o.st.active.value.wrote || (m.cells == cells && !st.active.value.wrote)) && (st.active.value.wrote ==> o.st.active.value.wrote)
    decreases p
  {
    if p.Then? {
      var o := ExecStmt(p.first, st);
      match p.first
      case With(_, body) =>
        ScopeIsMemory(body, st, cells);
        if !o.raised { ScopeIsMemory(p.rest, o.st, Remember(body, cells, st.log).cells); }
      case Catch(body) =>
        ScopeIsMemory(body, st, cells);
        ScopeIsMemory(p.rest, o.st, Remember(body, cells, st.log).cells);
      case Put(k, v) => ScopeIsMemory(p.rest, o.st, cells[k := v]);
      case Get(_) => ScopeIsMemory(p.rest, o.st, cells);
      case _ =>
    }
  }

  /**
   * An outermost write scope, once it has the lock, reads and writes as a memory that starts from what is committed; in the end all
   * of that memory is committed, or nothing if it failed.
   */
  lemma WriteScopeIsMemory(body: Prog, st: St)
    requires st.active.None? && !st.busy && OwnWork(body)
    ensures
      var o, m := ExecStmt(With(true, body), st), Remember(body, st.committed, st.log);
      && o.raised == m.failed && o.st.log == m.seen && o.st.active.None?
      && o.st.committed == if m.failed then st.committed else m.cells
  {
    ScopeIsMemory(body, Begin(st, true), st.committed);
    hide Exec, Remember;
  }
}
