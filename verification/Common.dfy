/** Datatypes and orderings shared by every component of the model. */
module Common {
  datatype Option<+T> = None | Some(value: T)

  /** A returned value, or the exception the operation raises. */
  datatype Result<+T, +E> = Ok(value: T) | Err(error: E) {
    predicate IsFailure() { Err? }

    function PropagateFailure<U>(): Result<U, E>
      requires Err?
    {
      Err(error)
    }

    function Extract(): T
      requires Ok?
    {
      value
    }
  }

  function ToOption<T, E>(r: Result<T, E>): Option<T> { if r.Ok? then Some(r.value) else None }

  // ---------- Sorted enumeration of identifier sets ----------

  predicate IsMin(s: set<nat>, m: nat) { m in s && forall y :: y in s ==> m <= y }

  lemma {:induction false} MinExists(s: set<nat>) returns (m: nat)
    requires s != {}
    ensures IsMin(s, m)
  {
    var x :| x in s;
    var rest := s - {x};
    if rest == {} {
      assert s == {x};
      return x;
    }
    var n := MinExists(rest);
    assert forall y :: y in s ==> y == x || y in rest;
    m := if x <= n then x else n;
  }

  function Min(s: set<nat>): (m: nat)
    requires s != {}
    ensures m in s && forall y :: y in s ==> m <= y
  {
    assert exists m :: IsMin(s, m) by { var m := MinExists(s); }
    assert forall a, b :: IsMin(s, a) && IsMin(s, b) ==> a == b;
    var m :| IsMin(s, m);
    m
  }

  /** The order in which both layouts enumerate identifiers. */
  function Sorted(s: set<nat>): (ids: seq<nat>)
    ensures forall x :: x in ids <==> x in s
    ensures Ascending(ids)
    decreases s
  {
    if s == {} then []
    else
      var m := Min(s);
      var rest := Sorted(s - {m});
      assert forall x :: x in rest ==> m < x;
      [m] + rest
  }

  ghost predicate Ascending(ids: seq<nat>) {
    forall i, j :: 0 <= i < j < |ids| ==> ids[i] < ids[j]
  }

  /** A strictly ascending sequence is determined by its elements. */
  lemma {:induction false} AscendingUnique(a: seq<nat>, b: seq<nat>)
    requires Ascending(a) && Ascending(b)
    requires forall x :: x in a <==> x in b
    ensures a == b
  {
    assert b != [] ==> b[0] in b;
    if a != [] {
      assert a[0] in b;
      assert b[0] in a;
      assert a[0] == b[0];
      forall x ensures x in a[1..] <==> x in b[1..] {
        if x in a[1..] { assert x in a; assert x in b; }
        if x in b[1..] { assert x in b; assert x in a; }
      }
      AscendingUnique(a[1..], b[1..]);
      assert a == [a[0]] + a[1..];
      assert b == [b[0]] + b[1..];
    }
  }
}
