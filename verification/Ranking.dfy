/** Ordered listings of rows: ORDER BY a key and then the identifier, in either direction, and their pages. */
module Ranking {
  import opened Common
  import N = NameOrder

  // ---------- Ranks ----------

  /** An absent value sorts before every other. */
  datatype Key = Nothing | Number(n: int) | Word(w: string)

  predicate KeyLess(a: Key, b: Key) {
    match (a, b)
    case (Nothing, _) => !b.Nothing?
    case (Number(_), Nothing) => false
    case (Number(x), Number(y)) => x < y
    case (Number(_), Word(_)) => true
    case (Word(x), Word(y)) => N.Less(x, y)
    case (Word(_), _) => false
  }

  /** What a row is ordered by; the identifier breaks every tie. */
  datatype Rank = Rank(key: Key, id: Key)

  type Ranks<!T(==)> = map<T, Rank>

  /** No two rows have one identifier. */
  ghost predicate Ranked<T(!new)>(ranks: Ranks<T>) { forall a, b :: a in ranks && b in ranks && ranks[a].id == ranks[b].id ==> a == b }

  predicate RankLess(a: Rank, b: Rank) { KeyLess(a.key, b.key) || (a.key == b.key && KeyLess(a.id, b.id)) }

  predicate Before<T(==)>(ranks: Ranks<T>, descending: bool, a: T, b: T)
    requires a in ranks && b in ranks
  {
    if descending then RankLess(ranks[b], ranks[a]) else RankLess(ranks[a], ranks[b])
  }

  lemma KeyOrder(a: Key, b: Key, c: Key)
    ensures a == b || KeyLess(a, b) || KeyLess(b, a)
    ensures KeyLess(a, b) ==> !KeyLess(b, a) && a != b
    ensures KeyLess(a, b) && KeyLess(b, c) ==> KeyLess(a, c)
  {
    if a.Word? && b.Word? {
      N.LessTotal(a.w, b.w);
      if N.Less(a.w, b.w) {
        N.LessAsymmetric(a.w, b.w);
        if c.Word? && N.Less(b.w, c.w) { N.LessTransitive(a.w, b.w, c.w); }
      }
    }
  }

  /** Rows are strictly and totally ordered. */
  lemma BeforeOrder<T(!new)>(ranks: Ranks<T>, d: bool, a: T, b: T, c: T)
    requires Ranked(ranks) && a in ranks && b in ranks && c in ranks
    ensures a == b || Before(ranks, d, a, b) || Before(ranks, d, b, a)
    ensures Before(ranks, d, a, b) ==> !Before(ranks, d, b, a) && a != b
    ensures Before(ranks, d, a, b) && Before(ranks, d, b, c) ==> Before(ranks, d, a, c)
  {
    RankOrder(ranks[a], ranks[b], ranks[c]);
    RankOrder(ranks[c], ranks[b], ranks[a]);
    RankOrder(ranks[a], ranks[c], ranks[b]);
    hide RankLess;
  }

  lemma RankOrder(a: Rank, b: Rank, c: Rank)
    ensures a.id == b.id || RankLess(a, b) || RankLess(b, a)
    ensures RankLess(a, b) ==> !RankLess(b, a) && a != b
    ensures RankLess(a, b) && RankLess(b, c) ==> RankLess(a, c)
  {
    KeyOrder(a.key, b.key, c.key);
    KeyOrder(b.key, a.key, c.key);
    KeyOrder(a.id, b.id, c.id);
    KeyOrder(b.id, a.id, c.id);
    hide KeyLess;
  }

  // ---------- The ordered list ----------

  predicate IsFirst<T(==,!new)>(ranks: Ranks<T>, d: bool, ids: set<T>, m: T)
    requires ids <= ranks.Keys
  {
    m in ids && forall y :: y in ids && y != m ==> Before(ranks, d, m, y)
  }

  lemma {:induction false} FirstExists<T(!new)>(ranks: Ranks<T>, d: bool, ids: set<T>) returns (m: T)
    requires ids != {} && ids <= ranks.Keys && Ranked(ranks)
    ensures IsFirst(ranks, d, ids, m)
    decreases ids
  {
    hide Before;
    var x :| x in ids;
    var rest := ids - {x};
    if rest == {} {
      assert ids == {x};
      return x;
    }
    var n := FirstExists(ranks, d, rest);
    BeforeOrder(ranks, d, x, n, n);
    if Before(ranks, d, x, n) {
      forall y | y in ids && y != x ensures Before(ranks, d, x, y) {
        if y != n { BeforeOrder(ranks, d, x, n, y); }
      }
      return x;
    }
    assert Before(ranks, d, n, x);
    return n;
  }

  lemma FirstUnique<T(!new)>(ranks: Ranks<T>, d: bool, ids: set<T>)
    requires ids <= ranks.Keys && Ranked(ranks)
    ensures forall a, b :: IsFirst(ranks, d, ids, a) && IsFirst(ranks, d, ids, b) ==> a == b
  {
    hide Before;
    forall a, b | IsFirst(ranks, d, ids, a) && IsFirst(ranks, d, ids, b) ensures a == b { BeforeOrder(ranks, d, a, b, b); }
  }

  function First<T(==,!new)>(ranks: Ranks<T>, d: bool, ids: set<T>): (m: T)
    requires ids != {} && ids <= ranks.Keys && Ranked(ranks)
    ensures IsFirst(ranks, d, ids, m)
  {
    FirstUnique(ranks, d, ids);
    assert exists m :: IsFirst(ranks, d, ids, m) by { var m := FirstExists(ranks, d, ids); }
    var m :| IsFirst(ranks, d, ids, m);
    m
  }

  ghost predicate InOrder<T(!new)>(ranks: Ranks<T>, d: bool, list: seq<T>) {
    && (forall i :: 0 <= i < |list| ==> list[i] in ranks)
    && forall i, j :: 0 <= i < j < |list| ==> Before(ranks, d, list[i], list[j])
  }

  /** ORDER BY key, id over the selected rows. */
  function OrderBy<T(==,!new)>(ranks: Ranks<T>, d: bool, ids: set<T>): (list: seq<T>)
    requires ids <= ranks.Keys && Ranked(ranks)
    ensures forall x :: x in list <==> x in ids
    ensures InOrder(ranks, d, list) && |list| == |ids|
    decreases ids
  {
    if ids == {} then []
    else
      var m := First(ranks, d, ids);
      var rest := OrderBy(ranks, d, ids - {m});
      FirstThenRest(ranks, d, ids, m, rest);
      [m] + rest
  }

  lemma FirstThenRest<T(!new)>(ranks: Ranks<T>, d: bool, ids: set<T>, m: T, rest: seq<T>)
    requires ids <= ranks.Keys && Ranked(ranks) && IsFirst(ranks, d, ids, m) && InOrder(ranks, d, rest) && |rest| == |ids - {m}|
    requires forall x :: x in rest <==> x in ids - {m}
    ensures forall x :: x in [m] + rest <==> x in ids
    ensures InOrder(ranks, d, [m] + rest) && |[m] + rest| == |ids|
  {
    hide Before;
    assert forall i :: 0 <= i < |rest| ==> rest[i] in rest;
  }

  // ---------- One order, both directions ----------

  lemma {:induction false} OrderUnique<T(!new)>(ranks: Ranks<T>, d: bool, a: seq<T>, b: seq<T>)
    requires Ranked(ranks) && InOrder(ranks, d, a) && InOrder(ranks, d, b) && forall x :: x in a <==> x in b
    ensures a == b
    decreases |a|
  {
    hide Before;
    assert b != [] ==> b[0] in b;
    if a != [] {
      assert a[0] in b && b[0] in a;
      var i :| 0 <= i < |b| && b[i] == a[0];
      var j :| 0 <= j < |a| && a[j] == b[0];
      BeforeOrder(ranks, d, a[0], b[0], b[0]);
      assert a[0] == b[0];
      forall x ensures x in a[1..] <==> x in b[1..] {
        TailMembers(ranks, d, a, x);
        TailMembers(ranks, d, b, x);
      }
      OrderUnique(ranks, d, a[1..], b[1..]);
      assert a == [a[0]] + a[1..] && b == [b[0]] + b[1..];
    }
  }

  lemma TailMembers<T(!new)>(ranks: Ranks<T>, d: bool, a: seq<T>, x: T)
    requires Ranked(ranks) && InOrder(ranks, d, a) && a != []
    ensures x in a[1..] <==> x in a && x != a[0]
  {
    hide Before;
    forall i | 0 < i < |a| ensures a[i] != a[0] { BeforeOrder(ranks, d, a[0], a[i], a[i]); }
    if x in a && x != a[0] {
      var i :| 0 <= i < |a| && a[i] == x;
      assert a[1..][i - 1] == x;
    }
  }

  function Reversed<T>(s: seq<T>): (r: seq<T>)
    ensures |r| == |s| && forall i :: 0 <= i < |s| ==> r[i] == s[|s| - 1 - i]
  {
    seq(|s|, i requires 0 <= i < |s| => s[|s| - 1 - i])
  }

  lemma ReversedInOrder<T(!new)>(ranks: Ranks<T>, up: seq<T>)
    requires InOrder(ranks, false, up)
    ensures InOrder(ranks, true, Reversed(up)) && forall x :: x in Reversed(up) <==> x in up
  {
    var down := Reversed(up);
    forall i, j | 0 <= i < j < |down| ensures Before(ranks, true, down[i], down[j]) {
      assert Before(ranks, false, up[|up| - 1 - j], up[|up| - 1 - i]);
    }
    hide Before;
    forall x ensures x in down <==> x in up {
      if x in up { var i :| 0 <= i < |up| && up[i] == x; assert down[|up| - 1 - i] == x; }
    }
  }

  /** Descending order is ascending order read backwards. */
  lemma DescendingIsReverse<T(!new)>(ranks: Ranks<T>, ids: set<T>)
    requires ids <= ranks.Keys && Ranked(ranks)
    ensures OrderBy(ranks, true, ids) == Reversed(OrderBy(ranks, false, ids))
  {
    hide *;
    ReversedInOrder(ranks, OrderBy(ranks, false, ids));
    OrderUnique(ranks, true, OrderBy(ranks, true, ids), Reversed(OrderBy(ranks, false, ids)));
  }

  // ---------- Filters and pages ----------

  /** A filter on one column, if there is one. */
  predicate Wanted<T(==)>(f: Option<T>, value: T) { f.Some? ==> f.value == value }

  const MAX_PAGE := 500

  datatype QueryError = BadPage | BadRecord

  function Least(a: nat, b: nat): nat { if a <= b then a else b }

  /** LIMIT and OFFSET, or the equivalent slice. */
  function Page<T>(list: seq<T>, limit: nat, offset: nat): seq<T> { list[Least(offset, |list|)..Least(offset + limit, |list|)] }

  /** The answers to the first n page requests of one size, one after another. */
  function Joined<T>(answer: int -> Option<seq<T>>, limit: int, n: nat): seq<T> {
    if n == 0 then []
    else Joined(answer, limit, n - 1) + var page := answer((n - 1) * limit); if page.Some? then page.value else []
  }

  /** Successive pages of a list give it from the start, with no gap and no repeat; enough of them give all of it. */
  lemma {:induction false} JoinedPages<T>(answer: int -> Option<seq<T>>, list: seq<T>, limit: nat, n: nat)
    requires forall offset: nat :: answer(offset) == Some(Page(list, limit, offset))
    ensures Joined(answer, limit, n) == list[..Least(n * limit, |list|)]
    ensures n * limit >= |list| ==> Joined(answer, limit, n) == list
  {
    if n > 0 {
      JoinedPages(answer, list, limit, n - 1);
      assert (n - 1) * limit + limit == n * limit;
      var k: nat := (n - 1) * limit;
      assert answer(k) == Some(Page(list, limit, k));
      var a, b := Least(k, |list|), Least(n * limit, |list|);
      assert list[..a] + list[a..b] == list[..b];
    }
    assert list[..|list|] == list;
  }
}
