/** Lexicographic order on names, sorted listings, and how a file suffix changes the order. */
module NameOrder {
  import opened Common
  import opened Candidates

  predicate Less(a: string, b: string) {
    b != "" && (a == "" || a[0] < b[0] || (a[0] == b[0] && Less(a[1..], b[1..])))
  }

  lemma {:induction false} LessTotal(a: string, b: string)
    ensures a == b || Less(a, b) || Less(b, a)
  {
    if a != "" && b != "" && a[0] == b[0] {
      LessTotal(a[1..], b[1..]);
      assert a == [a[0]] + a[1..] && b == [b[0]] + b[1..];
    }
  }

  lemma {:induction false} LessAsymmetric(a: string, b: string)
    requires Less(a, b)
    ensures !Less(b, a) && a != b
  {
    if a != "" && a[0] == b[0] { LessAsymmetric(a[1..], b[1..]); }
  }

  lemma {:induction false} LessTransitive(a: string, b: string, c: string)
    requires Less(a, b) && Less(b, c)
    ensures Less(a, c)
  {
    if a != "" && a[0] == b[0] == c[0] { LessTransitive(a[1..], b[1..], c[1..]); }
  }

  /** Where two names first differ, the first has the smaller character, or has ended. */
  predicate DifferAt(a: string, b: string, i: nat) {
    i <= |a| && i < |b| && a[..i] == b[..i] && (i == |a| || a[i] < b[i])
  }

  /** The order of listings is the dictionary order of code points. */
  lemma {:induction false} LessIff(a: string, b: string)
    ensures Less(a, b) <==> exists i: nat :: DifferAt(a, b, i)
  {
    if b != "" && a != "" && a[0] == b[0] {
      LessIff(a[1..], b[1..]);
      forall i: nat | DifferAt(a, b, i) ensures Less(a, b) {
        assert i > 0 && a[1..][..i - 1] == a[..i][1..] && b[1..][..i - 1] == b[..i][1..];
        assert DifferAt(a[1..], b[1..], i - 1);
      }
      if Less(a, b) {
        var i: nat :| DifferAt(a[1..], b[1..], i);
        assert a[..i + 1] == [a[0]] + a[1..][..i] && b[..i + 1] == [b[0]] + b[1..][..i];
        assert DifferAt(a, b, i + 1);
      }
    } else {
      if Less(a, b) { assert DifferAt(a, b, 0); }
      forall i: nat | DifferAt(a, b, i) ensures i == 0 { SameFirst(a, b, i); }
    }
  }

  lemma SameFirst(a: string, b: string, i: nat)
    requires DifferAt(a, b, i)
    ensures i > 0 ==> a != "" && b != "" && a[0] == b[0]
  {
    if i > 0 { assert a[..i][0] == a[0] && b[..i][0] == b[0]; }
  }

  // ---------- Sorted listings ----------

  predicate IsLeast(s: set<string>, m: string) { m in s && forall y :: y in s && y != m ==> Less(m, y) }

  lemma {:induction false} LeastExists(s: set<string>) returns (m: string)
    requires s != {}
    ensures IsLeast(s, m)
  {
    hide Less;
    var x :| x in s;
    var rest := s - {x};
    if rest == {} {
      assert s == {x};
      return x;
    }
    var n := LeastExists(rest);
    LessTotal(x, n);
    if Less(x, n) {
      forall y | y in s && y != x ensures Less(x, y) {
        if y != n { LessTransitive(x, n, y); }
      }
      return x;
    }
    assert Less(n, x);
    return n;
  }

  lemma LeastUnique(s: set<string>)
    ensures forall a, b :: IsLeast(s, a) && IsLeast(s, b) ==> a == b
  {
    forall a, b | Less(a, b) && Less(b, a) ensures false { LessAsymmetric(a, b); }
    hide Less;
  }

  function Least(s: set<string>): (m: string)
    requires s != {}
    ensures IsLeast(s, m)
  {
    LeastUnique(s);
    assert exists m :: IsLeast(s, m) by { var m := LeastExists(s); }
    var m :| IsLeast(s, m);
    m
  }

  ghost predicate Increasing(names: seq<string>) {
    forall i, j :: 0 <= i < j < |names| ==> Less(names[i], names[j])
  }

  /** A directory or index listing: every name once, in order. */
  function Listing(s: set<string>): (names: seq<string>)
    ensures forall x :: x in names <==> x in s
    ensures Increasing(names)
    decreases s
  {
    if s == {} then []
    else
      var m := Least(s);
      var rest := Listing(s - {m});
      assert forall x :: x in rest ==> Less(m, x);
      [m] + rest
  }

  lemma {:induction false} IncreasingUnique(a: seq<string>, b: seq<string>)
    requires Increasing(a) && Increasing(b) && forall x :: x in a <==> x in b
    ensures a == b
  {
    assert b != [] ==> b[0] in b;
    if a != [] {
      assert a[0] in b && b != [];
      assert b[0] in a;
      forall x | Less(x, a[0]) ensures x !in a { NotBelowFirst(a, x); }
      forall x | Less(x, b[0]) ensures x !in b { NotBelowFirst(b, x); }
      LessTotal(a[0], b[0]);
      assert a[0] == b[0];
      forall x ensures x in a[1..] <==> x in b[1..] {
        TailWithoutFirst(a, x);
        TailWithoutFirst(b, x);
      }
      IncreasingUnique(a[1..], b[1..]);
      assert a == [a[0]] + a[1..] && b == [b[0]] + b[1..];
    }
  }

  lemma NotBelowFirst(a: seq<string>, x: string)
    requires Increasing(a) && a != [] && Less(x, a[0])
    ensures x !in a
  {
    LessAsymmetric(x, a[0]);
    forall i | 0 < i < |a| ensures a[i] != x {
      LessAsymmetric(a[0], a[i]);
    }
  }

  lemma TailWithoutFirst(a: seq<string>, x: string)
    requires Increasing(a) && a != []
    ensures x in a[1..] <==> x in a && x != a[0]
  {
    if x in a[1..] {
      var i :| 0 <= i < |a[1..]| && a[1..][i] == x;
      assert a[i + 1] == x;
      LessAsymmetric(a[0], a[i + 1]);
    }
    if x in a && x != a[0] {
      var i :| 0 <= i < |a| && a[i] == x;
      assert a[1..][i - 1] == x;
    }
  }

  lemma ListingUnique(s: set<string>, names: seq<string>)
    requires Increasing(names) && forall x :: x in names <==> x in s
    ensures names == Listing(s)
  {
    IncreasingUnique(names, Listing(s));
  }

  // ---------- File names against identifiers ----------

  const SUFFIX := ".yaml"

  function FileName(id: string): string { id + SUFFIX }

  /** One identifier is the other followed by a dash and more. */
  predicate DashExtends(a: string, b: string) { a + "-" <= b }

  /** With the suffix attached, two identifiers keep their order exactly when neither dash-extends the other. */
  lemma {:induction false} FileOrderIff(a: string, b: string)
    requires a != b && (forall i :: 0 <= i < |a| ==> IdChar(a[i])) && forall i :: 0 <= i < |b| ==> IdChar(b[i])
    ensures (Less(FileName(a), FileName(b)) <==> Less(a, b)) <==> !DashExtends(a, b) && !DashExtends(b, a)
  {
    if a == "" || b == "" {
      assert FileName(a)[0] == if a == "" then '.' else a[0];
      assert FileName(b)[0] == if b == "" then '.' else b[0];
    } else if a[0] != b[0] {
      assert FileName(a)[0] == a[0] && FileName(b)[0] == b[0];
      assert (a + "-")[0] == a[0] && (b + "-")[0] == b[0];
    } else {
      assert FileName(a)[1..] == FileName(a[1..]) && FileName(b)[1..] == FileName(b[1..]);
      assert a == [a[0]] + a[1..] && b == [b[0]] + b[1..];
      FileOrderIff(a[1..], b[1..]);
      assert DashExtends(a, b) <==> DashExtends(a[1..], b[1..]) by { ExtendsTail(a, b); }
      assert DashExtends(b, a) <==> DashExtends(b[1..], a[1..]) by { ExtendsTail(b, a); }
    }
  }

  lemma ExtendsTail(a: string, b: string)
    requires a != "" && b != "" && a[0] == b[0]
    ensures DashExtends(a, b) <==> DashExtends(a[1..], b[1..])
  {
    assert a + "-" == [a[0]] + (a[1..] + "-");
    assert b == [b[0]] + b[1..];
  }

  function FileNames(ids: set<string>): set<string> { set id | id in ids :: FileName(id) }

  function WithSuffix(ids: seq<string>): (names: seq<string>)
    ensures |names| == |ids| && forall i :: 0 <= i < |ids| ==> names[i] == FileName(ids[i])
  {
    seq(|ids|, i requires 0 <= i < |ids| => FileName(ids[i]))
  }

  ghost predicate NoDashExtension(ids: set<string>) {
    forall a, b :: a in ids && b in ids ==> !DashExtends(a, b)
  }

  /** Listing files and listing identifiers give the same order iff no identifier dash-extends another. */
  lemma ListingsAgreeIff(ids: set<string>)
    requires forall id :: id in ids ==> ValidCandidateId(id)
    ensures WithSuffix(Listing(ids)) == Listing(FileNames(ids)) <==> NoDashExtension(ids)
  {
    if NoDashExtension(ids) { ListingsAgree(ids); }
    if WithSuffix(Listing(ids)) == Listing(FileNames(ids)) {
      forall a, b | a in ids && b in ids ensures !DashExtends(a, b) { AgreeingPair(ids, a, b); }
    }
  }

  lemma ListingsAgree(ids: set<string>)
    requires NoDashExtension(ids) && forall id :: id in ids ==> ValidCandidateId(id)
    ensures WithSuffix(Listing(ids)) == Listing(FileNames(ids))
  {
    var names := Listing(ids);
    forall i, j | 0 <= i < j < |names| ensures Less(WithSuffix(names)[i], WithSuffix(names)[j]) {
      assert names[i] in names && names[j] in names;
      LessAsymmetric(names[i], names[j]);
      FileOrderIff(names[i], names[j]);
    }
    forall x ensures x in WithSuffix(names) <==> x in FileNames(ids) {
      if x in FileNames(ids) {
        var id :| id in ids && FileName(id) == x;
        var i :| 0 <= i < |names| && names[i] == id;
        assert WithSuffix(names)[i] == x;
      }
    }
    ListingUnique(FileNames(ids), WithSuffix(names));
  }

  lemma AgreeingPair(ids: set<string>, a: string, b: string)
    requires a in ids && b in ids && forall id :: id in ids ==> ValidCandidateId(id)
    requires WithSuffix(Listing(ids)) == Listing(FileNames(ids))
    ensures !DashExtends(a, b)
  {
    var names := Listing(ids);
    var i :| 0 <= i < |names| && names[i] == a;
    var j :| 0 <= j < |names| && names[j] == b;
    var files := WithSuffix(names);
    assert Increasing(files);
    hide Less, WithSuffix, FileNames, Listing;
    if i < j {
      BothOrders(a, b);
    } else if j < i {
      BothOrders(b, a);
    }
  }

  lemma BothOrders(a: string, b: string)
    requires ValidCandidateId(a) && ValidCandidateId(b) && Less(a, b) && Less(FileName(a), FileName(b))
    ensures !DashExtends(a, b) && !DashExtends(b, a)
  {
    LessAsymmetric(a, b);
    FileOrderIff(a, b);
  }
}
