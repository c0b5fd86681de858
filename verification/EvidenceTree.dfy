/** Task evidence: a directory tree, its flat map by path text, and rebuilding the tree from the map. */
module EvidenceTree {
  import opened Common
  import opened Base64

  type Path = seq<string>

  /** None marks a directory. Paths are relative to the evidence directory, which itself always exists. */
  type Tree = map<Path, Option<Bytes>>

  type Files = map<string, Option<Bytes>>

  /** A file system takes neither a slash nor a NUL in a name. */
  predicate ValidName(n: string) {
    n != "" && n != "." && n != ".." && forall i :: 0 <= i < |n| ==> n[i] != '/' && n[i] as int != 0
  }

  predicate ValidPath(p: Path) { p != [] && forall i :: 0 <= i < |p| ==> ValidName(p[i]) }

  function Parent(p: Path): Path
    requires p != []
  {
    p[..|p| - 1]
  }

  predicate IsDir(t: Tree, p: Path) { p == [] || (p in t && t[p].None?) }

  /** What a file system can hold: every entry lies in a directory. */
  ghost predicate TreeOk(t: Tree) { forall p {:trigger NodeOk(t, p)} :: p in t ==> NodeOk(t, p) }

  predicate NodeOk(t: Tree, p: Path) { ValidPath(p) && IsDir(t, Parent(p)) }

  // ---------- Path texts ----------

  function Joined(p: Path): string
    requires p != []
  {
    if |p| == 1 then p[0] else p[0] + "/" + Joined(p[1..])
  }

  /** Directories are written with a trailing slash. */
  function KeyText(p: Path, dir: bool): string
    requires p != []
  {
    if dir then Joined(p) + "/" else Joined(p)
  }

  function Split(s: string): (parts: seq<string>)
    ensures parts != []
  {
    if s == "" then [""]
    else if s[0] == '/' then [""] + Split(s[1..])
    else
      var rest := Split(s[1..]);
      [[s[0]] + rest[0]] + rest[1..]
  }

  function Components(parts: seq<string>): (names: seq<string>)
    ensures forall n :: n in names ==> n in parts && n != "" && n != "."
  {
    if parts == [] then []
    else
      var rest := Components(parts[1..]);
      if parts[0] == "" || parts[0] == "." then rest else [parts[0]] + rest
  }

  /** A safe relative path: not absolute, no parent reference, at least one component. */
  function ParseKey(k: string): Option<Path> {
    var names := Components(Split(k));
    if (k != "" && k[0] == '/') || ".." in names || names == [] then None else Some(names)
  }

  lemma {:induction false} SplitName(n: string, rest: string)
    requires forall i :: 0 <= i < |n| ==> n[i] != '/'
    ensures Split(n) == [n] && Split(n + "/" + rest) == [n] + Split(rest)
  {
    if n == "" {
      assert (n + "/" + rest)[1..] == rest;
    } else {
      assert (n + "/" + rest)[1..] == n[1..] + "/" + rest;
      SplitName(n[1..], rest);
      assert n == [n[0]] + n[1..];
    }
  }

  lemma {:induction false} ComponentsOfNames(p: Path, tail: seq<string>)
    requires forall i :: 0 <= i < |p| ==> ValidName(p[i])
    ensures Components(p + tail) == p + Components(tail)
  {
    if p == [] {
      assert p + tail == tail && p + Components(tail) == Components(tail);
    } else {
      assert (p + tail)[1..] == p[1..] + tail;
      ComponentsOfNames(p[1..], tail);
      assert p == [p[0]] + p[1..];
    }
  }

  lemma {:induction false} SplitJoined(p: Path)
    requires ValidPath(p)
    ensures Split(Joined(p)) == p && Split(Joined(p) + "/") == p + [""]
    ensures Joined(p) != "" && Joined(p)[0] != '/'
  {
    if |p| == 1 {
      SplitName(p[0], "");
      assert p == [p[0]];
      assert p[0] + "/" + "" == p[0] + "/";
    } else {
      var rest := Joined(p[1..]);
      SplitJoined(p[1..]);
      SplitName(p[0], rest);
      SplitName(p[0], rest + "/");
      assert Joined(p) == p[0] + "/" + rest && Joined(p) + "/" == p[0] + "/" + (rest + "/");
      hide Joined, Split;
      assert p == [p[0]] + p[1..] && [p[0]] + (p[1..] + [""]) == p + [""];
    }
  }

  lemma SplitKey(p: Path, dir: bool)
    requires ValidPath(p)
    ensures Split(KeyText(p, dir)) == p + if dir then [""] else []
    ensures KeyText(p, dir) != "" && KeyText(p, dir)[0] != '/'
  {
    SplitJoined(p);
  }

  /** Parsing a path text gives the path back, with or without the trailing slash. */
  lemma KeyRoundTrip(p: Path, dir: bool)
    requires ValidPath(p)
    ensures ParseKey(KeyText(p, dir)) == Some(p)
  {
    SplitKey(p, dir);
    var tail := if dir then [""] else [];
    ComponentsOfNames(p, tail);
    assert Components(tail) == [] by { assert dir ==> tail[1..] == []; }
    assert p + [] == p;
    assert ".." !in p;
  }

  // ---------- Flattening a tree ----------

  function Keys(t: Tree): set<string>
    requires TreeOk(t)
  {
    set p | p in t && NodeOk(t, p) :: KeyText(p, t[p].None?)
  }

  /** The map from path text to content that inspection records. */
  function Flatten(t: Tree): (m: Files)
    requires TreeOk(t)
  {
    map k | k in Keys(t) && ParseKey(k).Some? && ParseKey(k).value in t :: t[ParseKey(k).value]
  }

  lemma FlattenAt(t: Tree, p: Path)
    requires TreeOk(t) && p in t
    ensures NodeOk(t, p) && KeyText(p, t[p].None?) in Flatten(t) && Flatten(t)[KeyText(p, t[p].None?)] == t[p]
  {
    assert NodeOk(t, p);
    KeyRoundTrip(p, t[p].None?);
    assert KeyText(p, t[p].None?) in Keys(t);
  }

  lemma FlattenKey(t: Tree, k: string)
    requires TreeOk(t) && k in Flatten(t)
    ensures ParseKey(k).Some? && ParseKey(k).value in t && ValidPath(ParseKey(k).value)
    ensures Flatten(t)[k] == t[ParseKey(k).value] && k == KeyText(ParseKey(k).value, t[ParseKey(k).value].None?)
  {
    var p :| p in t && NodeOk(t, p) && k == KeyText(p, t[p].None?);
    KeyRoundTrip(p, t[p].None?);
  }

  /** Maps that describe a tree: canonical path texts, one per path, and every parent recorded as a directory. */
  ghost predicate Closed(m: Files) {
    && (forall k {:trigger KeyOk(m, k)} :: k in m ==> KeyOk(m, k))
    && (forall k, l :: k in m && l in m && ParseKey(k) == ParseKey(l) ==> k == l)
  }

  predicate KeyOk(m: Files, k: string)
    requires k in m
  {
    && ParseKey(k).Some? && ValidPath(ParseKey(k).value) && k == KeyText(ParseKey(k).value, m[k].None?)
    && HasParent(m, ParseKey(k).value)
  }

  predicate HasParent(m: Files, p: Path)
    requires p != []
  {
    |p| == 1 || (KeyText(Parent(p), true) in m && m[KeyText(Parent(p), true)].None?)
  }

  lemma FlattenClosed(t: Tree)
    requires TreeOk(t)
    ensures Closed(Flatten(t))
  {
    var m := Flatten(t);
    forall k | k in m ensures KeyOk(m, k) { FlattenedKeyOk(t, k); }
    forall k, l | k in m && l in m && ParseKey(k) == ParseKey(l) ensures k == l {
      FlattenKey(t, k);
      FlattenKey(t, l);
    }
  }

  lemma FlattenedKeyOk(t: Tree, k: string)
    requires TreeOk(t) && k in Flatten(t)
    ensures KeyOk(Flatten(t), k)
  {
    FlattenKey(t, k);
    var p := ParseKey(k).value;
    hide Flatten, ParseKey, KeyText, ValidPath;
    assert NodeOk(t, p);
    if |p| > 1 { FlattenAt(t, Parent(p)); }
  }

  // ---------- Rebuilding ----------

  /** mkdir -p: create every missing directory on the way; a file in the way is an error. */
  function MakeDirs(t: Tree, p: Path): Option<Tree>
    decreases |p|
  {
    if p == [] then Some(t)
    else
      var up := MakeDirs(t, Parent(p));
      if up.None? then None
      else if p !in up.value then Some(up.value[p := None])
      else if up.value[p].None? then up
      else None
  }

  function WriteFile(t: Tree, p: Path, b: Bytes): Option<Tree>
    requires p != []
  {
    var up := MakeDirs(t, Parent(p));
    if up.None? || (p in up.value && up.value[p].None?) then None else Some(up.value[p := Some(b)])
  }

  /** An unsafe or impossible path is an error. */
  function Place(t: Tree, k: string, content: Option<Bytes>): Option<Tree> {
    var p := ParseKey(k);
    if p.None? || !ValidPath(p.value) then None
    else if content.None? then MakeDirs(t, p.value)
    else WriteFile(t, p.value, content.value)
  }

  /** Recreate the entries one by one, in whatever order the map is walked. */
  function Rebuild(items: seq<(string, Option<Bytes>)>): Option<Tree> {
    if items == [] then Some(map[])
    else
      var before := Rebuild(items[..|items| - 1]);
      if before.None? then None else Place(before.value, items[|items| - 1].0, items[|items| - 1].1)
  }

  ghost predicate Enumerates(items: seq<(string, Option<Bytes>)>, m: Files) {
    && (forall i :: 0 <= i < |items| ==> items[i].0 in m && items[i].1 == m[items[i].0])
    && (forall k :: k in m ==> exists i :: 0 <= i < |items| && items[i].0 == k)
  }

  ghost predicate Within(t: Tree, u: Tree) { forall p :: p in t ==> p in u && u[p] == t[p] }

  lemma {:induction false} MakeDirsOk(t: Tree, p: Path)
    requires TreeOk(t) && (p != [] ==> ValidPath(p)) && MakeDirs(t, p).Some?
    ensures TreeOk(MakeDirs(t, p).value) && IsDir(MakeDirs(t, p).value, p) && Within(t, MakeDirs(t, p).value)
    decreases |p|
  {
    if p != [] {
      assert forall i :: 0 <= i < |Parent(p)| ==> Parent(p)[i] == p[i];
      MakeDirsOk(t, Parent(p));
      AddDirOk(MakeDirs(t, Parent(p)).value, p);
    }
  }

  /** A new directory, or a file, inside a directory. */
  lemma AddOk(t: Tree, p: Path, content: Option<Bytes>)
    requires TreeOk(t) && ValidPath(p) && IsDir(t, Parent(p)) && (p in t && t[p].None? ==> content.None?)
    ensures TreeOk(t[p := content])
  {
    var u := t[p := content];
    forall q | q in u ensures NodeOk(u, q) {
      if q != p { assert NodeOk(t, q); }
      assert Parent(q) != q;
    }
  }

  lemma AddDirOk(t: Tree, p: Path)
    requires TreeOk(t) && ValidPath(p) && IsDir(t, Parent(p))
    ensures p !in t ==> TreeOk(t[p := None])
  {
    if p !in t { AddOk(t, p, None); }
  }

  lemma PlaceOk(t: Tree, k: string, content: Option<Bytes>)
    requires TreeOk(t) && Place(t, k, content).Some?
    ensures TreeOk(Place(t, k, content).value)
  {
    var p := ParseKey(k).value;
    assert forall i :: 0 <= i < |Parent(p)| ==> Parent(p)[i] == p[i];
    if content.None? {
      MakeDirsOk(t, p);
    } else {
      MakeDirsOk(t, Parent(p));
      AddOk(MakeDirs(t, Parent(p)).value, p, content);
    }
  }

  lemma {:induction false} RebuildOk(items: seq<(string, Option<Bytes>)>)
    requires Rebuild(items).Some?
    ensures TreeOk(Rebuild(items).value)
  {
    if items != [] {
      RebuildOk(items[..|items| - 1]);
      PlaceOk(Rebuild(items[..|items| - 1]).value, items[|items| - 1].0, items[|items| - 1].1);
    }
  }

  /** The tree a closed map describes. */
  ghost function Unflatten(m: Files): Tree {
    map p | p in Paths(m) :: if KeyText(p, true) in m then m[KeyText(p, true)] else m[KeyText(p, false)]
  }

  ghost function Paths(m: Files): set<Path> {
    set k | k in m && ParseKey(k).Some? && ParseKey(k).value != []
            && (KeyText(ParseKey(k).value, true) in m || KeyText(ParseKey(k).value, false) in m) :: ParseKey(k).value
  }

  lemma UnflattenAt(m: Files, k: string)
    requires Closed(m) && k in m
    ensures KeyOk(m, k)
    ensures var p := ParseKey(k).value; p in Unflatten(m) && Unflatten(m)[p] == m[k]
  {
    assert KeyOk(m, k);
    var p := ParseKey(k).value;
    hide ParseKey, KeyText, ValidPath, HasParent;
    assert p in Paths(m);
    KeyRoundTrip(p, true);
    KeyRoundTrip(p, false);
    assert KeyText(p, true) in m ==> KeyText(p, true) == k;
  }

  lemma UnflattenKey(m: Files, p: Path)
    requires Closed(m) && p in Unflatten(m)
    ensures p != [] && ValidPath(p) && KeyText(p, Unflatten(m)[p].None?) in m && ParseKey(KeyText(p, Unflatten(m)[p].None?)) == Some(p)
    ensures m[KeyText(p, Unflatten(m)[p].None?)] == Unflatten(m)[p]
  {
    hide ParseKey, KeyText, HasParent, ValidPath;
    assert p in Paths(m);
    var k :| k in m && ParseKey(k) == Some(p);
    UnflattenAt(m, k);
    ClosedKey(m, k);
  }

  lemma UnflattenNodeOk(m: Files, p: Path)
    requires Closed(m) && p in Unflatten(m)
    ensures NodeOk(Unflatten(m), p)
  {
    hide Unflatten, ParseKey, KeyText;
    UnflattenKey(m, p);
    assert KeyOk(m, KeyText(p, Unflatten(m)[p].None?));
    if |p| > 1 {
      UnflattenAt(m, KeyText(Parent(p), true));
      KeyRoundTrip(Parent(p), true);
    }
  }

  lemma UnflattenOk(m: Files)
    requires Closed(m)
    ensures TreeOk(Unflatten(m))
  {
    forall p | p in Unflatten(m) ensures NodeOk(Unflatten(m), p) { UnflattenNodeOk(m, p); }
  }

  lemma FlattenUnflatten(m: Files)
    requires Closed(m)
    ensures TreeOk(Unflatten(m)) && Flatten(Unflatten(m)) == m
  {
    hide *;
    UnflattenOk(m);
    var f := Flatten(Unflatten(m));
    forall k | k in m ensures k in f && f[k] == m[k] { UnflattenFlattenAt(m, k); }
    forall k | k in f ensures k in m { FlattenStored(m, k); }
  }

  lemma FlattenStored(m: Files, k: string)
    requires Closed(m) && TreeOk(Unflatten(m)) && k in Flatten(Unflatten(m))
    ensures k in m
  {
    hide *;
    FlattenKey(Unflatten(m), k);
    UnflattenKey(m, ParseKey(k).value);
  }

  /** Every stored entry is found again in the described tree. */
  lemma UnflattenFlattenAt(m: Files, k: string)
    requires Closed(m) && k in m && TreeOk(Unflatten(m))
    ensures k in Flatten(Unflatten(m)) && Flatten(Unflatten(m))[k] == m[k]
  {
    UnflattenAt(m, k);
    ClosedKey(m, k);
    hide *;
    var p := ParseKey(k).value;
    FlattenAt(Unflatten(m), p);
    UnflattenKey(m, p);
  }

  /** A key is the text of its path. */
  lemma ClosedKey(m: Files, k: string)
    requires Closed(m) && k in m
    ensures KeyOk(m, k) && k == KeyText(ParseKey(k).value, m[k].None?)
  {
    assert KeyOk(m, k);
    hide ParseKey, KeyText, ValidPath, HasParent;
  }

  lemma UnflattenFlatten(t: Tree)
    requires TreeOk(t)
    ensures Closed(Flatten(t)) && Unflatten(Flatten(t)) == t
  {
    hide *;
    FlattenClosed(t);
    var u := Unflatten(Flatten(t));
    forall p | p in t ensures p in u && u[p] == t[p] { FlattenUnflattenAt(t, p); }
    forall p | p in u ensures p in t { UnflattenStored(t, p); }
  }

  lemma UnflattenStored(t: Tree, p: Path)
    requires TreeOk(t) && Closed(Flatten(t)) && p in Unflatten(Flatten(t))
    ensures p in t
  {
    hide *;
    UnflattenKey(Flatten(t), p);
    FlattenKey(t, KeyText(p, Unflatten(Flatten(t))[p].None?));
  }

  lemma FlattenUnflattenAt(t: Tree, p: Path)
    requires TreeOk(t) && p in t && Closed(Flatten(t))
    ensures p in Unflatten(Flatten(t)) && Unflatten(Flatten(t))[p] == t[p]
  {
    FlattenAt(t, p);
    hide *;
    KeyRoundTrip(p, t[p].None?);
    UnflattenAt(Flatten(t), KeyText(p, t[p].None?));
  }

  // ---------- Rebuilding a closed map succeeds ----------

  /** Directories on the way to a described path are directories of the described tree. */
  lemma {:induction false} MakeDirsWithin(t: Tree, u: Tree, p: Path)
    requires TreeOk(u) && Within(t, u) && IsDir(u, p)
    ensures MakeDirs(t, p).Some? && Within(MakeDirs(t, p).value, u)
    ensures p != [] ==> p in MakeDirs(t, p).value
    decreases |p|
  {
    if p != [] {
      assert NodeOk(u, p);
      MakeDirsWithin(t, u, Parent(p));
    }
  }

  lemma {:induction false} MakeDirsGrows(t: Tree, p: Path)
    ensures MakeDirs(t, p).Some? ==> Within(t, MakeDirs(t, p).value)
    decreases |p|
  {
    if p != [] { MakeDirsGrows(t, Parent(p)); }
  }

  function KeyPath(k: string): Path { if ParseKey(k).Some? then ParseKey(k).value else [] }

  lemma ParsedKeyOk(m: Files, k: string)
    requires Closed(m) && k in m
    ensures ParseKey(k).Some? && ValidPath(ParseKey(k).value) && KeyPath(k) == ParseKey(k).value != []
  {
    hide ParseKey, KeyText;
    assert KeyOk(m, k);
  }

  lemma PlaceWithin(t: Tree, m: Files, k: string)
    requires Closed(m) && k in m && Within(t, Unflatten(m))
    ensures
      var r := Place(t, k, m[k]);
      && r.Some? && Within(r.value, Unflatten(m)) && KeyPath(k) in r.value && forall p :: p in t ==> p in r.value
  {
    UnflattenOk(m);
    UnflattenAt(m, k);
    ParsedKeyOk(m, k);
    hide Closed, Unflatten, ParseKey, ValidPath, TreeOk, MakeDirs, Within, WriteFile;
    if m[k].None? {
      MakeDirsWithin(t, Unflatten(m), KeyPath(k));
      MakeDirsGrows(t, KeyPath(k));
    } else {
      FileWithin(t, Unflatten(m), KeyPath(k));
    }
  }

  lemma FileWithin(t: Tree, u: Tree, p: Path)
    requires TreeOk(u) && Within(t, u) && p in u && u[p].Some? && p != []
    ensures
      var r := WriteFile(t, p, u[p].value);
      && r.Some? && Within(r.value, u) && p in r.value && forall q :: q in t ==> q in r.value
  {
    assert NodeOk(u, p);
    MakeDirsWithin(t, u, Parent(p));
    MakeDirsGrows(t, Parent(p));
    hide MakeDirs;
  }

  ghost predicate SomeOf(items: seq<(string, Option<Bytes>)>, m: Files) {
    forall i :: 0 <= i < |items| ==> items[i].0 in m && items[i].1 == m[items[i].0]
  }

  lemma {:induction false} RebuildWithin(items: seq<(string, Option<Bytes>)>, m: Files)
    requires Closed(m) && SomeOf(items, m)
    ensures Rebuild(items).Some? && Within(Rebuild(items).value, Unflatten(m))
    ensures forall i :: 0 <= i < |items| ==> KeyPath(items[i].0) in Rebuild(items).value
  {
    hide Unflatten, Closed, Place, ParseKey;
    if items != [] {
      var n := |items| - 1;
      RebuildWithin(items[..n], m);
      var t := Rebuild(items[..n]).value;
      PlaceWithin(t, m, items[n].0);
      forall i | 0 <= i < |items| ensures KeyPath(items[i].0) in Rebuild(items).value {
        if i < n { assert items[..n][i] == items[i]; }
      }
    }
  }

  lemma RebuildClosed(items: seq<(string, Option<Bytes>)>, m: Files)
    requires Enumerates(items, m) && Closed(m)
    ensures Rebuild(items) == Some(Unflatten(m))
  {
    RebuildWithin(items, m);
    var t, u := Rebuild(items).value, Unflatten(m);
    hide *;
    forall p | p in u ensures p in t {
      UnflattenKey(m, p);
      Reached(items, m, KeyText(p, u[p].None?));
      PathOfKey(p, u[p].None?);
    }
    WithinEqual(t, u);
  }

  lemma PathOfKey(p: Path, dir: bool)
    requires p != []
    ensures ParseKey(KeyText(p, dir)) == Some(p) ==> KeyPath(KeyText(p, dir)) == p
  {
  }

  lemma WithinEqual(t: Tree, u: Tree)
    requires Within(t, u) && forall p :: p in u ==> p in t
    ensures t == u
  {
  }

  lemma Reached(items: seq<(string, Option<Bytes>)>, m: Files, k: string)
    requires Enumerates(items, m) && k in m && Rebuild(items).Some?
    requires forall i :: 0 <= i < |items| ==> KeyPath(items[i].0) in Rebuild(items).value
    ensures KeyPath(k) in Rebuild(items).value
  {
    hide KeyPath, Rebuild;
  }

  /** Rebuilding a map, in any order, gives a tree that flattens to the same map iff the map describes a tree. */
  lemma RebuildIff(items: seq<(string, Option<Bytes>)>, m: Files)
    requires Enumerates(items, m)
    ensures (Rebuild(items).Some? && TreeOk(Rebuild(items).value) && Flatten(Rebuild(items).value) == m) <==> Closed(m)
    ensures Closed(m) ==> Rebuild(items) == Some(Unflatten(m))
  {
    hide Closed, Enumerates, Flatten, Unflatten, Rebuild, TreeOk;
    if Closed(m) {
      RebuildClosed(items, m);
      FlattenUnflatten(m);
    } else if Rebuild(items).Some? {
      RebuildOk(items);
      FlattenClosed(Rebuild(items).value);
    }
  }

  /** Flatten and rebuild are inverse on every tree a file system can hold, whatever the order of the entries. */
  lemma EvidenceRoundTrip(t: Tree, items: seq<(string, Option<Bytes>)>)
    requires TreeOk(t) && Enumerates(items, Flatten(t))
    ensures Rebuild(items) == Some(t)
  {
    UnflattenFlatten(t);
    RebuildIff(items, Flatten(t));
  }
}
