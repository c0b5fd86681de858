/** What the tooling registry reads out of a line and lists of an entry, in terms of the text itself. */
module RegistryContents {
  import opened Common
  import opened TaskModel
  import C = Candidates
  import opened Registry

  // ---------- Lines ----------

  /** A heading line is hashes, a valid identifier, a dash, and a title that starts at once. */
  predicate HeadingText(line: string, id: string, tail: string) {
    C.ValidCandidateId(id) && line == "### " + id + " \U{2014} " + tail && tail != "" && !IsSpace(tail[0])
  }

  lemma {:induction false} IdRunIs(id: string, rest: string)
    requires (forall i :: 0 <= i < |id| ==> C.IdChar(id[i])) && (rest == "" || !C.IdChar(rest[0]))
    ensures IdRun(id + rest) == |id|
  {
    if id == "" {
      assert id + rest == rest;
    } else {
      assert (id + rest)[0] == id[0] && (id + rest)[1..] == id[1..] + rest;
      IdRunIs(id[1..], rest);
    }
  }

  lemma ValidIdChars(id: string)
    requires C.ValidCandidateId(id)
    ensures forall i :: 0 <= i < |id| ==> C.IdChar(id[i])
  {
  }

  lemma HeadingRead(line: string, id: string, tail: string)
    requires HeadingText(line, id, tail)
    ensures HeadingOf(line) == Some((id, Strip(tail)))
  {
    hide C.ValidCandidateId, IsSpace, Strip;
    ValidIdChars(id);
    var rest := line[|HASHES|..];
    assert rest == id + (DASH + tail);
    IdRunIs(id, DASH + tail);
    assert rest[..|id|] == id && rest[|id|..] == DASH + tail;
    assert (DASH + tail)[|DASH|..] == tail;
  }

  lemma HeadingParts(line: string) returns (id: string, tail: string)
    requires HeadingOf(line).Some?
    ensures HeadingText(line, id, tail) && HeadingOf(line) == Some((id, Strip(tail)))
  {
    hide C.ValidCandidateId, IsSpace, Strip;
    var rest := line[|HASHES|..];
    var n := IdRun(rest);
    id, tail := rest[..n], rest[n..][|DASH|..];
    assert line == HASHES + rest && rest == id + rest[n..] && rest[n..] == DASH + tail;
  }

  /** A heading is read exactly from a heading line; it gives the identifier and the trimmed title. */
  lemma HeadingIff(line: string, id: string, title: string)
    ensures HeadingOf(line) == Some((id, title)) <==> exists tail :: HeadingText(line, id, tail) && title == Strip(tail)
  {
    hide HeadingText, HeadingOf, Strip;
    if HeadingOf(line) == Some((id, title)) {
      var i, tail := HeadingParts(line);
    }
    forall tail | HeadingText(line, id, tail) ensures HeadingOf(line) == Some((id, Strip(tail))) { HeadingRead(line, id, tail); }
  }

  predicate NoStar(s: string) { forall i :: 0 <= i < |s| ==> s[i] != '*' }

  /** A field line is a bold name with a colon, then the value. */
  predicate FieldText(line: string, name: string, value: string) { name != "" && NoStar(name) && line == "- **" + name + ":**" + value }

  lemma {:induction false} FirstStarIs(s: string, rest: string)
    requires NoStar(s) && rest != "" && rest[0] == '*'
    ensures FirstStar(s + rest) == |s|
  {
    if s == "" {
      assert s + rest == rest;
    } else {
      assert (s + rest)[0] == s[0] && (s + rest)[1..] == s[1..] + rest;
      FirstStarIs(s[1..], rest);
    }
  }

  lemma {:induction false} BeforeStar(s: string)
    ensures NoStar(s[..FirstStar(s)])
  {
    if s != "" && s[0] != '*' {
      BeforeStar(s[1..]);
      assert forall i :: 0 < i < FirstStar(s) ==> s[i] == s[1..][i - 1];
    }
  }

  lemma FieldRead(line: string, name: string, value: string)
    requires FieldText(line, name, value)
    ensures FieldOf(line) == Some((Strip(name), Strip(value)))
  {
    hide Strip;
    var rest := line[4..];
    assert rest == (name + ":") + ("**" + value);
    FirstStarIs(name + ":", "**" + value);
    var j := |name| + 1;
    assert rest[..j - 1] == name && rest[j..j + 2] == "**" && rest[j + 2..] == value && rest[j - 1] == ':';
  }

  lemma FieldParts(line: string) returns (name: string, value: string)
    requires FieldOf(line).Some?
    ensures FieldText(line, name, value) && FieldOf(line) == Some((Strip(name), Strip(value)))
  {
    hide Strip;
    var rest := line[4..];
    var j := FirstStar(rest);
    BeforeStar(rest);
    name, value := rest[..j - 1], rest[j + 2..];
    assert forall i :: 0 <= i < j - 1 ==> name[i] == rest[..j][i];
    assert line == "- **" + rest && rest == name + [rest[j - 1]] + rest[j..j + 2] + value && [':'] == ":";
    assert ":**" == ":" + "**";
  }

  /** A field is read exactly from a field line; it gives the trimmed name and the trimmed value. */
  lemma FieldIff(line: string, name: string, value: string)
    ensures FieldOf(line) == Some((name, value)) <==> exists n, v :: FieldText(line, n, v) && name == Strip(n) && value == Strip(v)
  {
    hide FieldText, FieldOf, Strip;
    if FieldOf(line) == Some((name, value)) {
      var n, v := FieldParts(line);
    }
    forall n, v | FieldText(line, n, v) ensures FieldOf(line) == Some((Strip(n), Strip(v))) { FieldRead(line, n, v); }
  }

  /** A fence line is three backticks or three tildes after white space only. */
  predicate FenceText(line: string, indent: nat, marker: string) {
    && indent <= |line| && (forall i :: 0 <= i < indent ==> IsSpace(line[i])) && (marker == "```" || marker == "~~~")
    && marker <= line[indent..]
  }

  lemma {:induction false} LeftStripTrims(s: string) returns (i: nat)
    ensures i <= |s| && LeftStrip(s) == s[i..] && (forall k :: 0 <= k < i ==> IsSpace(s[k])) && (i < |s| ==> !IsSpace(s[i]))
  {
    hide IsSpace;
    if s != "" && IsSpace(s[0]) {
      i := LeftStripTrims(s[1..]);
      i := i + 1;
      assert forall k :: 0 < k < |s| ==> s[k] == s[1..][k - 1];
    } else {
      i := 0;
    }
  }

  lemma FenceIff(line: string, marker: string)
    ensures FenceMarker(line) == Some(marker) <==> exists indent: nat :: FenceText(line, indent, marker)
  {
    var n := LeftStripTrims(line);
    assert "```"[0] == '`' && "~~~"[0] == '~' && |"```"| == 3 && |"~~~"| == 3;
    assert !IsSpace('`') && !IsSpace('~');
    hide IsSpace, LeftStrip;
    if FenceMarker(line) == Some(marker) { assert FenceText(line, n, marker); }
    forall indent: nat | FenceText(line, indent, marker) ensures FenceMarker(line) == Some(marker) {
      assert line[indent..][0] == marker[0] == line[indent];
      assert indent == n;
      assert LeftStrip(line)[..3] == marker;
    }
  }

  // ---------- Entries ----------

  /** What is wrong with an entry: no status, or one that is unknown; an unknown promotion; or a promotion that cannot be made. */
  predicate Faulty(fields: map<string, string>) {
    || "Status" !in fields
    || (fields["Status"] != "observed" && fields["Status"] != "guarded" && fields["Status"] != "automated" && fields["Status"] != "retired")
    || ("Promotion" in fields
        && (|| (fields["Promotion"] != "candidate" && fields["Promotion"] != "blocked" && fields["Promotion"] != "not-warranted"
                && fields["Promotion"] != "implemented" && fields["Promotion"] != "automated")
            || (fields["Promotion"] == "candidate" && !Promoted(fields))))
  }

  /** A judgement is an error exactly for a faulty entry; a promoted one is listed with each detail from its own field. */
  lemma Judged(id: string, title: string, fields: map<string, string>)
    ensures
      var v := Judge(id, title, fields);
      && (v.Err? <==> Faulty(fields)) && (v.Ok? ==> (v.value.Some? <==> Promoted(fields)))
      && (v.Ok? && v.value.Some? ==>
            && "Status" in fields && "Promotion reason" in fields && "Helper candidate or implementation" in fields
            && v.value == Some(Listed(id, title, fields["Status"], Strip(fields["Promotion reason"]),
                                      Strip(fields["Helper candidate or implementation"]))))
  {
    assert Strip("") == "";
    hide Strip;
    assert forall s: string :: s in STATUSES <==> s == "observed" || s == "guarded" || s == "automated" || s == "retired";
    assert forall s: string :: s in PROMOTIONS <==>
      s == "candidate" || s == "blocked" || s == "not-warranted" || s == "implemented" || s == "automated";
  }

  /** What the list says of an entry. */
  predicate Describes(l: Listed, e: Entry) {
    var fields := FieldMap(e.body);
    && l.id == e.id && l.title == e.title && Promoted(fields)
    && "Promotion reason" in fields && "Helper candidate or implementation" in fields
    && l.status == fields["Status"] && l.reason == Strip(fields["Promotion reason"])
    && l.helper == Strip(fields["Helper candidate or implementation"])
  }

  /** Where in the document the listed entries stand: in order, each described, and no promoted one left out. */
  ghost predicate Describing(found: seq<Listed>, entries: seq<Entry>, index: seq<nat>) {
    && |index| == |found|
    && (forall i :: 0 <= i < |index| ==> index[i] < |entries| && Describes(found[i], entries[index[i]]))
    && (forall i, j :: 0 <= i < j < |index| ==> index[i] < index[j])
    && forall k :: 0 <= k < |entries| && JudgeEntry(entries[k]).Ok? && Promoted(FieldMap(entries[k].body)) ==> k in index
  }

  lemma DescribingNext(found: seq<Listed>, entries: seq<Entry>, index: seq<nat>, e: Entry)
    requires Describing(found, entries, index)
    ensures
      var v := JudgeEntry(e);
      if v.Ok? && v.value.Some? then Describing(found + [v.value.value], entries + [e], index + [|entries|])
      else Describing(found, entries + [e], index)
  {
    JudgedEntry(e);
    hide JudgeEntry, Promoted, FieldMap, Describes;
    var more := entries + [e];
    assert forall k :: 0 <= k < |entries| ==> more[k] == entries[k];
    var longer := index + [|entries|];
    assert longer[|index|] == |entries|;
    assert forall k :: k in index ==> k in longer;
  }

  /** The list describes the promoted entries one by one, in document order, and no others. */
  lemma {:induction false} ListedDescribes(entries: seq<Entry>) returns (index: seq<nat>)
    ensures Describing(Collected(entries), entries, index)
    decreases |entries|
  {
    hide JudgeEntry, Describing;
    if entries == [] {
      index := [];
      assert Describing([], [], []) by { NothingDescribed(); }
    } else {
      var n := |entries| - 1;
      index := ListedDescribes(entries[..n]);
      assert entries == entries[..n] + [entries[n]];
      DescribingNext(Collected(entries[..n]), entries[..n], index, entries[n]);
      var v := JudgeEntry(entries[n]);
      if v.Ok? && v.value.Some? { index := index + [n]; }
    }
  }

  lemma NothingDescribed()
    ensures Describing([], [], [])
  {
  }

  lemma JudgedEntry(e: Entry)
    ensures
      var v := JudgeEntry(e);
      && (v.Ok? ==> (v.value.Some? <==> Promoted(FieldMap(e.body)))) && (v.Ok? && v.value.Some? ==> Describes(v.value.value, e))
  {
    hide Judge, Promoted, FieldMap, Strip;
    Judged(e.id, e.title, FieldMap(e.body));
  }
}
