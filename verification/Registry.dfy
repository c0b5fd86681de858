/** The tooling registry: a streaming line parser, and the declarative reading it must agree with. */
module Registry {
  import opened Common
  import opened TaskModel
  import opened Candidates

  // ---------- Line shapes ----------

  function LeftStrip(s: string): string { if s != "" && IsSpace(s[0]) then LeftStrip(s[1..]) else s }

  /** The marker of a fence line: three backticks or three tildes after any indentation. */
  function FenceMarker(line: string): Option<string> {
    var t := LeftStrip(line);
    if "```" <= t || "~~~" <= t then Some(t[..3]) else None
  }

  /** Length of the leading run of identifier characters. */
  function IdRun(s: string): (n: nat)
    ensures n <= |s|
  {
    if s != "" && IdChar(s[0]) then 1 + IdRun(s[1..]) else 0
  }

  const HASHES := "### "
  const DASH := " \U{2014} "

  /** A heading line: hashes, an identifier, a dash, a title that starts with a printing character. */
  function HeadingOf(line: string): Option<(string, string)> {
    if !(HASHES <= line) then None
    else
      var rest := line[|HASHES|..];
      var n := IdRun(rest);
      var tail := rest[n..];
      if ValidCandidateId(rest[..n]) && DASH <= tail && |tail| > |DASH| && !IsSpace(tail[|DASH|]) then
        Some((rest[..n], Strip(tail[|DASH|..])))
      else None
  }

  /** Position of the first star, or the length. */
  function FirstStar(s: string): (n: nat)
    ensures n <= |s|
  {
    if s != "" && s[0] != '*' then 1 + FirstStar(s[1..]) else 0
  }

  /** A field line: a bold name ending in a colon, then the value. */
  function FieldOf(line: string): Option<(string, string)> {
    if !("- **" <= line) then None
    else
      var rest := line[4..];
      var j := FirstStar(rest);
      if 2 <= j && rest[j - 1] == ':' && j + 2 <= |rest| && rest[j..j + 2] == "**" then
        Some((Strip(rest[..j - 1]), Strip(rest[j + 2..])))
      else None
  }

  // ---------- Fences ----------

  function NextFence(open: Option<string>, line: string): Option<string> {
    var m := FenceMarker(line);
    if m.None? then open else if open.None? then m else if open == m then None else open
  }

  /** The marker of the fence that is open after these lines. */
  function OpenFence(lines: seq<string>): Option<string> {
    if lines == [] then None else NextFence(OpenFence(lines[..|lines| - 1]), lines[|lines| - 1])
  }

  predicate Kept(open: Option<string>, line: string) { FenceMarker(line).None? && open.None? }

  /** The lines outside every fenced block. */
  function Unfenced(lines: seq<string>): seq<string> {
    if lines == [] then []
    else
      var n := |lines| - 1;
      if Kept(OpenFence(lines[..n]), lines[n]) then Unfenced(lines[..n]) + [lines[n]] else Unfenced(lines[..n])
  }

  // ---------- Entries ----------

  datatype Entry = Entry(id: string, title: string, body: seq<string>)

  /** The entries already complete, and the one that is still being read. */
  datatype Split = Split(closed: seq<Entry>, open: Option<Entry>)

  function AddLine(s: Split, line: string): Split {
    var h := HeadingOf(line);
    if h.Some? then Split(if s.open.Some? then s.closed + [s.open.value] else s.closed, Some(Entry(h.value.0, h.value.1, [])))
    else if s.open.Some? then Split(s.closed, Some(s.open.value.(body := s.open.value.body + [line])))
    else s
  }

  /** Split at headings; anything before the first heading belongs to no entry. */
  function SplitLines(lines: seq<string>): Split {
    if lines == [] then Split([], None) else AddLine(SplitLines(lines[..|lines| - 1]), lines[|lines| - 1])
  }

  function EntriesOf(lines: seq<string>): seq<Entry> {
    var s := SplitLines(lines);
    if s.open.Some? then s.closed + [s.open.value] else s.closed
  }

  function AddField(fields: map<string, string>, line: string): map<string, string> {
    var f := FieldOf(line);
    if f.Some? then fields[f.value.0 := f.value.1] else fields
  }

  function FieldMap(body: seq<string>): map<string, string> {
    if body == [] then map[] else AddField(FieldMap(body[..|body| - 1]), body[|body| - 1])
  }

  // ---------- Judging one entry ----------

  datatype RegistryError =
    | Duplicate(id: string) | MissingStatus(id: string) | UnsupportedStatus(id: string) | UnsupportedPromotion(id: string)
    | StatusNotPromotable(id: string) | MissingDetails(id: string)

  datatype Listed = Listed(id: string, title: string, status: string, reason: string, helper: string)

  const STATUSES: set<string> := {"observed", "guarded", "automated", "retired"}
  const PROMOTIONS: set<string> := {"candidate", "blocked", "not-warranted", "implemented", "automated"}

  function ValueOr(fields: map<string, string>, name: string): string { if name in fields then fields[name] else "" }

  function Judge(id: string, title: string, fields: map<string, string>): Result<Option<Listed>, RegistryError> {
    if "Status" !in fields then Err(MissingStatus(id))
    else if fields["Status"] !in STATUSES then Err(RegistryError.UnsupportedStatus(id))
    else if "Promotion" !in fields then Ok(None)
    else if fields["Promotion"] !in PROMOTIONS then Err(UnsupportedPromotion(id))
    else if fields["Promotion"] != "candidate" then Ok(None)
    else if fields["Status"] != "observed" && fields["Status"] != "guarded" then Err(StatusNotPromotable(id))
    else
      var reason, helper := Strip(ValueOr(fields, "Promotion reason")), Strip(ValueOr(fields, "Helper candidate or implementation"));
      if reason == "" || helper == "" then Err(MissingDetails(id))
      else Ok(Some(Listed(id, title, fields["Status"], reason, helper)))
  }

  function JudgeEntry(e: Entry): Result<Option<Listed>, RegistryError> { Judge(e.id, e.title, FieldMap(e.body)) }

  datatype Progress = Progress(candidates: seq<Listed>, seen: set<string>)

  function Admit(p: Progress, e: Entry): Result<Progress, RegistryError> {
    if e.id in p.seen then Err(Duplicate(e.id))
    else
      var verdict :- JudgeEntry(e);
      Ok(Progress(if verdict.Some? then p.candidates + [verdict.value] else p.candidates, p.seen + {e.id}))
  }

  /** Judge entries in document order; the first bad one decides. */
  function Process(entries: seq<Entry>): Result<Progress, RegistryError> {
    if entries == [] then Ok(Progress([], {}))
    else
      var before :- Process(entries[..|entries| - 1]);
      Admit(before, entries[|entries| - 1])
  }

  /** The declarative reading: drop fenced blocks, split at headings, judge each entry. */
  function Reading(lines: seq<string>): Result<seq<Listed>, RegistryError> {
    var p :- Process(EntriesOf(Unfenced(lines)));
    Ok(p.candidates)
  }

  // ---------- The streaming parser ----------

  class ToolingRegistry {
    var candidates: seq<Listed>
    var seen: set<string>
    var currentId: Option<string>
    var currentTitle: string
    var fields: map<string, string>
    var fence: Option<string>

    constructor ()
      ensures candidates == [] && seen == {} && currentId == None && fields == map[] && fence == None
    {
      candidates, seen, currentId, currentTitle, fields, fence := [], {}, None, "", map[], None;
    }

    /** The entry being read, if any, as its lines so far. */
    ghost predicate Reads(open: Option<Entry>)
      reads this
    {
      && (currentId.Some? <==> open.Some?)
      && (open.Some? ==> currentId == Some(open.value.id) && currentTitle == open.value.title && fields == FieldMap(open.value.body))
    }

    /** Finish the entry being read. */
    method FinishEntry(ghost open: Option<Entry>) returns (error: Option<RegistryError>)
      requires Reads(open)
      modifies this`candidates, this`seen
      ensures open.None? ==> error.None? && candidates == old(candidates) && seen == old(seen)
      ensures open.Some? ==>
                var r := Admit(old(Progress(candidates, seen)), open.value);
                if error.Some? then r == Err(error.value) else r == Ok(Progress(candidates, seen))
    {
      if currentId.None? { return None; }
      var id := currentId.value;
      if id in seen { return Some(Duplicate(id)); }
      seen := seen + {id};
      hide Judge;
      var verdict := Judge(id, currentTitle, fields);
      if verdict.Err? { return Some(verdict.error); }
      if verdict.value.Some? { candidates := candidates + [verdict.value.value]; }
      error := None;
    }

    /** One pass over the lines. */
    method Candidates(lines: seq<string>) returns (r: Result<seq<Listed>, RegistryError>)
      requires candidates == [] && seen == {} && currentId == None && fields == map[] && fence == None
      modifies this
      ensures r == Reading(lines)
    {
      hide FenceMarker, HeadingOf, FieldOf, Admit, Unfenced, SplitLines, Process, OpenFence, FieldMap;
      StartReading();
      for i := 0 to |lines|
        invariant fence == OpenFence(lines[..i])
        invariant Reads(SplitLines(Unfenced(lines[..i])).open)
        invariant Process(SplitLines(Unfenced(lines[..i])).closed) == Ok(Progress(candidates, seen))
      {
        ghost var before := SplitLines(Unfenced(lines[..i]));
        ReadLine(lines, i);
        var line := lines[i];
        var marker := FenceMarker(line);
        if marker.Some? {
          if fence.None? { fence := marker; } else if marker == fence { fence := None; }
          continue;
        }
        if fence.Some? { continue; }
        AdmitNext(before.closed, before.open);
        var heading := HeadingOf(line);
        if heading.Some? {
          var error := FinishEntry(before.open);
          if error.Some? {
            FailsOnceAll(lines, i, before.open);
            return Err(error.value);
          }
          currentId, currentTitle, fields := Some(heading.value.0), heading.value.1, map[];
          NoFields();
          continue;
        }
        if currentId.None? { continue; }
        NextField(before.open.value.body, line);
        var field := FieldOf(line);
        if field.Some? { fields := fields[field.value.0 := field.value.1]; }
      }
      assert lines[..|lines|] == lines;
      ghost var last := SplitLines(Unfenced(lines));
      AdmitNext(last.closed, last.open);
      var error := FinishEntry(last.open);
      if error.Some? { return Err(error.value); }
      r := Ok(candidates);
    }
  }

  lemma StartReading()
    ensures OpenFence([]) == None && Unfenced([]) == [] && SplitLines([]) == Split([], None) && Process([]) == Ok(Progress([], {}))
    ensures forall lines: seq<string> :: lines[..0] == []
  {
  }

  /** What one more line changes. */
  lemma ReadLine(lines: seq<string>, i: nat)
    requires i < |lines|
    ensures OpenFence(lines[..i + 1]) == NextFence(OpenFence(lines[..i]), lines[i])
    ensures Unfenced(lines[..i + 1])
            == if Kept(OpenFence(lines[..i]), lines[i]) then Unfenced(lines[..i]) + [lines[i]] else Unfenced(lines[..i])
    ensures SplitLines(Unfenced(lines[..i]) + [lines[i]]) == AddLine(SplitLines(Unfenced(lines[..i])), lines[i])
  {
    hide FenceMarker, AddLine;
    assert lines[..i + 1][..i] == lines[..i];
    assert (Unfenced(lines[..i]) + [lines[i]])[..|Unfenced(lines[..i])|] == Unfenced(lines[..i]);
  }

  lemma AdmitNext(closed: seq<Entry>, open: Option<Entry>)
    ensures open.Some? ==>
              Process(closed + [open.value]) == if Process(closed).Err? then Err(Process(closed).error) else Admit(Process(closed).value, open.value)
  {
    hide Admit;
    if open.Some? { assert (closed + [open.value])[..|closed|] == closed; }
  }

  lemma NoFields()
    ensures FieldMap([]) == map[]
  {
  }

  lemma NextField(body: seq<string>, line: string)
    ensures FieldMap(body + [line]) == AddField(FieldMap(body), line)
  {
    hide AddField;
    assert (body + [line])[..|body|] == body;
  }

  // ---------- An entry that fails, fails the whole document ----------

  lemma {:induction false} ProcessPrefix(entries: seq<Entry>, n: nat)
    requires n <= |entries| && Process(entries[..n]).Err?
    ensures Process(entries) == Err(Process(entries[..n]).error)
    decreases |entries|
  {
    hide Admit;
    if n < |entries| {
      assert entries[..|entries| - 1][..n] == entries[..n];
      ProcessPrefix(entries[..|entries| - 1], n);
    } else {
      assert entries[..n] == entries;
    }
  }

  /** Later lines only add entries behind those already complete. */
  lemma {:induction false} ClosedGrows(lines: seq<string>, i: nat)
    requires i <= |lines|
    ensures var a, b := SplitLines(lines[..i]), SplitLines(lines); |a.closed| <= |b.closed| && b.closed[..|a.closed|] == a.closed
    decreases |lines|
  {
    hide HeadingOf;
    if i < |lines| {
      assert lines[..|lines| - 1][..i] == lines[..i];
      ClosedGrows(lines[..|lines| - 1], i);
    } else {
      assert lines[..i] == lines;
    }
  }

  lemma {:induction false} UnfencedGrows(lines: seq<string>, i: nat)
    requires i <= |lines|
    ensures Unfenced(lines[..i]) <= Unfenced(lines)
    decreases |lines|
  {
    hide FenceMarker;
    if i < |lines| {
      assert lines[..|lines| - 1][..i] == lines[..i];
      UnfencedGrows(lines[..|lines| - 1], i);
    } else {
      assert lines[..i] == lines;
    }
  }

  /** If completing the open entry at a heading fails, the whole reading fails with that error. */
  lemma FailsOnceAll(lines: seq<string>, i: nat, open: Option<Entry>)
    requires i < |lines| && open == SplitLines(Unfenced(lines[..i])).open && open.Some?
    requires Kept(OpenFence(lines[..i]), lines[i]) && HeadingOf(lines[i]).Some?
    ensures
      var closed := SplitLines(Unfenced(lines[..i])).closed + [open.value];
      Process(closed).Err? ==> Reading(lines) == Err(Process(closed).error)
  {
    hide Process, Unfenced, HeadingOf, FenceMarker, OpenFence, Kept;
    var closed := SplitLines(Unfenced(lines[..i])).closed + [open.value];
    var u := Unfenced(lines);
    ReadLine(lines, i);
    UnfencedGrows(lines, i + 1);
    var k := |Unfenced(lines[..i + 1])|;
    assert u[..k] == Unfenced(lines[..i + 1]);
    ClosedGrows(u, k);
    var all := EntriesOf(u);
    assert SplitLines(u[..k]).closed == closed;
    assert all[..|closed|] == closed;
    if Process(closed).Err? { ProcessPrefix(all, |closed|); }
    hide SplitLines;
  }

  // ---------- What the declarative reading says ----------

  ghost predicate DistinctIds(entries: seq<Entry>) { forall i, j :: 0 <= i < j < |entries| ==> entries[i].id != entries[j].id }

  /** The candidates among the entries, in document order. */
  function Collected(entries: seq<Entry>): seq<Listed> {
    if entries == [] then []
    else
      var n := |entries| - 1;
      var v := JudgeEntry(entries[n]);
      if v.Ok? && v.value.Some? then Collected(entries[..n]) + [v.value.value] else Collected(entries[..n])
  }

  /** A document is accepted iff its entries have distinct identifiers and each is acceptable; it lists them in order. */
  lemma {:induction false} ProcessOkIff(entries: seq<Entry>)
    ensures Process(entries).Ok? <==> DistinctIds(entries) && forall i :: 0 <= i < |entries| ==> JudgeEntry(entries[i]).Ok?
    ensures Process(entries).Ok? ==> Process(entries).value.candidates == Collected(entries)
    ensures Process(entries).Ok? ==> forall x :: x in Process(entries).value.seen <==> exists i :: 0 <= i < |entries| && entries[i].id == x
  {
    hide JudgeEntry;
    if entries != [] {
      var n := |entries| - 1;
      ProcessOkIff(entries[..n]);
      assert forall i :: 0 <= i < n ==> entries[..n][i] == entries[i];
    }
  }

  /** The last line that sets a field decides its value. */
  lemma {:induction false} LastValueWins(body: seq<string>, name: string)
    ensures name in FieldMap(body) <==> exists i :: 0 <= i < |body| && FieldOf(body[i]).Some? && FieldOf(body[i]).value.0 == name
    ensures name in FieldMap(body) ==>
              exists i :: 0 <= i < |body| && FieldOf(body[i]) == Some((name, FieldMap(body)[name]))
                          && forall j :: i < j < |body| && FieldOf(body[j]).Some? ==> FieldOf(body[j]).value.0 != name
  {
    hide FieldOf;
    if body != [] {
      var n := |body| - 1;
      LastValueWins(body[..n], name);
      assert forall i :: 0 <= i < n ==> body[..n][i] == body[i];
      if FieldOf(body[n]).Some? && FieldOf(body[n]).value.0 == name {
        assert FieldOf(body[n]) == Some((name, FieldMap(body)[name]));
      }
    }
  }

  /** Promoted, in an allowed status, with a reason and a helper. */
  predicate Promoted(fields: map<string, string>) {
    && "Status" in fields && (fields["Status"] == "observed" || fields["Status"] == "guarded")
    && "Promotion" in fields && fields["Promotion"] == "candidate"
    && Strip(ValueOr(fields, "Promotion reason")) != "" && Strip(ValueOr(fields, "Helper candidate or implementation")) != ""
  }

  lemma JudgedPromoted(e: Entry)
    ensures JudgeEntry(e).Ok? && JudgeEntry(e).value.Some? <==> Promoted(FieldMap(e.body))
    ensures Promoted(FieldMap(e.body)) ==> JudgeEntry(e).value.value.id == e.id
  {
    hide Strip, FieldMap;
  }

  predicate Lists(found: seq<Listed>, id: string) { exists i :: 0 <= i < |found| && found[i].id == id }

  predicate HasPromoted(entries: seq<Entry>, id: string) {
    exists i :: 0 <= i < |entries| && entries[i].id == id && Promoted(FieldMap(entries[i].body))
  }

  /** A document lists an identifier exactly if it has a promoted entry of that identifier. */
  lemma {:induction false} ListedIffPromoted(entries: seq<Entry>, id: string)
    ensures Lists(Collected(entries), id) <==> HasPromoted(entries, id)
    decreases |entries|
  {
    hide JudgeEntry, Promoted, FieldMap;
    if entries != [] {
      var n := |entries| - 1;
      var before, found := Collected(entries[..n]), Collected(entries);
      ListedIffPromoted(entries[..n], id);
      JudgedPromoted(entries[n]);
      assert forall i :: 0 <= i < n ==> entries[..n][i] == entries[i];
      assert |before| <= |found| && forall i :: 0 <= i < |before| ==> found[i] == before[i];
      if entries[n].id == id && Promoted(FieldMap(entries[n].body)) { assert found[|before|].id == id; }
    }
  }

  // ---------- Fenced blocks ----------

  lemma {:induction false} FenceConcat(a: seq<string>, b: seq<string>)
    requires OpenFence(a).None?
    ensures OpenFence(a + b) == OpenFence(b) && Unfenced(a + b) == Unfenced(a) + Unfenced(b)
  {
    hide FenceMarker;
    if b == [] {
      assert a + b == a;
    } else {
      var n := |b| - 1;
      assert (a + b)[..|a + b| - 1] == a + b[..n];
      FenceConcat(a, b[..n]);
    }
  }

  ghost predicate NoMarker(lines: seq<string>, m: string) { forall i :: 0 <= i < |lines| ==> FenceMarker(lines[i]) != Some(m) }

  /** Inside an open fence nothing is kept until its own marker comes back; other markers do not close it. */
  lemma {:induction false} InsideFence(open: string, inside: seq<string>, m: string)
    requires FenceMarker(open) == Some(m) && NoMarker(inside, m)
    ensures OpenFence([open] + inside) == Some(m) && Unfenced([open] + inside) == []
  {
    hide FenceMarker;
    if inside == [] {
      assert [open] + inside == [open] && [open][..0] == [];
      assert OpenFence([open][..0]) == None;
    } else {
      var n := |inside| - 1;
      assert ([open] + inside)[..|inside|] == [open] + inside[..n];
      InsideFence(open, inside[..n], m);
    }
  }

  lemma ClosedBlock(open: string, inside: seq<string>, close: string, m: string)
    requires FenceMarker(open) == Some(m) && NoMarker(inside, m) && FenceMarker(close) == Some(m)
    ensures OpenFence([open] + inside + [close]).None? && Unfenced([open] + inside + [close]) == []
  {
    hide FenceMarker;
    InsideFence(open, inside, m);
    assert ([open] + inside + [close])[..|inside| + 1] == [open] + inside;
  }

  /** A closed block disappears, whatever it contains. */
  lemma FencedBlockVanishes(before: seq<string>, open: string, inside: seq<string>, close: string, after: seq<string>, m: string)
    requires OpenFence(before).None? && FenceMarker(open) == Some(m) && NoMarker(inside, m) && FenceMarker(close) == Some(m)
    ensures Unfenced(before + ([open] + inside + [close] + after)) == Unfenced(before) + Unfenced(after)
  {
    hide *;
    var block := [open] + inside + [close];
    ClosedBlock(open, inside, close, m);
    FenceConcat(block, after);
    FenceConcat(before, block + after);
    assert [] + Unfenced(after) == Unfenced(after);
  }

  /** A block that is never closed swallows the rest of the document. */
  lemma UnclosedFenceSwallows(before: seq<string>, open: string, inside: seq<string>, m: string)
    requires OpenFence(before).None? && FenceMarker(open) == Some(m) && NoMarker(inside, m)
    ensures Unfenced(before + [open] + inside) == Unfenced(before)
  {
    InsideFence(open, inside, m);
    FenceConcat(before, [open] + inside);
    assert before + [open] + inside == before + ([open] + inside);
  }

  lemma {:induction false} NoFenceNoChange(lines: seq<string>)
    requires forall i :: 0 <= i < |lines| ==> FenceMarker(lines[i]).None?
    ensures OpenFence(lines).None? && Unfenced(lines) == lines
  {
    hide FenceMarker;
    if lines != [] {
      NoFenceNoChange(lines[..|lines| - 1]);
      assert lines == lines[..|lines| - 1] + [lines[|lines| - 1]];
    }
  }

  lemma {:induction false} UnfencedHasNoFence(lines: seq<string>)
    ensures forall i :: 0 <= i < |Unfenced(lines)| ==> FenceMarker(Unfenced(lines)[i]).None?
  {
    hide FenceMarker;
    if lines != [] { UnfencedHasNoFence(lines[..|lines| - 1]); }
  }

  /** Parsing a text is parsing its unfenced lines. */
  lemma ReadingIgnoresFences(lines: seq<string>)
    ensures Reading(lines) == Reading(Unfenced(lines))
  {
    UnfencedHasNoFence(lines);
    NoFenceNoChange(Unfenced(lines));
    hide Process, EntriesOf, FenceMarker;
  }
}
