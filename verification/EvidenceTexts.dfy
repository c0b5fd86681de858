/** Task evidence as it is stored: base64 text by path text. */
module EvidenceTexts {
  import opened Common
  import opened Base64
  import V = EvidenceTree

  type Files = map<string, Option<string>>

  function Text(content: Option<Bytes>): Option<string> { if content.Some? then Some(Encode(content.value)) else None }

  /** A text that does not decode has no content; a directory has none to decode. */
  predicate Decodes(text: Option<string>) { text.Some? ==> Decode(text.value).Some? }

  function Content(text: Option<string>): Option<Bytes>
    requires Decodes(text)
  {
    if text.Some? then Decode(text.value) else None
  }

  function Texts(m: V.Files): Files { map k | k in m :: Text(m[k]) }

  function Contents(m: Files): V.Files { map k | k in m && Decodes(m[k]) :: Content(m[k]) }

  lemma TextRoundTrip(content: Option<Bytes>)
    ensures Decodes(Text(content)) && Content(Text(content)) == content
    ensures Text(content).Some? ==> Canonical(Text(content).value)
  {
    if content.Some? { DecodeEncode(content.value); }
  }

  /** What inspection records of a tree. */
  function Flatten(t: V.Tree): Files
    requires V.TreeOk(t)
  {
    Texts(V.Flatten(t))
  }

  ghost predicate AllCanonical(m: Files) { forall k :: k in m && m[k].Some? ==> Canonical(m[k].value) }

  /** Stored maps that describe a tree, in canonical texts throughout. */
  ghost predicate Closed(m: Files) { AllCanonical(m) && V.Closed(Contents(m)) }

  lemma TextsOfContents(m: Files)
    requires AllCanonical(m)
    ensures Contents(m).Keys == m.Keys && Texts(Contents(m)) == m
  {
    forall k | k in m ensures Decodes(m[k]) && Text(Content(m[k])) == m[k] { CanonicalText(m[k]); }
    hide Text, Content, Decodes, Canonical;
  }

  lemma CanonicalText(text: Option<string>)
    requires text.Some? ==> Canonical(text.value)
    ensures Decodes(text) && Text(Content(text)) == text
  {
    hide Encode, Decode;
  }

  lemma ContentsOfTexts(m: V.Files)
    ensures Contents(Texts(m)) == m && AllCanonical(Texts(m))
  {
    forall k | k in m
      ensures Decodes(Text(m[k])) && Content(Text(m[k])) == m[k] && (Text(m[k]).Some? ==> Canonical(Text(m[k]).value))
    {
      TextRoundTrip(m[k]);
    }
    hide Text, Content, Decodes, Canonical;
  }

  lemma FlattenClosed(t: V.Tree)
    requires V.TreeOk(t)
    ensures Closed(Flatten(t))
  {
    hide V.Closed, V.Flatten, V.TreeOk, Contents, Texts, AllCanonical;
    V.FlattenClosed(t);
    ContentsOfTexts(V.Flatten(t));
  }

  // ---------- Rebuilding from texts ----------

  /** A text that does not decode is an error, like an impossible path. */
  function Place(t: V.Tree, k: string, text: Option<string>): Option<V.Tree> {
    if Decodes(text) then V.Place(t, k, Content(text)) else None
  }

  /** Recreate the entries one by one, in whatever order the map is walked. */
  function Rebuild(items: seq<(string, Option<string>)>): Option<V.Tree> {
    if items == [] then Some(map[])
    else
      var before := Rebuild(items[..|items| - 1]);
      if before.None? then None else Place(before.value, items[|items| - 1].0, items[|items| - 1].1)
  }

  ghost predicate Enumerates(items: seq<(string, Option<string>)>, m: Files) {
    && (forall i :: 0 <= i < |items| ==> items[i].0 in m && items[i].1 == m[items[i].0])
    && (forall k :: k in m ==> exists i :: 0 <= i < |items| && items[i].0 == k)
  }

  predicate AllDecode(items: seq<(string, Option<string>)>) { forall i :: 0 <= i < |items| ==> Decodes(items[i].1) }

  function Decoded(items: seq<(string, Option<string>)>): (d: seq<(string, Option<Bytes>)>)
    requires AllDecode(items)
    ensures |d| == |items| && forall i :: 0 <= i < |items| ==> d[i] == (items[i].0, Content(items[i].1))
  {
    seq(|items|, i requires 0 <= i < |items| => (items[i].0, Content(items[i].1)))
  }

  /** Rebuilding from texts is decoding them all and rebuilding from the contents. */
  lemma {:induction false} RebuildDecoded(items: seq<(string, Option<string>)>)
    ensures Rebuild(items).Some? ==> AllDecode(items)
    ensures AllDecode(items) ==> Rebuild(items) == V.Rebuild(Decoded(items))
  {
    hide V.Place, Content, Decodes;
    if items != [] {
      var n := |items| - 1;
      RebuildDecoded(items[..n]);
      assert AllDecode(items) <==> AllDecode(items[..n]) && Decodes(items[n].1);
      if AllDecode(items) { assert Decoded(items)[..n] == Decoded(items[..n]); }
    }
  }

  lemma RebuildOk(items: seq<(string, Option<string>)>)
    requires Rebuild(items).Some?
    ensures V.TreeOk(Rebuild(items).value)
  {
    hide *;
    RebuildDecoded(items);
    V.RebuildOk(Decoded(items));
  }

  lemma DecodedEnumerates(items: seq<(string, Option<string>)>, m: Files)
    requires Enumerates(items, m) && AllDecode(items)
    ensures V.Enumerates(Decoded(items), Contents(m)) && Contents(m).Keys == m.Keys
  {
    hide Content, Decodes;
    forall k | k in m ensures Decodes(m[k]) {
      var i :| 0 <= i < |items| && items[i].0 == k;
    }
    forall k | k in m ensures exists i :: 0 <= i < |Decoded(items)| && Decoded(items)[i].0 == k {
      var i :| 0 <= i < |items| && items[i].0 == k;
      assert Decoded(items)[i].0 == k;
    }
  }

  lemma CanonicalDecode(items: seq<(string, Option<string>)>, m: Files)
    requires Enumerates(items, m) && AllCanonical(m)
    ensures AllDecode(items)
  {
    hide Encode, Decode;
  }

  /** Rebuilding a stored map, in any order, gives a tree that is recorded as the same map iff the map describes a tree. */
  lemma RebuildIff(items: seq<(string, Option<string>)>, m: Files)
    requires Enumerates(items, m)
    ensures (Rebuild(items).Some? && V.TreeOk(Rebuild(items).value) && Flatten(Rebuild(items).value) == m) <==> Closed(m)
    ensures Closed(m) ==> Rebuild(items).Some?
  {
    hide V.Closed, V.Flatten, V.TreeOk, V.Rebuild, V.Enumerates, V.Unflatten, Contents, Texts, AllCanonical, Rebuild, Enumerates, AllDecode, Decoded;
    RebuildDecoded(items);
    if Closed(m) {
      CanonicalDecode(items, m);
      DecodedEnumerates(items, m);
      V.RebuildIff(Decoded(items), Contents(m));
      TextsOfContents(m);
    } else if Rebuild(items).Some? {
      RebuildOk(items);
      FlattenClosed(Rebuild(items).value);
    }
  }

  /** Recording and rebuilding are inverse on every tree a file system can hold, whatever the order of the entries. */
  lemma EvidenceRoundTrip(t: V.Tree, items: seq<(string, Option<string>)>)
    requires V.TreeOk(t) && Enumerates(items, Flatten(t))
    ensures Rebuild(items) == Some(t)
  {
    hide V.Flatten, V.TreeOk, V.Rebuild, V.Enumerates, Contents, Texts, AllCanonical, Rebuild, Enumerates, AllDecode, Decoded;
    ContentsOfTexts(V.Flatten(t));
    CanonicalDecode(items, Flatten(t));
    DecodedEnumerates(items, Flatten(t));
    RebuildDecoded(items);
    V.EvidenceRoundTrip(t, Decoded(items));
  }
}
