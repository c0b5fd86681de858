/** Managed script arguments: declared contracts, the argv they accept, and reading the values back from the argv. */
module Argv {
  import opened Common
  import opened Decimal

  datatype Kind = StringArg | StringList | Integer | Number | Boolean

  datatype Spec = Spec(
    name: string, kind: Kind, required: bool, allowed: Option<seq<string>>, pattern: Option<string>, minLength: Option<nat>,
    maxLength: Option<nat>, minItems: Option<nat>, maxItems: Option<nat>, minimum: Option<real>, maximum: Option<real>)

  /** A caller's value. A float carries its exact value and its printed text. */
  datatype Value =
    | Str(s: string) | Strs(items: seq<string>) | Int(n: int) | Float(value: real, text: string) | NotFinite | Bool(b: bool) | Other

  datatype ArgError =
    | Unknown | Missing | NotString | HasNul | TooShort | TooLong | NotAllowed | NoMatch | NotList | TooFew | TooMany
    | NotInteger | NotNumber | NotFiniteNumber | BelowMinimum | AboveMaximum | NotBoolean

  /** Regular-expression matching is a parameter: pattern, then text. */
  type Matcher = (string, string) -> bool

  // ---------- Contracts ----------

  predicate LowerCase(c: char) { 'a' <= c <= 'z' }

  predicate ValidName(name: string) {
    1 <= |name| <= 63 && LowerCase(name[0]) && forall i :: 1 <= i < |name| ==> LowerCase(name[i]) || '0' <= name[i] <= '9' || name[i] == '_'
  }

  predicate Textual(k: Kind) { k.StringArg? || k.StringList? }

  predicate Ordered(a: Option<nat>, b: Option<nat>) { a.Some? && b.Some? ==> a.value <= b.value }

  predicate ValidSpec(s: Spec) {
    && ValidName(s.name)
    && (!Textual(s.kind) ==> s.allowed.None? && s.pattern.None? && s.minLength.None? && s.maxLength.None?)
    && (!s.kind.StringList? ==> s.minItems.None? && s.maxItems.None?)
    && (!s.kind.Integer? && !s.kind.Number? ==> s.minimum.None? && s.maximum.None?)
    && (s.kind.Number? ==> s.minimum.Some? && s.maximum.Some?)
    && (s.allowed.Some? ==> s.allowed.value != [] && forall i, j :: 0 <= i < j < |s.allowed.value| ==> s.allowed.value[i] != s.allowed.value[j])
    && Ordered(s.minLength, s.maxLength) && Ordered(s.minItems, s.maxItems)
    && (s.minimum.Some? && s.maximum.Some? ==> s.minimum.value <= s.maximum.value)
  }

  ghost predicate ValidContract(specs: seq<Spec>) {
    && (forall i :: 0 <= i < |specs| ==> ValidSpec(specs[i]))
    && forall i, j :: 0 <= i < j < |specs| ==> specs[i].name != specs[j].name
  }

  // ---------- Flags ----------

  function Dashed(name: string): string {
    if name == "" then "" else [if name[0] == '_' then '-' else name[0]] + Dashed(name[1..])
  }

  function Flag(name: string): string { "--" + Dashed(name) }

  predicate NoDash(name: string) { forall i :: 0 <= i < |name| ==> name[i] != '-' }

  /** Names have no dash of their own, so replacing underscores keeps different names apart. */
  lemma {:induction false} DashedInjective(a: string, b: string)
    requires NoDash(a) && NoDash(b) && Dashed(a) == Dashed(b)
    ensures a == b
  {
    if a != "" && b != "" {
      assert Dashed(a)[0] == Dashed(b)[0] && Dashed(a)[1..] == Dashed(b)[1..];
      DashedInjective(a[1..], b[1..]);
      assert a == [a[0]] + a[1..] && b == [b[0]] + b[1..];
    }
  }

  lemma FlagsDistinct(a: Spec, b: Spec)
    requires ValidSpec(a) && ValidSpec(b)
    ensures Flag(a.name) == Flag(b.name) <==> a.name == b.name
  {
    if Flag(a.name) == Flag(b.name) {
      assert Flag(a.name)[2..] == Dashed(a.name) && Flag(b.name)[2..] == Dashed(b.name);
      DashedInjective(a.name, b.name);
    }
  }

  // ---------- One argument ----------

  function CheckString(s: Spec, text: string, m: Matcher): Option<ArgError> {
    if exists i :: 0 <= i < |text| && text[i] == '\0' then Some(HasNul)
    else if s.minLength.Some? && |text| < s.minLength.value then Some(TooShort)
    else if |text| > (if s.maxLength.Some? then s.maxLength.value else 4096) then Some(TooLong)
    else if s.allowed.Some? && text !in s.allowed.value then Some(NotAllowed)
    else if s.pattern.Some? && !m(s.pattern.value, text) then Some(NoMatch)
    else None
  }

  /** The first item that fails, if any. */
  function CheckItems(s: Spec, items: seq<string>, m: Matcher): Option<ArgError> {
    if items == [] then None
    else
      var before := CheckItems(s, items[..|items| - 1], m);
      if before.Some? then before else CheckString(s, items[|items| - 1], m)
  }

  function CheckBounds(s: Spec, x: real): Option<ArgError> {
    if s.minimum.Some? && x < s.minimum.value then Some(BelowMinimum)
    else if s.maximum.Some? && x > s.maximum.value then Some(AboveMaximum)
    else None
  }

  function Emit(error: Option<ArgError>, texts: seq<string>): Result<seq<string>, ArgError> {
    if error.Some? then Err(error.value) else Ok(texts)
  }

  /** The texts an argument contributes, one per flag. */
  function EncodeOne(s: Spec, v: Value, m: Matcher): Result<seq<string>, ArgError> {
    match s.kind
    case StringArg => if v.Str? then Emit(CheckString(s, v.s, m), [v.s]) else Err(NotString)
    case StringList =>
      if !v.Strs? then Err(NotList)
      else if |v.items| < (if s.minItems.Some? then s.minItems.value else 1) then Err(TooFew)
      else if |v.items| > (if s.maxItems.Some? then s.maxItems.value else 64) then Err(TooMany)
      else Emit(CheckItems(s, v.items, m), v.items)
    case Integer => if v.Int? then Emit(CheckBounds(s, v.n as real), [IntText(v.n)]) else Err(NotInteger)
    case Number =>
      if v.Int? then Emit(CheckBounds(s, v.n as real), [IntText(v.n)])
      else if v.NotFinite? then Err(NotFiniteNumber)
      else if v.Float? then Emit(CheckBounds(s, v.value), [v.text])
      else Err(NotNumber)
    case Boolean => if v.Bool? then Ok([if v.b then "true" else "false"]) else Err(NotBoolean)
  }

  // ---------- The whole argv ----------

  type Values = map<string, Value>

  type Pairs = seq<(string, string)>

  /** One pair for each text. */
  function Flagged(flag: string, texts: seq<string>): (pairs: Pairs)
    ensures |pairs| == |texts| && forall k :: 0 <= k < |texts| ==> pairs[k] == (flag, texts[k])
  {
    seq(|texts|, k requires 0 <= k < |texts| => (flag, texts[k]))
  }

  /** The argv a list of pairs stands for: flag, value, flag, value, ... */
  function Flat(pairs: Pairs): seq<string> {
    if pairs == [] then [] else Flat(pairs[..|pairs| - 1]) + [pairs[|pairs| - 1].0, pairs[|pairs| - 1].1]
  }

  /** Reading an argv two by two. */
  function PairsOf(argv: seq<string>): Pairs {
    if |argv| < 2 then [] else PairsOf(argv[..|argv| - 2]) + [(argv[|argv| - 2], argv[|argv| - 1])]
  }

  lemma {:induction false} PairsOfFlat(pairs: Pairs)
    ensures PairsOf(Flat(pairs)) == pairs
  {
    if pairs != [] {
      var n := |pairs| - 1;
      var f := Flat(pairs);
      assert f[..|f| - 2] == Flat(pairs[..n]);
      PairsOfFlat(pairs[..n]);
      assert pairs == pairs[..n] + [pairs[n]];
    }
  }

  lemma FlatNext(pairs: Pairs, flag: string, text: string)
    ensures Flat(pairs + [(flag, text)]) == Flat(pairs) + [flag, text]
  {
    assert (pairs + [(flag, text)])[..|pairs|] == pairs;
  }

  function EncodeSpecs(specs: seq<Spec>, values: Values, m: Matcher): Result<Pairs, ArgError> {
    if specs == [] then Ok([])
    else
      var n := |specs| - 1;
      var before :- EncodeSpecs(specs[..n], values, m);
      if specs[n].name !in values then Ok(before)
      else
        var texts :- EncodeOne(specs[n], values[specs[n].name], m);
        Ok(before + Flagged(Flag(specs[n].name), texts))
  }

  function Names(specs: seq<Spec>): set<string> { set i | 0 <= i < |specs| :: specs[i].name }

  predicate AllRequired(specs: seq<Spec>, values: Values) {
    forall i :: 0 <= i < |specs| && specs[i].required ==> specs[i].name in values
  }

  function Encode(specs: seq<Spec>, values: Values, m: Matcher): Result<seq<string>, ArgError> {
    if !(values.Keys <= Names(specs)) then Err(Unknown)
    else if !AllRequired(specs, values) then Err(Missing)
    else
      var pairs :- EncodeSpecs(specs, values, m);
      Ok(Flat(pairs))
  }

  method FirstMissing(specs: seq<Spec>, values: Values) returns (missing: bool)
    ensures missing <==> !AllRequired(specs, values)
  {
    for i := 0 to |specs|
      invariant forall j :: 0 <= j < i && specs[j].required ==> specs[j].name in values
    {
      if specs[i].required && specs[i].name !in values { return true; }
    }
    missing := false;
  }

  /** Check names, then requirements, then each declared argument in order, extending argv item by item. */
  method ValidateScriptArguments(specs: seq<Spec>, values: Values, m: Matcher) returns (r: Result<seq<string>, ArgError>)
    ensures r == Encode(specs, values, m)
  {
    hide EncodeOne, EncodeSpecs, Flat, AllRequired, Names;
    var unknown := values.Keys - Names(specs);
    if unknown != {} { return Err(Unknown); }
    assert forall k :: k in values.Keys ==> k !in unknown;
    var missing := FirstMissing(specs, values);
    if missing { return Err(Missing); }
    EncodeNone(specs, values, m);
    var argv: seq<string> := [];
    ghost var pairs: Pairs := [];
    for i := 0 to |specs|
      invariant EncodeSpecs(specs[..i], values, m) == Ok(pairs) && argv == Flat(pairs)
    {
      EncodeNext(specs, values, m, i);
      if specs[i].name in values {
        var added := AppendArgument(argv, pairs, specs[i], values[specs[i].name], m);
        if added.Err? {
          EncodeFails(specs, values, m, i + 1);
          return Err(added.error);
        }
        argv := added.value;
        pairs := pairs + Flagged(Flag(specs[i].name), EncodeOne(specs[i], values[specs[i].name], m).value);
      }
    }
    assert specs[..|specs|] == specs;
    r := Ok(argv);
  }

  /** One argument: a list repeats its flag for every item, checking each as it goes. */
  method AppendArgument(argv: seq<string>, ghost pairs: Pairs, s: Spec, v: Value, m: Matcher) returns (r: Result<seq<string>, ArgError>)
    requires argv == Flat(pairs)
    ensures var one := EncodeOne(s, v, m);
            r == if one.Err? then Err(one.error) else Ok(Flat(pairs + Flagged(Flag(s.name), one.value)))
  {
    hide Flat, CheckString, Flag;
    var flag := Flag(s.name);
    if s.kind.StringList? && v.Strs? {
      if |v.items| < (if s.minItems.Some? then s.minItems.value else 1) { return Err(TooFew); }
      if |v.items| > (if s.maxItems.Some? then s.maxItems.value else 64) { return Err(TooMany); }
      r := AppendItems(argv, pairs, s, v.items, m);
      return;
    }
    var texts :- EncodeOne(s, v, m);
    assert |texts| == 1 && Flagged(flag, texts) == [(flag, texts[0])];
    FlatNext(pairs, flag, texts[0]);
    r := Ok(argv + [flag, texts[0]]);
  }

  method AppendItems(argv: seq<string>, ghost pairs: Pairs, s: Spec, items: seq<string>, m: Matcher) returns (r: Result<seq<string>, ArgError>)
    requires argv == Flat(pairs)
    ensures r == if CheckItems(s, items, m).Some? then Err(CheckItems(s, items, m).value) else Ok(Flat(pairs + Flagged(Flag(s.name), items)))
  {
    hide Flat, CheckString, Flag;
    var flag := Flag(s.name);
    var extended := argv;
    assert pairs + Flagged(flag, items[..0]) == pairs;
    for i := 0 to |items|
      invariant CheckItems(s, items[..i], m).None? && extended == Flat(pairs + Flagged(flag, items[..i]))
    {
      assert items[..i + 1][..i] == items[..i];
      var bad := CheckString(s, items[i], m);
      if bad.Some? {
        ItemsFail(s, items, m, i + 1);
        return Err(bad.value);
      }
      FlatNext(pairs + Flagged(flag, items[..i]), flag, items[i]);
      assert pairs + Flagged(flag, items[..i]) + [(flag, items[i])] == pairs + Flagged(flag, items[..i + 1]);
      extended := extended + [flag, items[i]];
    }
    assert items[..|items|] == items;
    r := Ok(extended);
  }

  lemma {:induction false} ItemsFail(s: Spec, items: seq<string>, m: Matcher, n: nat)
    requires n <= |items| && CheckItems(s, items[..n], m).Some?
    ensures CheckItems(s, items, m) == CheckItems(s, items[..n], m)
    decreases |items|
  {
    hide CheckString;
    if n < |items| {
      assert items[..|items| - 1][..n] == items[..n];
      ItemsFail(s, items[..|items| - 1], m, n);
    } else {
      assert items[..n] == items;
    }
  }

  lemma EncodeNone(specs: seq<Spec>, values: Values, m: Matcher)
    ensures EncodeSpecs(specs[..0], values, m) == Ok([]) && Flat([]) == []
  {
  }

  lemma EncodeNext(specs: seq<Spec>, values: Values, m: Matcher, i: nat)
    requires i < |specs|
    ensures
      var before := EncodeSpecs(specs[..i], values, m);
      EncodeSpecs(specs[..i + 1], values, m) ==
        if before.Err? || specs[i].name !in values then before
        else
          var one := EncodeOne(specs[i], values[specs[i].name], m);
          if one.Err? then Err(one.error) else Ok(before.value + Flagged(Flag(specs[i].name), one.value))
  {
    hide EncodeOne, Flagged;
    assert specs[..i + 1][..i] == specs[..i];
  }

  lemma {:induction false} EncodeFails(specs: seq<Spec>, values: Values, m: Matcher, n: nat)
    requires n <= |specs| && EncodeSpecs(specs[..n], values, m).Err?
    ensures EncodeSpecs(specs, values, m) == EncodeSpecs(specs[..n], values, m)
    decreases |specs|
  {
    hide EncodeOne, Flagged;
    if n < |specs| {
      assert specs[..|specs| - 1][..n] == specs[..n];
      EncodeFails(specs[..|specs| - 1], values, m, n);
    } else {
      assert specs[..n] == specs;
    }
  }

  // ---------- Reading the values back ----------

  /** The values that follow a flag. */
  function TextsFor(pairs: Pairs, flag: string): seq<string> {
    if pairs == [] then []
    else
      var n := |pairs| - 1;
      if pairs[n].0 == flag then TextsFor(pairs[..n], flag) + [pairs[n].1] else TextsFor(pairs[..n], flag)
  }

  /** Interpret texts by the declared kind; no text means the argument was absent. */
  function ReadBack(k: Kind, texts: seq<string>, floatOf: string -> real): Option<Value> {
    if texts == [] then None
    else
      match k
      case StringArg => Some(Str(texts[0]))
      case StringList => Some(Strs(texts))
      case Integer => if ReadInt(texts[0]).Some? then Some(Int(ReadInt(texts[0]).value)) else None
      case Number => Some(if ReadInt(texts[0]).Some? then Int(ReadInt(texts[0]).value) else Float(floatOf(texts[0]), texts[0]))
      case Boolean => Some(Bool(texts[0] == "true"))
  }

  function DecodeOne(s: Spec, argv: seq<string>, floatOf: string -> real): Option<Value> {
    ReadBack(s.kind, TextsFor(PairsOf(argv), Flag(s.name)), floatOf)
  }

  /** Float texts read back as their value and never look like integers, as Python prints them. */
  ghost predicate FaithfulFloats(values: Values, floatOf: string -> real) {
    forall name :: name in values && values[name].Float? ==> floatOf(values[name].text) == values[name].value && ReadInt(values[name].text).None?
  }

  lemma {:induction false} FlaggedTexts(flag: string, texts: seq<string>, wanted: string)
    ensures TextsFor(Flagged(flag, texts), wanted) == if flag == wanted then texts else []
  {
    if texts != [] {
      var n := |texts| - 1;
      assert Flagged(flag, texts)[..n] == Flagged(flag, texts[..n]);
      FlaggedTexts(flag, texts[..n], wanted);
      assert texts == texts[..n] + [texts[n]];
    }
  }

  lemma {:induction false} TextsConcat(a: Pairs, b: Pairs, flag: string)
    ensures TextsFor(a + b, flag) == TextsFor(a, flag) + TextsFor(b, flag)
  {
    if b == [] {
      assert a + b == a;
    } else {
      var n := |b| - 1;
      assert (a + b)[..|a| + n] == a + b[..n];
      TextsConcat(a, b[..n], flag);
    }
  }

  /** What argv holds for each declared argument: its own texts, or nothing if it was not given. */
  lemma {:induction false} ArgvHolds(specs: seq<Spec>, values: Values, m: Matcher, s: Spec)
    requires ValidContract(specs) && ValidSpec(s) && EncodeSpecs(specs, values, m).Ok?
    ensures
      var argv := EncodeSpecs(specs, values, m).value;
      && ((exists i :: 0 <= i < |specs| && specs[i] == s) && s.name in values ==>
            EncodeOne(s, values[s.name], m).Ok? && TextsFor(argv, Flag(s.name)) == EncodeOne(s, values[s.name], m).value)
      && ((forall i :: 0 <= i < |specs| ==> specs[i].name != s.name) || s.name !in values ==> TextsFor(argv, Flag(s.name)) == [])
  {
    hide EncodeOne, ValidSpec, TextsFor, Flagged;
    if specs == [] {
      assert TextsFor([], Flag(s.name)) == [] by { EmptyArgv(Flag(s.name)); }
    } else {
      var n := |specs| - 1;
      var last := specs[n];
      assert forall i :: 0 <= i < n ==> specs[..n][i] == specs[i];
      ArgvHolds(specs[..n], values, m, s);
      var before := EncodeSpecs(specs[..n], values, m).value;
      FlagsDistinct(last, s);
      if last.name in values {
        var texts := EncodeOne(last, values[last.name], m).value;
        FlaggedTexts(Flag(last.name), texts, Flag(s.name));
        TextsConcat(before, Flagged(Flag(last.name), texts), Flag(s.name));
      }
    }
  }

  lemma EmptyArgv(flag: string)
    ensures TextsFor([], flag) == []
  {
  }

  lemma ReadsBack(s: Spec, v: Value, m: Matcher, floatOf: string -> real)
    requires EncodeOne(s, v, m).Ok?
    requires v.Float? ==> floatOf(v.text) == v.value && ReadInt(v.text).None?
    ensures ReadBack(s.kind, EncodeOne(s, v, m).value, floatOf) == if v == Strs([]) then None else Some(v)
  {
    if v.Int? { IntRoundTrip(v.n); }
    assert "true" != "false" by { assert |"true"| == 4 && |"false"| == 5; }
    hide CheckString, CheckItems, CheckBounds, ReadInt, IntText;
  }

  /** Decoding an accepted argv gives every argument back, except that an empty list reads as absent. */
  lemma ArgvRoundTrip(specs: seq<Spec>, values: Values, m: Matcher, floatOf: string -> real, i: nat)
    requires ValidContract(specs) && Encode(specs, values, m).Ok? && FaithfulFloats(values, floatOf) && i < |specs|
    ensures
      DecodeOne(specs[i], Encode(specs, values, m).value, floatOf)
      == if specs[i].name in values && values[specs[i].name] != Strs([]) then Some(values[specs[i].name]) else None
  {
    var s := specs[i];
    ArgvHolds(specs, values, m, s);
    PairsOfFlat(EncodeSpecs(specs, values, m).value);
    if s.name in values { ReadsBack(s, values[s.name], m, floatOf); }
    hide EncodeOne, EncodeSpecs, TextsFor, ValidSpec, PairsOf, Flat;
  }

  /** Two argument maps that produce the same argv differ at most in empty lists. */
  lemma ArgvInjective(specs: seq<Spec>, a: Values, b: Values, m: Matcher, floatOf: string -> real, name: string)
    requires ValidContract(specs) && FaithfulFloats(a, floatOf) && FaithfulFloats(b, floatOf)
    requires Encode(specs, a, m).Ok? && Encode(specs, a, m) == Encode(specs, b, m)
    ensures name in a && a[name] != Strs([]) ==> name in b && b[name] == a[name]
  {
    if name in a {
      assert name in Names(specs);
      var i :| 0 <= i < |specs| && specs[i].name == name;
      ArgvRoundTrip(specs, a, m, floatOf, i);
      ArgvRoundTrip(specs, b, m, floatOf, i);
    }
    hide Encode, ValidContract, FaithfulFloats, DecodeOne;
  }

  // ---------- Shape and bounds ----------

  /** Every pair starts with the flag of a declared argument, and flags come in declaration order. */
  ghost predicate InSpecOrder(specs: seq<Spec>, pairs: Pairs, index: seq<nat>) {
    && |pairs| == |index|
    && (forall k :: 0 <= k < |index| ==> index[k] < |specs| && pairs[k].0 == Flag(specs[index[k]].name))
    && forall k, l :: 0 <= k < l < |index| ==> index[k] <= index[l]
  }

  /** Every value satisfies the declared bounds of the argument its flag names. */
  ghost predicate Bounded(specs: seq<Spec>, values: Values, m: Matcher, pairs: Pairs, index: seq<nat>)
    requires InSpecOrder(specs, pairs, index)
  {
    forall k :: 0 <= k < |index| ==>
      specs[index[k]].name in values && WithinBounds(specs[index[k]], pairs[k].1, values[specs[index[k]].name], m)
  }

  /** No NUL, a length between the declared bounds or at most 4096, one of the allowed texts, and a match of the pattern. */
  predicate FitsText(s: Spec, text: string, m: Matcher) {
    && (forall i :: 0 <= i < |text| ==> text[i] != '\0') && (s.minLength.Some? ==> s.minLength.value <= |text|)
    && (if s.maxLength.Some? then |text| <= s.maxLength.value else |text| <= 4096)
    && (s.allowed.Some? ==> text in s.allowed.value) && (s.pattern.Some? ==> m(s.pattern.value, text))
  }

  predicate FitsRange(s: Spec, x: real) { (s.minimum.Some? ==> s.minimum.value <= x) && (s.maximum.Some? ==> x <= s.maximum.value) }

  predicate WithinBounds(s: Spec, text: string, v: Value, m: Matcher) {
    match s.kind
    case StringArg => v == Str(text) && FitsText(s, text, m)
    case StringList => v.Strs? && text in v.items && FitsText(s, text, m)
    case Integer => v.Int? && ReadInt(text) == Some(v.n) && FitsRange(s, v.n as real)
    case Number =>
      if v.Int? then ReadInt(text) == Some(v.n) && FitsRange(s, v.n as real)
      else v.Float? && text == v.text && FitsRange(s, v.value)
    case Boolean => v.Bool? && text == if v.b then "true" else "false"
  }

  /** An argument that its declaration accepts: the right kind, within its bounds, and a list of between 1 and 64 items unless declared. */
  predicate Accepts(s: Spec, v: Value, m: Matcher) {
    match s.kind
    case StringArg => v.Str? && FitsText(s, v.s, m)
    case StringList =>
      && v.Strs? && (if s.minItems.Some? then s.minItems.value else 1) <= |v.items| <= (if s.maxItems.Some? then s.maxItems.value else 64)
      && forall i :: 0 <= i < |v.items| ==> FitsText(s, v.items[i], m)
    case Integer => v.Int? && FitsRange(s, v.n as real)
    case Number => (v.Int? && FitsRange(s, v.n as real)) || (v.Float? && FitsRange(s, v.value))
    case Boolean => v.Bool?
  }

  lemma CheckStringIff(s: Spec, text: string, m: Matcher)
    ensures CheckString(s, text, m).None? <==> FitsText(s, text, m)
  {
  }

  lemma AcceptsIff(s: Spec, v: Value, m: Matcher)
    ensures EncodeOne(s, v, m).Ok? <==> Accepts(s, v, m)
  {
    hide CheckString, CheckItems, FitsText, IntText;
    if v.Str? { CheckStringIff(s, v.s, m); }
    if v.Strs? {
      ItemsChecked(s, v.items, m);
      forall i | 0 <= i < |v.items| ensures CheckString(s, v.items[i], m).None? <==> FitsText(s, v.items[i], m) {
        CheckStringIff(s, v.items[i], m);
      }
    }
  }

  lemma {:induction false} EncodesIff(specs: seq<Spec>, values: Values, m: Matcher)
    ensures
      EncodeSpecs(specs, values, m).Ok? <==>
        forall i :: 0 <= i < |specs| && specs[i].name in values ==> Accepts(specs[i], values[specs[i].name], m)
  {
    hide EncodeOne, Accepts, Flagged;
    if specs != [] {
      var n := |specs| - 1;
      EncodesIff(specs[..n], values, m);
      assert forall i :: 0 <= i < n ==> specs[..n][i] == specs[i];
      if specs[n].name in values { AcceptsIff(specs[n], values[specs[n].name], m); }
    }
  }

  /** Arguments are accepted exactly if all are declared, every required one is given, and each given one is within its bounds. */
  lemma ArgvAcceptedIff(specs: seq<Spec>, values: Values, m: Matcher)
    ensures
      Encode(specs, values, m).Ok? <==>
        && (forall name :: name in values ==> exists i :: 0 <= i < |specs| && specs[i].name == name)
        && (forall i :: 0 <= i < |specs| && specs[i].required ==> specs[i].name in values)
        && (forall i :: 0 <= i < |specs| && specs[i].name in values ==> Accepts(specs[i], values[specs[i].name], m))
  {
    EncodesIff(specs, values, m);
    hide EncodeSpecs, Accepts;
    assert values.Keys <= Names(specs) <==> forall name :: name in values ==> name in Names(specs);
  }

  /** A flag is two dashes and the name, with a dash for each underscore. */
  lemma {:induction false} FlagSpelled(name: string)
    ensures "--" <= Flag(name) && |Flag(name)| == |name| + 2
    ensures forall i :: 0 <= i < |name| ==> Flag(name)[i + 2] == if name[i] == '_' then '-' else name[i]
  {
    if name != "" {
      FlagSpelled(name[1..]);
      assert Flag(name[1..])[2..] == Dashed(name[1..]);
      forall i | 0 <= i < |name| ensures Flag(name)[i + 2] == if name[i] == '_' then '-' else name[i] {
        assert Flag(name)[i + 2] == Dashed(name)[i];
        if i > 0 { assert Flag(name[1..])[i + 1] == Dashed(name[1..])[i - 1] && name[1..][i - 1] == name[i]; }
      }
    }
  }

  lemma {:induction false} ItemsChecked(s: Spec, items: seq<string>, m: Matcher)
    ensures CheckItems(s, items, m).None? <==> forall i :: 0 <= i < |items| ==> CheckString(s, items[i], m).None?
  {
    hide CheckString;
    if items != [] { ItemsChecked(s, items[..|items| - 1], m); }
  }

  lemma EncodedBounded(s: Spec, v: Value, m: Matcher)
    requires EncodeOne(s, v, m).Ok?
    ensures forall k :: 0 <= k < |EncodeOne(s, v, m).value| ==> WithinBounds(s, EncodeOne(s, v, m).value[k], v, m)
  {
    AcceptsIff(s, v, m);
    if v.Int? { IntRoundTrip(v.n); }
    hide CheckString, CheckItems, CheckBounds, ReadInt, IntText, FitsText;
  }

  /** An accepted argv is flag and value pairs in declaration order, and every value meets its declared bounds. */
  lemma ArgvShape(specs: seq<Spec>, values: Values, m: Matcher) returns (index: seq<nat>)
    requires Encode(specs, values, m).Ok?
    ensures Flat(PairsOf(Encode(specs, values, m).value)) == Encode(specs, values, m).value
    ensures InSpecOrder(specs, PairsOf(Encode(specs, values, m).value), index)
    ensures Bounded(specs, values, m, PairsOf(Encode(specs, values, m).value), index)
  {
    hide EncodeSpecs, WithinBounds, Flat, PairsOf;
    PairsOfFlat(EncodeSpecs(specs, values, m).value);
    index := PairShape(specs, values, m);
  }

  lemma {:induction false} PairShape(specs: seq<Spec>, values: Values, m: Matcher) returns (index: seq<nat>)
    requires EncodeSpecs(specs, values, m).Ok?
    ensures InSpecOrder(specs, EncodeSpecs(specs, values, m).value, index)
    ensures Bounded(specs, values, m, EncodeSpecs(specs, values, m).value, index)
    ensures forall k :: 0 <= k < |index| ==> index[k] < |specs|
  {
    hide EncodeOne, WithinBounds, Flag;
    if specs == [] {
      index := [];
    } else {
      var n := |specs| - 1;
      var before := PairShape(specs[..n], values, m);
      index := before;
      if specs[n].name in values {
        var texts := EncodeOne(specs[n], values[specs[n].name], m).value;
        EncodedBounded(specs[n], values[specs[n].name], m);
        index := before + seq(|texts|, _ => n);
      }
    }
  }
}
