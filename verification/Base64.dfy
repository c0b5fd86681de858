/** Bytes as base64 text, and the strict decoder: whole groups of four, padding at the very end only. */
module Base64 {
  import opened Common

  type Byte = b: int | 0 <= b < 256

  type Bytes = seq<Byte>

  type Sextet = n: int | 0 <= n < 64

  function Digit(n: Sextet): char {
    if n < 26 then ('A' as int + n) as char
    else if n < 52 then ('a' as int + n - 26) as char
    else if n < 62 then ('0' as int + n - 52) as char
    else if n == 62 then '+' else '/'
  }

  function Value(c: char): Option<Sextet> {
    if 'A' <= c <= 'Z' then Some(c as int - 'A' as int)
    else if 'a' <= c <= 'z' then Some(c as int - 'a' as int + 26)
    else if '0' <= c <= '9' then Some(c as int - '0' as int + 52)
    else if c == '+' then Some(62) else if c == '/' then Some(63) else None
  }

  lemma DigitValue(n: Sextet)
    ensures Value(Digit(n)) == Some(n) && Digit(n) != '='
  {
  }

  function Group(a: Byte, b: Byte, c: Byte): string {
    [Digit(a / 4), Digit(a % 4 * 16 + b / 16), Digit(b % 16 * 4 + c / 64), Digit(c % 64)]
  }

  function Encode(b: Bytes): string {
    if b == [] then ""
    else if |b| == 1 then [Digit(b[0] / 4), Digit(b[0] % 4 * 16), '=', '=']
    else if |b| == 2 then [Digit(b[0] / 4), Digit(b[0] % 4 * 16 + b[1] / 16), Digit(b[1] % 16 * 4), '=']
    else Group(b[0], b[1], b[2]) + Encode(b[3..])
  }

  /** The bytes of one group; unused low bits of a padded group are ignored. */
  function DecodeGroup(t: string): Option<Bytes>
    requires |t| == 4
  {
    var a, b, c, d := Value(t[0]), Value(t[1]), Value(t[2]), Value(t[3]);
    if a.None? || b.None? then None
    else
      var first: Byte := a.value * 4 + b.value / 16;
      if t[2] == '=' && t[3] == '=' then Some([first])
      else if c.None? then None
      else
        var second: Byte := b.value % 16 * 16 + c.value / 4;
        if t[3] == '=' then Some([first, second])
        else if d.None? then None else Some([first, second, c.value % 4 * 64 + d.value])
  }

  function Decode(t: string): Option<Bytes> {
    if t == "" then Some([])
    else if |t| < 4 then None
    else
      var group, rest := DecodeGroup(t[..4]), Decode(t[4..]);
      if group.None? || rest.None? || (|group.value| < 3 && t[4..] != "") then None else Some(group.value + rest.value)
  }

  /** The alphabet and the padding, on the test vectors of section 10 of RFC 4648: "foobar", "fooba" and "foob". */
  lemma Vectors()
    ensures Encode([102, 111, 111, 98, 97, 114]) == "Zm9vYmFy" && Encode([102, 111, 111, 98, 97]) == "Zm9vYmE="
    ensures Encode([102, 111, 111, 98]) == "Zm9vYg==" && Encode([251, 255]) == "+/8="
  {
    var foo: Bytes := [102, 111, 111];
    var bar: Bytes, ba: Bytes, b: Bytes := [98, 97, 114], [98, 97], [98];
    assert Encode([]) == "" && Group(102, 111, 111) == "Zm9v" && Group(98, 97, 114) == "YmFy";
    assert Encode(bar) == "YmFy" by { assert bar[3..] == []; }
    assert Encode(ba) == "YmE=" && Encode(b) == "Yg==";
    assert (foo + bar)[3..] == bar && (foo + ba)[3..] == ba && (foo + b)[3..] == b;
    assert foo + bar == [102, 111, 111, 98, 97, 114] && foo + ba == [102, 111, 111, 98, 97] && foo + b == [102, 111, 111, 98];
  }

  lemma GroupRoundTrip(a: Byte, b: Byte, c: Byte)
    ensures DecodeGroup(Group(a, b, c)) == Some([a, b, c])
  {
    DigitValue(a / 4);
    DigitValue(a % 4 * 16 + b / 16);
    DigitValue(b % 16 * 4 + c / 64);
    DigitValue(c % 64);
    hide Digit, Value;
  }

  /** Decoding what was encoded gives the bytes back. */
  lemma {:induction false} DecodeEncode(b: Bytes)
    ensures Decode(Encode(b)) == Some(b)
  {
    hide Digit, Value;
    if |b| >= 3 {
      var group, rest := Group(b[0], b[1], b[2]), Encode(b[3..]);
      GroupRoundTrip(b[0], b[1], b[2]);
      DecodeEncode(b[3..]);
      assert Encode(b)[..4] == group && Encode(b)[4..] == rest;
      assert [b[0], b[1], b[2]] + b[3..] == b;
    } else if |b| > 0 {
      TailRoundTrip(b);
      LastGroup(Encode(b));
    }
  }

  lemma OneByte(a: Byte)
    ensures DecodeGroup([Digit(a / 4), Digit(a % 4 * 16), '=', '=']) == Some([a])
  {
    DigitValue(a / 4);
    DigitValue(a % 4 * 16);
    hide Digit, Value;
  }

  lemma TwoBytes(a: Byte, b: Byte)
    ensures DecodeGroup([Digit(a / 4), Digit(a % 4 * 16 + b / 16), Digit(b % 16 * 4), '=']) == Some([a, b])
  {
    DigitValue(a / 4);
    DigitValue(a % 4 * 16 + b / 16);
    DigitValue(b % 16 * 4);
    hide Digit, Value;
  }

  /** The padded group at the end. */
  lemma TailRoundTrip(b: Bytes)
    requires 1 <= |b| <= 2
    ensures |Encode(b)| == 4 && DecodeGroup(Encode(b)) == Some(b)
  {
    hide Digit, Value, DecodeGroup;
    if |b| == 1 {
      OneByte(b[0]);
      assert b == [b[0]];
    } else {
      TwoBytes(b[0], b[1]);
      assert b == [b[0], b[1]];
    }
  }

  lemma LastGroup(t: string)
    requires |t| == 4
    ensures Decode(t) == DecodeGroup(t)
  {
    assert t[..4] == t && t[4..] == "";
    assert Decode(t[4..]) == Some([]);
    hide DecodeGroup;
    if DecodeGroup(t).Some? { assert DecodeGroup(t).value + [] == DecodeGroup(t).value; }
  }

  /** A text that encoding its decoded bytes gives back. */
  predicate Canonical(t: string) { Decode(t).Some? && Encode(Decode(t).value) == t }

  /** The canonical texts are the ones the encoder writes. */
  lemma CanonicalIff(t: string)
    ensures Canonical(t) <==> exists b :: t == Encode(b)
  {
    if b :| t == Encode(b) { DecodeEncode(b); }
    if Canonical(t) { assert t == Encode(Decode(t).value); }
  }

  /** A text outside the alphabet is refused; one with stray low bits is accepted, and written back differently. */
  lemma StrayBits()
    ensures Decode("!").None?
    ensures Decode("QR==") == Some([65]) && Encode([65]) == "QQ==" && !Canonical("QR==")
  {
    LastGroup("QR==");
    assert DecodeGroup("QR==") == Some([65]);
  }
}
