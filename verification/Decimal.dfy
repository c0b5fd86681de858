/** Integers as decimal text. */
module Decimal {
  import opened Common

  predicate IsDigit(c: char) { '0' <= c <= '9' }

  function DigitOf(n: nat): char
    requires n < 10
  {
    (n + '0' as int) as char
  }

  function NatText(n: nat): (s: string)
    ensures s != "" && forall i :: 0 <= i < |s| ==> IsDigit(s[i])
  {
    if n < 10 then [DigitOf(n)] else NatText(n / 10) + [DigitOf(n % 10)]
  }

  function IntText(n: int): string { if n < 0 then "-" + NatText(-n) else NatText(n) }

  function ReadNat(s: string): nat
    requires forall i :: 0 <= i < |s| ==> IsDigit(s[i])
  {
    if s == "" then 0
    else
      assert IsDigit(s[|s| - 1]);
      10 * ReadNat(s[..|s| - 1]) + (s[|s| - 1] as int - '0' as int)
  }

  /** The integer a decimal text denotes, if it is one. */
  function ReadInt(s: string): Option<int> {
    var digits := if s != "" && s[0] == '-' then s[1..] else s;
    if digits == "" || exists i :: 0 <= i < |digits| && !IsDigit(digits[i]) then None
    else Some(if digits == s then ReadNat(digits) else -(ReadNat(digits) as int))
  }

  lemma {:induction false} NatRoundTrip(n: nat)
    ensures ReadNat(NatText(n)) == n
  {
    if n >= 10 {
      NatRoundTrip(n / 10);
      assert NatText(n)[..|NatText(n)| - 1] == NatText(n / 10);
    }
  }

  lemma IntRoundTrip(n: int)
    ensures ReadInt(IntText(n)) == Some(n)
  {
    NatRoundTrip(if n < 0 then -n else n);
    assert n >= 0 ==> IsDigit(IntText(n)[0]);
    assert n < 0 ==> IntText(n)[1..] == NatText(-n);
  }
}
