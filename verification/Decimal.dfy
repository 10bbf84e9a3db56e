/**
 * Decimal text of a GraphQL `Int`, as a JavaScript template literal `${n}`
 * renders it, and a parser that reads such text back.
 */
module Decimal {
  import opened Wrappers

  /** GraphQL's `Int` scalar: a signed 32-bit integer. Within this range a
      JavaScript number prints as plain decimal digits, never in exponent form. */
  newtype int32 = x: int | -0x8000_0000 <= x < 0x8000_0000

  predicate IsDigit(c: char) {
    '0' <= c <= '9'
  }

  function DigitChar(d: nat): (c: char)
    requires d < 10
    ensures IsDigit(c)
  {
    ['0', '1', '2', '3', '4', '5', '6', '7', '8', '9'][d]
  }

  function DigitValue(c: char): (d: nat)
    requires IsDigit(c)
    ensures d < 10
    ensures DigitChar(d) == c
  {
    (c as int - '0' as int) as nat
  }

  /** Digits of a natural number, most significant first, without leading zeros. */
  function NatDigits(n: nat): (s: string)
    ensures 0 < |s|
    ensures forall i :: 0 <= i < |s| ==> IsDigit(s[i])
    ensures |s| > 1 ==> s[0] != '0'
  {
    if n < 10 then [DigitChar(n)] else NatDigits(n / 10) + [DigitChar(n % 10)]
  }

  /** The text `${n}` produces for an integer `n`: a minus sign for negatives. */
  function Format(n: int32): (s: string)
    ensures 0 < |s|
    ensures n < 0 <==> s[0] == '-'
    ensures forall i :: (if n < 0 then 1 else 0) <= i < |s| ==> IsDigit(s[i])
    ensures n < 0 ==> 1 < |s| && s[1] != '0'
    ensures n >= 0 && 1 < |s| ==> s[0] != '0'
  {
    if n < 0 then "-" + NatDigits(-(n as int)) else NatDigits(n as nat)
  }

  /** The value of a non-empty string of decimal digits. */
  function ParseNat(s: string): (n: nat)
    requires 0 < |s|
    requires forall i :: 0 <= i < |s| ==> IsDigit(s[i])
  {
    if |s| == 1 then DigitValue(s[0])
    else ParseNat(s[..|s| - 1]) * 10 + DigitValue(s[|s| - 1])
  }

  /** Reads an optionally negative decimal integer; `None` on anything else. */
  function Parse(s: string): (r: Option<int>)
    ensures r.Some? ==> 0 < |s| && (r.value < 0 ==> s[0] == '-')
  {
    if 0 < |s| && s[0] == '-' then
      var t := s[1..];
      if 0 < |t| && forall i :: 0 <= i < |t| ==> IsDigit(t[i]) then
        var m: int := ParseNat(t);
        Some(-m)
      else None
    else if 0 < |s| && forall i :: 0 <= i < |s| ==> IsDigit(s[i]) then Some(ParseNat(s))
    else None
  }

  lemma {:induction false} ParseNatDigits(n: nat)
    ensures ParseNat(NatDigits(n)) == n
  {
    if n >= 10 {
      var s := NatDigits(n);
      assert s[..|s| - 1] == NatDigits(n / 10);
      ParseNatDigits(n / 10);
    }
  }

  /** Every formatted integer reads back as itself. */
  lemma {:induction false} ParseFormat(n: int32)
    ensures Parse(Format(n)) == Some(n as int)
  {
    if n < 0 {
      var s := Format(n);
      assert s[1..] == NatDigits(-(n as int));
      ParseNatDigits(-(n as int));
    } else {
      ParseNatDigits(n as nat);
    }
  }

  /** Distinct integers never share a decimal text. */
  lemma FormatInjective(a: int32, b: int32)
    ensures Format(a) == Format(b) ==> a == b
  {
    if Format(a) == Format(b) {
      ParseFormat(a);
      ParseFormat(b);
    }
  }
}
