/** Decimal rendering of integers, as a JavaScript template literal
    (`${n}`) renders an integral number, and a parser that reads such a
    rendering back. The parser is the independent partner that gives the
    rendered CSS tokens their meaning. */
module Decimal {
  import opened Wrappers

  predicate IsDigit(ch: char) {
    '0' <= ch <= '9'
  }

  predicate AllDigits(s: string) {
    forall i :: 0 <= i < |s| ==> IsDigit(s[i])
  }

  function DigitChar(d: nat): (ch: char)
    requires d < 10
    ensures IsDigit(ch)
  {
    ('0' as int + d) as char
  }

  function DigitValue(ch: char): (d: nat)
    requires IsDigit(ch)
    ensures d < 10 && DigitChar(d) == ch
  {
    ch as int - '0' as int
  }

  /** The shortest decimal numeral of `n`, most significant digit first. */
  function NatToString(n: nat): (s: string)
    ensures s != [] && AllDigits(s)
    ensures |s| > 1 ==> s[0] != '0'
  {
    if n < 10 then [DigitChar(n)] else NatToString(n / 10) + [DigitChar(n % 10)]
  }

  /** The value of a numeral (leading zeros allowed). */
  function DigitsValue(s: string): nat
    requires AllDigits(s)
  {
    if s == [] then 0 else DigitsValue(s[..|s| - 1]) * 10 + DigitValue(s[|s| - 1])
  }

  lemma {:induction false} NatToStringRoundTrip(n: nat)
    ensures DigitsValue(NatToString(n)) == n
  {
    if n >= 10 {
      var s := NatToString(n / 10);
      NatToStringRoundTrip(n / 10);
      assert (s + [DigitChar(n % 10)])[..|s|] == s;
    }
  }

  /** `${n}` for an integral JavaScript number: a minus sign for negatives,
      then the numeral of the magnitude. */
  function IntToString(n: int): (s: string)
    ensures s != [] && IsDigit(s[|s| - 1])
    ensures IsDigit(s[0]) || s[0] == '-'
    ensures forall i :: 0 <= i < |s| ==> IsDigit(s[i]) || s[i] == '-'
  {
    if n < 0 then "-" + NatToString(-n) else NatToString(n)
  }

  /** Reads a non-empty numeral; anything else is `None`. */
  function ParseNat(s: string): (r: Option<nat>)
    ensures r.Some? <==> s != [] && AllDigits(s)
  {
    if s != [] && AllDigits(s) then Some(DigitsValue(s)) else None
  }

  /** Reads an optional minus sign followed by a non-empty numeral. */
  function ParseInt(s: string): Option<int> {
    if s != [] && s[0] == '-' then
      match ParseNat(s[1..])
      case Some(v) => Some(-(v as int))
      case None => None
    else
      match ParseNat(s)
      case Some(v) => Some(v as int)
      case None => None
  }

  lemma NatToStringParses(n: nat)
    ensures ParseNat(NatToString(n)) == Some(n)
  {
    NatToStringRoundTrip(n);
  }

  lemma IntToStringParses(n: int)
    ensures ParseInt(IntToString(n)) == Some(n)
  {
    if n < 0 {
      var s := NatToString(-n);
      NatToStringRoundTrip(-n);
      assert ("-" + s)[1..] == s;
    } else {
      NatToStringRoundTrip(n);
    }
  }
}
