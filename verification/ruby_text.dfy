/**
  Ruby's `to_s` on the scalar kinds a YAML `depth:` setting can arrive as.
  Integers print in decimal with a leading `-` when negative.
 */
module RubyText {

  /** A configuration scalar as parsed from YAML. */
  datatype Scalar =
    | IntValue(i: int)
    | StrValue(s: string)
    | BoolValue(b: bool)
    | NilValue

  predicate IsDigit(c: char) {
    '0' <= c <= '9'
  }

  predicate AllDigits(s: string) {
    forall k :: 0 <= k < |s| ==> IsDigit(s[k])
  }

  function DigitChar(d: nat): (c: char)
    requires d < 10
    ensures IsDigit(c)
  {
    "0123456789"[d]
  }

  function DigitValue(c: char): (d: nat)
    requires IsDigit(c)
    ensures d < 10
  {
    (c as int - '0' as int) as nat
  }

  /** Decimal digits of a natural number, most significant first, without leading zeros. */
  function NatToDecimal(n: nat): (s: string)
    ensures |s| >= 1 && AllDigits(s)
    ensures |s| > 1 ==> s[0] != '0'
    decreases n
  {
    if n < 10 then [DigitChar(n)]
    else NatToDecimal(n / 10) + [DigitChar(n % 10)]
  }

  /** The number a string of decimal digits denotes. */
  function DecimalValue(s: string): nat
    requires AllDigits(s)
  {
    if s == [] then 0
    else DecimalValue(s[..|s| - 1]) * 10 + DigitValue(s[|s| - 1])
  }

  /** Reading back the decimal digits of `n` gives `n`. */
  lemma {:induction false} DecimalRoundTrip(n: nat)
    ensures DecimalValue(NatToDecimal(n)) == n
    decreases n
  {
    var s := NatToDecimal(n);
    if n < 10 {
      assert s == [DigitChar(n)];
      assert s[..0] == [];
    } else {
      DecimalRoundTrip(n / 10);
      assert s[..|s| - 1] == NatToDecimal(n / 10);
    }
  }

  /** Distinct naturals have distinct decimal digits. */
  lemma NatToDecimalInjective(m: nat, n: nat)
    requires NatToDecimal(m) == NatToDecimal(n)
    ensures m == n
  {
    DecimalRoundTrip(m);
    DecimalRoundTrip(n);
  }

  /** Ruby's `Integer#to_s`. */
  function IntToS(i: int): (s: string)
    ensures |s| >= 1
    ensures i >= 0 <==> AllDigits(s)
    ensures i < 0 <==> s[0] == '-'
    ensures i < 0 ==> s[1..] == NatToDecimal(-i)
    ensures i >= 0 ==> s == NatToDecimal(i)
  {
    if i < 0 then
      var s := "-" + NatToDecimal(-i);
      assert !IsDigit(s[0]);
      s
    else NatToDecimal(i)
  }

  /** Distinct integers print differently. */
  lemma IntToSInjective(a: int, b: int)
    requires IntToS(a) == IntToS(b)
    ensures a == b
  {
    var s := IntToS(a);
    if a < 0 {
      assert b < 0;
      NatToDecimalInjective(-a, -b);
    } else {
      assert b >= 0;
      NatToDecimalInjective(a, b);
    }
  }

  /** Ruby's `to_s` on a configuration scalar: `nil.to_s` is empty, booleans print as words. */
  function ToS(v: Scalar): (s: string)
    ensures v.StrValue? ==> s == v.s
    ensures v.NilValue? ==> s == []
    ensures v.BoolValue? ==> s == (if v.b then "true" else "false")
    ensures v.IntValue? ==> s == IntToS(v.i)
    ensures v.IntValue? ==> |s| >= 1 && (v.i >= 0 <==> AllDigits(s))
  {
    match v
    case IntValue(i) => IntToS(i)
    case StrValue(x) => x
    case BoolValue(b) => if b then "true" else "false"
    case NilValue => ""
  }
}
