/**
 * The few PHP value semantics the core relies on: scalars, the conversion of
 * an integer to its decimal string, the string cast, `empty()` and
 * `str_starts_with`.
 */
module Php {
  import opened Wrappers

  /** A PHP scalar as command params and configuration entries hold it. */
  datatype Value = Null | Bool(b: bool) | Num(n: int) | Str(s: string)

  predicate IsDigit(c: char) { '0' <= c <= '9' }

  predicate AllDigits(s: string) { forall i :: 0 <= i < |s| ==> IsDigit(s[i]) }

  function DigitChar(d: nat): (c: char)
    requires d < 10
    ensures IsDigit(c) && (c as int) - ('0' as int) == d
  {
    "0123456789"[d]
  }

  function DigitValue(c: char): (d: nat)
    requires IsDigit(c)
    ensures d < 10
  {
    (c as int) - ('0' as int)
  }

  /** Decimal digits of a natural number, most significant first, no leading zero. */
  function NatToString(n: nat): (s: string)
    ensures |s| >= 1 && AllDigits(s)
    ensures |s| > 1 ==> s[0] != '0'
    decreases n
  {
    if n < 10 then [DigitChar(n)] else NatToString(n / 10) + [DigitChar(n % 10)]
  }

  /** The number a string of decimal digits denotes. */
  function DecimalValue(s: string): nat
    requires AllDigits(s)
  {
    if s == [] then 0 else DecimalValue(s[..|s| - 1]) * 10 + DigitValue(s[|s| - 1])
  }

  lemma {:induction false} NatToStringRoundTrip(n: nat)
    ensures DecimalValue(NatToString(n)) == n
  {
    if n >= 10 {
      var s := NatToString(n);
      assert s[..|s| - 1] == NatToString(n / 10);
      NatToStringRoundTrip(n / 10);
    }
  }

  /** PHP's conversion of an int to a string: an optional minus sign, then the digits. */
  function IntToString(i: int): (s: string)
    ensures |s| >= 1 && (s[0] == '-' <==> i < 0) && (i >= 0 ==> IsDigit(s[0]))
  {
    if i < 0 then "-" + NatToString(-i) else NatToString(i)
  }

  /** Reads back what IntToString writes: an optional '-' followed by at least one digit. */
  function ParseInt(s: string): (r: Option<int>)
  {
    if |s| > 1 && s[0] == '-' && AllDigits(s[1..]) then Some(0 - DecimalValue(s[1..]))
    else if |s| > 0 && AllDigits(s) then Some(DecimalValue(s))
    else None
  }

  /** The decimal rendering loses nothing: the integer can be read back from it. */
  lemma IntToStringRoundTrip(i: int)
    ensures ParseInt(IntToString(i)) == Some(i)
  {
    var s := IntToString(i);
    if i < 0 {
      var digits := NatToString(-i);
      assert s == "-" + digits && s[1..] == digits;
      NatToStringRoundTrip(-i);
      assert ParseInt(s) == Some(0 - DecimalValue(digits));
    } else {
      assert IsDigit(s[0]) && s[0] != '-';
      NatToStringRoundTrip(i);
    }
  }

  lemma IntToStringInjective(a: int, b: int)
    requires IntToString(a) == IntToString(b)
    ensures a == b
  {
    IntToStringRoundTrip(a);
    IntToStringRoundTrip(b);
  }

  /** PHP's `empty()` on a scalar: null, false, 0, "" and "0" are empty. */
  predicate IsEmpty(v: Value)
  {
    v == Null || v == Bool(false) || v == Num(0) || v == Str("") || v == Str("0")
  }

  /** PHP's `(string)` cast of a scalar. */
  function ToPhpString(v: Value): string
  {
    match v
    case Null => ""
    case Bool(b) => if b then "1" else ""
    case Num(n) => IntToString(n)
    case Str(s) => s
  }

  /**
   * `str_starts_with($value, '=[')`: the value is a renderer formula. A
   * non-string value is compared through its string cast.
   */
  predicate IsFormula(v: Value)
  {
    "=[" <= ToPhpString(v)
  }

  /** Only strings can be formulas: numbers, booleans and null never cast to "=[…". */
  lemma FormulaIsString(v: Value)
    requires IsFormula(v)
    ensures v.Str?
  {
  }
}
