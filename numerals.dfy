/**
 * Decimal text of integers as Java's Integer.toString and Integer.parseInt
 * handle it: key suffixes such as "find12" are built with the former, and the
 * `numpatterns` value is read with the latter.
 */
module Numerals {
  import opened Common

  const MIN_INT: int := -0x8000_0000
  const MAX_INT: int := 0x7FFF_FFFF

  predicate IsDigit(c: char) {
    '0' <= c <= '9'
  }

  predicate AllDigits(s: string) {
    forall k :: 0 <= k < |s| ==> IsDigit(s[k])
  }

  /** The decimal digit character for `d`. */
  function DigitChar(d: nat): (c: char)
    requires d < 10
    ensures IsDigit(c) && (c as int) - ('0' as int) == d
  {
    ['0', '1', '2', '3', '4', '5', '6', '7', '8', '9'][d]
  }

  /** Integer.toString for a non-negative int: no sign, no leading zeros. */
  function Decimal(n: nat): (s: string)
    ensures |s| > 0 && AllDigits(s)
    ensures n > 0 ==> s[0] != '0'
  {
    if n < 10 then [DigitChar(n)] else Decimal(n / 10) + [DigitChar(n % 10)]
  }

  /** The unbounded value of a string of decimal digits, most significant first. */
  function DigitsValue(s: string): (v: nat)
    requires AllDigits(s)
  {
    if s == [] then 0 else DigitsValue(s[..|s| - 1]) * 10 + ((s[|s| - 1] as int) - ('0' as int))
  }

  /** The int named by `v`, or None when it lies outside the 32-bit range. */
  function InRange(v: int): (r: Option<int>)
    ensures r.Some? <==> MIN_INT <= v <= MAX_INT
    ensures r.Some? ==> r.value == v
  {
    if MIN_INT <= v <= MAX_INT then Some(v) else None
  }

  /**
   * Integer.parseInt(s) with radix 10: an optional leading '-' or '+', then at
   * least one digit and nothing else, the value within the 32-bit range. None
   * stands for the NumberFormatException the source catches.
   */
  function ParseInt(s: string): (r: Option<int>)
    ensures r.Some? ==> MIN_INT <= r.value <= MAX_INT
    ensures s == [] ==> r.None?
  {
    if s == [] then None
    else if s[0] == '-' || s[0] == '+' then
      if |s| == 1 || !AllDigits(s[1..]) then None
      else if s[0] == '-' then InRange(-(DigitsValue(s[1..]) as int))
      else InRange(DigitsValue(s[1..]))
    else if AllDigits(s) then InRange(DigitsValue(s))
    else None
  }

  /** Reading back the decimal text of `n` gives `n`: the partner of Decimal. */
  lemma {:induction false} DecimalValue(n: nat)
    ensures DigitsValue(Decimal(n)) == n
  {
    if n >= 10 {
      var s := Decimal(n);
      assert s[..|s| - 1] == Decimal(n / 10);
      DecimalValue(n / 10);
    }
  }

  /** Distinct numbers have distinct decimal texts, so "find1" .. "findN" are N distinct keys. */
  lemma DecimalInjective(m: nat, n: nat)
    requires Decimal(m) == Decimal(n)
    ensures m == n
  {
    DecimalValue(m);
    DecimalValue(n);
  }

  /** parseInt reads back what toString writes, for every non-negative int. */
  lemma ParseDecimal(n: nat)
    requires n <= MAX_INT
    ensures ParseInt(Decimal(n)) == Some(n)
  {
    DecimalValue(n);
  }

  /** parseInt accepts a minus sign before the digits, down to the smallest int. */
  lemma ParseNegativeDecimal(n: nat)
    requires n <= -MIN_INT
    ensures ParseInt("-" + Decimal(n)) == Some(-(n as int))
  {
    var s := "-" + Decimal(n);
    assert s[1..] == Decimal(n);
    DecimalValue(n);
  }
}
