/**
 * Base-10 rendering of Go's `int64`, as `strconv.FormatInt(id, 10)` produces it,
 * and the matching parser `strconv.ParseInt(s, 10, 64)` that reads it back.
 */
module Decimal {
  import opened Wrappers

  const MinInt64: int := -0x8000_0000_0000_0000
  const MaxInt64: int := 0x7fff_ffff_ffff_ffff

  /** Go's `int64`. */
  type Int64 = x: int | MinInt64 <= x <= MaxInt64

  predicate IsDigit(c: char) { '0' <= c <= '9' }

  predicate AllDigits(s: string) { forall i :: 0 <= i < |s| ==> IsDigit(s[i]) }

  function DigitValue(c: char): (d: nat)
    requires IsDigit(c)
    ensures d < 10
  {
    (c as int) - ('0' as int)
  }

  function DigitChar(d: nat): (c: char)
    requires d < 10
    ensures IsDigit(c) && DigitValue(c) == d
  {
    (('0' as int) + d) as char
  }

  /** The digits of `n`, most significant first, without leading zeros. */
  function NatDigits(n: nat): (r: string)
    ensures |r| > 0 && AllDigits(r)
    ensures r[0] == '0' <==> n == 0
    ensures n == 0 ==> r == "0"
    decreases n
  {
    if n < 10 then [DigitChar(n)] else NatDigits(n / 10) + [DigitChar(n % 10)]
  }

  /** The number a string of decimal digits denotes (leading zeros allowed). */
  function DigitsValue(s: string): nat
    requires AllDigits(s)
    decreases |s|
  {
    if s == [] then 0 else 10 * DigitsValue(s[..|s| - 1]) + DigitValue(s[|s| - 1])
  }

  lemma {:induction false} NatDigitsValue(n: nat)
    ensures DigitsValue(NatDigits(n)) == n
    decreases n
  {
    if n >= 10 {
      var s := NatDigits(n);
      NatDigitsValue(n / 10);
      assert s[..|s| - 1] == NatDigits(n / 10);
    }
  }

  /**
   * `strconv.FormatInt(x, 10)`: a `-` exactly for negative values, then the
   * digits of |x| with no leading zero (zero itself is "0").
   */
  function FormatInt(x: Int64): (r: string)
    ensures |r| > 0
    ensures r[0] == '-' <==> x < 0
    ensures x < 0 ==> |r| > 1 && AllDigits(r[1..]) && r[1] != '0'
    ensures x >= 0 ==> AllDigits(r) && (r[0] == '0' <==> x == 0)
    ensures x == 0 ==> r == "0"
  {
    if x < 0 then "-" + NatDigits(-(x as int)) else NatDigits(x)
  }

  /**
   * `strconv.ParseInt(s, 10, 64)`: an optional `+` or `-`, then at least one
   * decimal digit and nothing else; the value must fit in an `int64`.
   * Syntax and range errors are both `None`.
   */
  function ParseInt(s: string): Option<Int64>
  {
    if s == [] then None
    else
      var body := if s[0] == '-' || s[0] == '+' then s[1..] else s;
      if body == [] || !AllDigits(body) then None
      else
        var v: int := if s[0] == '-' then -(DigitsValue(body) as int) else DigitsValue(body);
        if MinInt64 <= v <= MaxInt64 then Some(v) else None
  }

  /** Every rendering parses back to the value it renders. */
  lemma {:induction false} FormatIntRoundTrip(x: Int64)
    ensures ParseInt(FormatInt(x)) == Some(x)
  {
    var r := FormatInt(x);
    if x < 0 {
      var n: nat := -(x as int);
      NatDigitsValue(n);
      assert r == "-" + NatDigits(n);
      assert r[1..] == NatDigits(n);
    } else {
      NatDigitsValue(x);
      assert r == NatDigits(x);
    }
  }

  /** Distinct ids never share a rendering. */
  lemma FormatIntInjective(x: Int64, y: Int64)
    requires FormatInt(x) == FormatInt(y)
    ensures x == y
  {
    FormatIntRoundTrip(x);
    FormatIntRoundTrip(y);
  }
}
