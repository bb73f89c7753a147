/**
 * The decimal rendering of a non-negative integer, as Python's f-string
 * `f"{n}"` produces it for an `int`, together with its inverse.
 */
module Decimal {

  predicate IsDigit(c: char) {
    '0' <= c <= '9'
  }

  predicate AllDigits(s: string) {
    forall i :: 0 <= i < |s| ==> IsDigit(s[i])
  }

  function DigitChar(d: nat): (c: char)
    requires d < 10
    ensures IsDigit(c) && c as int - '0' as int == d
  {
    ('0' as int + d) as char
  }

  function DigitValue(c: char): (d: nat)
    requires IsDigit(c)
    ensures d < 10 && DigitChar(d) == c
  {
    c as int - '0' as int
  }

  /** Base-ten digits of `n`, most significant first, without leading zeros. */
  function NatToString(n: nat): (s: string)
    ensures |s| >= 1 && AllDigits(s)
    ensures |s| > 1 ==> s[0] != '0'
  {
    if n < 10 then [DigitChar(n)] else NatToString(n / 10) + [DigitChar(n % 10)]
  }

  /** Reads a string of digits as a base-ten number. */
  function ParseDecimal(s: string): nat
    requires AllDigits(s)
  {
    if |s| == 0 then 0 else ParseDecimal(s[..|s| - 1]) * 10 + DigitValue(s[|s| - 1])
  }

  lemma {:induction false} ParseNatToString(n: nat)
    ensures ParseDecimal(NatToString(n)) == n
  {
    if n >= 10 {
      var s := NatToString(n);
      assert s[..|s| - 1] == NatToString(n / 10);
      ParseNatToString(n / 10);
    }
  }

  lemma NatToStringInjective(m: nat, n: nat)
    ensures NatToString(m) == NatToString(n) ==> m == n
  {
    ParseNatToString(m);
    ParseNatToString(n);
  }

  /**
   * A text of the shape `prefix + digits + sep + rest`, where `sep` does not
   * start with a digit, names its number and its rest unambiguously.
   */
  lemma {:induction false} TaggedInjective(prefix: string, sep: string, m: nat, a: string, n: nat, b: string)
    requires |sep| > 0 && !IsDigit(sep[0])
    requires prefix + NatToString(m) + sep + a == prefix + NatToString(n) + sep + b
    ensures m == n && a == b
  {
    var dm, dn := NatToString(m), NatToString(n);
    var x, y := prefix + dm + sep + a, prefix + dn + sep + b;
    assert forall k :: 0 <= k < |dm| ==> x[|prefix| + k] == dm[k];
    assert forall k :: 0 <= k < |dn| ==> y[|prefix| + k] == dn[k];
    assert x[|prefix| + |dm|] == sep[0] && y[|prefix| + |dn|] == sep[0];
    assert |dm| == |dn|;
    assert dm == x[|prefix|..|prefix| + |dm|] == y[|prefix|..|prefix| + |dn|] == dn;
    NatToStringInjective(m, n);
    assert a == x[|prefix| + |dm| + |sep|..] == y[|prefix| + |dn| + |sep|..] == b;
  }
}
