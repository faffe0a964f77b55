/**
 * Python's `"%s" % n` for a non-negative integer, which the test reactor
 * uses to put its client port into each transport's peer string, and the
 * reading of such a string back as a number.
 */
module Decimal {

  function DigitChar(d: nat): (c: char)
    requires d < 10
  {
    ('0' as int + d) as char
  }

  function DigitValue(c: char): nat
  {
    if '0' <= c <= '9' then c as int - '0' as int else 0
  }

  /** The decimal digits of `n`, most significant first, no leading zero. */
  function ToDecimal(n: nat): (s: string)
    ensures |s| >= 1 && forall i :: 0 <= i < |s| ==> '0' <= s[i] <= '9'
    ensures |s| > 1 ==> s[0] != '0'
  {
    if n < 10 then [DigitChar(n)] else ToDecimal(n / 10) + [DigitChar(n % 10)]
  }

  /** The value of a string of decimal digits. */
  function Value(s: string): nat
  {
    if s == [] then 0 else Value(s[..|s| - 1]) * 10 + DigitValue(s[|s| - 1])
  }

  /** Rendering then reading a number gives the number back. */
  lemma {:induction false} ValueOfToDecimal(n: nat)
    ensures Value(ToDecimal(n)) == n
  {
    var s := ToDecimal(n);
    if n >= 10 {
      assert s[..|s| - 1] == ToDecimal(n / 10);
      assert DigitValue(s[|s| - 1]) == n % 10;
      ValueOfToDecimal(n / 10);
      assert n == n / 10 * 10 + n % 10;
    }
  }

  /** Distinct numbers render as distinct strings. */
  lemma ToDecimalInjective(a: nat, b: nat)
    requires ToDecimal(a) == ToDecimal(b)
    ensures a == b
  {
    ValueOfToDecimal(a);
    ValueOfToDecimal(b);
  }
}
