/** Decimal rendering of non-negative integers, as a JavaScript template
    literal `${n}` renders a whole number below 10^21, and its inverse. */
module Decimal {

  predicate IsDigit(c: char) {
    '0' <= c <= '9'
  }

  predicate AllDigits(s: string) {
    forall i :: 0 <= i < |s| ==> IsDigit(s[i])
  }

  function DigitChar(d: nat): (c: char)
    requires d < 10
    ensures IsDigit(c)
    ensures c as int - '0' as int == d
  {
    ['0', '1', '2', '3', '4', '5', '6', '7', '8', '9'][d]
  }

  function DigitValue(c: char): nat
    requires IsDigit(c)
  {
    (c as int - '0' as int) as nat
  }

  /** The canonical decimal numeral of n: at least one digit, only digits,
      and no leading zero unless n is zero itself. */
  function NatToString(n: nat): (s: string)
    ensures |s| >= 1 && AllDigits(s)
    ensures s[0] != '0' || n == 0
    ensures |s| == 1 <==> n < 10
  {
    if n < 10 then [DigitChar(n)] else NatToString(n / 10) + [DigitChar(n % 10)]
  }

  /** The value a string of digits denotes, most significant digit first. */
  function ParseDigits(s: string): nat
    requires AllDigits(s)
  {
    if s == [] then 0 else 10 * ParseDigits(s[..|s| - 1]) + DigitValue(s[|s| - 1])
  }

  /** Reading a rendered numeral back gives the number. */
  lemma {:induction false} ParseNatToString(n: nat)
    ensures ParseDigits(NatToString(n)) == n
  {
    var s := NatToString(n);
    if n >= 10 {
      var prefix := NatToString(n / 10);
      assert s[..|s| - 1] == prefix;
      ParseNatToString(n / 10);
    }
  }

  /** Distinct numbers render as distinct numerals. */
  lemma NatToStringInjective(m: nat, n: nat)
    ensures NatToString(m) == NatToString(n) <==> m == n
  {
    if NatToString(m) == NatToString(n) {
      ParseNatToString(m);
      ParseNatToString(n);
    }
  }

  /** A numeral followed by text that starts with a space splits uniquely. */
  lemma SplitAtFirstSpace(d1: string, w1: string, d2: string, w2: string)
    requires AllDigits(d1) && AllDigits(d2)
    requires |w1| > 0 && w1[0] == ' ' && |w2| > 0 && w2[0] == ' '
    requires d1 + w1 == d2 + w2
    ensures d1 == d2 && w1 == w2
  {
    var t := d1 + w1;
    assert t[|d1|] == ' ' && t[|d2|] == ' ';
    assert forall i :: 0 <= i < |d1| ==> t[i] == d1[i];
    assert forall i :: 0 <= i < |d2| ==> t[i] == d2[i];
    assert |d1| == |d2|;
    assert d1 == t[..|d1|] && d2 == t[..|d2|];
    assert w1 == t[|d1|..] && w2 == t[|d2|..];
  }
}
