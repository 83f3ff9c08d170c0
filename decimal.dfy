/**
 * Decimal rendering of integers, as Go's `%d` verb writes them: the default
 * pin name `terraform-<millis>` and the status in a service error use it.
 */
module Decimal {

  function DigitChar(d: nat): (c: char)
    requires d < 10
    ensures '0' <= c <= '9'
  {
    ('0' as int + d) as char
  }

  function DigitValue(c: char): (d: nat)
    requires '0' <= c <= '9'
    ensures d < 10 && DigitChar(d) == c
  {
    c as int - '0' as int
  }

  predicate AllDigits(s: string) {
    forall i :: 0 <= i < |s| ==> '0' <= s[i] <= '9'
  }

  /** The shortest decimal text of `n`: no sign, no leading zero except for 0 itself. */
  function NatText(n: nat): (s: string)
    ensures |s| > 0 && AllDigits(s)
    ensures |s| > 1 ==> s[0] != '0'
  {
    if n < 10 then [DigitChar(n)] else NatText(n / 10) + [DigitChar(n % 10)]
  }

  /** `fmt.Sprintf("%d", n)`: a leading '-' exactly for negative numbers. */
  function IntText(n: int): (s: string)
    ensures |s| > 0
    ensures s[0] == '-' <==> n < 0
  {
    if n < 0 then "-" + NatText(-n) else NatText(n)
  }

  /** After its optional sign, `%d` text is all digits: it holds no ',' or other separator. */
  lemma IntTextDigits(n: int)
    ensures forall i :: 0 < i < |IntText(n)| ==> '0' <= IntText(n)[i] <= '9'
  {
  }

  /** Reads a digit string back as a number (the reference inverse of NatText). */
  function ParseNat(s: string): nat
    requires AllDigits(s)
  {
    if s == [] then 0 else 10 * ParseNat(s[..|s| - 1]) + DigitValue(s[|s| - 1])
  }

  lemma {:induction false} ParseNatText(n: nat)
    ensures ParseNat(NatText(n)) == n
  {
    var s := NatText(n);
    if n >= 10 {
      assert s[..|s| - 1] == NatText(n / 10);
      assert s[|s| - 1] == DigitChar(n % 10);
      ParseNatText(n / 10);
    }
  }

  /** Different numbers are written differently: `%d` loses nothing. */
  lemma IntTextInjective(a: int, b: int)
    ensures IntText(a) == IntText(b) ==> a == b
  {
    if IntText(a) == IntText(b) {
      var ma := if a < 0 then -a else a;
      var mb := if b < 0 then -b else b;
      assert (a < 0) == (b < 0);
      if a < 0 {
        NatTextOfNegative(a);
        NatTextOfNegative(b);
      }
      assert NatText(ma) == NatText(mb);
      ParseNatText(ma);
      ParseNatText(mb);
      assert ma == ParseNat(NatText(ma)) == ParseNat(NatText(mb)) == mb;
    }
  }

  /** A negative number's text is '-' before the text of its magnitude. */
  lemma NatTextOfNegative(n: int)
    requires n < 0
    ensures IntText(n)[1..] == NatText(-n)
  {
  }
}
