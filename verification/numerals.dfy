// Decimal numerals as the C++ standard library writes and reads them:
// std::to_string and std::stoull on strings of digits.
module Numerals {

  predicate IsDigit(c: char) {
    '0' <= c <= '9'
  }

  predicate AllDigits(s: string) {
    forall i | 0 <= i < |s| :: IsDigit(s[i])
  }

  function DigitValue(c: char): (n: nat)
    requires IsDigit(c)
  {
    c as int - '0' as int
  }

  function DigitChar(n: nat): (c: char)
    requires n < 10
  {
    '0' + n as char
  }

  function Pow10(n: nat): (p: nat)
    ensures p > 0
  {
    if n == 0 then 1 else 10 * Pow10(n - 1)
  }

  /** The number a digit string denotes; leading zeros are harmless and "" is 0. */
  function NatOf(s: string): nat
    requires AllDigits(s)
  {
    if s == "" then 0 else NatOf(s[..|s| - 1]) * 10 + DigitValue(s[|s| - 1])
  }

  /** std::to_string on an unsigned number. */
  function ToText(n: nat): string {
    if n < 10 then [DigitChar(n)] else ToText(n / 10) + [DigitChar(n % 10)]
  }

  lemma DigitCharValue(n: nat)
    requires n < 10
    ensures IsDigit(DigitChar(n)) && DigitValue(DigitChar(n)) == n
  {
  }

  /** Reading back what was written gives the number, and no other digit string without a
      leading zero denotes it. */
  lemma {:induction false} ToTextReadsBack(n: nat)
    ensures AllDigits(ToText(n)) && |ToText(n)| >= 1
    ensures NatOf(ToText(n)) == n
    ensures n > 0 ==> ToText(n)[0] != '0'
  {
    if n < 10 {
      DigitCharValue(n);
      assert ToText(n)[..0] == "";
    } else {
      ToTextReadsBack(n / 10);
      DigitCharValue(n % 10);
      assert ToText(n)[..|ToText(n)| - 1] == ToText(n / 10);
    }
  }

  lemma {:induction false} ToTextIsOnlyNumeral(s: string)
    requires AllDigits(s) && |s| >= 1
    requires |s| == 1 || s[0] != '0'
    ensures ToText(NatOf(s)) == s
  {
    var init := s[..|s| - 1];
    assert s == init + [s[|s| - 1]];
    if |s| == 1 {
      assert init == "";
    } else {
      ToTextIsOnlyNumeral(init);
      NatOfPositive(init);
    }
  }

  lemma {:induction false} NatOfPositive(s: string)
    requires AllDigits(s) && |s| >= 1 && s[0] != '0'
    ensures NatOf(s) >= 1
  {
    if |s| > 1 {
      NatOfPositive(s[..|s| - 1]);
    }
  }

  lemma {:induction false} NatOfConcat(a: string, b: string)
    requires AllDigits(a) && AllDigits(b)
    ensures AllDigits(a + b)
    ensures NatOf(a + b) == NatOf(a) * Pow10(|b|) + NatOf(b)
  {
    if b == "" {
      assert a + b == a;
    } else {
      var init := b[..|b| - 1];
      NatOfConcat(a, init);
      assert (a + b)[..|a + b| - 1] == a + init;
      MulTen(NatOf(a), Pow10(|init|));
    }
  }

  lemma MulTen(x: nat, p: nat)
    ensures x * (10 * p) == (x * p) * 10
  {
  }

  lemma {:induction false} NatOfBound(s: string)
    requires AllDigits(s)
    ensures NatOf(s) < Pow10(|s|)
  {
    if s != "" {
      NatOfBound(s[..|s| - 1]);
    }
  }

  lemma {:induction false} SameLengthInjective(a: string, b: string)
    requires AllDigits(a) && AllDigits(b) && |a| == |b|
    requires NatOf(a) == NatOf(b)
    ensures a == b
  {
    if a != "" {
      SameLengthInjective(a[..|a| - 1], b[..|b| - 1]);
      assert a == a[..|a| - 1] + [a[|a| - 1]];
      assert b == b[..|b| - 1] + [b[|b| - 1]];
    }
  }

  lemma {:induction false} Pow10Add(a: nat, b: nat)
    ensures Pow10(a + b) == Pow10(a) * Pow10(b)
  {
    if a > 0 {
      Pow10Add(a - 1, b);
      assert 10 * (Pow10(a - 1) * Pow10(b)) == (10 * Pow10(a - 1)) * Pow10(b);
    }
  }

  /** A number below 10^k is written with at most k digits. */
  lemma {:induction false} ToTextLength(n: nat, k: nat)
    requires k >= 1 && n < Pow10(k)
    ensures |ToText(n)| <= k
  {
    if n >= 10 {
      ToTextLength(n / 10, k - 1);
    }
  }
}
