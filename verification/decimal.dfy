/**
 * How a template literal prints a non-negative whole number below 10^21: its
 * shortest decimal digit string (from 10^21 on JavaScript switches to exponent
 * notation, which is not modelled). `Parse` reads such a string back, and
 * `ParseRender` proves that reading a rendered number gives the number.
 */
module Decimal {

  predicate IsDigit(c: char) {
    '0' <= c <= '9'
  }

  predicate AllDigits(s: string) {
    forall i :: 0 <= i < |s| ==> IsDigit(s[i])
  }

  function DigitChar(d: nat): (c: char)
    requires d < 10
    ensures IsDigit(c)
    ensures DigitValue(c) == d
  {
    ('0' as int + d) as char
  }

  function DigitValue(c: char): (d: nat)
    requires IsDigit(c)
    ensures d < 10
  {
    (c as int - '0' as int) as nat
  }

  /** Shortest decimal notation of `n` (as printed for n < 10^21): non-empty, only digits, no leading zero. */
  function Render(n: nat): (s: string)
    ensures 1 <= |s|
    ensures AllDigits(s)
    ensures |s| > 1 ==> s[0] != '0'
    ensures n < 10 <==> |s| == 1
  {
    if n < 10 then [DigitChar(n)] else Render(n / 10) + [DigitChar(n % 10)]
  }

  /** Value of a digit string, most significant digit first. */
  function Parse(s: string): nat
    requires AllDigits(s)
  {
    if |s| == 0 then 0 else Parse(s[..|s| - 1]) * 10 + DigitValue(s[|s| - 1])
  }

  lemma {:induction false} ParseRender(n: nat)
    ensures Parse(Render(n)) == n
  {
    if n >= 10 {
      var s := Render(n);
      assert s[..|s| - 1] == Render(n / 10);
      ParseRender(n / 10);
    }
  }

  /** Different numbers print differently. */
  lemma RenderInjective(m: nat, n: nat)
    ensures Render(m) == Render(n) <==> m == n
  {
    if Render(m) == Render(n) {
      ParseRender(m);
      ParseRender(n);
    }
  }
}
