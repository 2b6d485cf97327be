/** Decimal text of natural numbers: ids, cursors and sizes are printed and read back with it. */
module Decimal {

  function DigitChar(d: nat): (c: char)
    requires d < 10
    ensures '0' <= c <= '9'
  {
    '0' + d as char
  }

  predicate IsDigit(c: char) { '0' <= c <= '9' }

  function DigitValue(c: char): (d: nat)
    requires IsDigit(c)
    ensures d < 10
  {
    (c - '0') as nat
  }

  predicate AllDigits(s: string) { forall i :: 0 <= i < |s| ==> IsDigit(s[i]) }

  function Print(n: nat): string {
    if n < 10 then [DigitChar(n)] else Print(n / 10) + [DigitChar(n % 10)]
  }

  function PrintInt(n: int): string { if n < 0 then "-" + Print(-n) else Print(n) }

  function Value(s: string): nat
    requires AllDigits(s)
  {
    if s == "" then 0 else 10 * Value(s[..|s| - 1]) + DigitValue(s[|s| - 1])
  }

  /** Reading a printed number gives the number back. */
  lemma {:induction false} PrintValue(n: nat)
    ensures |Print(n)| >= 1 && AllDigits(Print(n)) && Value(Print(n)) == n
  {
    if n < 10 {
      assert Print(n)[..0] == "";
    } else {
      PrintValue(n / 10);
      var p := Print(n / 10);
      assert Print(n)[..|Print(n)| - 1] == p;
    }
  }

  lemma PrintInjective(a: nat, b: nat)
    requires Print(a) == Print(b)
    ensures a == b
  {
    PrintValue(a);
    PrintValue(b);
  }

  /** A number gains at most one digit per unit it grows by. */
  lemma {:induction false} DigitsGrowSlowly(a: nat, b: nat)
    requires a <= b
    ensures |Print(a)| <= |Print(b)| <= |Print(a)| + (b - a)
    decreases b
  {
    if b >= 10 {
      if a >= 10 {
        DigitsGrowSlowly(a / 10, b / 10);
      } else {
        DigitsGrowSlowly(1, b / 10);
      }
    }
  }
}
