/** The text primitives the source takes from its language: white space, trimming, reading integers. */
module PyText {
  import opened Prelude
  import Decimal

  predicate IsSpace(c: char) {
    var n := c as int;
    9 <= n <= 13 || 0x1C <= n <= 0x20 || n == 0x85 || n == 0xA0 || n == 0x1680 || 0x2000 <= n <= 0x200A ||
    n == 0x2028 || n == 0x2029 || n == 0x202F || n == 0x205F || n == 0x3000
  }

  function TrimStart(s: string): string {
    if s != "" && IsSpace(s[0]) then TrimStart(s[1..]) else s
  }

  function TrimEnd(s: string): string {
    if s != "" && IsSpace(s[|s| - 1]) then TrimEnd(s[..|s| - 1]) else s
  }

  function Strip(s: string): string { TrimEnd(TrimStart(s)) }

  /** Where c first occurs, or the length. */
  function Find(s: string, c: char): (i: nat)
    ensures i <= |s| && (i < |s| ==> s[i] == c) && forall j :: 0 <= j < i ==> s[j] != c
  {
    if s == "" || s[0] == c then 0 else 1 + Find(s[1..], c)
  }

  predicate DigitGroups(s: string) {
    s != "" && Decimal.IsDigit(s[0]) && Decimal.IsDigit(s[|s| - 1]) &&
    (forall i :: 0 <= i < |s| ==> Decimal.IsDigit(s[i]) || s[i] == '_') &&
    forall i :: 0 < i < |s| && s[i] == '_' ==> s[i - 1] != '_'
  }

  function WithoutUnderscores(s: string): string {
    if s == "" then "" else if s[0] == '_' then WithoutUnderscores(s[1..]) else [s[0]] + WithoutUnderscores(s[1..])
  }

  lemma {:induction false} OnlyDigitsLeft(s: string)
    requires forall i :: 0 <= i < |s| ==> Decimal.IsDigit(s[i]) || s[i] == '_'
    ensures Decimal.AllDigits(WithoutUnderscores(s))
    ensures Decimal.AllDigits(s) ==> WithoutUnderscores(s) == s
  {
    if s != "" { OnlyDigitsLeft(s[1..]); }
  }

  /** Reading an integer from text: white space around it, a sign, single underscores between digits. */
  function ParseInt(s: string): Option<int> {
    var t := Strip(s);
    var signed := t != "" && (t[0] == '-' || t[0] == '+');
    var body := if signed then t[1..] else t;
    if !DigitGroups(body) then None
    else
      OnlyDigitsLeft(body);
      var n: int := Decimal.Value(WithoutUnderscores(body));
      Some(if signed && t[0] == '-' then -n else n)
  }

  lemma StripDigits(p: string)
    requires p != "" && Decimal.AllDigits(p)
    ensures Strip(p) == p
  {
    assert Decimal.IsDigit(p[0]) && Decimal.IsDigit(p[|p| - 1]);
  }

  lemma ParseDigits(p: string)
    requires p != "" && Decimal.AllDigits(p)
    ensures ParseInt(p) == Some(Decimal.Value(p))
  {
    StripDigits(p);
    hide Strip;
    hide Decimal.Value;
    assert Decimal.IsDigit(p[0]) && Decimal.IsDigit(p[|p| - 1]);
    OnlyDigitsLeft(p);
  }

  lemma ParsePrinted(n: nat)
    ensures ParseInt(Decimal.Print(n)) == Some(n)
  {
    hide ParseInt;
    Decimal.PrintValue(n);
    ParseDigits(Decimal.Print(n));
  }
}
