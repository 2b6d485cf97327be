/** What censoring leaves alone, and what it puts in the place of a key. */
module CensorKeeps {
  import opened Prelude
  import opened Censor
  import opened CensorTable

  function EntryAt(table: Table, n: nat): Option<(string, string)> {
    if table.End? then None else if n == 0 then Some((table.key, table.target)) else EntryAt(table.more, n - 1)
  }

  /** The n-th entry is the first of the table whose key stands here. */
  predicate FirstFit(table: Table, s: string, i: nat, n: nat) {
    EntryAt(table, n).Some? && Fits(s, i, EntryAt(table, n).value.0) &&
    forall m: nat :: m < n && EntryAt(table, m).Some? ==> !Fits(s, i, EntryAt(table, m).value.0)
  }

  predicate NoneFits(table: Table, s: string, i: nat) { table.Swap? ==> !Fits(s, i, table.key) && NoneFits(table.more, s, i) }

  lemma {:induction false} NoneFitsMeans(table: Table, s: string, i: nat)
    ensures NoneFits(table, s, i) <==> forall key :: IsKey(table, key) ==> !Fits(s, i, key)
  {
    if table.Swap? {
      NoneFitsMeans(table.more, s, i);
      assert IsKey(table, table.key);
      if key :| IsKey(table.more, key) && Fits(s, i, key) { assert IsKey(table, key); }
    }
  }

  lemma {:induction false} MatchIsFirst(table: Table, s: string, i: nat, n: nat)
    requires FirstFit(table, s, i, n)
    ensures MatchAt(table, s, i) == EntryAt(table, n)
  {
    if n > 0 {
      assert EntryAt(table, 0) == Some((table.key, table.target));
      forall m: nat | m < n - 1 && EntryAt(table.more, m).Some? ensures !Fits(s, i, EntryAt(table.more, m).value.0) {
        assert EntryAt(table, m + 1) == EntryAt(table.more, m);
      }
      MatchIsFirst(table.more, s, i, n - 1);
    }
  }

  lemma {:induction false} MatchIffFits(table: Table, s: string, i: nat)
    ensures MatchAt(table, s, i).None? <==> NoneFits(table, s, i)
  {
    if table.Swap? { MatchIffFits(table.more, s, i); }
  }

  /** A cut that leaves no word in two. */
  predicate CleanCut(s: string, j: nat) {
    j <= |s| && (j == 0 || j == |s| || !IsWord(s[j - 1]) || !IsWord(s[j]))
  }

  lemma FitsBehindCut(s: string, j: nat, i: nat, key: string)
    requires CleanCut(s, j) && j <= i && key != "" && IsWord(key[0])
    ensures Fits(s, i, key) <==> Fits(s[j..], i - j, key)
  {
    if i + |key| <= |s| {
      assert s[j..][i - j..i - j + |key|] == s[i..i + |key|];
      LowerAt(s[i..i + |key|], 0);
    }
  }

  lemma {:induction false} MatchBehindCut(table: Table, s: string, j: nat, i: nat)
    requires Framed(table) && CleanCut(s, j) && j <= i
    ensures MatchAt(table, s, i) == MatchAt(table, s[j..], i - j)
  {
    if table.Swap? {
      FitsBehindCut(s, j, i, table.key);
      MatchBehindCut(table.more, s, j, i);
    }
  }

  lemma ScanEnds(table: Table, s: string)
    requires Framed(table)
    ensures Scan(table, s, |s|) == ""
  {
  }

  /** The scan of the rest does not depend on what is before a clean cut. */
  lemma {:induction false} ScanBehindCut(table: Table, s: string, t: string, j: nat, i: nat)
    requires Framed(table) && CleanCut(s, j) && t == s[j..] && j <= i <= |s|
    ensures Scan(table, s, i) == Scan(table, t, i - j)
    decreases |s| - i
  {
    hide MatchAt;
    hide Scan;
    hide Framed;
    hide ApplyCase;
    if i == |s| {
      ScanEnds(table, s);
      ScanEnds(table, t);
    } else {
      MatchBehindCut(table, s, j, i);
      if MatchAt(table, s, i).Some? {
        ScanReplaces(table, s, i);
        ScanReplaces(table, t, i - j);
        var k := i + |MatchAt(table, s, i).value.0|;
        assert t[i - j..k - j] == s[i..k];
        ScanBehindCut(table, s, t, j, k);
      } else {
        ScanCopies(table, s, i);
        ScanCopies(table, t, i - j);
        ScanBehindCut(table, s, t, j, i + 1);
      }
    }
  }

  lemma {:induction false} ScanCopiesTo(table: Table, s: string, i: nat, j: nat)
    requires Framed(table) && i <= j <= |s| && forall k :: i <= k < j ==> MatchAt(table, s, k).None?
    ensures Scan(table, s, i) == s[i..j] + Scan(table, s, j)
    decreases j - i
  {
    hide MatchAt;
    hide Scan;
    hide Framed;
    if i < j {
      ScanCopies(table, s, i);
      ScanCopiesTo(table, s, i + 1, j);
      assert s[i..j] == [s[i]] + s[i + 1..j];
    }
  }

  /** Main result: up to the first place where a key stands as a whole word the text is untouched; there
      the first entry of the table whose key stands puts its replacement, in the case of what it replaces;
      and the rest is censored by itself. */
  lemma CensoredAtFirstKey(table: Table, text: string, i: nat, n: nat)
    requires Framed(table) && i < |text| && FirstFit(table, text, i, n)
    requires forall k: nat, key: string :: k < i && IsKey(table, key) ==> !Fits(text, k, key)
    ensures var entry := EntryAt(table, n).value;
            var j := i + |entry.0|;
            j <= |text| &&
            Censored(table, text) == text[..i] + ApplyCase(text[i..j], entry.1) + Censored(table, text[j..])
  {
    hide ApplyCase;
    hide Scan;
    hide MatchAt;
    hide FirstFit;
    hide Framed;
    forall k: nat | k < i ensures MatchAt(table, text, k).None? {
      NoneFitsMeans(table, text, k);
      MatchIffFits(table, text, k);
    }
    ScanCopiesTo(table, text, 0, i);
    FirstFitIsEntry(table, text, i, n);
    MatchIsFirst(table, text, i, n);
    ScanReplaces(table, text, i);
    var j := i + |EntryAt(table, n).value.0|;
    ScanBehindCut(table, text, text[j..], j, j);
    assert text[0..i] == text[..i];
    var a, b, c := text[..i], ApplyCase(text[i..j], EntryAt(table, n).value.1), Scan(table, text, j);
    assert a + (b + c) == a + b + c;
  }

  lemma FirstFitIsEntry(table: Table, s: string, i: nat, n: nat)
    requires FirstFit(table, s, i, n)
    ensures EntryAt(table, n).Some?
  {
  }

  /** Main result: censoring changes a text exactly if a key stands in it somewhere. */
  lemma CensoredIsSameIff(table: Table, text: string)
    requires WellChosen(table)
    ensures Censored(table, text) == text <==>
            forall i: nat, key: string :: IsKey(table, key) ==> !Fits(text, i, key)
  {
    if forall i: nat, key: string :: IsKey(table, key) ==> !Fits(text, i, key) {
      forall i: nat | i < |text| ensures MatchAt(table, text, i).None? {
        NoneFitsMeans(table, text, i);
        MatchIffFits(table, text, i);
      }
      CleanScanCopies(table, text, 0);
    } else {
      var i: nat, key: string :| IsKey(table, key) && Fits(text, i, key);
      NoKeyIsLeft(table, text, i, key);
    }
  }

  /** A word in capitals is replaced in capitals, a capitalized one with a capital, any other as the table
      has it. */
  lemma {:induction false} UpperHasNoLower(s: string)
    ensures forall i :: 0 <= i < |s| ==> !IsLower(Upper(s)[i])
  {
    if s != "" { UpperHasNoLower(s[1..]); }
  }

  lemma CaseIsAdapted(source: string, target: string)
    requires target != ""
    ensures var r := ApplyCase(source, target);
            |r| == |target| && Lower(r) == Lower(target) &&
            (if AllUpper(source) then forall i :: 0 <= i < |r| ==> !IsLower(r[i])
             else if source != "" && IsUpper(source[0]) then !IsLower(r[0]) && r[1..] == target[1..]
             else r == target)
  {
    UpperHasNoLower(target);
  }

  /** Longer keys come first, so that a longer one wins where a shorter one stands in it. */
  predicate LongestFirst(table: Table) {
    table.Swap? && table.more.Swap? ==> |table.key| >= |table.more.key| && LongestFirst(table.more)
  }

  lemma ChatTableIsLongestFirst()
    ensures LongestFirst(TABLE)
  {
    assert LongestFirst(FOURS);
    assert LongestFirst(FIVES);
    assert LongestFirst(SIXES);
    assert LongestFirst(SEVENS);
    assert LongestFirst(EIGHTS);
  }
}
