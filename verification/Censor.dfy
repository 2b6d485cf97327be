/** The whole-word censor: an ordered table of words and phrases with replacements, applied in one scan. */
module Censor {
  import opened Prelude

  /** The alternatives of the pattern in the order they are tried, each with its replacement. */
  datatype Table = End | Swap(key: string, target: string, more: Table)

  predicate IsUpper(c: char) { 'A' <= c <= 'Z' }

  predicate IsLower(c: char) { 'a' <= c <= 'z' }

  predicate IsWord(c: char) { IsUpper(c) || IsLower(c) || '0' <= c <= '9' || c == '_' }

  function ToLower(c: char): (r: char)
    ensures IsWord(r) == IsWord(c)
  {
    if IsUpper(c) then (c as int + 32) as char else c
  }

  function ToUpper(c: char): (r: char)
    ensures ToLower(r) == ToLower(c)
  {
    if IsLower(c) then (c as int - 32) as char else c
  }

  function Lower(s: string): (r: string)
    ensures |r| == |s|
  {
    if s == "" then "" else [ToLower(s[0])] + Lower(s[1..])
  }

  function Upper(s: string): (r: string)
    ensures |r| == |s| && Lower(r) == Lower(s)
  {
    if s == "" then "" else [ToUpper(s[0])] + Upper(s[1..])
  }

  lemma {:induction false} LowerAt(s: string, i: nat)
    requires i < |s|
    ensures Lower(s)[i] == ToLower(s[i])
  {
    if i > 0 { LowerAt(s[1..], i - 1); }
  }

  lemma LowerKeepsWords(s: string, i: nat)
    requires i < |s|
    ensures IsWord(Lower(s)[i]) == IsWord(s[i])
  {
    LowerAt(s, i);
  }

  lemma {:induction false} LowerSlice(s: string, i: nat, j: nat)
    requires i <= j <= |s|
    ensures Lower(s[i..j]) == Lower(s)[i..j]
  {
    forall x | 0 <= x < j - i ensures Lower(s[i..j])[x] == Lower(s)[i..j][x] {
      LowerAt(s[i..j], x);
      LowerAt(s, i + x);
    }
  }

  predicate AllUpper(s: string) {
    (exists i :: 0 <= i < |s| && IsUpper(s[i])) && forall i :: 0 <= i < |s| ==> !IsLower(s[i])
  }

  function ApplyCase(source: string, target: string): (r: string)
    ensures Lower(r) == Lower(target)
  {
    if AllUpper(source) then Upper(target)
    else if source != "" && IsUpper(source[0]) && target != "" then [ToUpper(target[0])] + target[1..]
    else target
  }

  predicate WordBefore(s: string, i: nat)
    requires i <= |s|
  {
    i > 0 && IsWord(s[i - 1])
  }

  predicate WordAfter(s: string, i: nat)
    requires i <= |s|
  {
    i < |s| && IsWord(s[i])
  }

  predicate Boundary(s: string, i: nat)
    requires i <= |s|
  {
    WordBefore(s, i) != WordAfter(s, i)
  }

  /** The key stands here as a whole word or phrase, in whatever case. */
  predicate Fits(s: string, i: nat, key: string) {
    i + |key| <= |s| && Lower(s[i..i + |key|]) == key && Boundary(s, i) && Boundary(s, i + |key|)
  }

  function MatchAt(table: Table, s: string, i: nat): Option<(string, string)> {
    if table.End? then None
    else if Fits(s, i, table.key) then Some((table.key, table.target))
    else MatchAt(table.more, s, i)
  }

  predicate IsKey(table: Table, w: string) { table.Swap? && (table.key == w || IsKey(table.more, w)) }

  /** Every key and replacement begins and ends with a word character. */
  predicate Framed(table: Table) {
    table.Swap? ==>
      table.key != "" && IsWord(table.key[0]) && IsWord(table.key[|table.key| - 1]) &&
      table.target != "" && IsWord(table.target[0]) && IsWord(table.target[|table.target| - 1]) && Framed(table.more)
  }

  lemma {:induction false} MatchFits(table: Table, s: string, i: nat)
    requires Framed(table)
    ensures var m := MatchAt(table, s, i);
            m.Some? ==> m.value.0 != "" && Fits(s, i, m.value.0) && i < |s| && IsWord(s[i]) &&
                        IsWord(s[i + |m.value.0| - 1]) && IsKey(table, m.value.0)
  {
    if table.Swap? {
      if Fits(s, i, table.key) {
        LowerAt(s[i..i + |table.key|], 0);
        LowerAt(s[i..i + |table.key|], |table.key| - 1);
      } else {
        MatchFits(table.more, s, i);
      }
    }
  }

  /** The text from position i on, scanned from left to right. */
  function Scan(table: Table, s: string, i: nat): string
    requires Framed(table) && i <= |s|
    decreases |s| - i
  {
    var m := MatchAt(table, s, i);
    MatchFits(table, s, i);
    if i == |s| then ""
    else if m.Some? then ApplyCase(s[i..i + |m.value.0|], m.value.1) + Scan(table, s, i + |m.value.0|)
    else [s[i]] + Scan(table, s, i + 1)
  }

  function Censored(table: Table, text: string): string
    requires Framed(table)
  {
    Scan(table, text, 0)
  }

  /** How many word characters the text starts with. */
  function Run(s: string): (n: nat)
    ensures n <= |s| && (forall i :: 0 <= i < n ==> IsWord(s[i])) && (n < |s| ==> !IsWord(s[n]))
    ensures s != "" && IsWord(s[0]) ==> n > 0
  {
    if s == "" || !IsWord(s[0]) then 0 else 1 + Run(s[1..])
  }

  /** The words of a text: its longest runs of word characters. */
  function WordsOf(s: string): seq<string>
    decreases |s|
  {
    if s == "" then []
    else if IsWord(s[0]) then [s[..Run(s)]] + WordsOf(s[Run(s)..])
    else WordsOf(s[1..])
  }

  predicate AllWord(s: string) { forall i :: 0 <= i < |s| ==> IsWord(s[i]) }

  lemma OneWord(s: string)
    requires s != "" && AllWord(s)
    ensures WordsOf(s) == [s]
  {
    assert Run(s) == |s|;
    assert s[..|s|] == s && s[|s|..] == "";
  }

  lemma {:induction false} RunInConcat(a: string, b: string)
    requires a == "" || b == "" || !(IsWord(a[|a| - 1]) && IsWord(b[0]))
    ensures a != "" ==> Run(a + b) == Run(a)
  {
    hide IsWord;
    if a != "" && IsWord(a[0]) {
      assert (a + b)[1..] == a[1..] + b;
      RunInConcat(a[1..], b);
      if |a| == 1 { assert a[1..] + b == b; }
    }
  }

  /** Words do not cross a place where one side is not a word character. */
  lemma {:induction false} WordsConcat(a: string, b: string)
    requires a == "" || b == "" || !(IsWord(a[|a| - 1]) && IsWord(b[0]))
    ensures WordsOf(a + b) == WordsOf(a) + WordsOf(b)
    decreases |a|
  {
    hide IsWord;
    if a == "" {
      assert a + b == b;
    } else if IsWord(a[0]) {
      var n := Run(a);
      RunInConcat(a, b);
      assert (a + b)[..n] == a[..n] && (a + b)[n..] == a[n..] + b;
      WordsConcat(a[n..], b);
    } else {
      assert (a + b)[1..] == a[1..] + b;
      WordsConcat(a[1..], b);
    }
  }

  predicate WordAt(s: string, i: nat, j: nat) {
    i < j <= |s| && (forall k :: i <= k < j ==> IsWord(s[k])) &&
    (i == 0 || !IsWord(s[i - 1])) && (j == |s| || !IsWord(s[j]))
  }

  lemma WordAtShifts(s: string, d: nat, i: nat, j: nat)
    requires WordAt(s, i, j) && d <= i && (d == i ==> d == 0 || !IsWord(s[d - 1]))
    ensures WordAt(s[d..], i - d, j - d) && s[d..][i - d..j - d] == s[i..j]
  {
  }

  /** A run of word characters that cannot be extended is one of the words. */
  lemma {:induction false} WordAtIsWord(s: string, i: nat, j: nat)
    requires WordAt(s, i, j)
    ensures s[i..j] in WordsOf(s)
    decreases |s|
  {
    hide IsWord;
    if !IsWord(s[0]) {
      WordAtShifts(s, 1, i, j);
      WordAtIsWord(s[1..], i - 1, j - 1);
    } else if i == 0 {
      assert Run(s) == j;
    } else {
      var n := Run(s);
      assert i > n;
      WordAtShifts(s, n, i, j);
      WordAtIsWord(s[n..], i - n, j - n);
    }
  }

  predicate NoKeyWord(table: Table, s: string) { forall w :: w in WordsOf(Lower(s)) ==> !IsKey(table, w) }

  /** No word of a replacement is a key. */
  predicate TargetsClean(all: Table, table: Table) {
    table.Swap? ==> NoKeyWord(all, table.target) && TargetsClean(all, table.more)
  }

  /** The longest run of word characters at the end. */
  function LastRun(s: string): (n: nat)
    ensures n <= |s| && (forall i :: |s| - n <= i < |s| ==> IsWord(s[i])) && (n < |s| ==> !IsWord(s[|s| - n - 1]))
    ensures s != "" && IsWord(s[|s| - 1]) ==> n > 0
  {
    if s == "" || !IsWord(s[|s| - 1]) then 0 else 1 + LastRun(s[..|s| - 1])
  }

  /** The last word of every phrase is itself a key. */
  predicate LastWordsAreKeys(all: Table, table: Table) {
    table.Swap? ==>
      IsKey(all, table.key[|table.key| - LastRun(table.key)..]) && LastWordsAreKeys(all, table.more)
  }

  predicate WellChosen(table: Table) {
    Framed(table) && TargetsClean(table, table) && LastWordsAreKeys(table, table)
  }

  lemma {:induction false} LowerConcat(a: string, b: string)
    ensures Lower(a + b) == Lower(a) + Lower(b)
  {
    hide IsWord;
    if a == "" {
      assert a + b == b;
    } else {
      assert (a + b)[1..] == a[1..] + b;
      LowerConcat(a[1..], b);
    }
  }

  /** Nothing new appears where two texts meet at the edge of a word. */
  lemma NoKeyConcat(table: Table, a: string, b: string)
    requires NoKeyWord(table, a) && NoKeyWord(table, b)
    requires a == "" || b == "" || !(IsWord(a[|a| - 1]) && IsWord(b[0]))
    ensures NoKeyWord(table, a + b)
  {
    LowerConcat(a, b);
    if a != "" && b != "" {
      LowerAt(a, |a| - 1);
      LowerAt(b, 0);
    }
    WordsConcat(Lower(a), Lower(b));
  }

  lemma NonWordIsClean(table: Table, c: char)
    requires !IsWord(c)
    ensures NoKeyWord(table, [c])
  {
    assert Lower([c])[1..] == "";
  }

  lemma {:induction false} TargetIsClean(all: Table, table: Table, s: string, i: nat)
    requires Framed(table) && TargetsClean(all, table) && MatchAt(table, s, i).Some?
    ensures var target := MatchAt(table, s, i).value.1;
            NoKeyWord(all, target) && target != "" && IsWord(target[0]) && IsWord(target[|target| - 1])
  {
    if !Fits(s, i, table.key) { TargetIsClean(all, table.more, s, i); }
  }

  lemma CasedIsClean(table: Table, source: string, target: string)
    requires NoKeyWord(table, target) && target != "" && IsWord(target[0]) && IsWord(target[|target| - 1])
    ensures var r := ApplyCase(source, target);
            NoKeyWord(table, r) && r != "" && IsWord(r[0]) && IsWord(r[|r| - 1])
  {
    var r := ApplyCase(source, target);
    assert |r| == |Lower(r)| == |target|;
    LowerAt(r, 0);
    LowerAt(target, 0);
    LowerAt(r, |r| - 1);
    LowerAt(target, |r| - 1);
  }

  /** Where a key stands as a whole word it is matched. */
  lemma {:induction false} KeysMatch(table: Table, s: string, i: nat, key: string)
    requires IsKey(table, key) && Fits(s, i, key)
    ensures MatchAt(table, s, i).Some?
  {
    if table.key != key && !Fits(s, i, table.key) { KeysMatch(table.more, s, i, key); }
  }

  lemma ScanCopies(table: Table, s: string, i: nat)
    requires Framed(table) && i < |s| && MatchAt(table, s, i).None?
    ensures Scan(table, s, i) == [s[i]] + Scan(table, s, i + 1)
  {
  }

  lemma ScanReplaces(table: Table, s: string, i: nat)
    requires Framed(table) && i < |s| && MatchAt(table, s, i).Some?
    ensures var m := MatchAt(table, s, i).value; var j := i + |m.0|;
            i < j <= |s| && !(WordBefore(s, j) && WordAfter(s, j)) && IsWord(s[i]) && IsWord(s[j - 1]) &&
            Scan(table, s, i) == ApplyCase(s[i..j], m.1) + Scan(table, s, j)
  {
    MatchFits(table, s, i);
  }

  /** A word that is not matched at its start is copied. */
  lemma {:induction false} WordIsCopied(table: Table, s: string, i: nat, j: nat)
    requires Framed(table) && i <= j <= |s| && (forall k :: i <= k < j ==> IsWord(s[k]))
    requires i < j ==> WordBefore(s, i) || MatchAt(table, s, i).None?
    ensures Scan(table, s, i) == s[i..j] + Scan(table, s, j)
    decreases j - i
  {
    hide MatchAt;
    hide Scan;
    if i < j {
      NoMatchInside(table, s, i);
      ScanCopies(table, s, i);
      WordIsCopied(table, s, i + 1, j);
      assert s[i..j] == [s[i]] + s[i + 1..j];
    }
  }

  lemma NoMatchInside(table: Table, s: string, i: nat)
    requires Framed(table) && i < |s|
    ensures (WordBefore(s, i) && IsWord(s[i])) || !IsWord(s[i]) ==> MatchAt(table, s, i).None?
  {
    MatchFits(table, s, i);
  }

  lemma UnmatchedWordIsClean(table: Table, s: string, i: nat, j: nat)
    requires WordAt(s, i, j) && MatchAt(table, s, i).None?
    ensures NoKeyWord(table, s[i..j])
  {
    var w := s[i..j];
    forall x | 0 <= x < |w| ensures IsWord(Lower(w)[x]) { LowerKeepsWords(w, x); }
    OneWord(Lower(w));
    if IsKey(table, Lower(w)) {
      assert i + |Lower(w)| == j;
      KeysMatch(table, s, i, Lower(w));
    }
  }

  /** The scan from i leaves no key word, and keeps the kind of what it starts with. */
  predicate CleanFrom(table: Table, s: string, i: nat)
    requires Framed(table) && i <= |s|
  {
    var out := Scan(table, s, i);
    NoKeyWord(table, out) && (out == "" <==> i == |s|) && (i < |s| ==> IsWord(out[0]) == IsWord(s[i]))
  }

  lemma ReplacedIsClean(table: Table, s: string, i: nat, j: nat)
    requires WellChosen(table) && i < |s| && MatchAt(table, s, i).Some? && j == i + |MatchAt(table, s, i).value.0|
    requires j <= |s| && CleanFrom(table, s, j)
    ensures CleanFrom(table, s, i)
  {
    hide IsWord;
    var m := MatchAt(table, s, i).value;
    var r := ApplyCase(s[i..j], m.1);
    assert NoKeyWord(table, r) && r != "" && IsWord(r[0]) && IsWord(r[|r| - 1]) by {
      TargetIsClean(table, table, s, i);
      CasedIsClean(table, s[i..j], m.1);
    }
    ScanReplaces(table, s, i);
    hide MatchAt;
    hide Scan;
    hide NoKeyWord;
    hide TargetsClean;
    hide LastWordsAreKeys;
    hide ApplyCase;
    NoKeyConcat(table, r, Scan(table, s, j));
  }

  lemma CopiedCharIsClean(table: Table, s: string, i: nat)
    requires WellChosen(table) && i < |s| && !IsWord(s[i]) && MatchAt(table, s, i).None? && CleanFrom(table, s, i + 1)
    ensures CleanFrom(table, s, i)
  {
    ScanCopies(table, s, i);
    NonWordIsClean(table, s[i]);
    NoKeyConcat(table, [s[i]], Scan(table, s, i + 1));
  }

  lemma CopiedWordIsClean(table: Table, s: string, i: nat, j: nat)
    requires WellChosen(table) && WordAt(s, i, j) && MatchAt(table, s, i).None? && CleanFrom(table, s, j)
    ensures CleanFrom(table, s, i)
  {
    hide MatchAt;
    hide Scan;
    hide NoKeyWord;
    WordIsCopied(table, s, i, j);
    UnmatchedWordIsClean(table, s, i, j);
    NoKeyConcat(table, s[i..j], Scan(table, s, j));
  }

  /** From any place that is not inside a word. */
  lemma {:induction false} ScanIsClean(table: Table, s: string, i: nat)
    requires WellChosen(table) && i <= |s| && !(WordBefore(s, i) && WordAfter(s, i))
    ensures CleanFrom(table, s, i)
    decreases |s| - i
  {
    hide MatchAt;
    hide CleanFrom;
    hide TargetsClean;
    hide LastWordsAreKeys;
    hide ApplyCase;
    hide Scan;
    if i == |s| {
      EmptyIsClean(table, s);
    } else if MatchAt(table, s, i).Some? {
      ScanReplaces(table, s, i);
      var j := i + |MatchAt(table, s, i).value.0|;
      ScanIsClean(table, s, j);
      ReplacedIsClean(table, s, i, j);
    } else if !IsWord(s[i]) {
      ScanIsClean(table, s, i + 1);
      CopiedCharIsClean(table, s, i);
    } else {
      var j := WordEnd(s, i);
      ScanIsClean(table, s, j);
      CopiedWordIsClean(table, s, i, j);
    }
  }

  lemma EmptyIsClean(table: Table, s: string)
    requires Framed(table)
    ensures CleanFrom(table, s, |s|)
  {
    assert Lower("") == "";
  }

  function WordEnd(s: string, i: nat): (j: nat)
    requires i < |s| && IsWord(s[i]) && !WordBefore(s, i)
    ensures WordAt(s, i, j)
  {
    var j := i + Run(s[i..]);
    assert forall k :: i <= k < j ==> s[k] == s[i..][k - i];
    assert j < |s| ==> s[j] == s[i..][j - i];
    j
  }

  lemma FitSpells(s: string, i: nat, key: string)
    requires Fits(s, i, key)
    ensures i + |key| <= |s| && Lower(s)[i..i + |key|] == key && Boundary(s, i) && Boundary(s, i + |key|)
  {
    hide Lower;
    hide IsWord;
    LowerSlice(s, i, i + |key|);
  }

  predicate SameWords(s: string, low: string) {
    |low| == |s| && forall x :: 0 <= x < |s| ==> IsWord(low[x]) == IsWord(s[x])
  }

  lemma FitEdges(s: string, low: string, i: nat, j: nat, key: string)
    requires key != "" && IsWord(key[0]) && IsWord(key[|key| - 1]) && SameWords(s, low)
    requires j == i + |key| && j <= |s| && low[i..j] == key && Boundary(s, i) && Boundary(s, j)
    ensures i == 0 || !IsWord(low[i - 1])
    ensures j == |s| || !IsWord(low[j])
  {
    hide IsWord;
    assert low[i] == low[i..j][0] && low[j - 1] == low[i..j][|key| - 1];
  }

  lemma LastRunStands(low: string, i: nat, j: nat, key: string)
    requires key != "" && IsWord(key[|key| - 1]) && j == i + |key| && j <= |low| && low[i..j] == key
    requires i == 0 || !IsWord(low[i - 1])
    requires j == |low| || !IsWord(low[j])
    ensures !LastWordMissing(low, key)
  {
    hide LastRun;
    hide IsWord;
    hide WordsOf;
    var n := LastRun(key);
    forall x | i <= x < j ensures low[x] == key[x - i] { assert low[x] == low[i..j][x - i]; }
    WordAtIsWord(low, j - n, j);
    assert low[j - n..j] == key[|key| - n..];
  }

  predicate LastWordMissing(low: string, key: string) { key[|key| - LastRun(key)..] !in WordsOf(low) }

  lemma FitLeavesLastWord(s: string, low: string, i: nat, key: string)
    requires key != "" && IsWord(key[0]) && IsWord(key[|key| - 1]) && Fits(s, i, key) && low == Lower(s)
    ensures !LastWordMissing(low, key)
  {
    var j := i + |key|;
    FitSpells(s, i, key);
    forall x | 0 <= x < |s| ensures IsWord(low[x]) == IsWord(s[x]) { LowerKeepsWords(s, x); }
    assert SameWords(s, low);
    hide Lower;
    hide Fits;
    FitEdges(s, low, i, j, key);
    LastRunStands(low, i, j, key);
  }

  /** A phrase that fits brings its last word with it. */
  lemma {:induction false} FitBringsKeyWord(all: Table, table: Table, s: string, i: nat, key: string)
    requires Framed(table) && LastWordsAreKeys(all, table) && IsKey(table, key) && Fits(s, i, key)
    ensures !NoKeyWord(all, s)
  {
    hide Fits;
    hide LastRun;
    hide WordsOf;
    if table.key == key {
      FitLeavesLastWord(s, Lower(s), i, key);
    } else {
      FitBringsKeyWord(all, table.more, s, i, key);
    }
  }

  /** Main result: no key is left anywhere in a censored text as a whole word or phrase, in any case. */
  lemma NoKeyIsLeft(table: Table, text: string, i: nat, key: string)
    requires WellChosen(table) && IsKey(table, key)
    ensures !Fits(Censored(table, text), i, key)
  {
    ScanIsClean(table, text, 0);
    assert CleanFrom(table, text, 0);
    if Fits(Censored(table, text), i, key) { FitBringsKeyWord(table, table, Censored(table, text), i, key); }
  }

  lemma {:induction false} NothingFitsNothingMatches(table: Table, s: string, i: nat)
    requires forall key :: IsKey(table, key) ==> !Fits(s, i, key)
    ensures MatchAt(table, s, i).None?
  {
    if table.Swap? {
      assert IsKey(table, table.key);
      forall key | IsKey(table.more, key) ensures !Fits(s, i, key) { assert IsKey(table, key); }
      NothingFitsNothingMatches(table.more, s, i);
    }
  }

  lemma {:induction false} CleanScanCopies(table: Table, s: string, i: nat)
    requires Framed(table) && i <= |s| && forall j :: i <= j < |s| ==> MatchAt(table, s, j).None?
    ensures Scan(table, s, i) == s[i..]
    decreases |s| - i
  {
    if i < |s| { CleanScanCopies(table, s, i + 1); }
  }

  /** Main result: censoring is idempotent. */
  lemma CensoringTwiceIsOnce(table: Table, text: string)
    requires WellChosen(table)
    ensures Censored(table, Censored(table, text)) == Censored(table, text)
  {
    var out := Censored(table, text);
    forall i | 0 <= i < |out| ensures MatchAt(table, out, i).None? {
      forall key | IsKey(table, key) ensures !Fits(out, i, key) { NoKeyIsLeft(table, text, i, key); }
      NothingFitsNothingMatches(table, out, i);
    }
    CleanScanCopies(table, out, 0);
  }

  /** A block of a message: text, or anything else. */
  datatype ContentBlock = TextBlock(text: string) | OtherBlock(data: string)

  function CensoredBlock(table: Table, block: ContentBlock): ContentBlock
    requires Framed(table)
  {
    if block.TextBlock? then TextBlock(Censored(table, block.text)) else block
  }

  /** Text blocks are censored and everything else passes through in place. */
  method CensorContent(table: Table, content: seq<ContentBlock>) returns (censored: seq<ContentBlock>)
    requires WellChosen(table)
    ensures |censored| == |content|
    ensures forall i :: 0 <= i < |content| ==>
              censored[i].TextBlock? == content[i].TextBlock? &&
              (content[i].OtherBlock? ==> censored[i] == content[i]) &&
              (content[i].TextBlock? ==> NoKeyWord(table, censored[i].text))
    ensures forall i :: 0 <= i < |content| ==> censored[i] == CensoredBlock(table, content[i])
  {
    hide Censored;
    hide NoKeyWord;
    hide TargetsClean;
    hide LastWordsAreKeys;
    censored := [];
    for i := 0 to |content|
      invariant |censored| == i
      invariant forall j :: 0 <= j < i ==> censored[j] == CensoredBlock(table, content[j])
      invariant forall j :: 0 <= j < i && content[j].TextBlock? ==> NoKeyWord(table, censored[j].text)
    {
      if content[i].TextBlock? {
        CensoredIsClean(table, content[i].text);
        censored := censored + [TextBlock(Censored(table, content[i].text))];
      } else {
        censored := censored + [content[i]];
      }
    }
  }

  lemma CensoredIsClean(table: Table, text: string)
    requires WellChosen(table)
    ensures NoKeyWord(table, Censored(table, text))
  {
    ScanIsClean(table, text, 0);
    assert CleanFrom(table, text, 0);
  }
}
