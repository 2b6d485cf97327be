/** The chat's own censor table, and that it is well chosen. */
module CensorTable {
  import opened Prelude
  import opened Censor

  const FOURS := Swap("fuck", "fork", Swap("shit", "shirt", Swap("damn", "dang", Swap("ass", "ash", End))))
  const FIVES := Swap("shits", "shirts", Swap("bitch", "bench", FOURS))
  const SIXES := Swap("fucked", "forked", Swap("fucker", "forker", Swap("shitty", "shirty", FIVES)))
  const SEVENS := Swap("asshole", "ash-hole", Swap("fucking", "forking", Swap("fuckers", "forkers",
                    Swap("bitches", "benches", SIXES))))
  const EIGHTS := Swap("bullshit", "bullshirt", Swap("assholes", "ash-holes", SEVENS))

  /** Longest keys first, as the pattern lists them. */
  const TABLE := Swap("son of a bitch", "son of a bench", Swap("motherfuckers", "motherforkers",
                   Swap("motherfucker", "motherforker", EIGHTS)))

  /** A mark that every key bears and no word of a replacement does. */
  predicate Marked(w: string) {
    |w| > 2 &&
    ((w[0] == 'f' && w[1] == 'u') || (w[0] == 'b' && w[1] == 'i') || (w[1] == 's' && w[2] == 's') || w[2] == 'm' ||
     (|w| > 3 && w[0] == 's' && w[3] == 't') || (|w| > 3 && w[3] == ' ') || (|w| == 8 && w[6] == 'i') || (|w| > 11 && w[7] == 'u'))
  }

  predicate Letters(s: string) { forall i :: 0 <= i < |s| ==> IsLower(s[i]) }

  lemma {:induction false} LettersStay(s: string)
    requires Letters(s)
    ensures Lower(s) == s
  {
    if s != "" { LettersStay(s[1..]); }
  }

  predicate NoneMarked(s: string) { forall w :: w in WordsOf(Lower(s)) ==> !Marked(w) }

  predicate Ends(s: string) { s != "" && IsWord(s[0]) && IsWord(s[|s| - 1]) }

  predicate EntryOk(all: Table, key: string, target: string) {
    Ends(key) && Ends(target) && Marked(key) && NoneMarked(target) &&
    (Letters(key) || IsKey(all, key[|key| - LastRun(key)..]))
  }

  predicate EntriesOk(all: Table, table: Table) {
    table.Swap? ==> EntryOk(all, table.key, table.target) && EntriesOk(all, table.more)
  }

  lemma PlainTarget(target: string)
    requires target != "" && Letters(target) && !Marked(target)
    ensures NoneMarked(target)
  {
    LettersStay(target);
    OneWord(target);
  }

  lemma AddPlain(all: Table, key: string, target: string, more: Table) returns (t: Table)
    requires |key| > 2 && Letters(key) && Marked(key) && target != "" && Letters(target) && !Marked(target)
    requires EntriesOk(all, more)
    ensures t == Swap(key, target, more) && EntriesOk(all, t)
  {
    PlainTarget(target);
    t := Swap(key, target, more);
  }

  lemma AddOther(all: Table, key: string, target: string, more: Table) returns (t: Table)
    requires EntryOk(all, key, target) && EntriesOk(all, more)
    ensures t == Swap(key, target, more) && EntriesOk(all, t)
  {
    t := Swap(key, target, more);
  }

  lemma JoinedTarget(a: string, c: char, b: string)
    requires NoneMarked(a) && NoneMarked(b) && !IsWord(c)
    ensures NoneMarked(a + [c] + b)
  {
    assert Lower([c]) == [c] && [c][1..] == "";
    LowerConcat(a + [c], b);
    LowerConcat(a, [c]);
    LastOfLower(a + [c]);
    WordsConcat(Lower(a), [c]);
    WordsConcat(Lower(a) + [c], Lower(b));
  }

  lemma LastOfLower(s: string)
    requires s != ""
    ensures Lower(s)[|s| - 1] == ToLower(s[|s| - 1])
  {
    LowerAt(s, |s| - 1);
  }

  lemma FoursOk(all: Table)
    ensures EntriesOk(all, FOURS)
  {
    hide EntriesOk;
    var t := NothingOk(all);
    t := AddPlain(all, "ass", "ash", t);
    t := AddPlain(all, "damn", "dang", t);
    t := AddPlain(all, "shit", "shirt", t);
    t := AddPlain(all, "fuck", "fork", t);
  }

  lemma NothingOk(all: Table) returns (t: Table)
    ensures t == End && EntriesOk(all, t)
  {
    t := End;
  }

  lemma SixesOk(all: Table)
    ensures EntriesOk(all, SIXES)
  {
    hide EntriesOk;
    FoursOk(all);
    var t := AddPlain(all, "bitch", "bench", FOURS);
    t := AddPlain(all, "shits", "shirts", t);
    t := AddPlain(all, "shitty", "shirty", t);
    t := AddPlain(all, "fucker", "forker", t);
    t := AddPlain(all, "fucked", "forked", t);
  }

  /** The two replacements with a hyphen. */
  lemma HyphenOk(all: Table, key: string, tail: string, target: string)
    requires |key| > 2 && Letters(key) && Marked(key) && target == "ash" + ['-'] + tail
    requires tail != "" && Letters(tail) && !Marked(tail)
    ensures EntryOk(all, key, target)
  {
    PlainTarget("ash");
    PlainTarget(tail);
    JoinedTarget("ash", '-', tail);
  }

  lemma SevensOk(all: Table)
    ensures EntriesOk(all, SEVENS)
  {
    hide EntriesOk;
    hide EntryOk;
    SixesOk(all);
    var t := AddPlain(all, "bitches", "benches", SIXES);
    t := AddPlain(all, "fuckers", "forkers", t);
    t := AddPlain(all, "fucking", "forking", t);
    HyphenOk(all, "asshole", "hole", "ash-hole");
    t := AddOther(all, "asshole", "ash-hole", t);
  }

  lemma EightsOk(all: Table)
    ensures EntriesOk(all, EIGHTS)
  {
    hide EntriesOk;
    hide EntryOk;
    SevensOk(all);
    HyphenOk(all, "assholes", "holes", "ash-holes");
    var t := AddOther(all, "assholes", "ash-holes", SEVENS);
    t := AddPlain(all, "bullshit", "bullshirt", t);
  }

  lemma PhraseTarget()
    ensures NoneMarked("son of a bench")
  {
    hide NoneMarked;
    PlainTarget("son");
    PlainTarget("of");
    PlainTarget("a");
    PlainTarget("bench");
    JoinedTarget("son", ' ', "of");
    assert "son" + [' '] + "of" == "son of";
    JoinedTarget("son of", ' ', "a");
    assert "son of" + [' '] + "a" == "son of a";
    JoinedTarget("son of a", ' ', "bench");
    assert "son of a" + [' '] + "bench" == "son of a bench";
  }

  /** The last word of the phrase is a key too. */
  lemma PhraseOk()
    ensures EntryOk(TABLE, "son of a bitch", "son of a bench")
  {
    hide NoneMarked;
    PhraseTarget();
    PhraseTail("son of a ", "bitch");
    assert "son of a " + "bitch" == "son of a bitch";
    assert "son of a bitch"[9..] == "bitch";
    assert IsKey(FIVES, "bitch");
    assert IsKey(SIXES, "bitch");
    assert IsKey(SEVENS, "bitch");
    assert IsKey(EIGHTS, "bitch");
    assert IsKey(TABLE, "bitch");
  }

  lemma {:induction false} PhraseTail(front: string, word: string)
    requires front != "" && !IsWord(front[|front| - 1]) && (forall i :: 0 <= i < |word| ==> IsWord(word[i]))
    ensures LastRun(front + word) == |word|
  {
    if word == "" {
      assert front + word == front;
    } else {
      var n := |word| - 1;
      assert (front + word)[..|front| + n] == front + word[..n];
      PhraseTail(front, word[..n]);
    }
  }

  lemma TableEntriesOk()
    ensures EntriesOk(TABLE, TABLE)
  {
    hide EntriesOk;
    hide EntryOk;
    EightsOk(TABLE);
    var t := AddPlain(TABLE, "motherfucker", "motherforker", EIGHTS);
    t := AddPlain(TABLE, "motherfuckers", "motherforkers", t);
    PhraseOk();
    t := AddOther(TABLE, "son of a bitch", "son of a bench", t);
  }

  lemma {:induction false} EntriesAreFramed(all: Table, table: Table)
    requires EntriesOk(all, table)
    ensures Framed(table)
  {
    hide NoneMarked;
    hide Marked;
    if table.Swap? { EntriesAreFramed(all, table.more); }
  }

  lemma {:induction false} KeysAreMarked(all: Table, table: Table, w: string)
    requires EntriesOk(all, table) && IsKey(table, w)
    ensures Marked(w)
  {
    if table.key != w { KeysAreMarked(all, table.more, w); }
  }

  lemma {:induction false} TargetsAreClean(all: Table, table: Table)
    requires EntriesOk(all, all) && EntriesOk(all, table)
    ensures TargetsClean(all, table)
  {
    if table.Swap? {
      forall w | w in WordsOf(Lower(table.target)) ensures !IsKey(all, w) {
        if IsKey(all, w) { KeysAreMarked(all, all, w); }
      }
      TargetsAreClean(all, table.more);
    }
  }

  predicate PartOf(table: Table, all: Table) { table == all || (all.Swap? && PartOf(table, all.more)) }

  lemma {:induction false} PartsGoOn(table: Table, all: Table)
    requires PartOf(table, all) && table.Swap?
    ensures PartOf(table.more, all) && IsKey(all, table.key)
  {
    if table != all { PartsGoOn(table, all.more); }
  }

  lemma {:induction false} LastWordsFound(all: Table, table: Table)
    requires EntriesOk(all, table) && PartOf(table, all)
    ensures LastWordsAreKeys(all, table)
  {
    hide NoneMarked;
    hide Marked;
    if table.Swap? {
      PartsGoOn(table, all);
      if Letters(table.key) { WholeRun(table.key); }
      LastWordsFound(all, table.more);
    }
  }

  lemma {:induction false} WholeRun(s: string)
    requires Letters(s)
    ensures LastRun(s) == |s| && s[|s| - LastRun(s)..] == s
  {
    if s != "" { WholeRun(s[..|s| - 1]); }
  }

  lemma TableIsWellChosen()
    ensures WellChosen(TABLE)
  {
    hide EntriesOk;
    hide Framed;
    hide TargetsClean;
    hide LastWordsAreKeys;
    TableEntriesOk();
    EntriesAreFramed(TABLE, TABLE);
    TargetsAreClean(TABLE, TABLE);
    LastWordsFound(TABLE, TABLE);
  }

  /** Main result for the chat's table: its keys never survive, and censoring twice is censoring once. */
  lemma ChatCensor(text: string, i: nat, key: string)
    requires IsKey(TABLE, key)
    ensures WellChosen(TABLE) && !Fits(Censored(TABLE, text), i, key)
    ensures Censored(TABLE, Censored(TABLE, text)) == Censored(TABLE, text)
  {
    hide IsKey;
    hide Fits;
    hide Censored;
    hide WellChosen;
    TableIsWellChosen();
    NoKeyIsLeft(TABLE, text, i, key);
    CensoringTwiceIsOnce(TABLE, text);
  }
}
