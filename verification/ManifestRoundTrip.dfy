/** Reading a printed manifest back: when it gives back what was printed, and when it does not. */
module ManifestRoundTrip {
  import opened Prelude
  import opened Attachments
  import opened PyText
  import opened Manifest
  import Decimal

  /** The pattern's tail fits nowhere in s. */
  predicate NoTail(s: string) { Tail(s).None? && (s != "" ==> NoTail(s[1..])) }

  /** Somewhere in the text white space is followed by the id key. */
  predicate Shadowed(s: string) { s != "" && ((IsSpace(s[0]) && ID_KEY <= TrimStart(s)) || Shadowed(s[1..])) }

  lemma {:induction false} NoTailInWord(word: string, s: string)
    requires NoSpaces(word) && NoTail(s)
    ensures NoTail(word + s)
  {
    if word == "" {
      assert word + s == s;
    } else {
      assert (word + s)[1..] == word[1..] + s;
      NoTailInWord(word[1..], s);
    }
  }

  lemma NoTailAtComma(next: string)
    requires next != "" && !IsSpace(next[0]) && next[0] != '(' && NoTail(next)
    ensures NoTail(", " + next)
  {
    var s := " " + next;
    TrimStartSkips(" ", next);
    assert s[1..] == next && Tail(s).None?;
    assert NoTail(s);
    assert (", " + next)[1..] == s;
  }

  lemma {:induction false} TrimStartSplits(f: string, rest: string)
    requires rest != "" && !IsSpace(rest[0])
    ensures TrimStart(f + rest) == TrimStart(f) + rest && |TrimStart(f)| <= |f| && TrimStart(f) == f[|f| - |TrimStart(f)|..]
    ensures TrimStart(f) != "" ==> !IsSpace(TrimStart(f)[0])
  {
    if f == "" {
      assert f + rest == rest;
    } else if IsSpace(f[0]) {
      assert (f + rest)[1..] == f[1..] + rest;
      TrimStartSplits(f[1..], rest);
    }
  }

  /** The id key fits before a comma or a space, or not at all. */
  lemma KeyFits(g: string, rest: string)
    requires rest != "" && (rest[0] == ',' || rest[0] == ' ')
    ensures ID_KEY <= g + rest <==> ID_KEY <= g
  {
    assert forall i :: 0 <= i < |ID_KEY| ==> ID_KEY[i] != ',' && ID_KEY[i] != ' ';
    assert (g + rest)[|g|] == rest[0];
  }

  lemma TailWithoutKey(s: string)
    requires s == "" || !IsSpace(s[0]) || !(ID_KEY <= TrimStart(s))
    ensures Tail(s).None?
  {
  }

  lemma TailNeedsMime(s: string, id: string, next: string)
    requires s != "" && IsSpace(s[0]) && TrimStart(s) == ID_KEY + id + (", " + next)
    requires NoDelimiter(id) && next != "" && !IsSpace(next[0]) && MimeTail(next).None?
    ensures Tail(s).None?
  {
    FieldReads(ID_KEY, id, ", " + next);
    CommaSpaceReads(next);
  }

  lemma TailInField(f: string, next: string)
    requires f != "" && NoDelimiter(f) && next != "" && !IsSpace(next[0])
    requires !(IsSpace(f[0]) && ID_KEY <= TrimStart(f)) || MimeTail(next).None?
    ensures Tail(f + ", " + next).None?
  {
    hide Tail;
    hide MimeTail;
    assert !IsSpace(',');
    hide IsSpace;
    var s, rest, g := f + ", " + next, ", " + next, TrimStart(f);
    assert s == f + rest;
    TrimStartSplits(f, rest);
    KeyFits(g, rest);
    if IsSpace(f[0]) && ID_KEY <= g {
      var id := g[|ID_KEY|..];
      assert g == ID_KEY + id;
      TailNeedsMime(s, id, next);
    } else {
      TailWithoutKey(s);
    }
  }

  lemma {:induction false} NoTailInField(f: string, next: string)
    requires NoDelimiter(f) && next != "" && !IsSpace(next[0]) && NoTail(", " + next)
    requires !Shadowed(f) || MimeTail(next).None?
    ensures NoTail(f + ", " + next)
  {
    hide MimeTail;
    if f == "" {
      assert f + ", " + next == ", " + next;
    } else {
      TailInField(f, next);
      assert (f + ", " + next)[1..] == f[1..] + ", " + next;
      NoTailInField(f[1..], next);
    }
  }

  lemma NoTailFromSize(size: string)
    requires NoSpaces(size)
    ensures NoTail(FromSize(size))
  {
    assert NoTail("");
    NoTailInWord(FromSize(size), "");
    assert FromSize(size) + "" == FromSize(size);
  }

  lemma NoTailInKeyField(key: string, f: string, next: string)
    requires NoSpaces(key) && NoDelimiter(f) && NoTail(next)
    requires next != "" && !IsSpace(next[0]) && next[0] != '('
    requires !Shadowed(f) || MimeTail(next).None?
    ensures NoTail(key + f + ", " + next)
  {
    hide MimeTail;
    NoTailAtComma(next);
    NoTailInField(f, next);
    NoTailInWord(key, f + ", " + next);
    assert key + f + ", " + next == key + (f + ", " + next);
  }

  lemma NoTailFromMime(mime: string, kind: string, size: string)
    requires NoDelimiter(mime) && NoDelimiter(kind) && NoSpaces(size)
    ensures NoTail(FromMime(mime, kind, size))
  {
    NoTailFromSize(size);
    NotMime(FromSize(size), 's');
    NotMime(FromKind(kind, size), 'k');
    hide MimeTail;
    NoTailInKeyField(KIND_KEY, kind, FromSize(size));
    NoTailInKeyField(MIME_KEY, mime, FromKind(kind, size));
  }

  lemma NotMime(next: string, c: char)
    requires next != "" && next[0] == c && c != 'm'
    ensures MimeTail(next).None?
  {
    assert MIME_KEY[0] == 'm';
  }

  lemma NoTailFromId(id: string, mime: string, kind: string, size: string)
    requires NoDelimiter(id) && NoDelimiter(mime) && NoDelimiter(kind) && NoSpaces(size)
    requires !Shadowed(id) || MimeTail(FromMime(mime, kind, size)).None?
    ensures NoTail(FromId(id, mime, kind, size))
  {
    NoTailFromMime(mime, kind, size);
    hide MimeTail;
    NoTailInKeyField(ID_KEY, id, FromMime(mime, kind, size));
  }

  lemma DigitsHaveNoSpaces(n: int)
    ensures NoSpaces(Decimal.PrintInt(n)) && SingleLine(Decimal.PrintInt(n))
  {
    Decimal.PrintValue(if n < 0 then -n else n);
  }

  /** The pattern reads no sign, so what was printed with a negative size is no tail. */
  lemma SignUnread(mime: string, kind: string, digits: string)
    requires NoDelimiter(mime) && NoDelimiter(kind)
    ensures MimeTail(FromMime(mime, kind, "-" + digits)).None?
  {
    var size := "-" + digits;
    var fromSize, fromKind := FromSize(size), FromKind(kind, size);
    assert fromSize == SIZE_KEY + (size + ")") && (size + ")")[0] == '-';
    assert SizeTail(fromSize).None?;
    assert fromKind == KIND_KEY + kind + (", " + fromSize);
    FieldReads(KIND_KEY, kind, ", " + fromSize);
    CommaSpaceReads(fromSize);
    assert KindTail(fromKind).None?;
    hide SizeTail;
    hide KindTail;
    assert FromMime(mime, kind, size) == MIME_KEY + mime + (", " + fromKind);
    FieldReads(MIME_KEY, mime, ", " + fromKind);
    CommaSpaceReads(fromKind);
  }

  lemma TailFits(s: string, id: string, next: string)
    requires s != "" && IsSpace(s[0]) && TrimStart(s) == ID_KEY + id + (", " + next)
    requires NoDelimiter(id) && next != "" && !IsSpace(next[0]) && MimeTail(next).Some?
    ensures Tail(s).Some?
  {
    hide MimeTail;
    FieldReads(ID_KEY, id, ", " + next);
    CommaSpaceReads(next);
  }

  /** A shadowed id makes the tail fit inside it. */
  lemma {:induction false} ShadowedIdMatches(id: string, next: string)
    requires NoDelimiter(id) && Shadowed(id) && next != "" && !IsSpace(next[0]) && MimeTail(next).Some?
    ensures !NoTail(id + ", " + next)
  {
    hide Tail;
    hide MimeTail;
    assert !IsSpace(',');
    hide IsSpace;
    var rest := ", " + next;
    assert id + ", " + next == id + rest;
    if IsSpace(id[0]) && ID_KEY <= TrimStart(id) {
      TrimStartSplits(id, rest);
      var g := TrimStart(id);
      assert g == ID_KEY + g[|ID_KEY|..];
      TailFits(id + rest, g[|ID_KEY|..], next);
    } else {
      ShadowedIdMatches(id[1..], next);
      assert (id + rest)[1..] == id[1..] + ", " + next;
    }
  }

  lemma {:induction false} TailBehindWord(word: string, s: string)
    requires !NoTail(s)
    ensures !NoTail(word + s)
  {
    if word == "" {
      assert word + s == s;
    } else {
      assert (word + s)[1..] == word[1..] + s;
      TailBehindWord(word[1..], s);
    }
  }

  /** No name is found where the tail fits nowhere; otherwise one is, and not an empty one unless the
      tail fits at once. */
  lemma {:induction false} ShortestNameFinds(s: string, n: nat)
    requires n <= |s| && SingleLine(s)
    ensures NoTail(s[n..]) ==> ShortestName(s, n).None?
    ensures !NoTail(s[n..]) ==>
              ShortestName(s, n).Some? && |ShortestName(s, n).value.name| >= (if Tail(s[n..]).Some? then n else n + 1)
    decreases |s| - n
  {
    if Tail(s[n..]).None? && n < |s| {
      assert s[n..][1..] == s[n + 1..];
      ShortestNameFinds(s, n + 1);
    }
  }

  predicate EndsFirmly(s: string) { s != "" && !IsSpace(s[|s| - 1]) }

  lemma ContainsSuffix(s: string, n: nat)
    requires n <= |s| && !Contains(s, ID_KEY)
    ensures !Contains(s[n..], ID_KEY) && !(ID_KEY <= s[n..])
  {
    forall i | 0 <= i <= |s| - n ensures !(ID_KEY <= s[n..][i..]) {
      assert s[n..][i..] == s[n + i..];
    }
  }

  lemma TailInName(g: string, rest: string)
    requires EndsFirmly(g) && !Contains(g, ID_KEY) && rest != "" && rest[0] == ' '
    ensures Tail(g + rest).None?
  {
    var last, init := [g[|g| - 1]], g[..|g| - 1];
    assert g == init + last && g + rest == init + (last + rest);
    TrimStartSplits(init, last + rest);
    TrimStartSplits(init, last);
    var h := TrimStart(init) + last;
    assert TrimStart(g + rest) == h + rest && h == g[|g| - |h|..];
    KeyFits(h, rest);
    ContainsSuffix(g, |g| - |h|);
    TailWithoutKey(g + rest);
  }

  lemma {:induction false} NoTailInName(name: string, rest: string)
    requires name == "" || EndsFirmly(name)
    requires !Contains(name, ID_KEY) && rest != "" && rest[0] == ' ' && NoTail(rest)
    ensures NoTail(name + rest)
  {
    hide Tail;
    if name == "" {
      assert name + rest == rest;
    } else {
      TailInName(name, rest);
      ContainsSuffix(name, 1);
      assert (name + rest)[1..] == name[1..] + rest;
      NoTailInName(name[1..], rest);
    }
  }

  /** Nothing is found on a line with a negative size, before or behind the name. */
  lemma NegativeLine(name: string, id: string, mime: string, kind: string, digits: string)
    requires name == "" || EndsFirmly(name)
    requires !Contains(name, ID_KEY) && NoDelimiter(id) && NoDelimiter(mime) && NoDelimiter(kind) && NoSpaces(digits)
    ensures NoTail(name + " " + FromId(id, mime, kind, "-" + digits)) && NoTail(FromId(id, mime, kind, "-" + digits))
  {
    var next := FromMime(mime, kind, "-" + digits);
    var d := FromId(id, mime, kind, "-" + digits);
    SignUnread(mime, kind, digits);
    NoTailFromId(id, mime, kind, "-" + digits);
    assert d == ID_KEY + id + (", " + next);
    TrimStartSkips(" ", d);
    TailNeedsMime(" " + d, id, next);
    assert (" " + d)[1..] == d && NoTail(" " + d);
    NoTailInName(name, " " + d);
    assert name + " " + d == name + (" " + d);
  }

  /** A trimmed name without the key is read to its end. */
  lemma {:induction false} NameReads(name: string, id: string, mime: string, kind: string, size: nat, n: nat)
    requires n <= |name| && SingleLine(name) && !Contains(name, ID_KEY) && EndsFirmly(name)
    requires NoDelimiter(id) && NoDelimiter(mime) && NoDelimiter(kind)
    ensures var s := name + " " + FromId(id, mime, kind, Decimal.Print(size));
            ShortestName(s, n) == Some(Kept(id, name, mime, size, kind))
    decreases |name| - n
  {
    var rest := " " + FromId(id, mime, kind, Decimal.Print(size));
    var s := name + rest;
    assert s == name + " " + FromId(id, mime, kind, Decimal.Print(size));
    if n == |name| {
      assert s[n..] == rest;
      TailReads(" ", id, mime, kind, size);
    } else {
      var g := name[n..];
      assert s[n..] == g + rest;
      ContainsSuffix(name, n);
      TailInName(g, rest);
      NameReads(name, id, mime, kind, size, n + 1);
    }
  }

  lemma TrimmedEnds(s: string)
    requires s != "" && Strip(s) == s
    ensures EndsFirmly(s) && !IsSpace(s[0])
  {
    TrimStartShorter(s);
    TrimEndShorter(TrimStart(s));
  }

  lemma {:induction false} TrimStartShorter(s: string)
    ensures |TrimStart(s)| <= |s| && (s != "" && IsSpace(s[0]) ==> |TrimStart(s)| < |s|)
  {
    if s != "" && IsSpace(s[0]) { TrimStartShorter(s[1..]); }
  }

  lemma {:induction false} TrimEndShorter(s: string)
    ensures |TrimEnd(s)| <= |s| && (s != "" && IsSpace(s[|s| - 1]) ==> |TrimEnd(s)| < |s|)
  {
    if s != "" && IsSpace(s[|s| - 1]) { TrimEndShorter(s[..|s| - 1]); }
  }

  /** What the pattern finds behind the number and the dot. */
  lemma MatchesAfterDot(index: nat, s: string)
    ensures MatchLine(Decimal.Print(index) + "." + s) == AfterDot(s, Leading(s))
  {
    var d := Decimal.Print(index);
    Decimal.PrintValue(index);
    var line := d + "." + s;
    assert line == d + ("." + s) && Decimal.IsDigit(line[0]);
    assert TrimStart(line) == line;
    DigitsStop(d, "." + s);
    assert line[|d|..] == "." + s && line[|d| + 1..] == s;
  }

  lemma NamedLineReads(name: string, id: string, mime: string, kind: string, size: nat)
    requires name != "" && Strip(name) == name && SingleLine(name) && !Contains(name, ID_KEY)
    requires NoDelimiter(id) && NoDelimiter(mime) && NoDelimiter(kind)
    ensures var s := " " + name + " " + FromId(id, mime, kind, Decimal.Print(size));
            AfterDot(s, Leading(s)) == Some(Kept(id, name, mime, size, kind))
  {
    TrimmedEnds(name);
    var rest := name + " " + FromId(id, mime, kind, Decimal.Print(size));
    var s := " " + name + " " + FromId(id, mime, kind, Decimal.Print(size));
    assert s == " " + rest && s[1..] == rest && rest[0] == name[0];
    assert Leading(rest) == 0 && Leading(s) == 1;
    NameReads(name, id, mime, kind, size, 0);
  }

  /** Behind two spaces both are tried first, and then one. */
  lemma BehindTwoSpaces(d: string)
    requires d != "" && !IsSpace(d[0]) && SingleLine(d)
    ensures var s := "  " + d; var found := AfterDot(s, Leading(s));
            if NoTail(d) then found == ShortestName(" " + d, 0) || ShortestName(" " + d, 0).None?
            else found == ShortestName(d, 0) && found.Some? && found.value.name != ""
  {
    var s := "  " + d;
    assert s[1..] == " " + d && s[2..] == d && (" " + d)[1..] == d && d[0..] == d;
    assert Leading(d) == 0 && Leading(" " + d) == 1 && Leading(s) == 2;
    ShortestNameFinds(d, 0);
  }

  lemma UnnamedLineReads(id: string, mime: string, kind: string, size: nat)
    requires Clean(id) && Clean(mime) && Clean(kind)
    ensures var s := "  " + FromId(id, mime, kind, Decimal.Print(size));
            var found := AfterDot(s, Leading(s));
            found.Some? && (found == Some(Kept(id, "", mime, size, kind)) <==> !Shadowed(id))
  {
    var d := FromId(id, mime, kind, Decimal.Print(size));
    DetailsSingleLine(id, mime, kind, size);
    BehindTwoSpaces(d);
    if Shadowed(id) {
      ShadowedDetails(id, mime, kind, size);
    } else {
      DigitsHaveNoSpaces(size);
      NoTailFromId(id, mime, kind, Decimal.Print(size));
      TailReads(" ", id, mime, kind, size);
      assert (" " + d)[0..] == " " + d && (" " + d)[..0] == "";
    }
  }

  lemma ShadowedDetails(id: string, mime: string, kind: string, size: nat)
    requires NoDelimiter(id) && NoDelimiter(mime) && NoDelimiter(kind) && Shadowed(id)
    ensures !NoTail(FromId(id, mime, kind, Decimal.Print(size)))
  {
    hide Tail;
    hide Shadowed;
    hide MimeTail;
    var next := FromMime(mime, kind, Decimal.Print(size));
    MimeReads(mime, kind, size);
    assert next[0] == 'm';
    hide FromMime;
    ShadowedIdMatches(id, next);
    TailBehindWord(ID_KEY, id + ", " + next);
    assert FromId(id, mime, kind, Decimal.Print(size)) == ID_KEY + (id + ", " + next);
  }

  lemma DetailsSingleLine(id: string, mime: string, kind: string, size: int)
    requires Clean(id) && Clean(mime) && Clean(kind)
    ensures SingleLine(FromId(id, mime, kind, Decimal.PrintInt(size)))
  {
    DigitsHaveNoSpaces(size);
    var p := Decimal.PrintInt(size);
    assert SingleLine(FromSize(p));
    assert SingleLine(FromKind(kind, p));
    assert SingleLine(FromMime(mime, kind, p));
  }

  /** An empty name cannot be told from part of an id that looks like one. */
  predicate Ambiguous(a: AttachmentRef) { a.name == "" && Shadowed(a.attachmentId) }

  /** The pattern reads neither a negative size nor, rightly, an ambiguous attachment. */
  predicate Readable(a: AttachmentRef) { a.sizeBytes >= 0 && !Ambiguous(a) }

  lemma NonNegativeLineReads(index: nat, a: AttachmentRef, s: string)
    requires Printable(a) && a.sizeBytes >= 0 && s == " " + a.name + " " + Details(a)
    ensures AfterDot(s, Leading(s)).Some?
    ensures AfterDot(s, Leading(s)) == Some(Fields(a)) <==> !Ambiguous(a)
  {
    if a.name == "" {
      assert s == "  " + Details(a);
      UnnamedLineReads(a.attachmentId, a.mimeType, a.contentKind, a.sizeBytes);
    } else {
      NamedLineReads(a.name, a.attachmentId, a.mimeType, a.contentKind, a.sizeBytes);
    }
  }

  lemma NegativeLineUnread(a: AttachmentRef, s: string)
    requires Printable(a) && a.sizeBytes < 0 && s == " " + a.name + " " + Details(a)
    ensures AfterDot(s, Leading(s)).None?
  {
    hide AfterDot;
    hide NoTail;
    var d, digits := Details(a), Decimal.Print(-a.sizeBytes);
    assert d == FromId(a.attachmentId, a.mimeType, a.contentKind, "-" + digits);
    DigitsHaveNoSpaces(-a.sizeBytes);
    DetailsSingleLine(a.attachmentId, a.mimeType, a.contentKind, a.sizeBytes);
    if a.name != "" { TrimmedEnds(a.name); }
    NegativeLine(a.name, a.attachmentId, a.mimeType, a.contentKind, digits);
    assert d[0] == '(';
    hide Details;
    hide FromId;
    BehindName(a.name, d, s);
  }

  lemma BehindName(name: string, d: string, s: string)
    requires d != "" && d[0] == '(' && NoTail(d) && SingleLine(d) && NoTail(name + " " + d) && SingleLine(name)
    requires (name == "" || !IsSpace(name[0])) && s == " " + name + " " + d
    ensures AfterDot(s, Leading(s)).None?
  {
    hide NoTail;
    hide AfterDot;
    var rest := name + " " + d;
    assert s == " " + rest;
    if name == "" { assert rest == " " + d; }
    NothingBehind(rest, s, d);
  }

  lemma NothingBehind(rest: string, s: string, d: string)
    requires NoTail(rest) && SingleLine(rest) && s == " " + rest && NoTail(d) && SingleLine(d) && d != "" && !IsSpace(d[0])
    requires rest != "" && (!IsSpace(rest[0]) || rest == " " + d)
    ensures AfterDot(s, Leading(s)).None?
  {
    hide NoTail;
    assert s[1..] == rest && rest[0..] == rest && d[0..] == d;
    ShortestNameFinds(rest, 0);
    ShortestNameFinds(d, 0);
    assert AfterDot(s, 1).None?;
    if rest == " " + d {
      assert rest[1..] == d && s[2..] == d;
      assert Leading(d) == 0 && Leading(rest) == 1 && Leading(s) == 2;
    } else {
      assert Leading(rest) == 0 && Leading(s) == 1;
    }
  }

  /** A printed line is read as its own attachment exactly if that is readable, and not at all exactly
      if its size is negative. */
  lemma LineReads(index: nat, a: AttachmentRef)
    requires Printable(a)
    ensures MatchLine(PrintLine(index, a)) == Some(Fields(a)) <==> Readable(a)
    ensures MatchLine(PrintLine(index, a)).None? <==> a.sizeBytes < 0
  {
    hide AfterDot;
    hide Leading;
    hide Ambiguous;
    hide Printable;
    hide Details;
    var s := " " + a.name + " " + Details(a);
    assert PrintLine(index, a) == Decimal.Print(index) + "." + s;
    MatchesAfterDot(index, s);
    hide MatchLine;
    if a.sizeBytes >= 0 {
      NonNegativeLineReads(index, a, s);
    } else {
      NegativeLineUnread(a, s);
    }
  }

  /** A line that cannot start an entry. */
  predicate NoEntry(line: string) {
    SingleLine(line) && (TrimStart(line) == "" || !Decimal.IsDigit(TrimStart(line)[0]))
  }

  lemma NoEntryNoMatch(line: string)
    requires NoEntry(line)
    ensures MatchLine(line).None?
  {
  }

  lemma {:induction false} MatchesConcat(a: seq<string>, b: seq<string>)
    ensures Matches(a + b) == Matches(a) + Matches(b)
  {
    if a == [] {
      assert a + b == b;
    } else {
      assert (a + b)[1..] == a[1..] + b;
      MatchesConcat(a[1..], b);
    }
  }

  lemma {:induction false} NoEntriesNoMatches(lines: seq<string>)
    requires forall i :: 0 <= i < |lines| ==> NoEntry(lines[i])
    ensures Matches(lines) == []
  {
    if lines != [] {
      NoEntryNoMatch(lines[0]);
      NoEntriesNoMatches(lines[1..]);
    }
  }

  lemma IndentedNoEntry(key: string, text: string)
    requires |key| > 3 && key[..3] == "   " && !IsSpace(key[3]) && !Decimal.IsDigit(key[3])
    requires SingleLine(key) && SingleLine(text)
    ensures NoEntry(key + text)
  {
    assert key + text == "   " + (key[3..] + text);
    TrimStartSkips("   ", key[3..] + text);
  }

  function Found(line: string): seq<AttachmentRef> {
    if MatchLine(line).Some? then [MatchLine(line).value] else []
  }

  lemma OneEntryMatches(line: string, more: seq<string>)
    requires forall i :: 0 <= i < |more| ==> NoEntry(more[i])
    ensures Matches([line] + more) == Found(line)
  {
    NoEntriesNoMatches(more);
    hide MatchLine;
    assert ([line] + more)[1..] == more;
  }

  lemma MoreLinesNoEntry(a: AttachmentRef)
    requires Printable(a)
    ensures forall i :: 0 <= i < |ExpiryLines(a) + PreviewLines(a)| ==> NoEntry((ExpiryLines(a) + PreviewLines(a))[i])
  {
    IndentedNoEntry(EXPIRY_KEY, a.expiresAt);
    IndentedNoEntry(PREVIEW_KEY, Strip(a.textPreview));
  }

  lemma EntryReads(index: nat, a: AttachmentRef) returns (found: seq<AttachmentRef>)
    requires Printable(a)
    ensures Matches(EntryLines(index, a)) == found && |found| <= 1 && (found == [Fields(a)] <==> Readable(a))
    ensures found == [] <==> a.sizeBytes < 0
  {
    LineReads(index, a);
    found := Found(PrintLine(index, a));
    MoreLinesNoEntry(a);
    OneEntryMatches(PrintLine(index, a), ExpiryLines(a) + PreviewLines(a));
    assert EntryLines(index, a) == [PrintLine(index, a)] + (ExpiryLines(a) + PreviewLines(a));
  }

  function FieldsOf(attachments: seq<AttachmentRef>): (r: seq<AttachmentRef>)
    ensures |r| == |attachments|
  {
    if attachments == [] then []
    else FieldsOf(attachments[..|attachments| - 1]) + [Fields(attachments[|attachments| - 1])]
  }

  predicate AllReadable(attachments: seq<AttachmentRef>) {
    forall i :: 0 <= i < |attachments| ==> Readable(attachments[i])
  }

  predicate AllPrintable(attachments: seq<AttachmentRef>) {
    forall i :: 0 <= i < |attachments| ==> Printable(attachments[i])
  }

  predicate AllSingleLines(lines: seq<string>) { forall i :: 0 <= i < |lines| ==> SingleLine(lines[i]) }

  predicate NoEntries(lines: seq<string>) { forall i :: 0 <= i < |lines| ==> NoEntry(lines[i]) }

  /** At most one attachment is read per entry, so all come back only if each does. */
  lemma {:induction false} EntriesRead(attachments: seq<AttachmentRef>)
    requires AllPrintable(attachments)
    ensures var found := Matches(AllEntryLines(attachments));
            |found| <= |attachments| && (found == FieldsOf(attachments) <==> AllReadable(attachments))
    ensures AllSingleLines(AllEntryLines(attachments))
  {
    hide Readable;
    hide Printable;
    hide Fields;
    hide MatchLine;
    hide EntryLines;
    hide SingleLine;
    if attachments != [] {
      var n := |attachments| - 1;
      var init, last := attachments[..n], attachments[n];
      EntriesRead(init);
      var found := EntryReads(n + 1, last);
      EntryLinesSingle(n + 1, last);
      MatchesConcat(AllEntryLines(init), EntryLines(n + 1, last));
      OneMore(Matches(AllEntryLines(init)), found, FieldsOf(init), Fields(last));
      assert AllReadable(attachments) <==> AllReadable(init) && Readable(last);
    }
  }

  lemma OneMore(a: seq<AttachmentRef>, b: seq<AttachmentRef>, c: seq<AttachmentRef>, d: AttachmentRef)
    requires |a| <= |c| && |b| <= 1
    ensures a + b == c + [d] <==> a == c && b == [d]
  {
    if a + b == c + [d] {
      assert |a| + |b| == |c| + 1;
      assert a == (a + b)[..|a|] && c == (c + [d])[..|c|];
      assert b == (a + b)[|a|..] && [d] == (c + [d])[|c|..];
    }
  }

  lemma EntryLinesSingle(index: nat, a: AttachmentRef)
    requires Printable(a)
    ensures AllSingleLines(EntryLines(index, a))
  {
    PrintLineSingle(index, a);
    MoreLinesNoEntry(a);
    assert EntryLines(index, a) == [PrintLine(index, a)] + (ExpiryLines(a) + PreviewLines(a));
  }

  lemma {:induction false} FirstBreak(line: string, rest: string)
    requires SingleLine(line)
    ensures SplitFirst(line) == |line|
    ensures rest != "" && IsBreak(rest[0]) ==> SplitFirst(line + rest) == |line|
  {
    if line == "" {
      assert line + rest == rest;
    } else {
      assert (line + rest)[1..] == line[1..] + rest;
      FirstBreak(line[1..], rest);
    }
  }

  lemma SplitAtBreak(line: string, rest: string)
    requires SingleLine(line)
    ensures SplitLines(line + "\n" + rest) == [line] + SplitLines(rest)
  {
    var s := line + "\n" + rest;
    FirstBreak(line, "\n" + rest);
    assert s == line + ("\n" + rest) && s[|line|..] == "\n" + rest;
    assert s[..|line|] == line && s[|line| + 1..] == rest && s[|line|..][0] == '\n';
  }

  lemma SplitOne(line: string)
    requires SingleLine(line) && line != ""
    ensures SplitLines(line) == [line]
  {
    FirstBreak(line, "");
  }

  /** Splitting undoes joining. */
  lemma {:induction false} SplitJoin(lines: seq<string>)
    requires lines != [] && lines[|lines| - 1] != "" && forall i :: 0 <= i < |lines| ==> SingleLine(lines[i])
    ensures SplitLines(Join(lines)) == lines
  {
    hide SplitLines;
    hide SingleLine;
    if |lines| == 1 {
      SplitOne(lines[0]);
    } else {
      SplitAtBreak(lines[0], Join(lines[1..]));
      SplitJoin(lines[1..]);
    }
  }

  lemma PrintLineSingle(index: nat, a: AttachmentRef)
    requires Printable(a)
    ensures SingleLine(PrintLine(index, a))
  {
    Decimal.PrintValue(index);
    DetailsSingleLine(a.attachmentId, a.mimeType, a.contentKind, a.sizeBytes);
  }

  /** Lines around the entries that are no entries themselves leave no trace. */
  lemma FramedReads(header: seq<string>, entries: seq<string>, closing: string)
    requires NoEntries(header) && NoEntry(closing) && closing != "" && AllSingleLines(entries)
    ensures Matches(SplitLines(Join(header + entries + [closing]))) == Matches(entries)
  {
    hide MatchLine;
    SplitJoin(header + entries + [closing]);
    MatchesConcat(header + entries, [closing]);
    MatchesConcat(header, entries);
    NoEntriesNoMatches(header);
    NoEntriesNoMatches([closing]);
  }

  lemma StartsWithFirst(line: string, lines: seq<string>)
    ensures Contains(Join([line] + lines), line)
  {
    var s := Join([line] + lines);
    assert ([line] + lines)[1..] == lines;
    assert s[0..] == s;
  }

  lemma ManifestReads(prose: seq<string>, attachments: seq<AttachmentRef>)
    requires NoEntries(prose) && AllPrintable(attachments)
    ensures ParseManifest(ManifestText(prose, attachments)) == Matches(AllEntryLines(attachments))
  {
    hide Matches;
    hide MatchLine;
    hide SplitLines;
    hide Join;
    hide AllEntryLines;
    hide Contains;
    if attachments == [] {
      NothingReads();
    } else {
      var entries := AllEntryLines(attachments);
      EntriesRead(attachments);
      BracketsNoEntry();
      FramedReads([OPENING] + prose, entries, CLOSING);
      StartsWithFirst(OPENING, prose + entries + [CLOSING]);
      assert [OPENING] + prose + entries + [CLOSING] == [OPENING] + (prose + entries + [CLOSING]);
    }
  }

  lemma NothingReads()
    ensures ParseManifest("") == [] == Matches(AllEntryLines([]))
  {
  }

  lemma BracketsNoEntry()
    ensures NoEntry(OPENING) && NoEntry(CLOSING)
  {
  }

  /** Main result: parsing a printed manifest gives back every attachment's id, name, type, kind and
      size, in order, exactly when none has a negative size, or both an empty name and an id that looks
      like an entry. */
  lemma ManifestRoundTrip(prose: seq<string>, attachments: seq<AttachmentRef>)
    requires NoEntries(prose) && AllPrintable(attachments)
    ensures ParseManifest(ManifestText(prose, attachments)) == FieldsOf(attachments) <==> AllReadable(attachments)
  {
    ManifestReads(prose, attachments);
    EntriesRead(attachments);
  }

  /** An ambiguous attachment exists: an empty name, and an id with white space before a second key. */
  lemma AmbiguousAttachment(prose: seq<string>, a: AttachmentRef, rest: string)
    requires NoEntries(prose) && rest == " " + ID_KEY + "b" && a == Kept("a" + rest, "", "", 1, "")
    ensures Printable(a) && Ambiguous(a) && ParseManifest(ManifestText(prose, [a])) != FieldsOf([a])
  {
    hide Printable;
    hide Ambiguous;
    hide ParseManifest;
    hide ManifestText;
    hide FieldsOf;
    ExampleIsPrintable(a, rest);
    ExampleIsAmbiguous(a, rest);
    ManifestRoundTrip(prose, [a]);
    assert !Readable([a][0]);
  }

  lemma ExampleIsPrintable(a: AttachmentRef, rest: string)
    requires rest == " " + ID_KEY + "b" && a == Kept("a" + rest, "", "", 1, "")
    ensures Printable(a)
  {
    hide IsSpace;
    assert TrimStart("") == "" && TrimEnd("") == "";
  }

  lemma ExampleIsAmbiguous(a: AttachmentRef, rest: string)
    requires rest == " " + ID_KEY + "b" && a == Kept("a" + rest, "", "", 1, "")
    ensures Ambiguous(a)
  {
    assert rest == " " + (ID_KEY + "b");
    TrimStartSkips(" ", ID_KEY + "b");
    assert a.attachmentId[1..] == rest && Shadowed(rest);
  }

  /** A negative size loses its attachment: such a manifest reads as empty, as this one does. */
  lemma NegativeSizeAttachment(prose: seq<string>, a: AttachmentRef)
    requires NoEntries(prose) && a == Kept("i", "n", "m", -1, "k")
    ensures Printable(a) && ParseManifest(ManifestText(prose, [a])) == [] != FieldsOf([a])
  {
    hide ParseManifest;
    hide ManifestText;
    hide EntryLines;
    hide Matches;
    PlainIsPrintable(a);
    hide Printable;
    ManifestReads(prose, [a]);
    var found := EntryReads(1, a);
    assert [a][..0] == [];
    assert AllEntryLines([a]) == EntryLines(1, a);
  }

  lemma PlainIsPrintable(a: AttachmentRef)
    requires a == Kept("i", "n", "m", -1, "k")
    ensures Printable(a)
  {
    assert !IsSpace('n');
    hide IsSpace;
    assert TrimStart("n") == "n" && TrimEnd("n") == "n";
    assert TrimStart("") == "" && TrimEnd("") == "";
    assert |ID_KEY| > 1;
  }

  /** The k-th line is the entry of this attachment, and what is known about its expiry and its content
      follows. */
  predicate Tells(lines: seq<string>, k: int, index: nat, a: AttachmentRef) {
    0 <= k < |lines| && lines[k] == PrintLine(index, a) &&
    (a.expiresAt != "" ==> k + 1 < |lines| && lines[k + 1] == "   expires_at: " + a.expiresAt) &&
    (Strip(a.textPreview) != "" ==>
       var at := if a.expiresAt != "" then k + 2 else k + 1;
       at < |lines| && lines[at] == "   preview: " + Strip(a.textPreview))
  }

  lemma EntryTells(index: nat, a: AttachmentRef)
    ensures Tells(EntryLines(index, a), 0, index, a)
  {
  }

  lemma TellsWithin(before: seq<string>, lines: seq<string>, after: seq<string>, k: int, index: nat, a: AttachmentRef)
    requires Tells(lines, k, index, a)
    ensures Tells(before + lines + after, |before| + k, index, a)
  {
    var all := before + lines + after;
    assert forall i :: 0 <= i < |lines| ==> all[|before| + i] == lines[i];
  }

  lemma {:induction false} EntriesTell(attachments: seq<AttachmentRef>, i: nat) returns (k: nat)
    requires i < |attachments|
    ensures Tells(AllEntryLines(attachments), k, i + 1, attachments[i])
  {
    hide Tells;
    hide EntryLines;
    var n := |attachments| - 1;
    var init := AllEntryLines(attachments[..n]);
    var last := EntryLines(n + 1, attachments[n]);
    if i == n {
      EntryTells(n + 1, attachments[n]);
      k := |init|;
      TellsWithin(init, last, [], 0, n + 1, attachments[n]);
      assert init + last + [] == init + last;
    } else {
      k := EntriesTell(attachments[..n], i);
      TellsWithin([], init, last, k, i + 1, attachments[i]);
      assert [] + init + last == init + last;
    }
  }

  /** Read line by line, the manifest tells of every attachment under its number, with its expiry and the
      beginning of its content where there are such. */
  lemma ManifestTells(prose: seq<string>, attachments: seq<AttachmentRef>, i: nat) returns (k: nat)
    requires NoEntries(prose) && AllPrintable(attachments) && i < |attachments|
    ensures Tells(SplitLines(ManifestText(prose, attachments)), k, i + 1, attachments[i])
  {
    hide Tells;
    hide EntryLines;
    hide Matches;
    hide MatchLine;
    hide SplitLines;
    hide Join;
    var entries := AllEntryLines(attachments);
    EntriesRead(attachments);
    BracketsNoEntry();
    SplitJoin([OPENING] + prose + entries + [CLOSING]);
    k := EntriesTell(attachments, i);
    TellsWithin([OPENING] + prose, entries, [CLOSING], k, i + 1, attachments[i]);
    k := |[OPENING] + prose| + k;
  }
}
