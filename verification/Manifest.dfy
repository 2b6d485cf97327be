/** The attachment manifest in a user message: its printer, and the line pattern that reads it back. */
module Manifest {
  import opened Prelude
  import opened Attachments
  import opened PyText
  import Decimal

  const OPENING := "<attachments>"
  const CLOSING := "</attachments>"
  const ID_KEY := "(attachment_id="
  const MIME_KEY := "mime_type="
  const KIND_KEY := "kind="
  const SIZE_KEY := "size_bytes="
  const EXPIRY_KEY := "   expires_at: "
  const PREVIEW_KEY := "   preview: "

  predicate IsBreak(c: char) {
    var n := c as int;
    10 <= n <= 13 || 0x1C <= n <= 0x1E || n == 0x85 || n == 0x2028 || n == 0x2029
  }

  predicate SingleLine(s: string) { forall i :: 0 <= i < |s| ==> !IsBreak(s[i]) }

  predicate Contains(s: string, p: string) { exists i :: 0 <= i <= |s| && p <= s[i..] }

  /** What a reader keeps of an attachment. */
  function Kept(id: string, name: string, mime: string, size: int, kind: string): AttachmentRef {
    AttachmentRef(id, name, mime, size, kind, "user_attachment", "", None, "", [])
  }

  function Fields(a: AttachmentRef): AttachmentRef {
    Kept(a.attachmentId, a.name, a.mimeType, a.sizeBytes, a.contentKind)
  }

  function FromSize(size: string): string { SIZE_KEY + size + ")" }

  function FromKind(kind: string, size: string): string { KIND_KEY + kind + ", " + FromSize(size) }

  function FromMime(mime: string, kind: string, size: string): string { MIME_KEY + mime + ", " + FromKind(kind, size) }

  function FromId(id: string, mime: string, kind: string, size: string): string {
    ID_KEY + id + ", " + FromMime(mime, kind, size)
  }

  function Details(a: AttachmentRef): string {
    FromId(a.attachmentId, a.mimeType, a.contentKind, Decimal.PrintInt(a.sizeBytes))
  }

  function PrintLine(index: nat, a: AttachmentRef): string {
    Decimal.Print(index) + ". " + a.name + " " + Details(a)
  }

  function ExpiryLines(a: AttachmentRef): seq<string> {
    if a.expiresAt == "" then [] else [EXPIRY_KEY + a.expiresAt]
  }

  function PreviewLines(a: AttachmentRef): seq<string> {
    if Strip(a.textPreview) == "" then [] else [PREVIEW_KEY + Strip(a.textPreview)]
  }

  function EntryLines(index: nat, a: AttachmentRef): seq<string> {
    [PrintLine(index, a)] + ExpiryLines(a) + PreviewLines(a)
  }

  function AllEntryLines(attachments: seq<AttachmentRef>): seq<string> {
    if attachments == [] then []
    else AllEntryLines(attachments[..|attachments| - 1]) + EntryLines(|attachments|, attachments[|attachments| - 1])
  }

  /** `prose` are the lines that explain the list to the model. */
  function ManifestLines(prose: seq<string>, attachments: seq<AttachmentRef>): seq<string> {
    [OPENING] + prose + AllEntryLines(attachments) + [CLOSING]
  }

  function Join(lines: seq<string>): string {
    if lines == [] then "" else if |lines| == 1 then lines[0] else lines[0] + "\n" + Join(lines[1..])
  }

  function ManifestText(prose: seq<string>, attachments: seq<AttachmentRef>): string {
    if attachments == [] then "" else Join(ManifestLines(prose, attachments))
  }

  method AddEntry(lines: seq<string>, index: nat, a: AttachmentRef) returns (more: seq<string>)
    ensures more == lines + EntryLines(index, a)
  {
    var preview := Strip(a.textPreview);
    more := lines + [PrintLine(index, a)];
    if a.expiresAt != "" { more := more + [EXPIRY_KEY + a.expiresAt]; }
    if preview != "" { more := more + [PREVIEW_KEY + preview]; }
  }

  method AddEntries(header: seq<string>, attachments: seq<AttachmentRef>) returns (lines: seq<string>)
    ensures lines == header + AllEntryLines(attachments)
  {
    hide EntryLines;
    lines := header;
    for i := 0 to |attachments|
      invariant lines == header + AllEntryLines(attachments[..i])
    {
      assert attachments[..i + 1][..i] == attachments[..i];
      lines := AddEntry(lines, i + 1, attachments[i]);
    }
    assert attachments[..|attachments|] == attachments;
  }

  /** The printer. */
  method AttachmentManifestText(prose: seq<string>, attachments: seq<AttachmentRef>) returns (text: string)
    ensures text == ManifestText(prose, attachments)
  {
    if attachments == [] { return ""; }
    var lines := AddEntries([OPENING] + prose, attachments);
    return Join(lines + [CLOSING]);
  }

  /** The pattern, read left to right: a run of white space that is not empty. */
  function Spaces(s: string): Option<string> {
    if s != "" && IsSpace(s[0]) then Some(TrimStart(s)) else None
  }

  /** As much as there is without a comma or closing parenthesis. */
  function Span(s: string): (f: string)
    ensures f <= s
  {
    if s == "" || s[0] == ',' || s[0] == ')' then "" else [s[0]] + Span(s[1..])
  }

  /** A key and the text after it; and what is left. */
  function Field(s: string, key: string): Option<(string, string)> {
    if key <= s then
      var f := Span(s[|key|..]);
      Some((f, s[|key| + |f|..]))
    else None
  }

  function CommaSpaces(s: string): Option<string> {
    if s != "" && s[0] == ',' then Spaces(s[1..]) else None
  }

  function Digits(s: string): (d: string)
    ensures d <= s && Decimal.AllDigits(d)
  {
    if s == "" || !Decimal.IsDigit(s[0]) then "" else [s[0]] + Digits(s[1..])
  }

  function SizeTail(s: string): Option<nat> {
    if SIZE_KEY <= s then
      var d := Digits(s[|SIZE_KEY|..]);
      if d != "" && [')'] <= s[|SIZE_KEY| + |d|..] then Some(Decimal.Value(d)) else None
    else None
  }

  function KindTail(s: string): Option<(string, nat)> {
    var kind := Field(s, KIND_KEY);
    if kind.None? then None
    else
      var rest := CommaSpaces(kind.value.1);
      if rest.None? then None
      else
        var size := SizeTail(rest.value);
        if size.None? then None else Some((kind.value.0, size.value))
  }

  function MimeTail(s: string): Option<(string, string, nat)> {
    var mime := Field(s, MIME_KEY);
    if mime.None? then None
    else
      var rest := CommaSpaces(mime.value.1);
      if rest.None? then None
      else
        var more := KindTail(rest.value);
        if more.None? then None else Some((mime.value.0, more.value.0, more.value.1))
  }

  /** Everything after the name. None of these steps has a second way to match. */
  function Tail(s: string): Option<(string, string, string, nat)> {
    var start := Spaces(s);
    if start.None? then None
    else
      var id := Field(start.value, ID_KEY);
      if id.None? then None
      else
        var rest := CommaSpaces(id.value.1);
        if rest.None? then None
        else
          var more := MimeTail(rest.value);
          if more.None? then None else Some((id.value.0, more.value.0, more.value.1, more.value.2))
  }

  /** The shortest name, from length n on, after which the rest of the pattern fits. */
  function ShortestName(s: string, n: nat): Option<AttachmentRef>
    requires n <= |s|
    decreases |s| - n
  {
    var t := Tail(s[n..]);
    if t.Some? then Some(Kept(t.value.0, s[..n], t.value.1, t.value.3, t.value.2))
    else if n == |s| || s[n] == '\n' then None
    else ShortestName(s, n + 1)
  }

  /** White space before the name: as much as possible, giving some back when nothing fits. */
  function AfterDot(s: string, spaces: nat): Option<AttachmentRef>
    requires spaces <= |s|
  {
    if spaces == 0 then None
    else
      var found := ShortestName(s[spaces..], 0);
      if found.Some? then found else AfterDot(s, spaces - 1)
  }

  function Leading(s: string): (n: nat)
    ensures n <= |s|
  {
    if s != "" && IsSpace(s[0]) then 1 + Leading(s[1..]) else 0
  }

  function MatchLine(line: string): Option<AttachmentRef> {
    var t := TrimStart(line);
    var d := Digits(t);
    if d == "" || !(['.'] <= t[|d|..]) then None
    else
      var s := t[|d| + 1..];
      AfterDot(s, Leading(s))
  }

  function SplitFirst(s: string): (n: nat)
    ensures n <= |s| && (n < |s| ==> IsBreak(s[n]))
  {
    if s == "" || IsBreak(s[0]) then 0 else 1 + SplitFirst(s[1..])
  }

  /** Splitting at every line break; a carriage return and a line feed count as one. */
  function SplitLines(s: string): seq<string>
    decreases |s|
  {
    if s == "" then []
    else
      var n := SplitFirst(s);
      if n == |s| then [s]
      else if "\r\n" <= s[n..] then [s[..n]] + SplitLines(s[n + 2..])
      else [s[..n]] + SplitLines(s[n + 1..])
  }

  function Matches(lines: seq<string>): seq<AttachmentRef> {
    if lines == [] then []
    else
      var m := MatchLine(lines[0]);
      if m.Some? then [m.value] + Matches(lines[1..]) else Matches(lines[1..])
  }

  function ParseManifest(text: string): seq<AttachmentRef> {
    if Contains(text, OPENING) then Matches(SplitLines(text)) else []
  }

  predicate NoDelimiter(s: string) { forall i :: 0 <= i < |s| ==> s[i] != ',' && s[i] != ')' }

  predicate Clean(s: string) { NoDelimiter(s) && SingleLine(s) }

  predicate NoSpaces(s: string) { forall i :: 0 <= i < |s| ==> !IsSpace(s[i]) }

  /** What the manifest promises to bring back. */
  predicate Printable(a: AttachmentRef) {
    Strip(a.name) == a.name && SingleLine(a.name) && !Contains(a.name, ID_KEY) &&
    Clean(a.attachmentId) && Clean(a.mimeType) && Clean(a.contentKind) &&
    SingleLine(a.expiresAt) && SingleLine(Strip(a.textPreview))
  }

  lemma {:induction false} TrimStartSkips(spaces: string, rest: string)
    requires forall i :: 0 <= i < |spaces| ==> IsSpace(spaces[i])
    requires rest == "" || !IsSpace(rest[0])
    ensures TrimStart(spaces + rest) == rest
  {
    if spaces == "" {
      assert spaces + rest == rest;
    } else {
      assert (spaces + rest)[1..] == spaces[1..] + rest;
      TrimStartSkips(spaces[1..], rest);
    }
  }

  lemma {:induction false} SpanStops(f: string, rest: string)
    requires NoDelimiter(f) && (rest == "" || rest[0] == ',' || rest[0] == ')')
    ensures Span(f + rest) == f
  {
    if f == "" {
      assert f + rest == rest;
    } else {
      assert (f + rest)[1..] == f[1..] + rest;
      SpanStops(f[1..], rest);
    }
  }

  lemma {:induction false} DigitsStop(d: string, rest: string)
    requires Decimal.AllDigits(d) && (rest == "" || !Decimal.IsDigit(rest[0]))
    ensures Digits(d + rest) == d
  {
    if d == "" {
      assert d + rest == rest;
    } else {
      assert (d + rest)[1..] == d[1..] + rest;
      DigitsStop(d[1..], rest);
    }
  }

  lemma FieldReads(key: string, f: string, rest: string)
    requires NoDelimiter(f) && rest != "" && (rest[0] == ',' || rest[0] == ')')
    ensures Field(key + f + rest, key) == Some((f, rest))
  {
    var s := key + f + rest;
    assert s[|key|..] == f + rest;
    SpanStops(f, rest);
    assert s[|key| + |f|..] == rest;
  }

  lemma CommaSpaceReads(next: string)
    requires next != "" && !IsSpace(next[0])
    ensures CommaSpaces(", " + next) == Some(next)
  {
    assert (", " + next)[1..] == " " + next;
    TrimStartSkips(" ", next);
  }

  lemma SizeReads(n: nat)
    ensures SizeTail(FromSize(Decimal.Print(n))) == Some(n)
  {
    var d := Decimal.Print(n);
    Decimal.PrintValue(n);
    DigitsStop(d, ")");
    assert FromSize(d)[|SIZE_KEY|..] == d + ")";
    assert (d + ")")[|d|..] == ")";
  }

  lemma KindReads(kind: string, n: nat)
    requires NoDelimiter(kind)
    ensures KindTail(FromKind(kind, Decimal.Print(n))) == Some((kind, n))
  {
    var next := FromSize(Decimal.Print(n));
    assert FromKind(kind, Decimal.Print(n)) == KIND_KEY + kind + (", " + next);
    FieldReads(KIND_KEY, kind, ", " + next);
    CommaSpaceReads(next);
    SizeReads(n);
  }

  lemma MimeReads(mime: string, kind: string, n: nat)
    requires NoDelimiter(mime) && NoDelimiter(kind)
    ensures MimeTail(FromMime(mime, kind, Decimal.Print(n))) == Some((mime, kind, n))
  {
    var next := FromKind(kind, Decimal.Print(n));
    assert FromMime(mime, kind, Decimal.Print(n)) == MIME_KEY + mime + (", " + next);
    FieldReads(MIME_KEY, mime, ", " + next);
    CommaSpaceReads(next);
    KindReads(kind, n);
  }

  /** The pattern's tail reads what was printed after any run of spaces. */
  lemma TailReads(spaces: string, id: string, mime: string, kind: string, n: nat)
    requires NoDelimiter(id) && NoDelimiter(mime) && NoDelimiter(kind)
    requires spaces != "" && forall i :: 0 <= i < |spaces| ==> IsSpace(spaces[i])
    ensures Tail(spaces + FromId(id, mime, kind, Decimal.Print(n))) == Some((id, mime, kind, n))
  {
    var next := FromMime(mime, kind, Decimal.Print(n));
    var all := FromId(id, mime, kind, Decimal.Print(n));
    assert all == ID_KEY + id + (", " + next);
    TrimStartSkips(spaces, all);
    FieldReads(ID_KEY, id, ", " + next);
    CommaSpaceReads(next);
    MimeReads(mime, kind, n);
  }
}
