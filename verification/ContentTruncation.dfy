/** Shortening the largest tool results, then the largest texts, until the estimate fits a budget. */
module ContentTruncation {
  import opened Prelude
  import opened Messages
  import opened ContextBudget
  import Decimal

  /** What the JSON encoder contributes: lengths and wrapper texts, otherwise unconstrained. */
  datatype Encoding = Encoding(
    messageChars: Message -> nat,
    wrappedResult: (string, nat) -> string,
    cappedResult: (string, nat) -> string,
    clearedResult: (Option<string>, ResultContent) -> string
  )

  function BodyChars(e: Encoding, ms: seq<Message>): nat {
    if ms == [] then 0 else e.messageChars(ms[0]) + 1 + BodyChars(e, ms[1..])
  }

  /** Length of the JSON list: brackets, encoded messages, and commas between them. */
  function ListChars(e: Encoding, ms: seq<Message>): nat {
    if ms == [] then 2 else 1 + BodyChars(e, ms)
  }

  predicate Fits(e: Encoding, ms: seq<Message>, b: Budget)
    requires b.Valid()
  {
    Within(ListChars(e, ms), b)
  }

  lemma {:induction false} BodyCharsConcat(e: Encoding, x: seq<Message>, y: seq<Message>)
    ensures BodyChars(e, x + y) == BodyChars(e, x) + BodyChars(e, y)
  {
    if x == [] {
      assert x + y == y;
    } else {
      assert (x + y)[1..] == x[1..] + y;
      BodyCharsConcat(e, x[1..], y);
    }
  }

  /** The two loops shorten different parts of a message. */
  datatype Target = Results | Texts

  datatype Slot = Slot(message: nat, block: Option<nat>, text: string)

  function BlockText(b: Block, t: Target): Option<string> {
    match t
    case Results => if b.ToolResult? && b.content.Chars? then Some(b.content.chars) else None
    case Texts => if b.Text? then b.text else None
  }

  function WithText(b: Block, t: Target, text: string): Block
    requires BlockText(b, t).Some?
  {
    match t
    case Results => b.(content := Chars(text))
    case Texts => Text(Some(text))
  }

  predicate IsSlot(ms: seq<Message>, t: Target, s: Slot) {
    s.message < |ms| &&
    match ms[s.message].content
    case Str(text) => t.Texts? && s.block.None? && s.text == text
    case Blocks(bs) => s.block.Some? && s.block.value < |bs| && BlockText(bs[s.block.value], t) == Some(s.text)
  }

  function SetSlot(ms: seq<Message>, t: Target, s: Slot, text: string): seq<Message>
    requires IsSlot(ms, t, s)
  {
    var m := ms[s.message];
    ms[s.message := Message(m.role,
      match m.content
      case Str(_) => Str(text)
      case Blocks(bs) => Blocks(bs[s.block.value := WithText(bs[s.block.value], t, text)]))]
  }

  function Larger(best: Option<Slot>, s: Slot): Option<Slot> {
    if best.None? || |s.text| > |best.value.text| then Some(s) else best
  }

  function LargestInBlocks(bs: seq<Block>, i: nat, j: nat, t: Target, best: Option<Slot>): Option<Slot>
    requires j <= |bs|
    decreases |bs| - j
  {
    if j == |bs| then best
    else
      var text := BlockText(bs[j], t);
      LargestInBlocks(bs, i, j + 1, t, if text.None? then best else Larger(best, Slot(i, Some(j), text.value)))
  }

  function LargestInMessage(m: Message, i: nat, t: Target, best: Option<Slot>): Option<Slot> {
    match m.content
    case Str(text) => if t.Texts? then Larger(best, Slot(i, None, text)) else best
    case Blocks(bs) => LargestInBlocks(bs, i, 0, t, best)
  }

  function LargestFrom(ms: seq<Message>, i: nat, t: Target, best: Option<Slot>): Option<Slot>
    requires i <= |ms|
    decreases |ms| - i
  {
    if i == |ms| then best else LargestFrom(ms, i + 1, t, LargestInMessage(ms[i], i, t, best))
  }

  /** First of the longest texts of the wanted kind, in reading order. */
  function Largest(ms: seq<Message>, t: Target): Option<Slot> { LargestFrom(ms, 0, t, None) }

  method LargestLocation(messages: seq<Message>, t: Target) returns (largest: Option<Slot>)
    ensures largest == Largest(messages, t)
  {
    largest := None;
    for i := 0 to |messages|
      invariant LargestFrom(messages, i, t, largest) == Largest(messages, t)
    {
      match messages[i].content {
        case Str(text) =>
          if t.Texts? && (largest.None? || |text| > |largest.value.text|) {
            largest := Some(Slot(i, None, text));
          }
        case Blocks(bs) =>
          ghost var whole := LargestInBlocks(bs, i, 0, t, largest);
          for j := 0 to |bs|
            invariant LargestInBlocks(bs, i, j, t, largest) == whole
          {
            var text := BlockText(bs[j], t);
            if text.Some? && (largest.None? || |text.value| > |largest.value.text|) {
              largest := Some(Slot(i, Some(j), text.value));
            }
          }
      }
    }
  }

  /** Reading order. */
  predicate Before(a: Slot, b: Slot) {
    a.message < b.message ||
    (a.message == b.message && a.block.Some? && b.block.Some? && a.block.value < b.block.value)
  }

  /** `r` is `best`, or a slot of the region that is longer than `best`; nothing in the region is longer,
      and nothing as long comes before it. */
  ghost predicate Covers(r: Option<Slot>, best: Option<Slot>, region: iset<Slot>) {
    (r.None? ==> best.None?) && (r.Some? ==> r == best || r.value in region) &&
    (best.Some? ==> r.Some? && (r == best || |best.value.text| < |r.value.text|)) &&
    forall s :: s in region ==>
      r.Some? && |s.text| <= |r.value.text| &&
      (|s.text| == |r.value.text| ==> r == best || s == r.value || Before(r.value, s))
  }

  ghost function SlotsFrom(ms: seq<Message>, i: nat, t: Target): iset<Slot> {
    iset s: Slot | IsSlot(ms, t, s) && i <= s.message
  }

  ghost function BlockSlotsFrom(bs: seq<Block>, i: nat, j: nat, t: Target): iset<Slot> {
    iset s: Slot | s.message == i && s.block.Some? && j <= s.block.value < |bs| &&
                   BlockText(bs[s.block.value], t) == Some(s.text)
  }

  lemma {:induction false} LargestInBlocksCovers(bs: seq<Block>, i: nat, j: nat, t: Target, best: Option<Slot>)
    requires j <= |bs|
    ensures Covers(LargestInBlocks(bs, i, j, t, best), best, BlockSlotsFrom(bs, i, j, t))
    decreases |bs| - j
  {
    if j < |bs| {
      var text := BlockText(bs[j], t);
      var next := if text.None? then best else Larger(best, Slot(i, Some(j), text.value));
      LargestInBlocksCovers(bs, i, j + 1, t, next);
      var r := LargestInBlocks(bs, i, j, t, best);
      forall s | s in BlockSlotsFrom(bs, i, j, t)
        ensures r.Some? && |s.text| <= |r.value.text| &&
                (|s.text| == |r.value.text| ==> r == best || s == r.value || Before(r.value, s))
      {
        if s.block.value == j {
          assert s == Slot(i, Some(j), text.value);
        } else {
          assert s in BlockSlotsFrom(bs, i, j + 1, t);
        }
      }
    }
  }

  lemma LargestInMessageCovers(ms: seq<Message>, i: nat, t: Target, best: Option<Slot>)
    requires i < |ms|
    ensures Covers(LargestInMessage(ms[i], i, t, best), best, SlotsFrom(ms, i, t) - SlotsFrom(ms, i + 1, t))
  {
    var r := LargestInMessage(ms[i], i, t, best);
    var region := SlotsFrom(ms, i, t) - SlotsFrom(ms, i + 1, t);
    match ms[i].content
    case Str(text) =>
      forall s | s in region ensures t.Texts? && s == Slot(i, None, text) {}
      if t.Texts? { assert Slot(i, None, text) in region; }
    case Blocks(bs) =>
      LargestInBlocksCovers(bs, i, 0, t, best);
      forall s | s in region ensures s in BlockSlotsFrom(bs, i, 0, t) {}
      forall s | s in BlockSlotsFrom(bs, i, 0, t) ensures s in region {}
  }

  lemma {:induction false} LargestFromCovers(ms: seq<Message>, i: nat, t: Target, best: Option<Slot>)
    requires i <= |ms|
    ensures Covers(LargestFrom(ms, i, t, best), best, SlotsFrom(ms, i, t))
    decreases |ms| - i
  {
    if i < |ms| {
      var next := LargestInMessage(ms[i], i, t, best);
      LargestInMessageCovers(ms, i, t, best);
      LargestFromCovers(ms, i + 1, t, next);
      var r := LargestFrom(ms, i, t, best);
      forall s | s in SlotsFrom(ms, i, t)
        ensures r.Some? && |s.text| <= |r.value.text| &&
                (|s.text| == |r.value.text| ==> r == best || s == r.value || Before(r.value, s))
      {
        if s in SlotsFrom(ms, i + 1, t) {
        } else {
          assert s in SlotsFrom(ms, i, t) - SlotsFrom(ms, i + 1, t);
        }
      }
    }
  }

  /** A slot of its kind, none longer, and the first of those as long. */
  ghost predicate FirstLongest(ms: seq<Message>, t: Target, s: Slot) {
    IsSlot(ms, t, s) &&
    forall o: Slot :: IsSlot(ms, t, o) ==>
      |o.text| <= |s.text| && (|o.text| == |s.text| ==> o == s || Before(s, o))
  }

  /** The location found is the first of the longest of its kind, and none is found only if there is none. */
  lemma LargestIsLargest(ms: seq<Message>, t: Target)
    ensures Largest(ms, t).Some? ==> FirstLongest(ms, t, Largest(ms, t).value)
    ensures forall s: Slot :: IsSlot(ms, t, s) ==>
              Largest(ms, t).Some? && |s.text| <= |Largest(ms, t).value.text|
  {
    LargestFromCovers(ms, 0, t, None);
    forall s: Slot | IsSlot(ms, t, s)
      ensures Largest(ms, t).Some? && |s.text| <= |Largest(ms, t).value.text| &&
              (|s.text| == |Largest(ms, t).value.text| ==>
                 s == Largest(ms, t).value || Before(Largest(ms, t).value, s))
    {
      assert s in SlotsFrom(ms, 0, t);
    }
  }

  function BlocksTotal(bs: seq<Block>, t: Target): nat {
    if bs == [] then 0
    else (var text := BlockText(bs[0], t); if text.None? then 0 else |text.value|) + BlocksTotal(bs[1..], t)
  }

  function MessageTotal(m: Message, t: Target): nat {
    match m.content
    case Str(text) => if t.Texts? then |text| else 0
    case Blocks(bs) => BlocksTotal(bs, t)
  }

  /** Characters of content of the wanted kind: the measure of both loops. */
  function Total(ms: seq<Message>, t: Target): nat {
    if ms == [] then 0 else MessageTotal(ms[0], t) + Total(ms[1..], t)
  }

  lemma {:induction false} SetBlockTotal(bs: seq<Block>, j: nat, t: Target, text: string)
    requires j < |bs| && BlockText(bs[j], t).Some?
    ensures BlocksTotal(bs[j := WithText(bs[j], t, text)], t)
         == BlocksTotal(bs, t) - |BlockText(bs[j], t).value| + |text|
  {
    var after := bs[j := WithText(bs[j], t, text)];
    if j == 0 {
      assert after[1..] == bs[1..];
    } else {
      SetBlockTotal(bs[1..], j - 1, t, text);
      assert after[1..] == bs[1..][j - 1 := WithText(bs[j], t, text)];
    }
  }

  lemma {:induction false} SetSlotTotal(ms: seq<Message>, t: Target, s: Slot, text: string)
    requires IsSlot(ms, t, s)
    ensures Total(SetSlot(ms, t, s, text), t) == Total(ms, t) - |s.text| + |text|
  {
    var after := SetSlot(ms, t, s, text);
    if s.message == 0 {
      assert after[1..] == ms[1..];
      if ms[0].content.Blocks? { SetBlockTotal(ms[0].content.blocks, s.block.value, t, text); }
    } else {
      var inner := s.(message := s.message - 1);
      SetSlotTotal(ms[1..], t, inner, text);
      assert after[1..] == SetSlot(ms[1..], t, inner, text);
    }
  }

  function ExcessChars(e: Encoding, ms: seq<Message>, b: Budget): int
    requires b.Valid()
  {
    Ceil((Tokens(ListChars(e, ms), b.charsPerToken) - b.InputTokens()) as real * b.charsPerToken)
  }

  function PreviewChars(length: nat, excess: int): nat {
    var target := Max(0, Min(length - 1, length - excess - 500));
    if target >= length then Max(0, length / 2) else target
  }

  const TEXT_REASON := "Message text truncated to fit model context budget."

  function TruncatedText(content: string, preview: nat): string {
    "[" + TEXT_REASON + " Original chars: " + Decimal.Print(|content|) + ".]\n\n" +
    content[..Min(preview, |content|)]
  }

  function Shortened(e: Encoding, t: Target, content: string, preview: nat): string {
    match t
    case Results => e.wrappedResult(content, preview)
    case Texts => TruncatedText(content, preview)
  }

  /** The replacement tried for the largest slot of a list that does not fit. */
  function Attempt(e: Encoding, ms: seq<Message>, b: Budget, t: Target, s: Slot): string
    requires b.Valid()
  {
    Shortened(e, t, s.text, PreviewChars(|s.text|, ExcessChars(e, ms, b)))
  }

  /** Shorten the largest slot until the estimate fits, none is left, or shortening does not shorten. */
  function Truncate(e: Encoding, ms: seq<Message>, b: Budget, t: Target): seq<Message>
    requires b.Valid()
    decreases Total(ms, t)
  {
    if Fits(e, ms, b) then ms
    else
      var s := Largest(ms, t);
      if s.None? then ms
      else
        var text := Attempt(e, ms, b, t, s.value);
        if |text| >= |s.value.text| then ms
        else
          LargestIsLargest(ms, t);
          SetSlotTotal(ms, t, s.value, text);
          Truncate(e, SetSlot(ms, t, s.value, text), b, t)
  }

  /** One turn of the loop: a shorter list by the measure, with the same outcome. */
  lemma TruncateTurn(e: Encoding, ms: seq<Message>, b: Budget, t: Target, s: Slot, text: string)
    requires b.Valid() && !Fits(e, ms, b) && Largest(ms, t) == Some(s)
    requires text == Attempt(e, ms, b, t, s) && |text| < |s.text|
    ensures IsSlot(ms, t, s) && Total(SetSlot(ms, t, s, text), t) < Total(ms, t)
    ensures Truncate(e, ms, b, t) == Truncate(e, SetSlot(ms, t, s, text), b, t)
  {
    LargestIsLargest(ms, t);
    SetSlotTotal(ms, t, s, text);
  }

  lemma TruncateStops(e: Encoding, ms: seq<Message>, b: Budget, t: Target)
    requires b.Valid()
    requires Fits(e, ms, b) || Largest(ms, t).None? ||
             |Attempt(e, ms, b, t, Largest(ms, t).value)| >= |Largest(ms, t).value.text|
    ensures Truncate(e, ms, b, t) == ms
  {
  }

  method TruncateToBudget(e: Encoding, messages: seq<Message>, b: Budget, t: Target)
    returns (compacted: seq<Message>)
    requires b.Valid()
    ensures compacted == Truncate(e, messages, b, t)
  {
    compacted := messages;
    while !Fits(e, compacted, b)
      invariant Truncate(e, compacted, b, t) == Truncate(e, messages, b, t)
      decreases Total(compacted, t)
    {
      var location := LargestLocation(compacted, t);
      if location.None? {
        TruncateStops(e, compacted, b, t);
        return;
      }
      var original := location.value.text;
      var excessChars := ExcessChars(e, compacted, b);
      var truncated := Shortened(e, t, original, PreviewChars(|original|, excessChars));
      if |truncated| >= |original| {
        TruncateStops(e, compacted, b, t);
        return;
      }
      TruncateTurn(e, compacted, b, t, location.value, truncated);
      compacted := SetSlot(compacted, t, location.value, truncated);
    }
  }

  /** The result is within budget, or has no slot left, or its largest slot cannot be shortened. */
  lemma {:induction false} TruncateEnds(e: Encoding, ms: seq<Message>, b: Budget, t: Target)
    requires b.Valid()
    ensures var r := Truncate(e, ms, b, t);
            var s := Largest(r, t);
            Fits(e, r, b) || s.None? || |Attempt(e, r, b, t, s.value)| >= |s.value.text|
    ensures Total(Truncate(e, ms, b, t), t) <= Total(ms, t)
    decreases Total(ms, t)
  {
    var s := Largest(ms, t);
    if !Fits(e, ms, b) && s.Some? {
      var text := Attempt(e, ms, b, t, s.value);
      if |text| < |s.value.text| {
        LargestIsLargest(ms, t);
        SetSlotTotal(ms, t, s.value, text);
        TruncateEnds(e, SetSlot(ms, t, s.value, text), b, t);
      }
    }
  }

  lemma NoticeLength(content: string, preview: nat)
    ensures |TruncatedText(content, preview)|
         == 73 + |Decimal.Print(|content|)| + Min(preview, |content|)
  {
    assert |TEXT_REASON| == 51;
    assert |" Original chars: "| == 17;
  }

  lemma ExcessIsPositive(e: Encoding, ms: seq<Message>, b: Budget)
    requires b.Valid() && !Fits(e, ms, b)
    ensures ExcessChars(e, ms, b) >= 1
  {
    var over := Tokens(ListChars(e, ms), b.charsPerToken) - b.InputTokens();
    assert over >= 1;
    assert over as real * b.charsPerToken >= 1.0 * b.charsPerToken;
  }

  /** A text that already is no longer than the notice that would replace it. */
  predicate ShorterThanNotice(s: string) { |s| <= 73 + |Decimal.Print(|s|)| }

  lemma TextLoopEnds(e: Encoding, ms: seq<Message>, b: Budget)
    requires b.Valid()
    ensures var r := Truncate(e, ms, b, Texts);
            Fits(e, r, b) ||
            (forall s: Slot :: IsSlot(r, Texts, s) ==> ShorterThanNotice(s.text)) ||
            (Largest(r, Texts).Some? && |Decimal.Print(|Largest(r, Texts).value.text|)| >= 428)
  {
    var r := Truncate(e, ms, b, Texts);
    TruncateEnds(e, ms, b, Texts);
    LargestIsLargest(r, Texts);
    var largest := Largest(r, Texts);
    if !Fits(e, r, b) && largest.Some? {
      var text := largest.value.text;
      var preview := PreviewChars(|text|, ExcessChars(e, r, b));
      ExcessIsPositive(e, r, b);
      NoticeLength(text, preview);
      assert preview == 0 || preview <= |text| - 501;
      if |Decimal.Print(|text|)| < 428 {
        forall s: Slot | IsSlot(r, Texts, s) ensures ShorterThanNotice(s.text) {
          Decimal.DigitsGrowSlowly(|s.text|, |text|);
        }
      }
    }
  }

  ghost predicate LongestOf(ms: seq<Message>, t: Target, s: Slot) {
    forall o: Slot :: IsSlot(ms, t, o) ==> |o.text| <= |s.text|
  }

  /** The tool-result loop stops within budget, with no textual result left, or with a largest
      result whose wrapper is no shorter than itself. */
  lemma ResultLoopOutcome(e: Encoding, ms: seq<Message>, b: Budget)
    requires b.Valid()
    ensures var r := Truncate(e, ms, b, Results);
            Fits(e, r, b) ||
            (forall s: Slot :: !IsSlot(r, Results, s)) ||
            (exists s: Slot ::
               IsSlot(r, Results, s) && LongestOf(r, Results, s) &&
               |e.wrappedResult(s.text, PreviewChars(|s.text|, ExcessChars(e, r, b)))| >= |s.text|)
  {
    var r := Truncate(e, ms, b, Results);
    TruncateEnds(e, ms, b, Results);
    LargestIsLargest(r, Results);
    if !Fits(e, r, b) && Largest(r, Results).Some? {
      assert LongestOf(r, Results, Largest(r, Results).value);
    }
  }

  /** Equal but for shorter text of the wanted kind. */
  predicate BlockReworded(x: Block, y: Block, t: Target) {
    x == y ||
    (BlockText(x, t).Some? && BlockText(y, t).Some? && y == WithText(x, t, BlockText(y, t).value) &&
     |BlockText(y, t).value| < |BlockText(x, t).value|)
  }

  predicate Reworded(x: Message, y: Message, t: Target) {
    x.role == y.role &&
    match (x.content, y.content)
    case (Str(a), Str(b)) => a == b || (t.Texts? && |b| < |a|)
    case (Blocks(a), Blocks(b)) => |a| == |b| && forall j :: 0 <= j < |a| ==> BlockReworded(a[j], b[j], t)
    case (_, _) => false
  }

  predicate AllReworded(x: seq<Message>, y: seq<Message>, t: Target) {
    |x| == |y| && forall i :: 0 <= i < |x| ==> Reworded(x[i], y[i], t)
  }

  /** A reworded tool result answers the same call with the same error mark. */
  lemma RewordedKeepsRest(x: Block, y: Block, t: Target)
    requires BlockReworded(x, y, t)
    ensures x == y || (x.Text? && y.Text?) ||
            (x.ToolResult? && y.ToolResult? && y.useId == x.useId && y.isError == x.isError && y.content.Chars?)
  {
  }

  lemma RewordedTransitive(x: Message, y: Message, z: Message, t: Target)
    requires Reworded(x, y, t) && Reworded(y, z, t)
    ensures Reworded(x, z, t)
  {
    if x.content.Blocks? {
      var a, b, c := x.content.blocks, y.content.blocks, z.content.blocks;
      forall j | 0 <= j < |a| ensures BlockReworded(a[j], c[j], t) {
        assert BlockReworded(a[j], b[j], t) && BlockReworded(b[j], c[j], t);
      }
    }
  }

  lemma AllRewordedTransitive(x: seq<Message>, y: seq<Message>, z: seq<Message>, t: Target)
    requires AllReworded(x, y, t) && AllReworded(y, z, t)
    ensures AllReworded(x, z, t)
  {
    forall i | 0 <= i < |x| ensures Reworded(x[i], z[i], t) {
      RewordedTransitive(x[i], y[i], z[i], t);
    }
  }

  lemma SetSlotRewords(ms: seq<Message>, t: Target, s: Slot, text: string)
    requires IsSlot(ms, t, s) && |text| < |s.text|
    ensures AllReworded(ms, SetSlot(ms, t, s, text), t)
  {
  }

  /** Truncation rewrites text of its own kind to shorter text and touches nothing else. */
  lemma {:induction false} TruncateRewords(e: Encoding, ms: seq<Message>, b: Budget, t: Target)
    requires b.Valid()
    ensures AllReworded(ms, Truncate(e, ms, b, t), t)
    decreases Total(ms, t)
  {
    var s := Largest(ms, t);
    if !Fits(e, ms, b) && s.Some? {
      var text := Attempt(e, ms, b, t, s.value);
      if |text| < |s.value.text| {
        TruncateTurn(e, ms, b, t, s.value, text);
        var next := SetSlot(ms, t, s.value, text);
        TruncateRewords(e, next, b, t);
        SetSlotRewords(ms, t, s.value, text);
        AllRewordedTransitive(ms, next, Truncate(e, next, b, t), t);
      }
    }
  }

  lemma BlockRewordedKinds(x: Block, y: Block, t: Target)
    requires BlockReworded(x, y, t)
    ensures x.ToolUse? == y.ToolUse? && x.ToolResult? == y.ToolResult? && x.Marker? == y.Marker?
    ensures x.ToolUse? ==> x.id == y.id
    ensures x.ToolResult? ==> x.useId == y.useId
  {
  }

  /** Blocks that agree in kind and id position by position make messages of the same shape. */
  lemma SameKindsSameShape(x: Message, y: Message)
    requires x.role == y.role && |BlocksOf(x)| == |BlocksOf(y)|
    requires forall j :: 0 <= j < |BlocksOf(x)| ==>
      var a, b := BlocksOf(x)[j], BlocksOf(y)[j];
      a.ToolUse? == b.ToolUse? && a.ToolResult? == b.ToolResult? && a.Marker? == b.Marker? &&
      (a.ToolUse? ==> a.id == b.id) && (a.ToolResult? ==> a.useId == b.useId)
    ensures SameShape(x, y)
  {
    SubShape(x, y);
    SubShape(y, x);
  }

  lemma SubShape(x: Message, y: Message)
    requires |BlocksOf(x)| == |BlocksOf(y)|
    requires forall j :: 0 <= j < |BlocksOf(x)| ==>
      var a, b := BlocksOf(x)[j], BlocksOf(y)[j];
      a.ToolUse? == b.ToolUse? && a.ToolResult? == b.ToolResult? && a.Marker? == b.Marker? &&
      (a.ToolUse? ==> a.id == b.id) && (a.ToolResult? ==> a.useId == b.useId)
    ensures UseIds(x) <= UseIds(y) && ResultIds(x) <= ResultIds(y)
    ensures (HasResult(x) ==> HasResult(y)) && (HasMarker(x) ==> HasMarker(y))
  {
    var xs, ys := BlocksOf(x), BlocksOf(y);
    forall b | b in xs
      ensures exists c :: (c in ys &&
        b.ToolUse? == c.ToolUse? && b.ToolResult? == c.ToolResult? && b.Marker? == c.Marker? &&
        (b.ToolUse? ==> b.id == c.id) && (b.ToolResult? ==> b.useId == c.useId))
    {
      var j :| 0 <= j < |xs| && xs[j] == b;
      assert ys[j] in ys;
    }
  }

  lemma RewordedKeepsShapes(x: seq<Message>, y: seq<Message>, t: Target)
    requires AllReworded(x, y, t)
    ensures SameShapes(x, y)
  {
    forall i | 0 <= i < |x| ensures SameShape(x[i], y[i]) {
      var a, b := x[i], y[i];
      assert Reworded(a, b, t);
      forall j | 0 <= j < |BlocksOf(a)| ensures BlockReworded(BlocksOf(a)[j], BlocksOf(b)[j], t) {}
      forall j | 0 <= j < |BlocksOf(a)|
        ensures var p, q := BlocksOf(a)[j], BlocksOf(b)[j];
          p.ToolUse? == q.ToolUse? && p.ToolResult? == q.ToolResult? && p.Marker? == q.Marker? &&
          (p.ToolUse? ==> p.id == q.id) && (p.ToolResult? ==> p.useId == q.useId)
      {
        BlockRewordedKinds(BlocksOf(a)[j], BlocksOf(b)[j], t);
      }
      SameKindsSameShape(a, b);
    }
  }

  /** Every slot of a reworded list was a slot before, with a text at least as long. */
  lemma RewordedSlot(ms: seq<Message>, r: seq<Message>, t: Target, s: Slot) returns (origin: Slot)
    requires AllReworded(ms, r, t) && IsSlot(r, t, s)
    ensures IsSlot(ms, t, origin) && |s.text| <= |origin.text|
  {
    var i := s.message;
    assert Reworded(ms[i], r[i], t);
    match ms[i].content {
      case Str(text) => origin := Slot(i, None, text);
      case Blocks(bs) =>
        var j := s.block.value;
        assert BlockReworded(bs[j], BlocksOf(r[i])[j], t);
        origin := Slot(i, Some(j), BlockText(bs[j], t).value);
    }
  }

  /** A text whose length takes fewer than 428 digits to write down. */
  predicate Writable(s: string) { |Decimal.Print(|s|)| < 428 }

  /** The text loop stops within budget or with every text no longer than its own notice, if no text
      is so long that its length takes 428 digits or more to write down. */
  lemma TextLoopOutcome(e: Encoding, ms: seq<Message>, b: Budget)
    requires b.Valid()
    requires forall s: Slot :: IsSlot(ms, Texts, s) ==> Writable(s.text)
    ensures var r := Truncate(e, ms, b, Texts);
            Fits(e, r, b) || forall s: Slot :: IsSlot(r, Texts, s) ==> ShorterThanNotice(s.text)
  {
    var r := Truncate(e, ms, b, Texts);
    TextLoopEnds(e, ms, b);
    LargestIsLargest(r, Texts);
    if Largest(r, Texts).Some? {
      var s := Largest(r, Texts).value;
      TruncateRewords(e, ms, b, Texts);
      var origin := RewordedSlot(ms, r, Texts, s);
      Decimal.DigitsGrowSlowly(|s.text|, |origin.text|);
      assert Writable(s.text);
    }
  }
}
