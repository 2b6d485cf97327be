/** Byte-bounded pages of a transcript, read backwards from the end. */
module TranscriptPaging {
  import opened Prelude
  import opened Attachments
  import opened Utf8
  import Decimal

  datatype ChatRole = User | Assistant | System

  datatype ChatMessage = ChatMessage(role: ChatRole, content: string, attachments: seq<AttachmentRef>)

  datatype Page = Page(
    messages: seq<ChatMessage>, start: nat, end: nat, total: nat,
    limited: bool, byteLimit: int, estimatedBytes: int
  )

  const DEFAULT_PAGE := 60
  const MAX_PAGE := 200
  const MIN_MAX_BYTES := 16_384
  const HARD_MAX_BYTES := 1_000_000
  const BASE_OVERHEAD := 2_048
  const MESSAGE_OVERHEAD := 512
  const NOTICE :=
    "\n\n[Transcript message truncated to keep the workflow query response bounded.]"

  /** UTF-8 bytes of the role's name: "user", "assistant" or "system". */
  function RoleBytes(r: ChatRole): nat {
    match r
    case User => 4
    case Assistant => 9
    case System => 6
  }

  function MetadataBytes(items: seq<(string, string)>): nat {
    if items == [] then 0
    else ByteLength(items[0].0) + ByteLength(items[0].1) + MetadataBytes(items[1..])
  }

  function AttachmentBytes(a: AttachmentRef): nat {
    MESSAGE_OVERHEAD + ByteLength(a.attachmentId) + ByteLength(a.name) + ByteLength(a.mimeType) +
    ByteLength(Decimal.PrintInt(a.sizeBytes)) + ByteLength(a.contentKind) + ByteLength(a.source) +
    ByteLength(a.textPreview) +
    (if a.textChars.None? || a.textChars.value == 0 then 0 else ByteLength(Decimal.PrintInt(a.textChars.value))) +
    ByteLength(a.expiresAt) + MetadataBytes(a.metadata)
  }

  function AttachmentsBytes(attachments: seq<AttachmentRef>): nat {
    if attachments == [] then 0 else AttachmentBytes(attachments[0]) + AttachmentsBytes(attachments[1..])
  }

  function MessageBytes(m: ChatMessage): nat {
    MESSAGE_OVERHEAD + RoleBytes(m.role) + ByteLength(m.content) + AttachmentsBytes(m.attachments)
  }

  /** Total of a cost over messages; the cost used is MessageBytes. */
  function TotalCost(ms: seq<ChatMessage>, cost: ChatMessage -> nat): nat {
    if ms == [] then 0 else cost(ms[0]) + TotalCost(ms[1..], cost)
  }

  function MessagesBytes(ms: seq<ChatMessage>): nat { TotalCost(ms, MessageBytes) }

  function ByteLimit(maxBytes: int): int { Max(MIN_MAX_BYTES, Min(maxBytes, HARD_MAX_BYTES)) }

  function PageLimit(limit: int): int { Max(1, Min(if limit == 0 then DEFAULT_PAGE else limit, MAX_PAGE)) }

  function PageEnd(before: Option<int>, total: nat): nat {
    if before.None? then total else Max(0, Min(before.value, total))
  }

  /** Bytes left for the content of a message that gets a page of its own. */
  function ContentBudget(byteLimit: int, notice: string): int {
    Max(0, Max(0, byteLimit - BASE_OVERHEAD - MESSAGE_OVERHEAD) - ByteLength(notice))
  }

  /** A message cut to its budget, with the notice behind it. */
  function CutMessage(m: ChatMessage, byteLimit: int, notice: string): ChatMessage {
    m.(content := TruncateTextBytes(m.content, ContentBudget(byteLimit, notice)) + notice)
  }

  /** Lowest index reachable from `index` while messages still fit. */
  function CollectDown(t: seq<ChatMessage>, lower: nat, index: nat, used: int, byteLimit: int,
                       cost: ChatMessage -> nat): (start: nat)
    requires lower <= index <= |t|
    ensures lower <= start <= index
    decreases index
  {
    if index == lower || used + cost(t[index - 1]) > byteLimit then index
    else CollectDown(t, lower, index - 1, used + cost(t[index - 1]), byteLimit, cost)
  }

  function CutPage(t: seq<ChatMessage>, end: nat, bytes: int, notice: string): Page
    requires 0 < end <= |t|
  {
    var cut := CutMessage(t[end - 1], bytes, notice);
    Page([cut], end - 1, end, |t|, true, bytes, Min(BASE_OVERHEAD + MessageBytes(cut), bytes))
  }

  function WholePage(t: seq<ChatMessage>, start: nat, end: nat, limited: bool, bytes: int): Page
    requires start <= end <= |t|
  {
    Page(t[start..end], start, end, |t|, limited, bytes, Min(BASE_OVERHEAD + MessagesBytes(t[start..end]), bytes))
  }

  /** Whole messages that fit, or one message cut to fit. */
  function FilledPage(t: seq<ChatMessage>, lower: nat, end: nat, bytes: int, notice: string): Page
    requires lower <= end <= |t|
  {
    var start := CollectDown(t, lower, end, BASE_OVERHEAD, bytes, MessageBytes);
    if start == end && lower < end then CutPage(t, end, bytes, notice)
    else WholePage(t, start, end, lower < start, bytes)
  }

  function PageLower(end: nat, limit: int): (lower: nat)
    ensures lower <= end
  {
    Max(0, end - PageLimit(limit))
  }

  /** The page that ends before a position. */
  function PageOf(t: seq<ChatMessage>, before: Option<int>, limit: int, maxBytes: int, notice: string): Page {
    var end := PageEnd(before, |t|);
    FilledPage(t, PageLower(end, limit), end, ByteLimit(maxBytes), notice)
  }

  lemma PrependCost(t: seq<ChatMessage>, i: nat, end: nat, cost: ChatMessage -> nat)
    requires i < end <= |t|
    ensures t[i..end] == [t[i]] + t[i + 1..end]
    ensures TotalCost(t[i..end], cost) == cost(t[i]) + TotalCost(t[i + 1..end], cost)
  {
    assert t[i..end][1..] == t[i + 1..end];
  }

  method TranscriptPage(transcript: seq<ChatMessage>, before: Option<int>, limit: int, maxBytes: int,
                        notice: string) returns (page: Page)
    ensures page == PageOf(transcript, before, limit, maxBytes, notice)
  {
    var end := PageEnd(before, |transcript|);
    page := FillPage(transcript, PageLower(end, limit), end, ByteLimit(maxBytes), notice);
  }

  /** The loop of a page: from the newest message down, while they fit. */
  method FillPage(transcript: seq<ChatMessage>, lower: nat, end: nat, byteLimit: int, notice: string)
    returns (page: Page)
    requires lower <= end <= |transcript|
    ensures page == FilledPage(transcript, lower, end, byteLimit, notice)
  {
    hide MessageBytes;
    hide CutMessage;
    var messages: seq<ChatMessage> := [];
    var estimated := BASE_OVERHEAD;
    var start := end;
    ghost var bottom := CollectDown(transcript, lower, end, BASE_OVERHEAD, byteLimit, MessageBytes);
    assert transcript[end..end] == [];
    while start > lower
      invariant lower <= start <= end && messages == transcript[start..end]
      invariant estimated == BASE_OVERHEAD + MessagesBytes(transcript[start..end])
      invariant CollectDown(transcript, lower, start, estimated, byteLimit, MessageBytes) == bottom
    {
      var message := transcript[start - 1];
      var messageBytes := MessageBytes(message);
      if estimated + messageBytes > byteLimit {
        if messages == [] {
          var truncated := CutMessage(message, byteLimit, notice);
          page := Page([truncated], end - 1, end, |transcript|, true, byteLimit,
                       Min(estimated + MessageBytes(truncated), byteLimit));
        } else {
          page := Page(messages, start, end, |transcript|, true, byteLimit, Min(estimated, byteLimit));
        }
        return;
      }
      PrependCost(transcript, start - 1, end, MessageBytes);
      messages := [message] + messages;
      estimated := estimated + messageBytes;
      start := start - 1;
    }
    page := Page(messages, start, end, |transcript|, false, byteLimit, Min(estimated, byteLimit));
  }

  /** Bytes of a page made of the messages between two positions. */
  function SliceBytes(t: seq<ChatMessage>, start: nat, end: nat): int
    requires start <= end <= |t|
  {
    BASE_OVERHEAD + MessagesBytes(t[start..end])
  }

  /** Collecting stops at the lowest position whose slice fits. */
  lemma {:induction false} CollectDownIsMaximal(
    t: seq<ChatMessage>, lower: nat, index: nat, end: nat, base: int, bytes: int, cost: ChatMessage -> nat)
    requires lower <= index <= end <= |t| && (index < end ==> base + TotalCost(t[index..end], cost) <= bytes)
    ensures var start := CollectDown(t, lower, index, base + TotalCost(t[index..end], cost), bytes, cost);
            (start < end ==> base + TotalCost(t[start..end], cost) <= bytes) &&
            (start > lower ==> base + TotalCost(t[start - 1..end], cost) > bytes)
    decreases index
  {
    hide TotalCost;
    if index > lower {
      PrependCost(t, index - 1, end, cost);
      if base + TotalCost(t[index - 1..end], cost) <= bytes {
        CollectDownIsMaximal(t, lower, index - 1, end, base, bytes, cost);
      }
    }
  }

  /** A page of whole messages that could not have taken one more. */
  predicate WholeAndMaximal(t: seq<ChatMessage>, p: Page, limit: int) {
    p.start <= p.end <= |t| && p.messages == t[p.start..p.end] &&
    SliceBytes(t, p.start, p.end) <= p.byteLimit && 2_048 + TextBytes(p.messages) <= p.byteLimit &&
    (p.start == 0 || p.end - p.start == PageLimit(limit) ||
     SliceBytes(t, p.start - 1, p.end) > p.byteLimit)
  }

  /** A page of one message too big for any page: the longest prefix of its characters that leaves
      room for the notice, within the limit but for its role and attachments. */
  predicate LoneAndCut(t: seq<ChatMessage>, p: Page, notice: string) {
    p.start + 1 == p.end <= |t| && SliceBytes(t, p.start, p.end) > p.byteLimit && |p.messages| == 1 &&
    var whole, cut := t[p.start], p.messages[0];
    cut.role == whole.role && cut.attachments == whole.attachments &&
    BASE_OVERHEAD + MessageBytes(cut) <= p.byteLimit + RoleBytes(cut.role) + AttachmentsBytes(cut.attachments) &&
    LongestPrefixWithNotice(whole.content, cut.content, notice, p.byteLimit)
  }

  predicate LongestPrefixWithNotice(whole: string, cut: string, notice: string, byteLimit: int) {
    |cut| >= |notice| &&
    var prefix := cut[..|cut| - |notice|];
    cut == prefix + notice && prefix <= whole &&
    BASE_OVERHEAD + MESSAGE_OVERHEAD + ByteLength(prefix) + ByteLength(notice) <= byteLimit &&
    (|prefix| < |whole| ==>
       BASE_OVERHEAD + MESSAGE_OVERHEAD + ByteLength(whole[..|prefix| + 1]) + ByteLength(notice) > byteLimit)
  }

  /** The notice itself is short enough to leave the smallest page room for text. */
  predicate ShortNotice(notice: string) {
    ByteLength(notice) <= MIN_MAX_BYTES - BASE_OVERHEAD - MESSAGE_OVERHEAD
  }

  lemma {:induction false} AtMostFourBytesEach(s: string)
    ensures ByteLength(s) <= 4 * |s|
  {
    if s != "" { AtMostFourBytesEach(s[1..]); }
  }

  lemma TheNoticeIsShort(notice: string)
    requires notice == NOTICE
    ensures ShortNotice(notice)
  {
    assert |NOTICE| <= 100;
    AtMostFourBytesEach(notice);
  }

  lemma {:induction false} ByteLengthConcat(a: string, b: string)
    ensures ByteLength(a + b) == ByteLength(a) + ByteLength(b)
  {
    if a == "" {
      assert a + b == b;
    } else {
      assert (a + b)[1..] == a[1..] + b;
      ByteLengthConcat(a[1..], b);
    }
  }

  lemma CutContent(content: string, byteLimit: int, notice: string)
    requires ShortNotice(notice) && byteLimit >= MIN_MAX_BYTES
    ensures var r := TruncateTextBytes(content, ContentBudget(byteLimit, notice)) + notice;
            LongestPrefixWithNotice(content, r, notice, byteLimit) &&
            BASE_OVERHEAD + MESSAGE_OVERHEAD + ByteLength(r) <= byteLimit
  {
    var budget := ContentBudget(byteLimit, notice);
    assert budget == byteLimit - BASE_OVERHEAD - MESSAGE_OVERHEAD - ByteLength(notice);
    TruncateKeepsLongestPrefix(content, budget);
    var prefix := TruncateTextBytes(content, budget);
    ByteLengthConcat(prefix, notice);
    assert (prefix + notice)[..|prefix|] == prefix;
  }

  lemma FilledPageStart(t: seq<ChatMessage>, lower: nat, end: nat, bytes: int)
    requires lower <= end <= |t|
    ensures var start := CollectDown(t, lower, end, BASE_OVERHEAD, bytes, MessageBytes);
            (start < end ==> SliceBytes(t, start, end) <= bytes) &&
            (start > lower ==> SliceBytes(t, start - 1, end) > bytes)
  {
    hide MessageBytes;
    hide CollectDown;
    assert t[end..end] == [];
    CollectDownIsMaximal(t, lower, end, end, BASE_OVERHEAD, bytes, MessageBytes);
  }

  lemma OneMessageBytes(m: ChatMessage)
    ensures MessagesBytes([m]) == MessageBytes(m)
  {
    hide MessageBytes;
    assert [m][1..] == [] && [m][0] == m;
    assert TotalCost([m], MessageBytes) == MessageBytes(m) + TotalCost([m][1..], MessageBytes);
    assert TotalCost([m][1..], MessageBytes) == 0;
  }

  lemma CutPageIsCut(t: seq<ChatMessage>, end: nat, bytes: int, notice: string)
    requires 0 < end <= |t| && ShortNotice(notice) && bytes >= MIN_MAX_BYTES
    requires SliceBytes(t, end - 1, end) > bytes
    ensures LoneAndCut(t, CutPage(t, end, bytes, notice), notice)
  {
    CutContent(t[end - 1].content, bytes, notice);
  }

  /** What every page looks like, whichever way it is filled. */
  lemma FilledPageIsMaximal(t: seq<ChatMessage>, lower: nat, end: nat, bytes: int, notice: string, limit: int)
    requires ShortNotice(notice) && bytes >= MIN_MAX_BYTES && end <= |t| && lower == PageLower(end, limit)
    ensures var p := FilledPage(t, lower, end, bytes, notice);
            p.end == end && lower <= p.start <= end && (end > 0 ==> p.start < end) &&
            (p.messages == [] <==> end == 0) && p.byteLimit == bytes && p.total == |t| &&
            p.estimatedBytes == Min(BASE_OVERHEAD + MessagesBytes(p.messages), bytes) &&
            (p.limited <==> (end > 0 && SliceBytes(t, end - 1, end) > bytes) || p.start > lower) &&
            (if end > 0 && SliceBytes(t, end - 1, end) > bytes then LoneAndCut(t, p, notice)
             else WholeAndMaximal(t, p, limit))
  {
    hide MessageBytes;
    hide CollectDown;
    hide CutMessage;
    FilledPageStart(t, lower, end, bytes);
    var start := CollectDown(t, lower, end, BASE_OVERHEAD, bytes, MessageBytes);
    if start == end && lower < end {
      CutPageIsCut(t, end, bytes, notice);
      OneMessageBytes(CutMessage(t[end - 1], bytes, notice));
    } else {
      TextCostsItsBytes(t[start..end]);
      if end > 0 { SuffixCostsLess(t, start, end - 1, end); }
    }
  }

  lemma {:induction false} SuffixCostsLess(t: seq<ChatMessage>, i: nat, j: nat, end: nat)
    requires i <= j <= end <= |t|
    ensures SliceBytes(t, j, end) <= SliceBytes(t, i, end)
    decreases j - i
  {
    if i < j {
      PrependCost(t, i, end, MessageBytes);
      SuffixCostsLess(t, i + 1, j, end);
    }
  }

  /** The limits in plain numbers: 60 messages unless asked, at most 200 and at least one; between 16,384
      and 1,000,000 bytes; and an end within the transcript. */
  lemma PageNumbers(before: Option<int>, total: nat, limit: int, maxBytes: int)
    ensures PageEnd(before, total) <= total
    ensures before.None? ==> PageEnd(before, total) == total
    ensures before.Some? && 0 <= before.value <= total ==> PageEnd(before, total) == before.value
    ensures before.Some? && before.value < 0 ==> PageEnd(before, total) == 0
    ensures before.Some? && before.value > total ==> PageEnd(before, total) == total
    ensures 1 <= limit <= 200 ==> PageLimit(limit) == limit
    ensures limit == 0 ==> PageLimit(limit) == 60
    ensures limit < 0 ==> PageLimit(limit) == 1
    ensures limit > 200 ==> PageLimit(limit) == 200
    ensures 16_384 <= maxBytes <= 1_000_000 ==> ByteLimit(maxBytes) == maxBytes
    ensures maxBytes < 16_384 ==> ByteLimit(maxBytes) == 16_384
    ensures maxBytes > 1_000_000 ==> ByteLimit(maxBytes) == 1_000_000
  {
  }

  /** UTF-8 bytes of the texts alone, and 512 for each message. */
  function TextBytes(ms: seq<ChatMessage>): nat {
    if ms == [] then 0 else 512 + ByteLength(ms[0].content) + TextBytes(ms[1..])
  }

  lemma {:induction false} TextCostsItsBytes(ms: seq<ChatMessage>)
    ensures TextBytes(ms) <= MessagesBytes(ms)
  {
    if ms != [] { TextCostsItsBytes(ms[1..]); }
  }

  /** Every page is a non-empty contiguous slice that ends where it should, maximal for count and
      bytes, or a lone message cut to fit; it says whether bytes cut it short. */
  lemma PagesAreMaximal(t: seq<ChatMessage>, before: Option<int>, limit: int, maxBytes: int, notice: string)
    requires ShortNotice(notice)
    ensures var p, end := PageOf(t, before, limit, maxBytes, notice), PageEnd(before, |t|);
            p.end == end && p.start <= end && (end > 0 ==> p.start < end) && (p.messages == [] <==> end == 0) &&
            end - p.start <= PageLimit(limit) && p.byteLimit == ByteLimit(maxBytes) && p.total == |t| &&
            p.estimatedBytes == Min(BASE_OVERHEAD + MessagesBytes(p.messages), p.byteLimit) &&
            (p.limited <==> (end > 0 && SliceBytes(t, end - 1, end) > p.byteLimit) ||
                            (p.start > 0 && end - p.start < PageLimit(limit))) &&
            (if end > 0 && SliceBytes(t, end - 1, end) > p.byteLimit then LoneAndCut(t, p, notice)
             else WholeAndMaximal(t, p, limit))
  {
    var end := PageEnd(before, |t|);
    FilledPageIsMaximal(t, PageLower(end, limit), end, ByteLimit(maxBytes), notice, limit);
  }

  /** All pages, oldest first, reached by asking again before the start of the page just read. */
  function PagesBack(t: seq<ChatMessage>, end: nat, limit: int, maxBytes: int, notice: string): seq<Page>
    requires end <= |t| && ShortNotice(notice)
    decreases end
  {
    if end == 0 then []
    else
      PagesAreMaximal(t, Some(end), limit, maxBytes, notice);
      var p := PageOf(t, Some(end), limit, maxBytes, notice);
      PagesBack(t, p.start, limit, maxBytes, notice) + [p]
  }

  /** Each page, from the last one back, ends at a position and leaves the earlier ones its start. */
  predicate Chained(pages: seq<Page>, end: nat) {
    if pages == [] then end == 0
    else
      var p := pages[|pages| - 1];
      p.start < p.end == end && Chained(pages[..|pages| - 1], p.start)
  }

  lemma {:induction false} PagesAreChained(t: seq<ChatMessage>, end: nat, limit: int, maxBytes: int, notice: string)
    requires end <= |t| && ShortNotice(notice)
    ensures Chained(PagesBack(t, end, limit, maxBytes, notice), end)
    decreases end
  {
    if end > 0 {
      PagesAreMaximal(t, Some(end), limit, maxBytes, notice);
      var p := PageOf(t, Some(end), limit, maxBytes, notice);
      PagesAreChained(t, p.start, limit, maxBytes, notice);
      var earlier := PagesBack(t, p.start, limit, maxBytes, notice);
      assert (earlier + [p])[..|earlier|] == earlier;
    }
  }

  /** The stretch of transcript a list of pages stands for. */
  function Covered(t: seq<ChatMessage>, pages: seq<Page>): seq<ChatMessage>
    requires forall i :: 0 <= i < |pages| ==> pages[i].start <= pages[i].end <= |t|
  {
    if pages == [] then []
    else
      var p := pages[|pages| - 1];
      Covered(t, pages[..|pages| - 1]) + t[p.start..p.end]
  }

  lemma {:induction false} ChainedPositions(t: seq<ChatMessage>, pages: seq<Page>, end: nat)
    requires Chained(pages, end) && end <= |t|
    ensures forall i :: 0 <= i < |pages| ==> pages[i].start < pages[i].end <= |t|
    ensures Covered(t, pages) == t[..end]
    ensures pages != [] ==> pages[0].start == 0 && pages[|pages| - 1].end == end
    ensures forall i :: 0 <= i < |pages| - 1 ==> pages[i].end == pages[i + 1].start
  {
    if pages != [] {
      var n := |pages| - 1;
      var p := pages[n];
      ChainedPositions(t, pages[..n], p.start);
      assert t[..end] == t[..p.start] + t[p.start..end];
      forall i | 0 <= i < n ensures pages[i].end == pages[i + 1].start {
        if i + 1 < n { assert pages[..n][i].end == pages[..n][i + 1].start; }
      }
    }
  }

  /** Main result: reading back page by page visits every message exactly once, in order, and each
      page begins where the one before it ended. */
  lemma PagesPartitionTranscript(t: seq<ChatMessage>, limit: int, maxBytes: int, notice: string)
    returns (pages: seq<Page>)
    requires ShortNotice(notice)
    ensures pages == PagesBack(t, |t|, limit, maxBytes, notice)
    ensures forall i :: 0 <= i < |pages| ==> pages[i].start < pages[i].end <= |t|
    ensures Covered(t, pages) == t
    ensures t != [] ==> pages != [] && pages[0].start == 0 && pages[|pages| - 1].end == |t|
    ensures forall i :: 0 <= i < |pages| - 1 ==> pages[i].end == pages[i + 1].start
  {
    pages := PagesBack(t, |t|, limit, maxBytes, notice);
    PagesAreChained(t, |t|, limit, maxBytes, notice);
    ChainedPositions(t, pages, |t|);
    assert t[..|t|] == t;
  }

  /** A message as pages show it: whole if it fits a page of its own, and cut otherwise. */
  function ShownMessage(m: ChatMessage, bytes: int, notice: string): ChatMessage {
    if BASE_OVERHEAD + MessageBytes(m) <= bytes then m else CutMessage(m, bytes, notice)
  }

  function Shown(t: seq<ChatMessage>, bytes: int, notice: string): (r: seq<ChatMessage>)
    ensures |r| == |t| && forall i :: 0 <= i < |t| ==> r[i] == ShownMessage(t[i], bytes, notice)
  {
    if t == [] then [] else Shown(t[..|t| - 1], bytes, notice) + [ShownMessage(t[|t| - 1], bytes, notice)]
  }

  /** Everything the pages hold, oldest first. */
  function AllMessages(pages: seq<Page>): seq<ChatMessage> {
    if pages == [] then [] else AllMessages(pages[..|pages| - 1]) + pages[|pages| - 1].messages
  }

  lemma {:induction false} EachMessageFits(t: seq<ChatMessage>, start: nat, end: nat, bytes: int)
    requires start <= end <= |t| && (start < end ==> SliceBytes(t, start, end) <= bytes)
    ensures forall i :: start <= i < end ==> BASE_OVERHEAD + MessageBytes(t[i]) <= bytes
    decreases end - start
  {
    hide MessageBytes;
    if start < end {
      PrependCost(t, start, end, MessageBytes);
      EachMessageFits(t, start + 1, end, bytes);
    }
  }

  lemma LoneCost(t: seq<ChatMessage>, i: nat)
    requires i < |t|
    ensures SliceBytes(t, i, i + 1) == BASE_OVERHEAD + MessageBytes(t[i])
  {
    hide MessageBytes;
    PrependCost(t, i, i + 1, MessageBytes);
  }

  lemma FilledPageShows(t: seq<ChatMessage>, lower: nat, end: nat, bytes: int, notice: string)
    requires lower <= end <= |t|
    ensures var p := FilledPage(t, lower, end, bytes, notice);
            p.start <= p.end == end && p.messages == Shown(t[p.start..p.end], bytes, notice)
  {
    hide MessageBytes;
    hide CutMessage;
    hide SliceBytes;
    FilledPageStart(t, lower, end, bytes);
    var start := CollectDown(t, lower, end, BASE_OVERHEAD, bytes, MessageBytes);
    hide CollectDown;
    if start == end && lower < end {
      LoneCost(t, end - 1);
      assert t[end - 1..end] == [t[end - 1]];
    } else {
      EachMessageFits(t, start, end, bytes);
    }
  }

  lemma ShownConcat(a: seq<ChatMessage>, b: seq<ChatMessage>, bytes: int, notice: string)
    ensures Shown(a + b, bytes, notice) == Shown(a, bytes, notice) + Shown(b, bytes, notice)
  {
    hide ShownMessage;
  }

  lemma OneMorePage(pages: seq<Page>, p: Page)
    ensures AllMessages(pages + [p]) == AllMessages(pages) + p.messages
  {
    assert (pages + [p])[..|pages|] == pages;
  }

  lemma {:induction false} PagesShow(t: seq<ChatMessage>, end: nat, limit: int, maxBytes: int, notice: string)
    requires end <= |t| && ShortNotice(notice)
    ensures AllMessages(PagesBack(t, end, limit, maxBytes, notice)) == Shown(t[..end], ByteLimit(maxBytes), notice)
    decreases end
  {
    hide PageOf;
    hide Shown;
    if end == 0 {
      NothingShown(t, limit, maxBytes, notice);
    } else {
      var p := PageOf(t, Some(end), limit, maxBytes, notice);
      PageShows(t, end, limit, maxBytes, notice);
      PagesShow(t, p.start, limit, maxBytes, notice);
      hide AllMessages;
      OneMorePage(PagesBack(t, p.start, limit, maxBytes, notice), p);
      assert t[..end] == t[..p.start] + t[p.start..end];
      ShownConcat(t[..p.start], t[p.start..end], ByteLimit(maxBytes), notice);
    }
  }

  lemma PageShows(t: seq<ChatMessage>, end: nat, limit: int, maxBytes: int, notice: string)
    requires 0 < end <= |t| && ShortNotice(notice)
    ensures var p := PageOf(t, Some(end), limit, maxBytes, notice);
            p.start < end && p.messages == Shown(t[p.start..end], ByteLimit(maxBytes), notice)
  {
    hide FilledPage;
    hide Shown;
    hide LoneAndCut;
    hide WholeAndMaximal;
    PagesAreMaximal(t, Some(end), limit, maxBytes, notice);
    FilledPageShows(t, PageLower(end, limit), end, ByteLimit(maxBytes), notice);
  }

  lemma NothingShown(t: seq<ChatMessage>, limit: int, maxBytes: int, notice: string)
    requires ShortNotice(notice)
    ensures AllMessages(PagesBack(t, 0, limit, maxBytes, notice)) == [] == Shown(t[..0], ByteLimit(maxBytes), notice)
  {
  }

  /** Main result: the pages put together are the whole transcript, with only those messages cut that
      are too big for a page of their own; they are the transcript itself if none is. */
  lemma PagesHoldTranscript(t: seq<ChatMessage>, limit: int, maxBytes: int, notice: string)
    requires ShortNotice(notice)
    ensures AllMessages(PagesBack(t, |t|, limit, maxBytes, notice)) == Shown(t, ByteLimit(maxBytes), notice)
    ensures (forall i :: 0 <= i < |t| ==> BASE_OVERHEAD + MessageBytes(t[i]) <= ByteLimit(maxBytes)) ==>
              AllMessages(PagesBack(t, |t|, limit, maxBytes, notice)) == t
  {
    PagesShow(t, |t|, limit, maxBytes, notice);
    assert t[..|t|] == t;
  }
}
