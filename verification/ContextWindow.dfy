/** Cutting a conversation to a window and a token budget. */
module ContextWindow {
  import opened Prelude
  import opened Messages
  import opened ContextBudget
  import opened ExchangeRepair
  import opened ContentTruncation

  datatype Settings = Settings(
    maxRecentMessages: int,
    preserveInitialUserMessage: bool,
    clearOldToolResults: bool,
    maxToolResultChars: Option<int>
  ) {
    predicate Valid() {
      maxRecentMessages >= 2 && (maxToolResultChars.Some? ==> maxToolResultChars.value >= 1)
    }

    /** Tool results are passed on in full. */
    predicate KeepsResults() { !clearOldToolResults && maxToolResultChars.None? }
  }

  /** The last messages, and the first one too when it is preserved. */
  function Windowed(st: Settings, ms: seq<Message>): seq<Message>
    requires st.Valid()
  {
    if |ms| <= st.maxRecentMessages then ms
    else
      (if st.preserveInitialUserMessage then [ms[0]] else []) + ms[|ms| - st.maxRecentMessages..]
  }

  function Selected(st: Settings, ms: seq<Message>): seq<Message>
    requires st.Valid()
  {
    Repair(Windowed(st, ms))
  }

  method SelectedMessages(st: Settings, messages: seq<Message>) returns (selected: seq<Message>)
    requires st.Valid()
    ensures selected == Selected(st, messages)
  {
    var window := messages;
    if |messages| > st.maxRecentMessages {
      var start := |messages| - st.maxRecentMessages;
      window := messages[start..];
      if st.preserveInitialUserMessage && start > 0 {
        window := [messages[0]] + window;
      }
    }
    assert window == Windowed(st, messages);
    selected := DropIncompleteToolExchanges(window);
  }

  function LatestResult(ms: seq<Message>): Option<nat> {
    if ms == [] then None
    else if HasResult(ms[|ms| - 1]) then Some(|ms| - 1)
    else LatestResult(ms[..|ms| - 1])
  }

  method LatestToolResultIndex(messages: seq<Message>) returns (r: Option<nat>)
    ensures r == LatestResult(messages)
  {
    var n := |messages|;
    assert messages[..n] == messages;
    while n > 0
      invariant 0 <= n <= |messages|
      invariant LatestResult(messages[..n]) == LatestResult(messages)
    {
      assert messages[..n][..n - 1] == messages[..n - 1];
      if HasResult(messages[n - 1]) {
        return Some(n - 1);
      }
      n := n - 1;
    }
    return None;
  }

  function BlockForModel(e: Encoding, b: Block, clear: bool, cap: Option<int>): Block
    requires cap.Some? ==> cap.value >= 1
  {
    if !b.ToolResult? then b
    else if clear then b.(content := Chars(e.clearedResult(b.useId, b.content)))
    else if cap.None? then b
    else if b.content.Chars? && |b.content.chars| > cap.value then
      b.(content := Chars(e.cappedResult(b.content.chars, cap.value)))
    else b
  }

  function MessageForModel(e: Encoding, m: Message, clear: bool, cap: Option<int>): Message
    requires cap.Some? ==> cap.value >= 1
  {
    match m.content
    case Str(_) => m
    case Blocks(bs) =>
      Message(m.role, Blocks(seq(|bs|, i requires 0 <= i < |bs| => BlockForModel(e, bs[i], clear, cap))))
  }

  /** Older results are cleared or capped as the settings say; the latest one is never touched. */
  function Transport(st: Settings, e: Encoding, selected: seq<Message>): seq<Message>
    requires st.Valid()
  {
    var latest := LatestResult(selected);
    seq(|selected|, i requires 0 <= i < |selected| =>
      MessageForModel(e, selected[i], Some(i as nat) != latest && st.clearOldToolResults,
                      if Some(i as nat) == latest then None else st.maxToolResultChars))
  }

  /** The latest result is the last message with one. */
  lemma {:induction false} LatestResultIsLast(ms: seq<Message>)
    ensures LatestResult(ms).None? <==> forall i :: 0 <= i < |ms| ==> !HasResult(ms[i])
    ensures LatestResult(ms).Some? ==>
              var k := LatestResult(ms).value;
              k < |ms| && HasResult(ms[k]) && forall i :: k < i < |ms| ==> !HasResult(ms[i])
  {
    hide HasResult;
    if ms != [] {
      var n := |ms| - 1;
      LatestResultIsLast(ms[..n]);
      assert forall i :: 0 <= i < n ==> ms[..n][i] == ms[i];
    }
  }

  /** What transport makes of one block: a tool result gives way to its notice, or is capped when it is
      longer than the cap, unless no message after it has results; everything else is passed on. */
  lemma TransportedBlock(st: Settings, e: Encoding, ms: seq<Message>, i: nat, j: nat)
    requires st.Valid() && i < |ms| && j < |BlocksOf(ms[i])|
    ensures |Transport(st, e, ms)| == |ms| && Transport(st, e, ms)[i].role == ms[i].role
    ensures |BlocksOf(Transport(st, e, ms)[i])| == |BlocksOf(ms[i])|
    ensures var b, sent := BlocksOf(ms[i])[j], BlocksOf(Transport(st, e, ms)[i])[j];
            var later := exists k :: i < k < |ms| && HasResult(ms[k]);
            sent == if !b.ToolResult? || !later then b
                    else if st.clearOldToolResults then b.(content := Chars(e.clearedResult(b.useId, b.content)))
                    else if st.maxToolResultChars.Some? && b.content.Chars? && |b.content.chars| > st.maxToolResultChars.value
                    then b.(content := Chars(e.cappedResult(b.content.chars, st.maxToolResultChars.value)))
                    else b
  {
    LatestResultIsLast(ms);
    var b := BlocksOf(ms[i])[j];
    if b.ToolResult? {
      assert b in BlocksOf(ms[i]) && HasResult(ms[i]);
    }
  }

  /** Plain text messages are passed on as they are. */
  lemma TransportedText(st: Settings, e: Encoding, ms: seq<Message>, i: nat)
    requires st.Valid() && i < |ms| && ms[i].content.Str?
    ensures |Transport(st, e, ms)| == |ms| && Transport(st, e, ms)[i] == ms[i]
  {
  }

  /** How many of the oldest groups go; the last group always stays. */
  function GroupsToDrop(e: Encoding, prefix: seq<seq<Message>>, groups: seq<seq<Message>>, b: Budget): (k: nat)
    requires b.Valid()
    ensures k == 0 || k < |groups|
  {
    if |groups| <= 1 || Fits(e, Flatten(prefix + groups), b) then 0
    else 1 + GroupsToDrop(e, prefix, groups[1..], b)
  }

  function PrefixLength(ms: seq<Message>, preserveFirst: bool): nat {
    if preserveFirst && Groups(ms) != [] then 1 else 0
  }

  /** The list after dropping whole groups and before any truncation. */
  function Shed(e: Encoding, ms: seq<Message>, b: Budget, preserveFirst: bool): seq<Message>
    requires b.Valid()
  {
    if Fits(e, ms, b) then ms
    else
      var groups, n := Groups(ms), PrefixLength(ms, preserveFirst);
      var k := GroupsToDrop(e, groups[..n], groups[n..], b);
      Flatten(groups[..n] + groups[n..][k..])
  }

  function Fit(e: Encoding, ms: seq<Message>, b: Budget, preserveFirst: bool): seq<Message>
    requires b.Valid()
  {
    var shed := Shed(e, ms, b, preserveFirst);
    var shortened := Truncate(e, shed, b, Results);
    if Fits(e, shortened, b) then shortened else Truncate(e, shortened, b, Texts)
  }

  /** The loop that drops the oldest group while the rest is too big and more than one is left. */
  method DropOldestGroups(e: Encoding, prefix: seq<seq<Message>>, all: seq<seq<Message>>, b: Budget)
    returns (groups: seq<seq<Message>>)
    requires b.Valid()
    ensures groups == all[GroupsToDrop(e, prefix, all, b)..]
  {
    hide Fits;
    hide Flatten;
    groups := all;
    ghost var k := 0;
    while |groups| > 1
      invariant 0 <= k <= |all| && groups == all[k..]
      invariant GroupsToDrop(e, prefix, all, b) == k + GroupsToDrop(e, prefix, groups, b)
    {
      if Fits(e, Flatten(prefix + groups), b) {
        return;
      }
      groups := groups[1..];
      k := k + 1;
    }
  }

  method FitMessagesToTokenBudget(e: Encoding, messages: seq<Message>, b: Budget, preserveFirst: bool)
    returns (r: seq<Message>)
    requires b.Valid()
    ensures r == Fit(e, messages, b, preserveFirst)
  {
    hide Fits;
    if Fits(e, messages, b) {
      return messages;
    }
    var groups := MessageGroups(messages);
    var prefix: seq<seq<Message>> := [];
    if preserveFirst && groups != [] {
      prefix := [groups[0]];
      groups := groups[1..];
    }
    groups := DropOldestGroups(e, prefix, groups, b);
    r := Flatten(prefix + groups);
    assert r == Shed(e, messages, b, preserveFirst);
    hide Shed;
    r := TruncateToBudget(e, r, b, Results);
    if Fits(e, r, b) {
      return;
    }
    r := TruncateToBudget(e, r, b, Texts);
  }

  /** What the model is sent. */
  function ForModel(st: Settings, e: Encoding, ms: seq<Message>, b: Option<Budget>): seq<Message>
    requires st.Valid() && (b.Some? ==> b.value.Valid())
  {
    var sent := Transport(st, e, Selected(st, ms));
    if b.None? then sent else Fit(e, sent, b.value, st.preserveInitialUserMessage)
  }

  method MessagesForModel(st: Settings, e: Encoding, messages: seq<Message>, b: Option<Budget>)
    returns (r: seq<Message>)
    requires st.Valid() && (b.Some? ==> b.value.Valid())
    ensures r == ForModel(st, e, messages, b)
  {
    var selected := SelectedMessages(st, messages);
    var latest := LatestToolResultIndex(selected);
    r := seq(|selected|, i requires 0 <= i < |selected| =>
      MessageForModel(e, selected[i], Some(i as nat) != latest && st.clearOldToolResults,
                      if Some(i as nat) == latest then None else st.maxToolResultChars));
    if b.Some? {
      r := FitMessagesToTokenBudget(e, r, b.value, st.preserveInitialUserMessage);
    }
  }

  lemma WindowIsUnmixed(st: Settings, ms: seq<Message>)
    requires st.Valid() && AllUnmixed(ms)
    ensures AllUnmixed(Windowed(st, ms))
  {
  }

  lemma TransportKeepsShapes(st: Settings, e: Encoding, selected: seq<Message>)
    requires st.Valid()
    ensures SameShapes(selected, Transport(st, e, selected))
  {
    var sent := Transport(st, e, selected);
    forall i | 0 <= i < |selected| ensures SameShape(selected[i], sent[i]) {
      SameKindsSameShape(selected[i], sent[i]);
    }
  }

  lemma ShapesKeepUnmixed(a: seq<Message>, b: seq<Message>)
    requires SameShapes(a, b) && AllUnmixed(a)
    ensures AllUnmixed(b)
  {
    forall i | 0 <= i < |b| ensures Unmixed(b[i]) {
      assert SameShape(a[i], b[i]) && Unmixed(a[i]);
    }
  }

  lemma ShedPairs(e: Encoding, ms: seq<Message>, b: Budget, preserveFirst: bool)
    requires b.Valid() && WellPaired(ms) && AllUnmixed(ms)
    ensures WellPaired(Shed(e, ms, b, preserveFirst))
  {
    if !Fits(e, ms, b) {
      var groups, n := Groups(ms), PrefixLength(ms, preserveFirst);
      var k := GroupsToDrop(e, groups[..n], groups[n..], b);
      GroupsAreWhole(ms);
      WholeGroupsPair(groups[..n] + groups[n..][k..]);
    }
  }

  lemma TruncatePairs(e: Encoding, ms: seq<Message>, b: Budget, t: Target)
    requires b.Valid() && WellPaired(ms)
    ensures WellPaired(Truncate(e, ms, b, t)) && SameShapes(ms, Truncate(e, ms, b, t))
  {
    TruncateRewords(e, ms, b, t);
    RewordedKeepsShapes(ms, Truncate(e, ms, b, t), t);
    ShapesKeepPairing(ms, Truncate(e, ms, b, t));
  }

  /** Main result: for any unmixed history, settings and budget, what the model is sent obeys the
      pairing rule, through window, repair, clearing, group dropping and both truncation loops. */
  lemma SentMessagesArePaired(st: Settings, e: Encoding, ms: seq<Message>, b: Option<Budget>)
    requires st.Valid() && (b.Some? ==> b.value.Valid()) && AllUnmixed(ms)
    ensures WellPaired(ForModel(st, e, ms, b))
  {
    var selected := Selected(st, ms);
    WindowIsUnmixed(st, ms);
    RepairPairs(Windowed(st, ms));
    var sent := Transport(st, e, selected);
    TransportKeepsShapes(st, e, selected);
    ShapesKeepPairing(selected, sent);
    ShapesKeepUnmixed(selected, sent);
    if b.Some? {
      ShedPairs(e, sent, b.value, st.preserveInitialUserMessage);
      var shed := Shed(e, sent, b.value, st.preserveInitialUserMessage);
      TruncatePairs(e, shed, b.value, Results);
      TruncatePairs(e, Truncate(e, shed, b.value, Results), b.value, Texts);
    }
  }

  /** The number of groups dropped is the least that makes the rest fit, or all but the last. */
  lemma {:induction false} DropsAsFewAsPossible(
    e: Encoding, prefix: seq<seq<Message>>, groups: seq<seq<Message>>, b: Budget, j: nat)
    requires b.Valid() && j < GroupsToDrop(e, prefix, groups, b)
    ensures !Fits(e, Flatten(prefix + groups[j..]), b)
  {
    if j == 0 {
      assert groups[0..] == groups;
    } else {
      DropsAsFewAsPossible(e, prefix, groups[1..], b, j - 1);
      assert groups[1..][j - 1..] == groups[j..];
    }
  }

  lemma {:induction false} DropsUntilItFits(
    e: Encoding, prefix: seq<seq<Message>>, groups: seq<seq<Message>>, b: Budget)
    requires b.Valid()
    ensures var k := GroupsToDrop(e, prefix, groups, b);
            Fits(e, Flatten(prefix + groups[k..]), b) || k + 1 >= |groups|
  {
    if |groups| > 1 && !Fits(e, Flatten(prefix + groups), b) {
      DropsUntilItFits(e, prefix, groups[1..], b);
      var k := GroupsToDrop(e, prefix, groups[1..], b);
      assert groups[1..][k..] == groups[k + 1..];
    } else {
      assert groups[0..] == groups;
    }
  }

  /** Of all suffixes of whole groups after the first n, the one from k is the longest that fits;
      the last group stays even when nothing fits. */
  ghost predicate LongestFitting(e: Encoding, groups: seq<seq<Message>>, n: nat, k: nat, b: Budget)
    requires b.Valid() && n <= |groups|
  {
    n <= k <= |groups| && (k == n || k < |groups|) &&
    (Fits(e, Flatten(groups[..n] + groups[k..]), b) || k + 1 >= |groups|) &&
    (forall j: nat :: n <= j < k ==> !Fits(e, Flatten(groups[..n] + groups[j..]), b))
  }

  /** Group dropping keeps, after the preserved first group, the longest suffix of whole exchanges
      that fits, and so does nothing to a list that fits. */
  lemma ShedKeepsLongestSuffix(e: Encoding, ms: seq<Message>, b: Budget, preserveFirst: bool)
    requires b.Valid()
    ensures var groups, n := Groups(ms), PrefixLength(ms, preserveFirst);
            exists k: nat :: LongestFitting(e, groups, n, k, b) &&
                             Shed(e, ms, b, preserveFirst) == Flatten(groups[..n] + groups[k..])
  {
    hide Fits;
    hide Groups;
    hide GroupsToDrop;
    var groups, n := Groups(ms), PrefixLength(ms, preserveFirst);
    FlattenGroups(ms);
    assert groups[..n] + groups[n..] == groups;
    var d := if Fits(e, ms, b) then 0 else GroupsToDrop(e, groups[..n], groups[n..], b);
    var k := n + d;
    assert groups[n..][d..] == groups[k..];
    if !Fits(e, ms, b) {
      DropsUntilItFits(e, groups[..n], groups[n..], b);
      forall j: nat | n <= j < k ensures !Fits(e, Flatten(groups[..n] + groups[j..]), b) {
        DropsAsFewAsPossible(e, groups[..n], groups[n..], b, j - n);
        assert groups[n..][j - n..] == groups[j..];
      }
    }
    assert LongestFitting(e, groups, n, k, b);
  }

  lemma {:induction false} StricterDropsMore(
    e: Encoding, prefix: seq<seq<Message>>, groups: seq<seq<Message>>, tight: Budget, loose: Budget)
    requires Stricter(tight, loose)
    ensures GroupsToDrop(e, prefix, groups, tight) >= GroupsToDrop(e, prefix, groups, loose)
  {
    if |groups| > 1 {
      if Fits(e, Flatten(prefix + groups), tight) {
        var n := ListChars(e, Flatten(prefix + groups));
        WithinMonotone(n, n, tight, loose);
      } else {
        StricterDropsMore(e, prefix, groups[1..], tight, loose);
      }
    }
  }

  lemma FlattenSuffixIsShorter(prefix: seq<seq<Message>>, groups: seq<seq<Message>>, j: nat, k: nat)
    requires j <= k <= |groups|
    ensures |Flatten(prefix + groups[k..])| <= |Flatten(prefix + groups[j..])|
  {
    assert groups[j..] == groups[j..k] + groups[k..];
    FlattenConcat(groups[j..k], groups[k..]);
    FlattenConcat(prefix, groups[j..]);
    FlattenConcat(prefix, groups[k..]);
  }

  lemma FitCount(e: Encoding, ms: seq<Message>, b: Budget, preserveFirst: bool)
    requires b.Valid()
    ensures |Fit(e, ms, b, preserveFirst)| == |Shed(e, ms, b, preserveFirst)|
  {
    var shed := Shed(e, ms, b, preserveFirst);
    TruncateRewords(e, shed, b, Results);
    TruncateRewords(e, Truncate(e, shed, b, Results), b, Texts);
  }

  /** A stricter budget keeps at most as many messages. */
  lemma StricterFitsFewer(e: Encoding, ms: seq<Message>, tight: Budget, loose: Budget, preserveFirst: bool)
    requires Stricter(tight, loose)
    ensures |Fit(e, ms, tight, preserveFirst)| <= |Fit(e, ms, loose, preserveFirst)|
  {
    FitCount(e, ms, tight, preserveFirst);
    FitCount(e, ms, loose, preserveFirst);
    var groups, n := Groups(ms), PrefixLength(ms, preserveFirst);
    FlattenGroups(ms);
    assert groups[..n] + groups[n..] == groups && groups[n..][0..] == groups[n..];
    if Fits(e, ms, tight) {
      WithinMonotone(ListChars(e, ms), ListChars(e, ms), tight, loose);
    } else {
      StricterDropsMore(e, groups[..n], groups[n..], tight, loose);
      var k := GroupsToDrop(e, groups[..n], groups[n..], tight);
      var j := if Fits(e, ms, loose) then 0 else GroupsToDrop(e, groups[..n], groups[n..], loose);
      FlattenSuffixIsShorter(groups[..n], groups[n..], j, k);
    }
  }

  /** The retry after a context overflow never sends more messages than the first attempt. */
  lemma RetrySendsNoMore(st: Settings, e: Encoding, ms: seq<Message>, l: Limits, reserved: nat)
    requires st.Valid() && BudgetFor(l, reserved, false).Valid()
    ensures BudgetFor(l, reserved, true).Valid()
    ensures |ForModel(st, e, ms, Some(BudgetFor(l, reserved, true)))|
         <= |ForModel(st, e, ms, Some(BudgetFor(l, reserved, false)))|
  {
    RetryIsStricter(l, reserved);
    StricterFitsFewer(e, Transport(st, e, Selected(st, ms)), BudgetFor(l, reserved, true),
                      BudgetFor(l, reserved, false), st.preserveInitialUserMessage);
  }
}
