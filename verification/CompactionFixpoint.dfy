/** Compacting a history that was restored from its own compacted snapshot. */
module CompactionFixpoint {
  import opened Prelude
  import opened Messages
  import opened ContextBudget
  import opened ExchangeRepair
  import opened ContentTruncation
  import opened ContextWindow
  import opened Compaction

  /** A complete history; if the settings preserve its first message, that is a plain one. */
  predicate Settled(st: Settings, ms: seq<Message>) {
    ms != [] && WellPaired(ms) && AllUnmixed(ms) && MarkersStandAlone(ms) &&
    (st.preserveInitialUserMessage ==> Plain(ms[0]))
  }

  predicate EndsInMarker(ms: seq<Message>) { ms != [] && HasMarker(ms[|ms| - 1]) }

  /** The message kept out of the window, if the settings preserve one. */
  function Head(st: Settings, ms: seq<Message>): seq<Message>
    requires ms != []
  {
    if st.preserveInitialUserMessage then [ms[0]] else []
  }

  /** Dropping whole groups is enough for the budget, so no content is shortened. */
  predicate NoTruncation(st: Settings, e: Encoding, ms: seq<Message>, b: Option<Budget>)
    requires st.Valid() && (b.Some? ==> b.value.Valid())
  {
    b.Some? ==>
      Fits(e, Shed(e, Transport(st, e, Selected(st, ms)), b.value, st.preserveInitialUserMessage), b.value)
  }

  lemma TransportIsIdentity(st: Settings, e: Encoding, ms: seq<Message>)
    requires st.Valid() && st.KeepsResults()
    ensures Transport(st, e, ms) == ms
  {
    var sent := Transport(st, e, ms);
    forall i | 0 <= i < |ms| ensures sent[i] == ms[i] {
      if ms[i].content.Blocks? {
        assert sent[i].content.blocks == ms[i].content.blocks;
      }
    }
  }

  lemma RepairPaired(ms: seq<Message>)
    requires WellPaired(ms) && AllUnmixed(ms)
    ensures Repair(ms) == ms
  {
    RepairIsIdentityIffPaired(ms);
  }

  lemma SuffixAfterHeadIsPaired(st: Settings, ms: seq<Message>)
    requires Settled(st, ms)
    ensures WellPaired(ms[|Head(st, ms)|..]) && WellPaired(Head(st, ms)) && AllUnmixed(Head(st, ms))
    ensures ms == Head(st, ms) + ms[|Head(st, ms)|..]
  {
    if st.preserveInitialUserMessage {
      if 1 < |ms| { assert ResultCalled(ms, 1); }
      PairedSuffix(ms, 1);
    }
  }

  /** A cut inside an exchange loses that exchange's stray results and nothing more. */
  lemma RepairedSuffix(ms: seq<Message>, start: nat) returns (j: nat)
    requires WellPaired(ms) && AllUnmixed(ms) && start + 2 <= |ms|
    ensures j == (if HasResult(ms[start]) then start + 1 else start)
    ensures WellPaired(ms[j..]) && Repair(ms[start..]) == ms[j..]
  {
    assert ResultCalled(ms, start + 1);
    j := if HasResult(ms[start]) then start + 1 else start;
    assert Unmixed(ms[start]);
    PairedSuffix(ms, j);
    assert AllUnmixed(ms[j..]);
    RepairPaired(ms[j..]);
    assert ms[start..][1..] == ms[start + 1..];
  }

  lemma SelectedUncut(st: Settings, ms: seq<Message>)
    requires st.Valid() && WellPaired(ms) && AllUnmixed(ms) && |ms| <= st.maxRecentMessages
    ensures Selected(st, ms) == ms
  {
    RepairPaired(ms);
  }

  lemma SelectedCut(st: Settings, ms: seq<Message>, head: seq<Message>) returns (j: nat)
    requires st.Valid() && WellPaired(ms) && AllUnmixed(ms) && |ms| > st.maxRecentMessages
    requires head == Head(st, ms) && WellPaired(head) && AllUnmixed(head)
    ensures |head| <= j < |ms| && Selected(st, ms) == head + ms[j..]
    ensures WellPaired(ms[j..]) && |ms| - j <= st.maxRecentMessages
    ensures var start := |ms| - st.maxRecentMessages; j == if HasResult(ms[start]) then start + 1 else start
  {
    hide WellPaired;
    hide Repair;
    hide Unmixed;
    var start := |ms| - st.maxRecentMessages;
    j := RepairedSuffix(ms, start);
    RepairKeepsPairedPrefix(head, ms[start..]);
  }

  /** What the window and the repair leave: the head, then all the messages the window has room for, but
      for the results of a call just outside. */
  lemma SelectedShape(st: Settings, ms: seq<Message>, head: seq<Message>) returns (j: nat)
    requires st.Valid() && WellPaired(ms) && AllUnmixed(ms) && ms != []
    requires head == Head(st, ms) && WellPaired(head) && AllUnmixed(head)
    requires WellPaired(ms[|head|..]) && ms == head + ms[|head|..]
    ensures |head| <= j <= |ms| && Selected(st, ms) == head + ms[j..]
    ensures WellPaired(ms[j..]) && |ms| - j <= st.maxRecentMessages
    ensures j == |ms| ==> |ms| == |head|
    ensures j == if |ms| <= st.maxRecentMessages then |head|
                 else if HasResult(ms[|ms| - st.maxRecentMessages]) then |ms| - st.maxRecentMessages + 1
                 else |ms| - st.maxRecentMessages
  {
    if |ms| <= st.maxRecentMessages {
      j := |head|;
      SelectedUncut(st, ms);
    } else {
      j := SelectedCut(st, ms, head);
    }
  }

  lemma GroupsAfterPlain(p: Message, t: seq<Message>)
    requires UseIds(p) == {}
    ensures Groups([p] + t) == [[p]] + Groups(t)
  {
    assert ([p] + t)[1..] == t;
  }

  lemma GroupsSuffix(t: seq<Message>, k: nat) returns (i: nat)
    requires WellPaired(t) && AllUnmixed(t) && (k == 0 || k < |Groups(t)|)
    ensures i <= |t| && Flatten(Groups(t)[k..]) == t[i..] && WellPaired(t[i..]) && (t != [] ==> i < |t|)
  {
    var g := Groups(t);
    FlattenGroups(t);
    GroupsAreWhole(t);
    assert g[..k] + g[k..] == g;
    FlattenConcat(g[..k], g[k..]);
    i := |Flatten(g[..k])|;
    WholeGroupsPair(g[k..]);
  }

  /** Group dropping keeps the head and a suffix of the rest. */
  lemma ShedShape(e: Encoding, head: seq<Message>, t: seq<Message>, b: Budget, preserveFirst: bool)
    returns (i: nat)
    requires b.Valid() && WellPaired(t) && AllUnmixed(t)
    requires if preserveFirst then |head| == 1 && Bare(head[0]) else head == []
    ensures i <= |t| && Shed(e, head + t, b, preserveFirst) == head + t[i..] && WellPaired(t[i..])
    ensures t != [] ==> i < |t|
  {
    var ms := head + t;
    if Fits(e, ms, b) {
      i := 0;
      assert t[0..] == t;
    } else if preserveFirst {
      assert head == [head[0]];
      GroupsAfterPlain(head[0], t);
      var k := GroupsToDrop(e, [[head[0]]], Groups(t), b);
      i := GroupsSuffix(t, k);
      assert Groups(ms)[..1] == [[head[0]]] && Groups(ms)[1..] == Groups(t);
      assert ([[head[0]]] + Groups(t)[k..])[1..] == Groups(t)[k..];
    } else {
      assert ms == t;
      var groups := Groups(t);
      assert groups[..0] == [] && groups[0..] == groups;
      var k := GroupsToDrop(e, [], groups, b);
      i := GroupsSuffix(t, k);
      assert groups[..0] + groups[0..][k..] == groups[k..];
    }
  }

  lemma FitWithoutTruncation(e: Encoding, ms: seq<Message>, b: Budget, preserveFirst: bool)
    requires b.Valid() && Fits(e, Shed(e, ms, b, preserveFirst), b)
    ensures Fit(e, ms, b, preserveFirst) == Shed(e, ms, b, preserveFirst)
  {
  }

  lemma FitShape(e: Encoding, head: seq<Message>, ms: seq<Message>, j: nat, b: Budget, preserveFirst: bool)
    returns (k: nat)
    requires b.Valid() && j <= |ms| && WellPaired(ms[j..]) && AllUnmixed(ms[j..])
    requires if preserveFirst then |head| == 1 && Bare(head[0]) else head == []
    requires Fits(e, Shed(e, head + ms[j..], b, preserveFirst), b)
    ensures j <= k <= |ms| && Fit(e, head + ms[j..], b, preserveFirst) == head + ms[k..]
    ensures WellPaired(ms[k..]) && (j < |ms| ==> k < |ms|) && Fits(e, head + ms[k..], b)
  {
    var t := ms[j..];
    var i := ShedShape(e, head, t, b, preserveFirst);
    FitWithoutTruncation(e, head + t, b, preserveFirst);
    k := j + i;
    assert t[i..] == ms[k..];
  }

  /** What is sent is the head and a suffix of the history, which fits the budget. */
  lemma ModelShape(st: Settings, e: Encoding, ms: seq<Message>, b: Option<Budget>, head: seq<Message>)
    returns (j: nat)
    requires st.Valid() && st.KeepsResults() && (b.Some? ==> b.value.Valid())
    requires NoTruncation(st, e, ms, b) && WellPaired(ms) && AllUnmixed(ms) && ms != []
    requires st.preserveInitialUserMessage ==> Plain(ms[0])
    requires head == Head(st, ms) && WellPaired(head) && AllUnmixed(head)
    requires WellPaired(ms[|head|..]) && ms == head + ms[|head|..]
    ensures |head| <= j <= |ms| && ForModel(st, e, ms, b) == head + ms[j..]
    ensures WellPaired(ms[j..]) && |ms| - j <= st.maxRecentMessages
    ensures j == |ms| ==> |ms| == |head|
    ensures b.Some? ==> Fits(e, head + ms[j..], b.value)
  {
    hide WellPaired;
    hide Selected;
    hide Transport;
    hide Fit;
    hide Fits;
    hide Shed;
    hide UseIds;
    hide HasResult;
    hide HasMarker;
    hide Unmixed;
    j := SelectedShape(st, ms, head);
    TransportIsIdentity(st, e, Selected(st, ms));
    if b.Some? {
      j := FitShape(e, head, ms, j, b.value, st.preserveInitialUserMessage);
    }
  }

  /** The retained messages other than markers, and the ones lost before them. */
  function Lost(st: Settings, ms: seq<Message>, j: nat): seq<Message>
    requires ms != [] && |Head(st, ms)| <= j <= |ms|
  {
    WithoutMarkers(ms[|Head(st, ms)|..j])
  }

  lemma HistorySplits(ms: seq<Message>, head: seq<Message>, j: nat)
    requires |head| <= j <= |ms| && ms == head + ms[|head|..] && NoMarkers(head)
    ensures WithoutMarkers(ms) == head + WithoutMarkers(ms[|head|..j]) + WithoutMarkers(ms[j..])
    ensures WithoutMarkers(head + ms[j..]) == head + WithoutMarkers(ms[j..])
  {
    var mid := ms[|head|..j];
    assert ms == (head + mid) + ms[j..];
    WithoutMarkersConcat(head + mid, ms[j..]);
    WithoutMarkersConcat(head, mid);
    WithoutMarkersConcat(head, ms[j..]);
    WithoutMarkersIdentity(head);
  }

  predicate NoMarkers(ms: seq<Message>) { forall i :: 0 <= i < |ms| ==> !HasMarker(ms[i]) }

  lemma WithMarkerShape(head: seq<Message>, lost: seq<Message>, rest: seq<Message>,
                        sent: seq<Message>, preserveFirst: bool)
    requires WithoutMarkers(sent) == head + rest && |head| == (if preserveFirst then 1 else 0)
    ensures WithMarker(head + lost + rest, sent, preserveFirst)
         == if lost == [] then sent else head + [MarkerMessage(|lost|)] + rest
  {
    var compacted := head + rest;
    assert compacted[..|head|] == head && compacted[|head|..] == rest;
  }

  /** The snapshot in full: what it keeps, what it lost, and where its marker stands. */
  lemma ContinuationShape(st: Settings, e: Encoding, ms: seq<Message>, b: Option<Budget>) returns (j: nat)
    requires st.Valid() && st.KeepsResults() && (b.Some? ==> b.value.Valid())
    requires Settled(st, ms) && NoTruncation(st, e, ms, b)
    ensures |Head(st, ms)| <= j <= |ms| && ForModel(st, e, ms, b) == Head(st, ms) + ms[j..]
    ensures WellPaired(ms[j..]) && |ms| - j <= st.maxRecentMessages
    ensures j == |ms| ==> |ms| == |Head(st, ms)|
    ensures b.Some? ==> Fits(e, Head(st, ms) + ms[j..], b.value)
    ensures Continuation(st, e, ms, b)
         == if Lost(st, ms, j) == [] then Head(st, ms) + ms[j..]
            else Head(st, ms) + [MarkerMessage(|Lost(st, ms, j)|)] + WithoutMarkers(ms[j..])
  {
    var head := Head(st, ms);
    SuffixAfterHeadIsPaired(st, ms);
    j := ModelShape(st, e, ms, b, head);
    RepairPaired(ms);
    assert NoMarkers(head);
    HistorySplits(ms, head, j);
    WithMarkerShape(head, Lost(st, ms, j), WithoutMarkers(ms[j..]), head + ms[j..],
                    st.preserveInitialUserMessage);
  }

  lemma MarkerIsMarker(dropped: nat)
    ensures HasMarker(MarkerMessage(dropped)) && Bare(MarkerMessage(dropped))
    ensures WithoutMarkers([MarkerMessage(dropped)]) == []
  {
    var marker := MarkerMessage(dropped);
    assert BlocksOf(marker)[0].Marker?;
    assert [marker][1..] == [];
  }

  lemma WithoutMarkersTwice(ms: seq<Message>)
    ensures WithoutMarkers(WithoutMarkers(ms)) == WithoutMarkers(ms)
  {
    WithoutMarkersHasNone(ms);
    WithoutMarkersIdentity(WithoutMarkers(ms));
  }

  lemma WithoutMarkersThree(a: seq<Message>, b: seq<Message>, c: seq<Message>)
    ensures WithoutMarkers(a + b + c) == WithoutMarkers(a) + WithoutMarkers(b) + WithoutMarkers(c)
  {
    WithoutMarkersConcat(a + b, c);
    WithoutMarkersConcat(a, b);
  }

  lemma MarkedSnapshot(head: seq<Message>, dropped: nat, tail: seq<Message>)
    requires NoMarkers(head)
    ensures WithoutMarkers(head + [MarkerMessage(dropped)] + WithoutMarkers(tail))
         == head + WithoutMarkers(tail)
  {
    MarkerIsMarker(dropped);
    WithoutMarkersIdentity(head);
    WithoutMarkersTwice(tail);
    WithoutMarkersThree(head, [MarkerMessage(dropped)], WithoutMarkers(tail));
  }

  /** Nothing is lost without being counted: the complete history is the snapshot's messages with the
      lost ones put back at the marker, and the marker carries their number. */
  ghost predicate Accounts(history: seq<Message>, sent: seq<Message>, snapshot: seq<Message>,
                           head: seq<Message>, lost: seq<Message>, rest: seq<Message>) {
    WithoutMarkers(history) == head + lost + rest && WithoutMarkers(snapshot) == head + rest &&
    snapshot == if lost == [] then sent else head + [MarkerMessage(|lost|)] + rest
  }

  lemma SnapshotAccountsForHistory(st: Settings, e: Encoding, ms: seq<Message>, b: Option<Budget>)
    returns (head: seq<Message>, lost: seq<Message>, rest: seq<Message>)
    requires st.Valid() && st.KeepsResults() && (b.Some? ==> b.value.Valid())
    requires Settled(st, ms) && NoTruncation(st, e, ms, b)
    ensures Accounts(ms, ForModel(st, e, ms, b), Continuation(st, e, ms, b), head, lost, rest)
    ensures MarkerCount(ms) <= 1 ==> MarkerCount(Continuation(st, e, ms, b)) <= 1
  {
    var j := ContinuationShape(st, e, ms, b);
    head, lost, rest := Head(st, ms), Lost(st, ms, j), WithoutMarkers(ms[j..]);
    SuffixAfterHeadIsPaired(st, ms);
    assert NoMarkers(head);
    HistorySplits(ms, head, j);
    MarkedSnapshot(head, |lost|, ms[j..]);
    WithoutMarkersHasNone(ms[|head|..j]);
    assert |ms| == |head| + |ms[|head|..j]| + |ms[j..]|;
  }

  function MarkerCount(ms: seq<Message>): int { |ms| - |WithoutMarkers(ms)| }

  lemma {:induction false} FewerChars(e: Encoding, ms: seq<Message>)
    ensures BodyChars(e, WithoutMarkers(ms)) <= BodyChars(e, ms)
  {
    if ms != [] {
      var rest := WithoutMarkers(ms[1..]);
      FewerChars(e, ms[1..]);
      if HasMarker(ms[0]) {
        assert WithoutMarkers(ms) == rest;
      } else {
        assert WithoutMarkers(ms) == [ms[0]] + rest && ([ms[0]] + rest)[1..] == rest;
      }
    }
  }

  /** Removing the markers of a list that fits leaves a list that fits. */
  lemma FitsWithoutMarkers(e: Encoding, head: seq<Message>, tail: seq<Message>, b: Budget)
    requires b.Valid() && Fits(e, head + tail, b)
    ensures Fits(e, head + WithoutMarkers(tail), b)
  {
    FewerChars(e, tail);
    BodyCharsConcat(e, head, tail);
    BodyCharsConcat(e, head, WithoutMarkers(tail));
    ListCharsMonotone(e, head + tail, head + WithoutMarkers(tail));
    WithinMonotone(ListChars(e, head + tail), ListChars(e, head + WithoutMarkers(tail)), b, b);
  }

  lemma ListCharsMonotone(e: Encoding, x: seq<Message>, y: seq<Message>)
    requires BodyChars(e, y) <= BodyChars(e, x)
    ensures ListChars(e, y) <= ListChars(e, x)
  {
  }

  /** Compacting a list that is already within window and budget changes nothing. */
  lemma CompactedStays(st: Settings, e: Encoding, ms: seq<Message>, b: Option<Budget>)
    requires st.Valid() && st.KeepsResults() && (b.Some? ==> b.value.Valid())
    requires WellPaired(ms) && AllUnmixed(ms)
    requires |ms| <= st.maxRecentMessages + (if st.preserveInitialUserMessage then 1 else 0)
    requires b.Some? ==> Fits(e, ms, b.value)
    ensures ForModel(st, e, ms, b) == ms && NoTruncation(st, e, ms, b)
  {
    if |ms| > st.maxRecentMessages {
      assert ms == [ms[0]] + ms[1..];
    }
    assert Windowed(st, ms) == ms;
    RepairPaired(ms);
    TransportIsIdentity(st, e, ms);
  }

  /** A message outside every tool exchange; markers are such messages. */
  predicate Bare(m: Message) { UseIds(m) == {} && !HasResult(m) }

  lemma ShedMarkerOnly(e: Encoding, prefix: seq<seq<Message>>, head: seq<Message>, marker: Message,
                       rest: seq<Message>, b: Budget)
    requires b.Valid() && rest != [] && Flatten(prefix) == head
    requires !Fits(e, head + [marker] + rest, b) && Fits(e, head + rest, b)
    ensures GroupsToDrop(e, prefix, [[marker]] + Groups(rest), b) == 1
    ensures Flatten(prefix + Groups(rest)) == head + rest
  {
    hide Fits;
    hide Groups;
    var g := Groups(rest);
    FlattenGroups(rest);
    MarkerInFront(prefix, head, marker, rest, g);
    assert ([[marker]] + g)[1..] == g && g != [];
  }

  lemma MarkerInFront(prefix: seq<seq<Message>>, head: seq<Message>, marker: Message, rest: seq<Message>,
                      g: seq<seq<Message>>)
    requires Flatten(prefix) == head && Flatten(g) == rest
    ensures Flatten(prefix + ([[marker]] + g)) == head + [marker] + rest && Flatten(prefix + g) == head + rest
    ensures rest != [] ==> g != []
  {
    FlattenConcat(prefix, [[marker]] + g);
    FlattenConcat([[marker]], g);
    FlattenConcat(prefix, g);
    assert Flatten([[marker]]) == [marker];
    assert head + ([marker] + rest) == head + [marker] + rest;
  }

  /** The marker is the oldest droppable group, so a budget that has room for the messages alone
      drops at most the marker. */
  lemma FitDropsOnlyMarker(e: Encoding, head: seq<Message>, marker: Message, rest: seq<Message>,
                           b: Budget, preserveFirst: bool)
    requires b.Valid() && Bare(marker) && rest != [] && Fits(e, head + rest, b)
    requires if preserveFirst then |head| == 1 && Bare(head[0]) else head == []
    requires !Fits(e, head + [marker] + rest, b)
    ensures Shed(e, head + [marker] + rest, b, preserveFirst) == head + rest
    ensures Fit(e, head + [marker] + rest, b, preserveFirst) == head + rest
  {
    hide Fits;
    hide GroupsToDrop;
    hide Fit;
    var ms := head + [marker] + rest;
    var prefix := if preserveFirst then [[head[0]]] else [];
    var g := [[marker]] + Groups(rest);
    GroupsAfterPlain(marker, rest);
    if preserveFirst {
      assert ms == [head[0]] + ([marker] + rest);
      GroupsAfterPlain(head[0], [marker] + rest);
      assert head == [head[0]];
    } else {
      assert ms == [marker] + rest;
    }
    assert Groups(ms) == prefix + g;
    assert Groups(ms)[..|prefix|] == prefix && Groups(ms)[|prefix|..] == g;
    assert Flatten(prefix) == head;
    ShedMarkerOnly(e, prefix, head, marker, rest, b);
    assert g[1..] == Groups(rest);
    FitWithoutTruncation(e, ms, b, preserveFirst);
  }

  lemma WindowOfMarked(st: Settings, head: seq<Message>, marker: Message, rest: seq<Message>)
    requires st.Valid() && |rest| <= st.maxRecentMessages
    requires |head| == if st.preserveInitialUserMessage then 1 else 0
    ensures Windowed(st, head + [marker] + rest) == head + [marker] + rest ||
            Windowed(st, head + [marker] + rest) == head + rest
  {
    var ms := head + [marker] + rest;
    if |ms| > st.maxRecentMessages {
      var start := |ms| - st.maxRecentMessages;
      if start == |head| + 1 {
        assert ms[start..] == rest;
      } else {
        assert head == [ms[0]];
        assert [ms[0]] + ms[1..] == ms;
      }
    }
  }

  lemma FitMarked(e: Encoding, head: seq<Message>, marker: Message, rest: seq<Message>, b: Budget,
                  preserveFirst: bool, window: seq<Message>)
    requires b.Valid() && Bare(marker) && rest != [] && Fits(e, head + rest, b)
    requires if preserveFirst then |head| == 1 && Bare(head[0]) else head == []
    requires window == head + [marker] + rest || window == head + rest
    ensures Fit(e, window, b, preserveFirst) == head + [marker] + rest ||
            Fit(e, window, b, preserveFirst) == head + rest
    ensures Fits(e, Shed(e, window, b, preserveFirst), b)
  {
    if !Fits(e, window, b) {
      FitDropsOnlyMarker(e, head, marker, rest, b, preserveFirst);
    }
  }

  /** A marked snapshot compacts to itself, with or without its marker. */
  lemma RecompactMarked(st: Settings, e: Encoding, head: seq<Message>, marker: Message,
                        rest: seq<Message>, b: Option<Budget>)
    requires st.Valid() && st.KeepsResults() && (b.Some? ==> b.value.Valid())
    requires Bare(marker) && rest != [] && |rest| <= st.maxRecentMessages
    requires if st.preserveInitialUserMessage then |head| == 1 && Bare(head[0]) else head == []
    requires WellPaired(rest) && AllUnmixed(rest) && WellPaired(head) && AllUnmixed(head)
    requires b.Some? ==> Fits(e, head + rest, b.value)
    ensures ForModel(st, e, head + [marker] + rest, b) == head + [marker] + rest ||
            ForModel(st, e, head + [marker] + rest, b) == head + rest
    ensures NoTruncation(st, e, head + [marker] + rest, b)
  {
    var ms := head + [marker] + rest;
    var window := Windowed(st, ms);
    WindowOfMarked(st, head, marker, rest);
    PairedWithMarker(head, marker, rest);
    RepairPaired(window);
    TransportIsIdentity(st, e, window);
    if b.Some? {
      FitMarked(e, head, marker, rest, b.value, st.preserveInitialUserMessage, window);
    }
  }

  lemma PairedWithMarker(head: seq<Message>, marker: Message, rest: seq<Message>)
    requires Bare(marker) && WellPaired(rest) && AllUnmixed(rest) && WellPaired(head) && AllUnmixed(head)
    ensures WellPaired(head + rest) && AllUnmixed(head + rest)
    ensures WellPaired(head + [marker] + rest) && AllUnmixed(head + [marker] + rest)
  {
    assert WellPaired([marker]) && AllUnmixed([marker]);
    PairedConcat(head, rest);
    PairedConcat(head, [marker]);
    PairedConcat(head + [marker], rest);
  }

  lemma {:induction false} LastStays(ms: seq<Message>)
    requires ms != [] && !HasMarker(ms[|ms| - 1])
    ensures WithoutMarkers(ms) != []
  {
    if |ms| > 1 { LastStays(ms[1..]); }
  }

  lemma RestIsWhole(st: Settings, ms: seq<Message>, j: nat)
    requires Settled(st, ms) && j <= |ms| && WellPaired(ms[j..])
    ensures WellPaired(WithoutMarkers(ms[j..])) && AllUnmixed(WithoutMarkers(ms[j..]))
    ensures |WithoutMarkers(ms[j..])| <= |ms| - j
    ensures j < |ms| && !EndsInMarker(ms) ==> WithoutMarkers(ms[j..]) != []
  {
    var t := ms[j..];
    assert AllUnmixed(t) && MarkersStandAlone(t);
    WithoutMarkersPairs(t);
    WithoutMarkersHasNone(t);
    if j < |ms| && !EndsInMarker(ms) { LastStays(t); }
  }

  lemma SentIsWhole(st: Settings, ms: seq<Message>, j: nat)
    requires Settled(st, ms) && |Head(st, ms)| <= j <= |ms| && WellPaired(ms[j..])
    ensures WellPaired(Head(st, ms) + ms[j..]) && AllUnmixed(Head(st, ms) + ms[j..])
  {
    SuffixAfterHeadIsPaired(st, ms);
    PairedConcat(Head(st, ms), ms[j..]);
  }

  lemma NoneLost(ms: seq<Message>, j: nat)
    requires j == |ms|
    ensures WithoutMarkers(ms[j..j]) == []
  {
  }

  /** A snapshot made of a head and a marker alone is compacted to itself if it fits at all. */
  lemma LoneMarkerStays(st: Settings, e: Encoding, head: seq<Message>, marker: Message, b: Option<Budget>)
    requires st.Valid() && st.KeepsResults() && (b.Some? ==> b.value.Valid())
    requires Settled(st, head + [marker]) && NoTruncation(st, e, head + [marker], b)
    requires |head| == if st.preserveInitialUserMessage then 1 else 0
    ensures ForModel(st, e, head + [marker], b) == head + [marker]
  {
    hide Settled;
    hide ForModel;
    var ms := head + [marker];
    var j := ContinuationShape(st, e, ms, b);
    assert Head(st, ms) == head && ms[|head|..] == [marker];
  }

  /** Main result: compaction is a fixpoint up to markers. Restoring the snapshot and compacting again
      under the same budget sends the same messages, markers aside. */
  lemma CompactionIsFixpoint(st: Settings, e: Encoding, ms: seq<Message>, b: Option<Budget>)
    requires st.Valid() && st.KeepsResults() && (b.Some? ==> b.value.Valid())
    requires Settled(st, ms) && NoTruncation(st, e, ms, b)
    requires EndsInMarker(ms) ==> NoTruncation(st, e, Continuation(st, e, ms, b), b)
    ensures WithoutMarkers(ForModel(st, e, Continuation(st, e, ms, b), b))
         == WithoutMarkers(ForModel(st, e, ms, b))
  {
    hide Settled;
    hide ForModel;
    hide NoTruncation;
    hide Continuation;
    hide WithoutMarkers;
    hide Head;
    HeadHasNoMarkers(st, ms);
    var j := ContinuationShape(st, e, ms, b);
    SuffixAfterHeadIsPaired(st, ms);
    SnapshotStaysSettled(st, e, ms, b);
    if Lost(st, ms, j) == [] {
      WithinWindow(st, e, ms, j, b);
    } else {
      var head, marker := Head(st, ms), MarkerMessage(|Lost(st, ms, j)|);
      MarkedSnapshot(head, |Lost(st, ms, j)|, ms[j..]);
      HeadAndTail(head, ms[j..]);
      MarkerIsMarker(|Lost(st, ms, j)|);
      if WithoutMarkers(ms[j..]) == [] {
        KeptNothing(st, ms, j);
        assert head + [marker] + [] == head + [marker];
        LoneMarkerStays(st, e, head, marker, b);
      } else {
        MarkedStays(st, e, ms, j, marker, b);
      }
    }
  }

  /** Nothing but markers is kept behind the head only of a history that ends in one. */
  lemma KeptNothing(st: Settings, ms: seq<Message>, j: nat)
    requires Settled(st, ms) && |Head(st, ms)| <= j <= |ms| && WellPaired(ms[j..])
    requires j == |ms| ==> |ms| == |Head(st, ms)|
    requires WithoutMarkers(ms[j..]) == [] && Lost(st, ms, j) != []
    ensures EndsInMarker(ms) && |Head(st, ms)| == if st.preserveInitialUserMessage then 1 else 0
  {
    RestIsWhole(st, ms, j);
    if j == |ms| { NoneLost(ms, j); }
  }

  lemma HeadHasNoMarkers(st: Settings, ms: seq<Message>)
    requires Settled(st, ms)
    ensures ms != [] && NoMarkers(Head(st, ms))
  {
  }

  lemma WithinWindow(st: Settings, e: Encoding, ms: seq<Message>, j: nat, b: Option<Budget>)
    requires st.Valid() && st.KeepsResults() && (b.Some? ==> b.value.Valid()) && Settled(st, ms)
    requires |Head(st, ms)| <= j <= |ms| && WellPaired(ms[j..]) && |ms| - j <= st.maxRecentMessages
    requires b.Some? ==> Fits(e, Head(st, ms) + ms[j..], b.value)
    ensures ForModel(st, e, Head(st, ms) + ms[j..], b) == Head(st, ms) + ms[j..]
    ensures NoTruncation(st, e, Head(st, ms) + ms[j..], b)
  {
    hide ForModel;
    SentIsWhole(st, ms, j);
    CompactedStays(st, e, Head(st, ms) + ms[j..], b);
  }

  lemma MarkedStays(st: Settings, e: Encoding, ms: seq<Message>, j: nat, marker: Message, b: Option<Budget>)
    requires st.Valid() && st.KeepsResults() && (b.Some? ==> b.value.Valid()) && Settled(st, ms) && Bare(marker)
    requires |Head(st, ms)| <= j <= |ms| && WellPaired(ms[j..]) && |ms| - j <= st.maxRecentMessages
    requires b.Some? ==> Fits(e, Head(st, ms) + ms[j..], b.value)
    requires WithoutMarkers(ms[j..]) != []
    ensures var head, rest := Head(st, ms), WithoutMarkers(ms[j..]);
            ForModel(st, e, head + [marker] + rest, b) == head + [marker] + rest ||
            ForModel(st, e, head + [marker] + rest, b) == head + rest
    ensures NoTruncation(st, e, Head(st, ms) + [marker] + WithoutMarkers(ms[j..]), b)
  {
    hide ForModel;
    SuffixAfterHeadIsPaired(st, ms);
    RestIsWhole(st, ms, j);
    if b.Some? { FitsWithoutMarkers(e, Head(st, ms), ms[j..], b.value); }
    RecompactMarked(st, e, Head(st, ms), marker, WithoutMarkers(ms[j..]), b);
  }

  lemma HeadAndTail(head: seq<Message>, tail: seq<Message>)
    requires NoMarkers(head)
    ensures WithoutMarkers(head + tail) == head + WithoutMarkers(tail)
    ensures WithoutMarkers(head + WithoutMarkers(tail)) == head + WithoutMarkers(tail)
  {
    WithoutMarkersIdentity(head);
    WithoutMarkersConcat(head, tail);
    WithoutMarkersTwice(tail);
    WithoutMarkersConcat(head, WithoutMarkers(tail));
  }

  /** A snapshot is again a history to compact: it is settled, and if its history did not end in a marker
      neither does it, and no content has to be shortened to compact it under the same budget. */
  lemma SnapshotStaysSettled(st: Settings, e: Encoding, ms: seq<Message>, b: Option<Budget>)
    requires st.Valid() && st.KeepsResults() && (b.Some? ==> b.value.Valid())
    requires Settled(st, ms) && NoTruncation(st, e, ms, b)
    ensures var snapshot := Continuation(st, e, ms, b);
            Settled(st, snapshot) &&
            (!EndsInMarker(ms) ==> !EndsInMarker(snapshot) && NoTruncation(st, e, snapshot, b))
  {
    hide Continuation;
    hide NoTruncation;
    hide WellPaired;
    hide ForModel;
    hide Fits;
    hide UseIds;
    hide HasResult;
    hide HasMarker;
    hide Unmixed;
    hide WithoutMarkers;
    var j := ContinuationShape(st, e, ms, b);
    var head, lost, tail := Head(st, ms), Lost(st, ms, j), ms[j..];
    SuffixAfterHeadIsPaired(st, ms);
    if lost == [] {
      UnmarkedIsSettled(st, ms, j);
      if !EndsInMarker(ms) { CompactedStays(st, e, head + tail, b); }
    } else {
      if j == |ms| { NoneLost(ms, j); }
      var marker, rest := MarkerMessage(|lost|), WithoutMarkers(tail);
      MarkerIsMarker(|lost|);
      RestIsWhole(st, ms, j);
      WithoutMarkersHasNone(tail);
      MarkedIsSettled(st, head, marker, rest);
      if !EndsInMarker(ms) {
        if b.Some? { FitsWithoutMarkers(e, head, tail, b.value); }
        RecompactMarked(st, e, head, marker, rest, b);
      }
    }
  }

  lemma UnmarkedIsSettled(st: Settings, ms: seq<Message>, j: nat)
    requires Settled(st, ms) && |Head(st, ms)| <= j <= |ms| && WellPaired(ms[j..])
    requires j == |ms| ==> |ms| == |Head(st, ms)|
    ensures var kept := Head(st, ms) + ms[j..];
            Settled(st, kept) && WellPaired(kept) && AllUnmixed(kept) && (EndsInMarker(kept) ==> EndsInMarker(ms))
  {
    SentIsWhole(st, ms, j);
    if j == |ms| { assert ms == Head(st, ms) + ms[j..]; }
  }

  lemma MarkedIsSettled(st: Settings, head: seq<Message>, marker: Message, rest: seq<Message>)
    requires Bare(marker) && WellPaired(rest) && AllUnmixed(rest) && WellPaired(head) && AllUnmixed(head)
    requires NoMarkers(head) && NoMarkers(rest)
    requires if st.preserveInitialUserMessage then |head| == 1 && Plain(head[0]) else head == []
    ensures Settled(st, head + [marker] + rest)
    ensures rest != [] ==> !EndsInMarker(head + [marker] + rest)
  {
    PairedWithMarker(head, marker, rest);
    LastOfMarked(head, marker, rest);
  }

  /** The snapshot of the snapshot, and so on, n deep. */
  function SnapshotTimes(st: Settings, e: Encoding, ms: seq<Message>, b: Option<Budget>, n: nat): seq<Message>
    requires st.Valid() && (b.Some? ==> b.value.Valid())
    decreases n
  {
    if n == 0 then ms else SnapshotTimes(st, e, Continuation(st, e, ms, b), b, n - 1)
  }

  /** A snapshot that ends in a marker and needs no shortening is its own snapshot. */
  lemma MarkedEndIsItsOwn(st: Settings, e: Encoding, ms: seq<Message>, b: Option<Budget>)
    requires st.Valid() && st.KeepsResults() && (b.Some? ==> b.value.Valid())
    requires Settled(st, ms) && NoTruncation(st, e, ms, b)
    requires var snapshot := Continuation(st, e, ms, b); NoTruncation(st, e, snapshot, b) && EndsInMarker(snapshot)
    ensures Continuation(st, e, Continuation(st, e, ms, b), b) == Continuation(st, e, ms, b)
  {
    hide Settled;
    hide ForModel;
    hide NoTruncation;
    hide Continuation;
    hide WithoutMarkers;
    HeadHasNoMarkers(st, ms);
    SnapshotStaysSettled(st, e, ms, b);
    var j := ContinuationShape(st, e, ms, b);
    var snapshot := Continuation(st, e, ms, b);
    if Lost(st, ms, j) == [] {
      WithinWindow(st, e, ms, j, b);
    } else {
      var marker, rest := MarkerMessage(|Lost(st, ms, j)|), WithoutMarkers(ms[j..]);
      WithoutMarkersHasNone(ms[j..]);
      LastOfMarked(Head(st, ms), marker, rest);
      assert Head(st, ms) + [marker] + [] == Head(st, ms) + [marker];
      SuffixAfterHeadIsPaired(st, ms);
      KeptNothing(st, ms, j);
      LoneMarkerStays(st, e, Head(st, ms), marker, b);
    }
    SentWholeIsItsOwn(st, e, snapshot, b);
  }

  lemma LastOfMarked(head: seq<Message>, marker: Message, rest: seq<Message>)
    requires NoMarkers(rest)
    ensures rest != [] ==> !EndsInMarker(head + [marker] + rest)
  {
    var ms := head + [marker] + rest;
    assert rest != [] ==> ms[|ms| - 1] == rest[|rest| - 1];
  }

  lemma SentWholeIsItsOwn(st: Settings, e: Encoding, ms: seq<Message>, b: Option<Budget>)
    requires st.Valid() && st.KeepsResults() && (b.Some? ==> b.value.Valid())
    requires Settled(st, ms) && NoTruncation(st, e, ms, b) && ForModel(st, e, ms, b) == ms
    ensures Continuation(st, e, ms, b) == ms
  {
    hide Settled;
    hide ForModel;
    hide NoTruncation;
    hide Continuation;
    HeadHasNoMarkers(st, ms);
    var j := ContinuationShape(st, e, ms, b);
    assert |Head(st, ms)| + |ms[j..]| == |ms|;
    assert ms[j..j] == [];
  }

  /** Main result: however often a conversation is snapshotted and restored under the same budget, it
      sends the same messages, markers aside. */
  lemma {:induction false} RepeatedCompactionIsStable(
    st: Settings, e: Encoding, ms: seq<Message>, b: Option<Budget>, n: nat)
    requires st.Valid() && st.KeepsResults() && (b.Some? ==> b.value.Valid())
    requires Settled(st, ms) && NoTruncation(st, e, ms, b)
    requires EndsInMarker(ms) ==> NoTruncation(st, e, Continuation(st, e, ms, b), b)
    ensures WithoutMarkers(ForModel(st, e, SnapshotTimes(st, e, ms, b, n), b))
         == WithoutMarkers(ForModel(st, e, ms, b))
    decreases n
  {
    hide Settled;
    hide ForModel;
    hide NoTruncation;
    hide Continuation;
    if n > 0 {
      var snapshot := Continuation(st, e, ms, b);
      CompactionIsFixpoint(st, e, ms, b);
      SnapshotStaysSettled(st, e, ms, b);
      if EndsInMarker(snapshot) { MarkedEndIsItsOwn(st, e, ms, b); }
      RepeatedCompactionIsStable(st, e, snapshot, b, n - 1);
    }
  }
}
