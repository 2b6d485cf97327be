/** Exactly when compacting a restored snapshot again sends the same messages. */
module CompactionDrift {
  import opened Prelude
  import opened Messages
  import opened ContextBudget
  import opened ExchangeRepair
  import opened ContentTruncation
  import opened ContextWindow
  import opened Compaction
  import opened CompactionFixpoint
  import Decimal

  /** No text of the list can be shortened: there is none, or its longest is no longer than what would
      replace it. */
  predicate Stuck(e: Encoding, ms: seq<Message>, b: Budget)
    requires b.Valid()
  {
    var s := Largest(ms, Texts);
    s.None? || |Attempt(e, ms, b, Texts, s.value)| >= |s.value.text|
  }

  lemma TruncateMovesIff(e: Encoding, ms: seq<Message>, b: Budget)
    requires b.Valid() && !Fits(e, ms, b)
    ensures Truncate(e, ms, b, Texts) == ms <==> Stuck(e, ms, b)
  {
    hide Truncate;
    hide Attempt;
    hide Largest;
    if Stuck(e, ms, b) {
      TruncateStops(e, ms, b, Texts);
    } else {
      var s := Largest(ms, Texts).value;
      var text := Attempt(e, ms, b, Texts, s);
      TruncateTurn(e, ms, b, Texts, s, text);
      TruncateEnds(e, SetSlot(ms, Texts, s, text), b, Texts);
    }
  }

  lemma NoResultsToTruncate(e: Encoding, ms: seq<Message>, b: Budget)
    requires b.Valid() && forall i :: 0 <= i < |ms| ==> !HasResult(ms[i])
    ensures Truncate(e, ms, b, Results) == ms
  {
    LargestIsLargest(ms, Results);
    TruncateStops(e, ms, b, Results);
  }

  /** A head and a marker alone lose nothing on the way but to the last truncation loop. */
  lemma LoneMarkerSent(st: Settings, e: Encoding, head: seq<Message>, dropped: nat, b: Budget)
    requires st.Valid() && st.KeepsResults() && b.Valid() && Settled(st, head + [MarkerMessage(dropped)])
    requires |head| == if st.preserveInitialUserMessage then 1 else 0
    ensures var ms := head + [MarkerMessage(dropped)];
            (NoTruncation(st, e, ms, Some(b)) <==> Fits(e, ms, b)) &&
            ForModel(st, e, ms, Some(b)) == if Fits(e, ms, b) then ms else Truncate(e, ms, b, Texts)
  {
    hide Truncate;
    hide WellPaired;
    hide HasResult;
    hide HasMarker;
    hide UseIds;
    hide Fits;
    hide Shed;
    hide Repair;
    hide Transport;
    var ms := head + [MarkerMessage(dropped)];
    RepairPaired(ms);
    TransportIsIdentity(st, e, ms);
    LoneMarkerShed(e, head, dropped, b, st.preserveInitialUserMessage);
    NoResultsToTruncate(e, ms, b);
  }

  lemma LoneMarkerShed(e: Encoding, head: seq<Message>, dropped: nat, b: Budget, preserveFirst: bool)
    requires b.Valid() && if preserveFirst then |head| == 1 && Plain(head[0]) else head == []
    ensures var ms := head + [MarkerMessage(dropped)];
            Shed(e, ms, b, preserveFirst) == ms && forall k :: 0 <= k < |ms| ==> !HasResult(ms[k])
  {
    hide Shed;
    hide Fits;
    var marker := MarkerMessage(dropped);
    MarkerIsMarker(dropped);
    assert WellPaired([marker]) && AllUnmixed([marker]);
    var i := ShedShape(e, head, [marker], b, preserveFirst);
    assert [marker][0..] == [marker];
  }

  lemma MarkerKeepsItsWords(dropped: nat, m: Message)
    requires Reworded(MarkerMessage(dropped), m, Texts)
    ensures m == MarkerMessage(dropped)
  {
    var x, y := MarkerMessage(dropped).content.blocks, m.content.blocks;
    assert BlockReworded(x[0], y[0], Texts);
    assert x == y;
  }

  /** Of a head and a marker, truncation can only change the head. */
  lemma LoneMarkerTruncated(e: Encoding, head: seq<Message>, dropped: nat, b: Budget)
    requires b.Valid() && |head| <= 1 && NoMarkers(head) && !Fits(e, head + [MarkerMessage(dropped)], b)
    ensures var ms := head + [MarkerMessage(dropped)];
            WithoutMarkers(Truncate(e, ms, b, Texts)) == head <==> Stuck(e, ms, b)
  {
    hide Truncate;
    hide Stuck;
    var marker := MarkerMessage(dropped);
    var ms := head + [marker];
    var r := Truncate(e, ms, b, Texts);
    TruncateMovesIff(e, ms, b);
    TruncateRewords(e, ms, b, Texts);
    RewordedKeepsShapes(ms, r, Texts);
    assert Reworded(ms[|head|], r[|head|], Texts);
    MarkerKeepsItsWords(dropped, r[|head|]);
    var kept := r[..|head|];
    assert r == kept + [marker];
    forall i | 0 <= i < |kept| ensures !HasMarker(kept[i]) { assert SameShape(ms[i], r[i]); }
    WithoutMarkersIdentity(kept);
    MarkerIsMarker(dropped);
    WithoutMarkersConcat(kept, [marker]);
  }

  /** Main result: for every history whose own compaction shortens no content, restoring its snapshot and
      compacting again sends the same messages, markers aside, exactly if the snapshot's compaction needs
      no shortening either, or there is nothing in it to shorten. */
  lemma CompactionIsFixpointIff(st: Settings, e: Encoding, ms: seq<Message>, b: Budget)
    requires st.Valid() && st.KeepsResults() && b.Valid()
    requires Settled(st, ms) && NoTruncation(st, e, ms, Some(b))
    ensures var snapshot := Continuation(st, e, ms, Some(b));
            WithoutMarkers(ForModel(st, e, snapshot, Some(b))) == WithoutMarkers(ForModel(st, e, ms, Some(b))) <==>
            NoTruncation(st, e, snapshot, Some(b)) || Stuck(e, snapshot, b)
  {
    hide Settled;
    hide ForModel;
    hide NoTruncation;
    hide Continuation;
    hide WithoutMarkers;
    hide Stuck;
    hide Head;
    var snapshot := Continuation(st, e, ms, Some(b));
    if NoTruncation(st, e, snapshot, Some(b)) {
      CompactionIsFixpoint(st, e, ms, Some(b));
    } else {
      var head, dropped := OnlyLoneMarkersOverflow(st, e, ms, b);
      LoneMarkerSent(st, e, head, dropped, b);
      LoneMarkerTruncated(e, head, dropped, b);
    }
  }

  /** The only snapshots that dropping groups cannot fit into the budget are a head and a marker. */
  lemma OnlyLoneMarkersOverflow(st: Settings, e: Encoding, ms: seq<Message>, b: Budget)
    returns (head: seq<Message>, dropped: nat)
    requires st.Valid() && st.KeepsResults() && b.Valid()
    requires Settled(st, ms) && NoTruncation(st, e, ms, Some(b))
    requires !NoTruncation(st, e, Continuation(st, e, ms, Some(b)), Some(b))
    ensures Continuation(st, e, ms, Some(b)) == head + [MarkerMessage(dropped)]
    ensures Settled(st, head + [MarkerMessage(dropped)])
    ensures |head| == (if st.preserveInitialUserMessage then 1 else 0) && NoMarkers(head)
    ensures WithoutMarkers(ForModel(st, e, ms, Some(b))) == head
  {
    hide Settled;
    hide ForModel;
    hide NoTruncation;
    hide Continuation;
    hide WithoutMarkers;
    hide Head;
    HeadHasNoMarkers(st, ms);
    SuffixAfterHeadIsPaired(st, ms);
    SnapshotStaysSettled(st, e, ms, Some(b));
    var j := ContinuationShape(st, e, ms, Some(b));
    head, dropped := Head(st, ms), |Lost(st, ms, j)|;
    HeadAndTail(head, ms[j..]);
    if Lost(st, ms, j) == [] {
      WithinWindow(st, e, ms, j, Some(b));
    } else {
      MarkerIsMarker(dropped);
      if WithoutMarkers(ms[j..]) != [] {
        MarkedStays(st, e, ms, j, MarkerMessage(dropped), Some(b));
      } else {
        KeptNothing(st, ms, j);
        assert head + [MarkerMessage(dropped)] + [] == head + [MarkerMessage(dropped)];
      }
    }
  }

  /** Group dropping goes on to the last message if nothing more fits beside the first. */
  lemma {:induction false} DropsAllFillers(
    e: Encoding, first: Message, fillers: seq<Message>, last: Message, b: Budget)
    requires b.Valid() && Bare(last) && forall i :: 0 <= i < |fillers| ==> Bare(fillers[i])
    requires forall i :: 0 <= i < |fillers| ==> !Fits(e, [first] + (fillers[i..] + [last]), b)
    ensures GroupsToDrop(e, [[first]], Groups(fillers + [last]), b) == |fillers|
    ensures |Groups(fillers + [last])| == |fillers| + 1 && Groups(fillers + [last])[|fillers|..] == [[last]]
  {
    if fillers == [] {
      GroupsAfterPlain(last, []);
      assert fillers + [last] == [last] + [];
    } else {
      var rest := fillers[1..] + [last];
      assert fillers + [last] == [fillers[0]] + rest;
      GroupsAfterPlain(fillers[0], rest);
      forall i | 0 <= i < |fillers[1..]| ensures !Fits(e, [first] + (fillers[1..][i..] + [last]), b) {
        assert fillers[1..][i..] == fillers[i + 1..];
      }
      DropsAllFillers(e, first, fillers[1..], last, b);
      var groups := Groups(fillers + [last]);
      FlattenGroups(fillers + [last]);
      assert ([[first]] + groups)[1..] == groups && fillers[0..] == fillers;
      assert groups[1..] == Groups(rest);
    }
  }

  lemma ShedAllFillers(e: Encoding, first: Message, fillers: seq<Message>, last: Message, b: Budget)
    requires b.Valid() && Bare(first) && Bare(last) && forall i :: 0 <= i < |fillers| ==> Bare(fillers[i])
    requires fillers != [] && forall i :: 0 <= i < |fillers| ==> !Fits(e, [first] + (fillers[i..] + [last]), b)
    ensures Shed(e, [first] + (fillers + [last]), b, true) == [first, last]
  {
    hide Bare;
    hide Fits;
    hide Shed;
    hide GroupsToDrop;
    hide Groups;
    DropsAllFillers(e, first, fillers, last, b);
    BareFirst(first, fillers + [last]);
    assert fillers[0..] == fillers;
    ShedByGroups(e, [first] + (fillers + [last]), first, Groups(fillers + [last]), last, b, |fillers|);
  }

  lemma BareFirst(first: Message, rest: seq<Message>)
    requires Bare(first)
    ensures Groups([first] + rest) == [[first]] + Groups(rest)
  {
    GroupsAfterPlain(first, rest);
  }

  lemma ShedByGroups(
    e: Encoding, ms: seq<Message>, first: Message, groups: seq<seq<Message>>, last: Message, b: Budget, k: nat)
    requires b.Valid() && !Fits(e, ms, b) && Groups(ms) == [[first]] + groups && k <= |groups|
    requires GroupsToDrop(e, [[first]], groups, b) == k && groups[k..] == [[last]]
    ensures Shed(e, ms, b, true) == [first, last]
  {
    hide Fits;
    hide GroupsToDrop;
    hide Groups;
    assert Groups(ms)[..1] == [[first]] && Groups(ms)[1..] == groups;
    assert Groups(ms)[..1] + Groups(ms)[1..][k..] == [[first], [last]];
    assert [[last]][1..] == [] && Flatten([[last]]) == [last];
    assert [[first], [last]][1..] == [[last]];
  }

  const FILLER := Message(User, Str(""))

  function LongMessage(): (m: Message)
    ensures m.content.Str? && |m.content.str| == 600
  {
    Message(User, Str(seq(600, _ => 'x')))
  }

  /** A new marker that counts ten messages is one character longer than the old one. */
  function DriftChars(m: Message): nat {
    match m.content
    case Str(text) => 35 + |text|
    case Blocks(_) => if m == MarkerMessage(10) then 121 else 120
  }

  function DriftEncoding(): Encoding {
    Encoding(DriftChars, (text, preview) => text, (text, cap) => text, (id, content) => "")
  }

  const DRIFT_SETTINGS := Settings(20, true, false, None)

  /** Room for the long message and the old marker, to the character. */
  const DRIFT_BUDGET := Budget(758, 0, 0, 0, 1.0)

  function Fillers(): (r: seq<Message>)
    ensures |r| == 10 && forall i :: 0 <= i < |r| ==> r[i] == FILLER
  {
    seq(10, _ => FILLER)
  }

  /** A conversation that ends in the marker of an earlier snapshot. */
  function Drifting(): seq<Message> { [LongMessage()] + (Fillers() + [MarkerMessage(9)]) }

  lemma {:induction false} FillerChars(fillers: seq<Message>)
    requires forall i :: 0 <= i < |fillers| ==> fillers[i] == FILLER
    ensures BodyChars(DriftEncoding(), fillers) == 36 * |fillers|
  {
    if fillers != [] { FillerChars(fillers[1..]); }
  }

  lemma LastPairChars(dropped: nat)
    ensures var ms := [LongMessage(), MarkerMessage(dropped)];
            ListChars(DriftEncoding(), ms) == if dropped == 10 then 759 else 758
    ensures DRIFT_BUDGET.Valid()
    ensures Fits(DriftEncoding(), [LongMessage(), MarkerMessage(dropped)], DRIFT_BUDGET) <==> dropped != 10
  {
    var e, marker := DriftEncoding(), MarkerMessage(dropped);
    assert MarkerMessage(dropped) == MarkerMessage(10) <==> dropped == 10 by {
      assert MarkerMessage(dropped).content.blocks[0].dropped == dropped;
      assert MarkerMessage(10).content.blocks[0].dropped == 10;
    }
    assert e.messageChars(marker) == if dropped == 10 then 121 else 120;
    assert [marker][1..] == [] && BodyChars(e, [marker]) == e.messageChars(marker) + 1;
    assert [LongMessage(), marker][1..] == [marker];
    assert e.messageChars(LongMessage()) == 635;
  }

  lemma FillersDoNotFit(i: nat)
    requires i < 10
    ensures !Fits(DriftEncoding(), [LongMessage()] + (Fillers()[i..] + [MarkerMessage(9)]), DRIFT_BUDGET)
  {
    var e, rest := DriftEncoding(), Fillers()[i..];
    FillerChars(rest);
    BodyCharsConcat(e, rest, [MarkerMessage(9)]);
    BodyCharsConcat(e, [LongMessage()], rest + [MarkerMessage(9)]);
    assert e.messageChars(LongMessage()) == 635 && [LongMessage()][1..] == [] && [MarkerMessage(9)][1..] == [];
    assert MarkerMessage(9).content.blocks[0].dropped == 9 && MarkerMessage(10).content.blocks[0].dropped == 10;
    assert e.messageChars(MarkerMessage(9)) == 120;
    assert BodyChars(e, [LongMessage()]) == 636 && BodyChars(e, [MarkerMessage(9)]) == 121;
  }

  lemma DriftingIsSettled()
    ensures Settled(DRIFT_SETTINGS, Drifting()) && EndsInMarker(Drifting()) && |Drifting()| == 12
    ensures Head(DRIFT_SETTINGS, Drifting()) == [LongMessage()]
    ensures forall i :: 0 <= i < |Drifting()| ==> Bare(Drifting()[i])
    ensures forall i :: 0 <= i < 11 ==> !HasMarker(Drifting()[i])
  {
    MarkerIsMarker(9);
    var ms := Drifting();
    forall i | 0 <= i < |ms| ensures Bare(ms[i]) && (i < 11 ==> !HasMarker(ms[i])) {
      if 0 < i < 11 { assert ms[i] == FILLER; }
    }
    forall i | 0 <= i < |ms| ensures CallAnswered(ms, i) && ResultCalled(ms, i) && Unmixed(ms[i]) {
      assert Bare(ms[i]);
    }
  }

  lemma DriftingIsNotTruncated()
    ensures NoTruncation(DRIFT_SETTINGS, DriftEncoding(), Drifting(), Some(DRIFT_BUDGET))
  {
    var ms, fillers := Drifting(), Fillers();
    DriftingIsSettled();
    assert Windowed(DRIFT_SETTINGS, ms) == ms;
    RepairPaired(ms);
    TransportIsIdentity(DRIFT_SETTINGS, DriftEncoding(), ms);
    forall i | 0 <= i < |fillers|
      ensures Bare(fillers[i]) &&
              !Fits(DriftEncoding(), [LongMessage()] + (fillers[i..] + [MarkerMessage(9)]), DRIFT_BUDGET)
    {
      FillersDoNotFit(i);
    }
    MarkerIsMarker(9);
    ShedAllFillers(DriftEncoding(), LongMessage(), fillers, MarkerMessage(9), DRIFT_BUDGET);
    LastPairChars(9);
  }

  lemma DriftingSnapshot()
    ensures Continuation(DRIFT_SETTINGS, DriftEncoding(), Drifting(), Some(DRIFT_BUDGET)) ==
            [LongMessage()] + [MarkerMessage(10)]
  {
    hide Settled;
    hide NoTruncation;
    hide ForModel;
    hide Continuation;
    hide Fits;
    hide WithoutMarkers;
    hide DriftEncoding;
    hide Drifting;
    DriftingIsSettled();
    DriftingIsNotTruncated();
    var j := ContinuationShape(DRIFT_SETTINGS, DriftEncoding(), Drifting(), Some(DRIFT_BUDGET));
    DriftingSplits(j);
    if j < 11 { FillersDoNotFit(j - 1); }
    assert [LongMessage()] + [MarkerMessage(10)] + [] == [LongMessage()] + [MarkerMessage(10)];
  }

  lemma DriftingSplits(j: nat)
    requires 1 <= j <= 12
    ensures Drifting() != [] && |Head(DRIFT_SETTINGS, Drifting())| <= j <= |Drifting()|
    ensures j < 11 ==> Drifting()[j..] == Fillers()[j - 1..] + [MarkerMessage(9)]
    ensures j == 11 ==> |Lost(DRIFT_SETTINGS, Drifting(), j)| == 10 && WithoutMarkers(Drifting()[j..]) == []
  {
    hide WithoutMarkers;
    DriftingIsSettled();
    var ms := Drifting();
    assert ms[1..11] == Fillers();
    WithoutMarkersIdentity(ms[1..11]);
    MarkerIsMarker(9);
    assert ms[11..] == [MarkerMessage(9)];
  }

  /** A drifting input: after restoring, the new marker leaves no room for all of the first message, which
      then is shortened. */
  lemma MarkerAtTheEndDrifts()
    ensures var st, e, ms, b := DRIFT_SETTINGS, DriftEncoding(), Drifting(), Some(DRIFT_BUDGET);
            Settled(st, ms) && NoTruncation(st, e, ms, b) &&
            WithoutMarkers(ForModel(st, e, Continuation(st, e, ms, b), b)) != WithoutMarkers(ForModel(st, e, ms, b))
  {
    hide ForModel;
    hide NoTruncation;
    hide Continuation;
    hide Settled;
    hide WithoutMarkers;
    hide Stuck;
    hide Fits;
    DriftingIsSettled();
    DriftingIsNotTruncated();
    DriftingSnapshot();
    SnapshotStaysSettled(DRIFT_SETTINGS, DriftEncoding(), Drifting(), Some(DRIFT_BUDGET));
    LoneMarkerSent(DRIFT_SETTINGS, DriftEncoding(), [LongMessage()], 10, DRIFT_BUDGET);
    LastPairChars(10);
    assert [LongMessage()] + [MarkerMessage(10)] == [LongMessage(), MarkerMessage(10)];
    LongMessageCanShrink();
    CompactionIsFixpointIff(DRIFT_SETTINGS, DriftEncoding(), Drifting(), DRIFT_BUDGET);
  }

  lemma LongMessageCanShrink()
    ensures DRIFT_BUDGET.Valid() && !Stuck(DriftEncoding(), [LongMessage()] + [MarkerMessage(10)], DRIFT_BUDGET)
  {
    var ms := [LongMessage()] + [MarkerMessage(10)];
    LargestIsLargest(ms, Texts);
    assert IsSlot(ms, Texts, Slot(0, None, LongMessage().content.str));
    var s := Largest(ms, Texts).value;
    assert s.message == 0 && |s.text| == 600;
    LastPairChars(10);
    assert ms == [LongMessage(), MarkerMessage(10)];
    ExcessIsPositive(DriftEncoding(), ms, DRIFT_BUDGET);
    var preview := PreviewChars(600, ExcessChars(DriftEncoding(), ms, DRIFT_BUDGET));
    NoticeLength(s.text, preview);
    assert |Decimal.Print(600)| <= 3;
  }
}
