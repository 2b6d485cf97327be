/** Snapshots for continue-as-new: compacting a history, marking what was dropped, and doing it again. */
module Compaction {
  import opened Prelude
  import opened Messages
  import opened ContextBudget
  import opened ExchangeRepair
  import opened ContentTruncation
  import opened ContextWindow

  function WithoutMarkers(ms: seq<Message>): seq<Message> {
    if ms == [] then []
    else (if HasMarker(ms[0]) then [] else [ms[0]]) + WithoutMarkers(ms[1..])
  }

  function MarkerMessage(dropped: nat): Message { Message(User, Blocks([Marker(dropped)])) }

  /** The compacted list, with one marker counting the messages it lost, placed after a preserved
      first message; the list as it is when nothing was lost. */
  function WithMarker(full: seq<Message>, compactedMessages: seq<Message>, preserveFirst: bool): seq<Message> {
    var compacted := WithoutMarkers(compactedMessages);
    var dropped := |full| - |compacted|;
    if dropped <= 0 then compactedMessages
    else
      var at := if preserveFirst && full != [] && compacted != [] && full[0] == compacted[0] then 1 else 0;
      compacted[..at] + [MarkerMessage(dropped)] + compacted[at..]
  }

  function Continuation(st: Settings, e: Encoding, ms: seq<Message>, b: Option<Budget>): seq<Message>
    requires st.Valid() && (b.Some? ==> b.value.Valid())
  {
    WithMarker(WithoutMarkers(Repair(ms)), ForModel(st, e, ms, b), st.preserveInitialUserMessage)
  }

  datatype Snapshot = Snapshot(version: int, messages: seq<Message>)

  datatype ContextError = WindowTooSmall | ResultCapTooSmall | UnsupportedVersion(version: int)

  /** What restoring a snapshot makes the conversation, or why it cannot be restored. */
  function Restored(snapshot: Snapshot): Result<seq<Message>, ContextError> {
    if snapshot.version == 2 then Ok(snapshot.messages) else Err(UnsupportedVersion(snapshot.version))
  }

  /** The durable history of one agent and what is derived from it. */
  class SlidingWindowContextManager {
    const settings: Settings
    const encoding: Encoding
    var messages: seq<Message>

    ghost predicate Valid()
      reads this
    {
      settings.Valid()
    }

    constructor (settings: Settings, encoding: Encoding)
      requires settings.Valid()
      ensures Valid() && this.settings == settings && messages == []
    {
      this.settings := settings;
      this.encoding := encoding;
      messages := [];
    }

    /** Construction with the checks on the settings, in their order. */
    static method Create(settings: Settings, encoding: Encoding)
      returns (r: Result<SlidingWindowContextManager, ContextError>)
      ensures r.Ok? <==> settings.Valid()
      ensures r.Ok? ==> fresh(r.value) && r.value.Valid() && r.value.messages == []
      ensures r.Err? ==> r.error == (if settings.maxRecentMessages < 2 then WindowTooSmall else ResultCapTooSmall)
    {
      if settings.maxRecentMessages < 2 {
        return Err(WindowTooSmall);
      }
      if settings.maxToolResultChars.Some? && settings.maxToolResultChars.value < 1 {
        return Err(ResultCapTooSmall);
      }
      var manager := new SlidingWindowContextManager(settings, encoding);
      return Ok(manager);
    }

    method Initialize(prompt: Message)
      modifies this
      ensures messages == [prompt]
    {
      messages := [];
      RecordMessage(prompt);
    }

    /** Recording a user, assistant or tool-result message appends it. */
    method RecordMessage(message: Message)
      modifies this
      ensures messages == old(messages) + [message]
    {
      messages := messages + [message];
    }

    method RecordToolResults(results: seq<Block>)
      modifies this
      ensures messages == if results == [] then old(messages)
                          else old(messages) + [Message(User, Blocks(results))]
    {
      if results == [] {
        return;
      }
      RecordMessage(Message(User, Blocks(results)));
    }

    method ReplaceMessages(replacement: seq<Message>)
      modifies this
      ensures messages == replacement
    {
      messages := replacement;
    }

    method Restore(snapshot: Snapshot) returns (r: Result<(), ContextError>)
      modifies this
      ensures r.Ok? <==> snapshot.version == 2
      ensures match Restored(snapshot)
              case Ok(restored) => r.Ok? && messages == restored
              case Err(error) => r == Err(error) && messages == old(messages)
    {
      if snapshot.version != 2 {
        return Err(UnsupportedVersion(snapshot.version));
      }
      messages := snapshot.messages;
      return Ok(());
    }

    /** Restoring it gives the whole conversation back. */
    method FullContextSnapshot() returns (snapshot: Snapshot)
      ensures Restored(snapshot) == Ok(messages)
    {
      return Snapshot(2, messages);
    }

    method ContinuationContextSnapshot(b: Option<Budget>) returns (snapshot: Snapshot)
      requires Valid() && (b.Some? ==> b.value.Valid())
      ensures snapshot == Snapshot(2, Continuation(settings, encoding, messages, b))
    {
      var repaired := DropIncompleteToolExchanges(messages);
      var full := WithoutMarkers(repaired);
      var sent := MessagesForModel(settings, encoding, messages, b);
      return Snapshot(2, WithMarker(full, sent, settings.preserveInitialUserMessage));
    }
  }

  /** A compaction marker takes no part in a tool exchange. */
  predicate MarkersStandAlone(ms: seq<Message>) {
    forall i :: 0 <= i < |ms| && HasMarker(ms[i]) ==> UseIds(ms[i]) == {} && !HasResult(ms[i])
  }

  lemma {:induction false} WithoutMarkersConcat(a: seq<Message>, b: seq<Message>)
    ensures WithoutMarkers(a + b) == WithoutMarkers(a) + WithoutMarkers(b)
  {
    if a == [] {
      assert a + b == b;
    } else {
      assert (a + b)[1..] == a[1..] + b;
      WithoutMarkersConcat(a[1..], b);
    }
  }

  lemma {:induction false} WithoutMarkersHasNone(ms: seq<Message>)
    ensures forall i :: 0 <= i < |WithoutMarkers(ms)| ==> !HasMarker(WithoutMarkers(ms)[i])
    ensures |WithoutMarkers(ms)| <= |ms|
    ensures AllUnmixed(ms) ==> AllUnmixed(WithoutMarkers(ms))
  {
    if ms != [] { WithoutMarkersHasNone(ms[1..]); }
  }

  lemma {:induction false} WithoutMarkersIdentity(ms: seq<Message>)
    requires forall i :: 0 <= i < |ms| ==> !HasMarker(ms[i])
    ensures WithoutMarkers(ms) == ms
  {
    if ms != [] {
      assert !HasMarker(ms[0]);
      WithoutMarkersIdentity(ms[1..]);
    }
  }

  /** Taking markers out of a well-paired history leaves it well-paired. */
  lemma {:induction false} WithoutMarkersPairs(ms: seq<Message>)
    requires WellPaired(ms) && AllUnmixed(ms) && MarkersStandAlone(ms)
    ensures WellPaired(WithoutMarkers(ms))
  {
    if ms != [] {
      var n := FirstGroupLength(ms);
      WithoutMarkersPairs(ms[n..]);
      assert ms == ms[..n] + ms[n..];
      WithoutMarkersConcat(ms[..n], ms[n..]);
      assert CallAnswered(ms, 0) && ResultCalled(ms, 0);
      if n == 2 {
        assert ms[..2] == [ms[0], ms[1]];
        ResultIdsNeedResult(ms[1]);
        WithoutMarkersIdentity([ms[0], ms[1]]);
        ExchangeIsPaired(ms[0], ms[1]);
      } else {
        assert ms[..1] == [ms[0]];
        assert [ms[0]][1..] == [];
        assert WellPaired(WithoutMarkers([ms[0]]));
      }
      PairedConcat(WithoutMarkers(ms[..n]), WithoutMarkers(ms[n..]));
    }
  }
}
