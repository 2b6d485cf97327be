/** What an append adds and what it evicts, and how long a stream lives. */
module StreamLife {
  import opened Prelude
  import opened StreamLog

  /** Main result: an append whose key is new puts its event behind all others of the stream, under the
      stream's generation or a new one, answers with the position just after it, and then evicts exactly
      the other streams that were idle for more than 1800 seconds; a known key changes no stream. */
  lemma AppendedIsLast(w: World, stream: string, e: Entry, name: string)
    requires WorldOk(w) && Fresh(w, name)
    ensures var known := stream in w.buffers && e.key != "" && e.key in w.buffers[stream].idempotency;
            var generation := if stream in w.buffers then w.buffers[stream].generation else name;
            var before := if stream in w.buffers then w.buffers[stream].events else [];
            var v := AppendEvent(w, stream, e, name);
            (known ==> v == w) &&
            (!known ==>
               stream in v.buffers && v.buffers[stream].generation == generation &&
               v.buffers[stream].events == before + [e] && v.buffers[stream].updated == w.now &&
               generation in v.archive && v.archive[generation] == before + [e] &&
               AppendCursor(w, stream, e, name) == CursorText(generation, |before| + 1) &&
               forall id :: id != stream ==>
                 (id in v.buffers <==> id in w.buffers && w.now - w.buffers[id].updated <= 1800) &&
                 (id in v.buffers ==> v.buffers[id] == w.buffers[id])) &&
            v.now == w.now
  {
    hide CursorText;
    hide KeysOk;
  }

  /** Clearing takes away one stream, and a new cursor makes an empty one where there was none. */
  lemma ClearedIsGone(w: World, stream: string, name: string)
    ensures var v := Clear(w, stream);
            v.archive == w.archive && v.now == w.now &&
            forall id :: (id in v.buffers <==> id in w.buffers && id != stream) && (id in v.buffers ==> v.buffers[id] == w.buffers[id])
    ensures var v := EnsureBuffer(w, stream, name);
            stream in v.buffers && (stream in w.buffers ==> v == w) &&
            (stream !in w.buffers ==>
               v.buffers[stream].events == [] && v.buffers[stream].generation == name && v.buffers[stream].updated == w.now) &&
            forall id :: id != stream ==> (id in v.buffers <==> id in w.buffers) && (id in v.buffers ==> v.buffers[id] == w.buffers[id])
  {
  }

  /** The generation holds the stream, which was last used no earlier than this. */
  predicate UsedSince(w: World, stream: string, generation: string, since: int) {
    stream in w.buffers && w.buffers[stream].generation == generation && w.buffers[stream].updated >= since
  }

  lemma OneStepLater(w: World, op: Op, stream: string, generation: string, since: int)
    requires WorldOk(w) && UsedSince(w, stream, generation, since) && op != Close(stream)
    requires since <= w.now <= since + 1800
    ensures UsedSince(Apply(w, op), stream, generation, since) && Apply(w, op).now >= w.now
  {
    hide CursorText;
    match op
    case Append(other, e, name) => if Fresh(w, name) { AppendedIsLast(w, other, e, name); }
    case Open(other, name) => if Fresh(w, name) { ClearedIsGone(w, other, name); }
    case Close(other) => ClearedIsGone(w, other, "");
    case Tick(to) =>
  }

  lemma {:induction false} TimePasses(w: World, ops: seq<Op>)
    requires WorldOk(w)
    ensures ApplyAll(w, ops).now >= w.now
    decreases |ops|
  {
    if ops != [] {
      ApplyKeepsOk(w, ops[0]);
      TimeOfOne(w, ops[0]);
      TimePasses(Apply(w, ops[0]), ops[1..]);
    }
  }

  lemma TimeOfOne(w: World, op: Op)
    ensures Apply(w, op).now >= w.now
  {
    hide CursorText;
  }

  /** Main result: whatever other streams do, a stream that is not cleared keeps its generation for 1800
      seconds after it was last used. */
  lemma {:induction false} UsedStreamLives(w: World, ops: seq<Op>, stream: string, generation: string, since: int)
    requires WorldOk(w) && UsedSince(w, stream, generation, since) && since <= w.now
    requires ApplyAll(w, ops).now <= since + 1800 && forall i :: 0 <= i < |ops| ==> ops[i] != Close(stream)
    ensures UsedSince(ApplyAll(w, ops), stream, generation, since)
    decreases |ops|
  {
    if ops != [] {
      var next := Apply(w, ops[0]);
      ApplyKeepsOk(w, ops[0]);
      TimePasses(next, ops[1..]);
      TimeOfOne(w, ops[0]);
      OneStepLater(w, ops[0], stream, generation, since);
      UsedStreamLives(next, ops[1..], stream, generation, since);
    }
  }

  /** What is delivered is what was appended, with the position just after it. */
  lemma {:induction false} DeliveredIsAppended(generation: string, events: seq<Entry>, from: nat, to: nat, k: nat)
    requires from + k < to <= |events|
    ensures Numbered(generation, events, from, to)[k] ==
            Delivered(CursorText(generation, from + k + 1), events[from + k].event, events[from + k].data)
  {
    if from + k < to - 1 { DeliveredIsAppended(generation, events, from, to - 1, k); }
  }

  /** A replay without a cursor starts at the beginning, and one with a cursor of the live generation just
      behind it; both bring as much as the limit allows, and say where they stopped. */
  lemma ReplayStartsAt(w: World, stream: string, position: nat, limit: nat, cursor: string)
    requires WorldOk(w) && stream in w.buffers
    requires cursor == "" || cursor == CursorText(w.buffers[stream].generation, position)
    ensures var b, r := w.buffers[stream], ReplayEntries(w, stream, cursor, limit);
            var start := if cursor == "" then 0 else if position < |b.events| then position else |b.events|;
            var end := if start + limit < |b.events| then start + limit else |b.events|;
            r.available && r.entries == Numbered(b.generation, b.events, start, end) &&
            r.cursor == CursorText(b.generation, end)
  {
    if cursor != "" { CursorRoundTrip(w.buffers[stream].generation, position, ""); }
    EmptyIsNoCursor(w.buffers[stream].generation);
  }

  lemma EmptyIsNoCursor(generation: string)
    ensures ParseCursor("", generation).None?
  {
  }
}
