/** The broker object of the web process, and the event stream of one turn. */
module StreamBroker {
  import opened Prelude
  import opened StreamLog

  const TURN_STREAM_REPLAY_LIMIT := 100

  /** What a turn stream sends; a settled turn carries its own cursor in its data. */
  datatype Sent =
    | Update(event: string, data: string, id: string, cursorInData: bool)
    | Reconcile(reason: string, id: string)

  function UpdateOf(d: Delivered): Sent { Update(d.event, d.data, d.id, d.event == TURN_SETTLED) }

  function Updates(ds: seq<Delivered>): seq<Sent> {
    if ds == [] then [] else Updates(ds[..|ds| - 1]) + [UpdateOf(ds[|ds| - 1])]
  }

  /** An update carries the event, its data and its cursor, the latter in the data too if a turn settled. */
  lemma {:induction false} UpdatesAreDelivered(ds: seq<Delivered>)
    ensures |Updates(ds)| == |ds|
    ensures forall k :: 0 <= k < |ds| ==>
              Updates(ds)[k] == Update(ds[k].event, ds[k].data, ds[k].id, ds[k].event == "turn_settled")
  {
    if ds != [] { UpdatesAreDelivered(ds[..|ds| - 1]); }
  }

  predicate NoneSettled(ds: seq<Delivered>) { forall i :: 0 <= i < |ds| ==> ds[i].event != TURN_SETTLED }

  /** Nothing settled before the last one; `settled` says whether that one is. */
  predicate UpToSettled(ds: seq<Delivered>, settled: bool) {
    if settled then ds != [] && ds[|ds| - 1].event == TURN_SETTLED && NoneSettled(ds[..|ds| - 1]) else NoneSettled(ds)
  }

  lemma HoldsPrefix(generation: string, events: seq<Entry>, from: nat, delivered: seq<Delivered>, n: nat)
    requires Holds(generation, events, from, delivered) && n <= |delivered|
    ensures Holds(generation, events, from, delivered[..n])
  {
    NumberedSplits(generation, events, from, from + n, from + |delivered|);
  }

  lemma {:induction false} UpdatesConcat(a: seq<Delivered>, b: seq<Delivered>)
    ensures Updates(a) + Updates(b) == Updates(a + b)
  {
    if b == [] {
      assert a + b == a;
    } else {
      var n := |b| - 1;
      assert (a + b)[..|a| + n] == a + b[..n];
      UpdatesConcat(a, b[..n]);
    }
  }

  lemma SettledConcat(a: seq<Delivered>, b: seq<Delivered>, settled: bool)
    requires NoneSettled(a) && UpToSettled(b, settled)
    ensures UpToSettled(a + b, settled)
  {
    if settled { assert (a + b)[..|a + b| - 1] == a + b[..|b| - 1]; }
  }

  /** Taking the first `count` of what a poll brought. */
  lemma TakeSome(
    generation: string, events: seq<Entry>, from: nat, before: seq<Delivered>, after: seq<Delivered>, count: nat, settled: bool)
    requires NoneSettled(before) && before <= after && count <= |after| - |before|
    requires Holds(generation, events, from, after) && UpToSettled(after[|before|..][..count], settled)
    ensures var taken := after[..|before| + count];
            Holds(generation, events, from, taken) && UpToSettled(taken, settled) &&
            Updates(before) + Updates(after[|before|..][..count]) == Updates(taken)
  {
    var more := after[|before|..][..count];
    assert before + more == after[..|before| + count];
    UpdatesConcat(before, more);
    SettledConcat(before, more, settled);
    HoldsPrefix(generation, events, from, after, |before| + count);
  }

  /** A cursor that was valid when the stream opened is where the stream starts. */
  predicate StartedAt(archive: map<string, seq<Entry>>, cursor: string, generation: string, from: nat) {
    forall g :: g in archive && ParseCursor(cursor, g).Some? && ParseCursor(cursor, g).value <= |archive[g]| && cursor != "" ==>
      generation == g && from == ParseCursor(cursor, g).value
  }

  function StartIn(b: Buffer, cursor: string): nat {
    var parsed := ParseCursor(cursor, b.generation);
    if parsed.None? then 0 else Min(parsed.value, |b.events|)
  }

  lemma FirstPollStarts(w0: World, w: World, stream: string, cursor: string)
    requires WorldOk(w) && Evolves(w0, w) && ReplayEntries(w, stream, cursor, TURN_STREAM_REPLAY_LIMIT).available
    ensures stream in w.buffers &&
            StartedAt(w0.archive, cursor, w.buffers[stream].generation, StartIn(w.buffers[stream], cursor))
  {
    var b := w.buffers[stream];
    forall g | g in w0.archive && ParseCursor(cursor, g).Some? && ParseCursor(cursor, g).value <= |w0.archive[g]| && cursor != ""
      ensures b.generation == g && StartIn(b, cursor) == ParseCursor(cursor, g).value
    {
      if b.generation != g { ForeignCursor(cursor, g, b.generation); }
      assert w0.archive[g] <= w.archive[g];
    }
  }

  lemma FirstPollFollows(w: World, stream: string, cursor: string)
    requires WorldOk(w) && ReplayEntries(w, stream, cursor, TURN_STREAM_REPLAY_LIMIT).available
    ensures stream in w.buffers &&
            var b := w.buffers[stream];
            var r := Poll(w, stream, Reader(cursor, [], false), TURN_STREAM_REPLAY_LIMIT);
            Follows(w, b.generation, StartIn(b, cursor), r) &&
            StartIn(b, cursor) + |r.delivered| == Min(|b.events|, StartIn(b, cursor) + TURN_STREAM_REPLAY_LIMIT)
  {
    hide ParseCursor;
    hide CursorText;
    hide KeysOk;
    hide Distinct;
    var b := w.buffers[stream];
    assert Holds(b.generation, b.events, StartIn(b, cursor), []);
    ReplayExtends(b, StartIn(b, cursor), [], TURN_STREAM_REPLAY_LIMIT);
    hide Numbered;
    var entries := ReplayEntries(w, stream, cursor, TURN_STREAM_REPLAY_LIMIT).entries;
    assert [] + entries == entries;
  }

  lemma LaterPollFollows(w: World, stream: string, generation: string, from: nat, r: Reader)
    requires WorldOk(w) && Follows(w, generation, from, r) && !r.refused
    requires ReplayEntries(w, stream, r.cursor, TURN_STREAM_REPLAY_LIMIT).available
    ensures stream in w.buffers && w.buffers[stream].generation == generation
    ensures Follows(w, generation, from, Poll(w, stream, r, TURN_STREAM_REPLAY_LIMIT))
    ensures from + |Poll(w, stream, r, TURN_STREAM_REPLAY_LIMIT).delivered| ==
            Min(|w.buffers[stream].events|, from + |r.delivered| + TURN_STREAM_REPLAY_LIMIT)
  {
    if stream in w.buffers && w.buffers[stream].generation == generation {
      LivePollFollows(w, stream, from, r, TURN_STREAM_REPLAY_LIMIT);
    } else {
      OtherPollIsRefused(w, stream, generation, from, r, TURN_STREAM_REPLAY_LIMIT);
    }
  }

  /** The call to reconcile that answers a refused poll. */
  function ReconcileOf(replay: Replay, cursor: string): Sent {
    Reconcile(replay.reason, if replay.cursor != "" then replay.cursor else cursor)
  }

  /** Where a reader that starts at `from` gets when each poll finds so many events. */
  function Reach(from: nat, seen: seq<nat>): int {
    if seen == [] then from
    else Min(seen[|seen| - 1], Reach(from, seen[..|seen| - 1]) + TURN_STREAM_REPLAY_LIMIT)
  }

  function Known(archive: map<string, seq<Entry>>, generation: string): nat {
    if generation in archive then |archive[generation]| else 0
  }

  /** Every poll found at least the events there were at the start, and no more than there are now. */
  predicate SeenWithin(before: map<string, seq<Entry>>, now: map<string, seq<Entry>>, generation: string, seen: seq<nat>) {
    forall k :: 0 <= k < |seen| ==> Known(before, generation) <= seen[k] <= Known(now, generation)
  }

  lemma OneMoreSeen(before: map<string, seq<Entry>>, now: map<string, seq<Entry>>, generation: string, from: nat, seen: seq<nat>, n: nat)
    requires SeenWithin(before, now, generation, seen) && Known(before, generation) <= n <= Known(now, generation)
    ensures SeenWithin(before, now, generation, seen + [n])
    ensures Reach(from, seen + [n]) == Min(n, Reach(from, seen) + TURN_STREAM_REPLAY_LIMIT)
  {
    assert (seen + [n])[..|seen|] == seen;
  }

  lemma LaterKnowMore(w: World, v: World, generation: string)
    requires Evolves(w, v)
    ensures Known(w.archive, generation) <= Known(v.archive, generation)
  {
  }

  lemma {:induction false} ReachIsFar(from: nat, seen: seq<nat>, known: nat)
    requires forall k :: 0 <= k < |seen| ==> known <= seen[k]
    ensures Reach(from, seen) >= Min(known, from + TURN_STREAM_REPLAY_LIMIT * |seen|)
  {
    if seen != [] { ReachIsFar(from, seen[..|seen| - 1], known); }
  }

  /** How far a turn stream has come: the generation and place it started from, once it has. */
  datatype Progress = Progress(
    cursor: string, current: string, started: bool, generation: string, from: nat, delivered: seq<Delivered>)

  /** What was delivered is a gap-free run of one generation, from the right place. */
  ghost predicate Delivering(start: World, w: World, p: Progress) {
    p.started ==>
      p.generation in w.archive && Holds(p.generation, w.archive[p.generation], p.from, p.delivered) &&
      StartedAt(start.archive, p.cursor, p.generation, p.from)
  }

  ghost predicate Streaming(start: World, w: World, p: Progress) {
    NoneSettled(p.delivered) &&
    if p.started then
      Follows(w, p.generation, p.from, Reader(p.current, p.delivered, false)) &&
      StartedAt(start.archive, p.cursor, p.generation, p.from)
    else p.current == p.cursor && p.delivered == []
  }

  ghost function Advanced(w: World, stream: string, p: Progress, after: Reader, count: nat): Progress
    requires stream in w.buffers && |p.delivered| + count <= |after.delivered|
  {
    var b := w.buffers[stream];
    p.(current := after.cursor, started := true, delivered := after.delivered[..|p.delivered| + count],
       generation := if p.started then p.generation else b.generation,
       from := if p.started then p.from else StartIn(b, p.cursor))
  }

  lemma AdvancedFollows(start: World, w: World, stream: string, p: Progress, after: Reader, count: nat)
    requires WorldOk(w) && Evolves(start, w) && Streaming(start, w, p) && stream in w.buffers
    requires ReplayEntries(w, stream, p.current, TURN_STREAM_REPLAY_LIMIT).available
    requires if p.started then Follows(w, p.generation, p.from, after) else
             Follows(w, w.buffers[stream].generation, StartIn(w.buffers[stream], p.cursor), after)
    requires |p.delivered| + count <= |after.delivered|
    ensures var q := Advanced(w, stream, p, after, count);
            Follows(w, q.generation, q.from, after) && StartedAt(start.archive, q.cursor, q.generation, q.from)
  {
    if !p.started { FirstPollStarts(start, w, stream, p.cursor); }
  }

  lemma WholePollStreams(start: World, w: World, q: Progress, after: Reader)
    requires Follows(w, q.generation, q.from, after) && StartedAt(start.archive, q.cursor, q.generation, q.from)
    requires NoneSettled(after.delivered) && !after.refused && q.started
    requires q.current == after.cursor && q.delivered == after.delivered
    ensures Streaming(start, w, q)
  {
    assert Reader(q.current, q.delivered, false) == after;
  }

  lemma TakenDelivers(
    start: World, w: World, before: seq<Delivered>, q: Progress, after: Reader, count: nat, settled: bool)
    requires Follows(w, q.generation, q.from, after) && StartedAt(start.archive, q.cursor, q.generation, q.from)
    requires NoneSettled(before) && before <= after.delivered && count <= |after.delivered| - |before|
    requires UpToSettled(after.delivered[|before|..][..count], settled)
    requires q.delivered == after.delivered[..|before| + count]
    ensures Delivering(start, w, q) && UpToSettled(q.delivered, settled)
    ensures Updates(q.delivered) == Updates(before) + Updates(after.delivered[|before|..][..count])
  {
    TakeSome(q.generation, w.archive[q.generation], q.from, before, after.delivered, count, settled);
  }

  lemma PollAdvances(start: World, w: World, stream: string, p: Progress, after: Reader, count: nat, settled: bool)
    returns (q: Progress)
    requires WorldOk(w) && Evolves(start, w) && Streaming(start, w, p) && stream in w.buffers && !after.refused
    requires ReplayEntries(w, stream, p.current, TURN_STREAM_REPLAY_LIMIT).available
    requires if p.started then Follows(w, p.generation, p.from, after) else
             Follows(w, w.buffers[stream].generation, StartIn(w.buffers[stream], p.cursor), after)
    requires p.delivered <= after.delivered && count <= |after.delivered| - |p.delivered|
    requires UpToSettled(after.delivered[|p.delivered|..][..count], settled)
    requires !settled ==> count == |after.delivered| - |p.delivered|
    ensures q == Advanced(w, stream, p, after, count)
    ensures Delivering(start, w, q) && UpToSettled(q.delivered, settled)
    ensures !settled ==> Streaming(start, w, q)
    ensures Updates(q.delivered) == Updates(p.delivered) + Updates(after.delivered[|p.delivered|..][..count])
  {
    hide ParseCursor;
    hide WorldOk;
    hide Evolves;
    hide Follows;
    hide StartedAt;
    hide ReplayEntries;
    q := Advanced(w, stream, p, after, count);
    AdvancedFollows(start, w, stream, p, after, count);
    TakenDelivers(start, w, p.delivered, q, after, count, settled);
    if !settled { WholePollStreams(start, w, q, after); }
  }

  class StreamBroker {
    var buffers: map<string, Buffer>
    var clock: int
    /** Not in the code: every generation's events, from which the model also draws new names. */
    var archive: map<string, seq<Entry>>

    ghost function State(): World
      reads this
    {
      World(buffers, archive, clock)
    }

    constructor (now: int)
      ensures State() == World(map[], map[], now) && WorldOk(State())
    {
      buffers, clock, archive := map[], now, map[];
    }

    method EnsureBuffer(stream: string, name: string)
      modifies this
      ensures State() == StreamLog.EnsureBuffer(old(State()), stream, name)
    {
      if stream !in buffers {
        buffers := buffers[stream := Buffer([], map[], name, clock)];
        archive := archive[name := []];
      }
    }

    method EvictIdle()
      modifies this
      ensures State() == old(State()).(buffers := Evict(old(buffers), clock))
    {
      var stale := set id | id in buffers && clock - buffers[id].updated > BUFFER_TTL;
      buffers := buffers - stale;
    }

    method Store(stream: string, e: Entry) returns (cursor: string)
      requires stream in buffers
      modifies this
      ensures State() == Stored(old(State()), stream, e)
      ensures cursor == CursorText(old(buffers)[stream].generation, |old(buffers)[stream].events| + 1)
    {
      var b := buffers[stream];
      cursor := CursorText(b.generation, |b.events| + 1);
      b := b.(events := b.events + [e], updated := clock);
      if e.key != "" { b := b.(idempotency := b.idempotency[e.key := cursor]); }
      buffers := buffers[stream := b];
      archive := archive[b.generation := b.events];
    }

    method AppendEvent(stream: string, e: Entry, name: string) returns (cursor: string)
      requires WorldOk(State()) && Fresh(State(), name)
      modifies this
      ensures State() == StreamLog.AppendEvent(old(State()), stream, e, name) && WorldOk(State())
      ensures Evolves(old(State()), State())
      ensures cursor == AppendCursor(old(State()), stream, e, name)
    {
      hide WorldOk;
      hide Evolves;
      hide CursorText;
      hide KeysOk;
      AppendKeepsOk(State(), stream, e, name);
      EnsureBuffer(stream, name);
      var b := buffers[stream];
      if e.key != "" && e.key in b.idempotency { return b.idempotency[e.key]; }
      cursor := Store(stream, e);
      EvictIdle();
    }

    method Clear(stream: string)
      requires WorldOk(State())
      modifies this
      ensures State() == StreamLog.Clear(old(State()), stream) && WorldOk(State()) && Evolves(old(State()), State())
    {
      buffers := buffers - {stream};
    }

    /** The position a new reader starts from: the end, of an empty buffer if there was none. */
    method Cursor(stream: string, name: string) returns (cursor: string)
      requires WorldOk(State()) && Fresh(State(), name)
      modifies this
      ensures State() == StreamLog.EnsureBuffer(old(State()), stream, name) && WorldOk(State())
      ensures Evolves(old(State()), State())
      ensures var b := State().buffers[stream]; cursor == CursorText(b.generation, |b.events|)
    {
      EnsureKeepsOk(State(), stream, name);
      EnsureBuffer(stream, name);
      cursor := CursorText(buffers[stream].generation, |buffers[stream].events|);
    }

    method ReplayOf(stream: string, cursor: string, limit: nat) returns (r: Replay)
      ensures r == ReplayEntries(State(), stream, cursor, limit)
    {
      if stream !in buffers { return Replay([], "", false, "stream buffer unavailable"); }
      var b := buffers[stream];
      var parsed := ParseCursor(cursor, b.generation);
      if cursor != "" && parsed.None? {
        return Replay([], CursorText(b.generation, |b.events|), false, "stream cursor unavailable");
      }
      var start: nat := if parsed.Some? then parsed.value else 0;
      start := Min(start, |b.events|);
      var end: nat := Min(|b.events|, start + limit);
      var entries: seq<Delivered> := [];
      for i := start to end
        invariant entries == Numbered(b.generation, b.events, start, i)
      {
        entries := entries + [DeliveredAt(b.generation, b.events, i)];
      }
      return Replay(entries, CursorText(b.generation, end), true, "");
    }

    /** Whatever other requests do while the stream sleeps. */
    method OtherRequests()
      requires WorldOk(State())
      modifies this
      ensures WorldOk(State()) && Evolves(old(State()), State())
    {
      var n: nat := *;
      while n > 0
        invariant WorldOk(State()) && Evolves(old(State()), State())
      {
        var op: Op := *;
        label Before:
        match op {
          case Append(stream, e, name) =>
            if name !in archive && NoColon(name) { var _ := AppendEvent(stream, e, name); }
          case Open(stream, name) =>
            if name !in archive && NoColon(name) { var _ := Cursor(stream, name); }
          case Close(stream) => Clear(stream);
          case Tick(to) => clock := Max(clock, to);
        }
        EvolvesTrans(old(State()), old@Before(State()), State());
        n := n - 1;
      }
    }

    /** Sends entries one by one and stops right after a settled turn. */
    method SendEntries(entries: seq<Delivered>) returns (sent: seq<Sent>, ghost count: nat, settled: bool)
      ensures count <= |entries| && sent == Updates(entries[..count]) && UpToSettled(entries[..count], settled)
      ensures !settled ==> count == |entries|
      ensures settled <==> exists i :: 0 <= i < |entries| && entries[i].event == TURN_SETTLED
      ensures settled ==> sent != [] && sent[|sent| - 1].Update? && sent[|sent| - 1].cursorInData
    {
      sent, count, settled := [], 0, false;
      for i := 0 to |entries|
        invariant count == i && sent == Updates(entries[..i]) && NoneSettled(entries[..i])
      {
        assert entries[..i + 1][..i] == entries[..i];
        sent := sent + [UpdateOf(entries[i])];
        count := i + 1;
        if entries[i].event == TURN_SETTLED { return sent, count, true; }
      }
    }

    /** One poll and what it sends; `r` is the stream's reader, following a generation unless it has
        not started yet. */
    method PollOnce(stream: string, cursor: string, started: bool, ghost generation: string, ghost from: nat, ghost r: Reader)
      returns (available: bool, sent: seq<Sent>, next: string, ghost count: nat, settled: bool, ghost r': Reader)
      requires WorldOk(State()) && r.cursor == cursor && !r.refused
      requires if started then Follows(State(), generation, from, r) else r.delivered == []
      ensures available ==>
                stream in buffers &&
                (if started then buffers[stream].generation == generation && Follows(State(), generation, from, r') else
                 Follows(State(), buffers[stream].generation, StartIn(buffers[stream], cursor), r'))
      ensures available ==>
                var start := if started then from else StartIn(buffers[stream], cursor);
                start + |r'.delivered| ==
                Min(|buffers[stream].events|, start + |r.delivered| + TURN_STREAM_REPLAY_LIMIT)
      ensures available == ReplayEntries(State(), stream, cursor, TURN_STREAM_REPLAY_LIMIT).available
      ensures available ==>
                !r'.refused && r'.cursor == next && r.delivered <= r'.delivered &&
                count <= |r'.delivered| - |r.delivered| &&
                sent == Updates(r'.delivered[|r.delivered|..][..count]) &&
                UpToSettled(r'.delivered[|r.delivered|..][..count], settled) &&
                (!settled ==> count == |r'.delivered| - |r.delivered|)
      ensures !available ==>
                !settled && sent == [ReconcileOf(ReplayEntries(State(), stream, cursor, TURN_STREAM_REPLAY_LIMIT), cursor)]
    {
      hide ParseCursor;
      hide NoneSettled;
      hide WorldOk;
      hide Follows;
      hide StartIn;
      var replay := ReplayOf(stream, cursor, TURN_STREAM_REPLAY_LIMIT);
      available, next, count, settled := replay.available, cursor, 0, false;
      r' := Poll(State(), stream, r, TURN_STREAM_REPLAY_LIMIT);
      if !available {
        sent := [ReconcileOf(replay, cursor)];
        return;
      }
      if started {
        LaterPollFollows(State(), stream, generation, from, r);
      } else {
        FirstPollFollows(State(), stream, cursor);
      }
      sent, count, settled := SendEntries(replay.entries);
      next := if replay.entries != [] then replay.entries[|replay.entries| - 1].id else replay.cursor;
      assert r'.delivered[|r.delivered|..] == replay.entries;
    }

    /** The stream sleeps, and keeps its place. */
    method Sleep(ghost start: World, ghost p: Progress, ghost seen: seq<nat>)
      requires WorldOk(State()) && Evolves(start, State()) && Streaming(start, State(), p)
      requires SeenWithin(start.archive, archive, p.generation, seen)
      modifies this
      ensures WorldOk(State()) && Evolves(start, State()) && Streaming(start, State(), p)
      ensures SeenWithin(start.archive, archive, p.generation, seen)
    {
      OtherRequests();
      EvolvesTrans(start, old(State()), State());
      LaterKnowMore(old(State()), State(), p.generation);
      if p.started {
        EvolutionKeepsFollowing(old(State()), State(), p.generation, p.from, Reader(p.current, p.delivered, false));
      }
    }

    /** The events of a turn from a cursor on, for as many polls as the client stays connected. What
        goes out is a gap-free run of one generation's events, from the cursor if that was valid when
        the stream opened; nothing follows a settled turn or a call to reconcile, and the latter goes
        out only to a refused cursor. Otherwise each poll sends what it finds, up to the limit: `seen`
        lists how many events of the generation there were at each. */
    method TurnEventStream(stream: string, cursor: string, polls: nat)
      returns (out: seq<Sent>, ghost p: Progress, ghost seen: seq<nat>, settled: bool)
      requires WorldOk(State())
      modifies this
      ensures WorldOk(State()) && Evolves(old(State()), State())
      ensures p.cursor == cursor && Delivering(old(State()), State(), p) && UpToSettled(p.delivered, settled)
      ensures var refusal := ReplayEntries(State(), stream, p.current, TURN_STREAM_REPLAY_LIMIT);
              out == Updates(p.delivered) ||
              (!settled && !refusal.available && out == Updates(p.delivered) + [ReconcileOf(refusal, p.current)])
      ensures out == Updates(p.delivered) && !settled && polls > 0 ==>
                p.started && |seen| == polls && SeenWithin(old(archive), archive, p.generation, seen) &&
                p.from + |p.delivered| == Reach(p.from, seen) &&
                p.from + |p.delivered| >= Min(Known(old(archive), p.generation), p.from + TURN_STREAM_REPLAY_LIMIT * polls)
    {
      hide ParseCursor;
      hide StartIn;
      hide Follows;
      hide Streaming;
      hide Delivering;
      hide Reach;
      hide SeenWithin;
      hide UpToSettled;
      hide Evolves;
      hide WorldOk;
      hide Known;
      hide Updates;
      hide ReplayEntries;
      ghost var start := State();
      BeforeStreaming(start, cursor);
      var current, started := cursor, false;
      out, settled, p, seen := [], false, Progress(cursor, cursor, false, "", 0, []), [];
      for poll := 0 to polls
        invariant WorldOk(State()) && Evolves(start, State()) && Streaming(start, State(), p)
        invariant p.cursor == cursor && p.current == current && p.started == started
        invariant out == Updates(p.delivered) && !settled
        invariant |seen| == poll && (started <==> poll > 0)
        invariant started ==> p.from + |p.delivered| == Reach(p.from, seen)
        invariant SeenWithin(start.archive, archive, p.generation, seen)
      {
        Sleep(start, p, seen);
        ghost var count, after;
        var available, sent, next;
        available, sent, next, count, settled, after :=
          PollOnce(stream, current, started, p.generation, p.from, Reader(current, p.delivered, false));
        out := out + sent;
        if !available {
          StreamingDelivers(start, State(), p);
          return;
        }
        current, started := next, true;
        ghost var q := PollAdvances(start, State(), stream, p, after, count, settled);
        PollCounts(start, State(), stream, p, q, seen);
        p, seen := q, seen + [|buffers[stream].events|];
        if settled { return; }
      }
      StreamingDelivers(start, State(), p);
      FarEnough(start.archive, archive, p, seen);
    }
  }

  lemma BeforeStreaming(start: World, cursor: string)
    ensures Evolves(start, start) && Streaming(start, start, Progress(cursor, cursor, false, "", 0, []))
    ensures SeenWithin(start.archive, start.archive, "", []) && Updates([]) == [] && UpToSettled([], false)
  {
  }

  lemma StreamingDelivers(start: World, w: World, p: Progress)
    requires Streaming(start, w, p)
    ensures Delivering(start, w, p) && UpToSettled(p.delivered, false)
  {
  }

  lemma FarEnough(before: map<string, seq<Entry>>, now: map<string, seq<Entry>>, p: Progress, seen: seq<nat>)
    requires SeenWithin(before, now, p.generation, seen)
    ensures Reach(p.from, seen) >= Min(Known(before, p.generation), p.from + TURN_STREAM_REPLAY_LIMIT * |seen|)
  {
    ReachIsFar(p.from, seen, Known(before, p.generation));
  }

  lemma PollCounts(start: World, w: World, stream: string, p: Progress, q: Progress, seen: seq<nat>)
    requires WorldOk(w) && Evolves(start, w) && stream in w.buffers && q.generation == w.buffers[stream].generation
    requires SeenWithin(start.archive, w.archive, p.generation, seen)
    requires if p.started then p.generation == q.generation else seen == []
    ensures var n := |w.buffers[stream].events|;
            SeenWithin(start.archive, w.archive, q.generation, seen + [n]) &&
            Reach(q.from, seen + [n]) == Min(n, Reach(q.from, seen) + TURN_STREAM_REPLAY_LIMIT) &&
            (seen == [] ==> Reach(q.from, seen) == q.from)
  {
    LaterKnowMore(start, w, q.generation);
    OneMoreSeen(start.archive, w.archive, q.generation, q.from, seen, |w.buffers[stream].events|);
  }
}
