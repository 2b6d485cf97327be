/** Replayable event streams: buffers, cursors, replay, idempotent append, eviction. */
module StreamLog {
  import opened Prelude
  import opened PyText
  import Decimal

  /** Seconds a stream may stay idle. */
  const BUFFER_TTL := 1800

  const TURN_SETTLED := "turn_settled"

  /** An absent idempotency key is the empty one. */
  datatype Entry = Entry(event: string, data: string, key: string)

  datatype Buffer = Buffer(events: seq<Entry>, idempotency: map<string, string>, generation: string, updated: int)

  /** The live buffers and the clock. `archive` holds, for every generation there ever was, all events
      it ever took; the code keeps no such thing. */
  datatype World = World(buffers: map<string, Buffer>, archive: map<string, seq<Entry>>, now: int)

  function CursorText(generation: string, position: nat): string { generation + ":" + Decimal.Print(position) }

  /** The position a cursor names in this generation, if it names one. */
  function ParseCursor(cursor: string, generation: string): Option<nat> {
    var i := Find(cursor, ':');
    if i == |cursor| || cursor[..i] != generation then None
    else
      var n := ParseInt(cursor[i + 1..]);
      if n.None? then None else Some(Max(0, n.value) as nat)
  }

  predicate NoColon(s: string) { forall i :: 0 <= i < |s| ==> s[i] != ':' }

  /** A cursor is read back in its own generation and refused in every other. */
  lemma CursorRoundTrip(generation: string, position: nat, other: string)
    requires NoColon(generation)
    ensures ParseCursor(CursorText(generation, position), generation) == Some(position)
    ensures other != generation ==> ParseCursor(CursorText(generation, position), other) == None
  {
    CursorReads(generation, Decimal.Print(position), position, other) by { ParsePrinted(position); }
  }

  lemma CursorReads(generation: string, digits: string, position: nat, other: string)
    requires NoColon(generation) && ParseInt(digits) == Some(position)
    ensures ParseCursor(generation + ":" + digits, generation) == Some(position)
    ensures other != generation ==> ParseCursor(generation + ":" + digits, other) == None
  {
    hide ParseInt;
    var c := generation + ":" + digits;
    var i := Find(c, ':');
    assert c[|generation|] == ':' && forall j :: 0 <= j < |generation| ==> c[j] == generation[j];
    assert c[..i] == generation && c[i + 1..] == digits;
  }

  datatype Delivered = Delivered(id: string, event: string, data: string)

  function DeliveredAt(generation: string, events: seq<Entry>, i: nat): Delivered
    requires i < |events|
  {
    Delivered(CursorText(generation, i + 1), events[i].event, events[i].data)
  }

  /** The events from position `from` up to `to`, each with the cursor just after it. */
  function Numbered(generation: string, events: seq<Entry>, from: nat, to: nat): (r: seq<Delivered>)
    requires from <= to <= |events|
    ensures |r| == to - from
  {
    if from == to then [] else Numbered(generation, events, from, to - 1) + [DeliveredAt(generation, events, to - 1)]
  }

  datatype Replay = Replay(entries: seq<Delivered>, cursor: string, available: bool, reason: string)

  function ReplayFrom(b: Buffer, start: nat, limit: nat): Replay
    requires start <= |b.events|
  {
    var end := Min(|b.events|, start + limit);
    Replay(Numbered(b.generation, b.events, start, end), CursorText(b.generation, end), true, "")
  }

  /** An absent cursor is the empty one. */
  function ReplayEntries(w: World, stream: string, cursor: string, limit: nat): Replay {
    if stream !in w.buffers then Replay([], "", false, "stream buffer unavailable")
    else
      var b := w.buffers[stream];
      var parsed := ParseCursor(cursor, b.generation);
      if cursor != "" && parsed.None? then
        Replay([], CursorText(b.generation, |b.events|), false, "stream cursor unavailable")
      else
        ReplayFrom(b, if parsed.None? then 0 else Min(parsed.value, |b.events|), limit)
  }

  function EnsureBuffer(w: World, stream: string, name: string): World {
    if stream in w.buffers then w
    else w.(buffers := w.buffers[stream := Buffer([], map[], name, w.now)], archive := w.archive[name := []])
  }

  function Evict(buffers: map<string, Buffer>, now: int): map<string, Buffer> {
    map id | id in buffers && now - buffers[id].updated <= BUFFER_TTL :: buffers[id]
  }

  function Extended(b: Buffer, e: Entry, now: int): Buffer {
    var cursor := CursorText(b.generation, |b.events| + 1);
    b.(events := b.events + [e], idempotency := if e.key == "" then b.idempotency else b.idempotency[e.key := cursor],
       updated := now)
  }

  function Stored(w: World, stream: string, e: Entry): World
    requires stream in w.buffers
  {
    var b := Extended(w.buffers[stream], e, w.now);
    w.(buffers := w.buffers[stream := b], archive := w.archive[b.generation := b.events])
  }

  /** The event goes to the end; streams idle for too long are evicted. */
  function AppendNew(w: World, stream: string, e: Entry): World
    requires stream in w.buffers
  {
    var stored := Stored(w, stream, e);
    stored.(buffers := Evict(stored.buffers, w.now))
  }

  predicate Seen(b: Buffer, key: string) { key != "" && key in b.idempotency }

  function AppendEvent(w: World, stream: string, e: Entry, name: string): World {
    var ensured := EnsureBuffer(w, stream, name);
    if Seen(ensured.buffers[stream], e.key) then ensured else AppendNew(ensured, stream, e)
  }

  /** The cursor that an append answers with. */
  function AppendCursor(w: World, stream: string, e: Entry, name: string): string {
    var b := EnsureBuffer(w, stream, name).buffers[stream];
    if Seen(b, e.key) then b.idempotency[e.key] else CursorText(b.generation, |b.events| + 1)
  }

  function Clear(w: World, stream: string): World { w.(buffers := w.buffers - {stream}) }

  predicate Archived(w: World) {
    forall id :: id in w.buffers ==>
      w.buffers[id].generation in w.archive && w.archive[w.buffers[id].generation] == w.buffers[id].events
  }

  predicate Distinct(buffers: map<string, Buffer>) {
    forall a, b :: a in buffers && b in buffers && buffers[a].generation == buffers[b].generation ==> a == b
  }

  /** Each key is remembered with the cursor of the one event that has it. */
  predicate KeysOk(b: Buffer) {
    (forall i :: 0 <= i < |b.events| && b.events[i].key != "" ==>
      b.events[i].key in b.idempotency && b.idempotency[b.events[i].key] == CursorText(b.generation, i + 1)) &&
    forall key :: key in b.idempotency ==> exists i :: 0 <= i < |b.events| && b.events[i].key == key
  }

  predicate AllKeysOk(buffers: map<string, Buffer>) { forall id :: id in buffers ==> KeysOk(buffers[id]) }

  predicate GenerationsOk(archive: map<string, seq<Entry>>) { forall g :: g in archive ==> NoColon(g) }

  predicate WorldOk(w: World) {
    Archived(w) && Distinct(w.buffers) && AllKeysOk(w.buffers) && GenerationsOk(w.archive)
  }

  /** Generation names are random hexadecimal digits, taken to be new each time. */
  predicate Fresh(w: World, generation: string) { generation !in w.archive && NoColon(generation) }

  /** No generation forgets or changes an event. */
  predicate Grows(before: map<string, seq<Entry>>, after: map<string, seq<Entry>>) {
    forall g :: g in before ==> g in after && before[g] <= after[g]
  }

  predicate Live(w: World, generation: string) {
    exists id :: id in w.buffers && w.buffers[id].generation == generation
  }

  /** What one step may do: known generations only grow, and only while live; a dead one stays dead; a
      stream that keeps its generation keeps its place. */
  predicate Evolves(w: World, v: World) {
    Grows(w.archive, v.archive) &&
    (forall g :: g in w.archive && v.archive[g] != w.archive[g] ==> Live(w, g)) &&
    (forall id :: id in v.buffers && v.buffers[id].generation in w.archive ==>
      id in w.buffers && w.buffers[id].generation == v.buffers[id].generation)
  }

  lemma EnsureKeepsOk(w: World, stream: string, name: string)
    requires WorldOk(w) && Fresh(w, name)
    ensures WorldOk(EnsureBuffer(w, stream, name)) && Evolves(w, EnsureBuffer(w, stream, name))
  {
    hide CursorText;
    if stream !in w.buffers {
      var v := EnsureBuffer(w, stream, name);
      assert Archived(v) && Distinct(v.buffers);
      assert AllKeysOk(v.buffers) && GenerationsOk(v.archive);
    }
  }

  lemma ExtendedKeepsKeys(b: Buffer, e: Entry, now: int)
    requires KeysOk(b) && !Seen(b, e.key)
    ensures KeysOk(Extended(b, e, now))
  {
    hide CursorText;
    var x := Extended(b, e, now);
    forall key | key in x.idempotency ensures exists i :: 0 <= i < |x.events| && x.events[i].key == key {
      if key == e.key {
        assert x.events[|b.events|].key == key;
      } else {
        var i :| 0 <= i < |b.events| && b.events[i].key == key;
        assert x.events[i].key == key;
      }
    }
  }

  lemma AppendNewKeepsOk(w: World, stream: string, e: Entry)
    requires WorldOk(w) && stream in w.buffers && !Seen(w.buffers[stream], e.key)
    ensures WorldOk(AppendNew(w, stream, e)) && Evolves(w, AppendNew(w, stream, e))
  {
    hide CursorText;
    hide KeysOk;
    var b := w.buffers[stream];
    var v := AppendNew(w, stream, e);
    ExtendedKeepsKeys(b, e, w.now);
    assert Live(w, b.generation);
    assert v.archive == w.archive[b.generation := b.events + [e]];
    assert Archived(v) && Distinct(v.buffers) && AllKeysOk(v.buffers) && GenerationsOk(v.archive);
    assert Grows(w.archive, v.archive);
  }

  lemma AppendKeepsOk(w: World, stream: string, e: Entry, name: string)
    requires WorldOk(w) && Fresh(w, name)
    ensures WorldOk(AppendEvent(w, stream, e, name)) && Evolves(w, AppendEvent(w, stream, e, name))
  {
    EnsureKeepsOk(w, stream, name);
    var ensured := EnsureBuffer(w, stream, name);
    if !Seen(ensured.buffers[stream], e.key) { AppendNewKeepsOk(ensured, stream, e); }
  }

  datatype Op =
    | Append(stream: string, entry: Entry, name: string)
    | Open(stream: string, name: string)
    | Close(stream: string)
    | Tick(to: int)

  /** One request to the broker; `name` is the generation it will use if it has to make a buffer. */
  function Apply(w: World, op: Op): World {
    match op
    case Append(stream, e, name) => if Fresh(w, name) then AppendEvent(w, stream, e, name) else w
    case Open(stream, name) => if Fresh(w, name) then EnsureBuffer(w, stream, name) else w
    case Close(stream) => Clear(w, stream)
    case Tick(to) => w.(now := Max(w.now, to))
  }

  lemma ApplyKeepsOk(w: World, op: Op)
    requires WorldOk(w)
    ensures WorldOk(Apply(w, op)) && Evolves(w, Apply(w, op))
  {
    match op
    case Append(stream, e, name) => if Fresh(w, name) { AppendKeepsOk(w, stream, e, name); }
    case Open(stream, name) => if Fresh(w, name) { EnsureKeepsOk(w, stream, name); }
    case Close(stream) =>
    case Tick(to) =>
  }

  function ApplyAll(w: World, ops: seq<Op>): World
    decreases |ops|
  {
    if ops == [] then w else ApplyAll(Apply(w, ops[0]), ops[1..])
  }

  lemma EvolvesTrans(u: World, v: World, w: World)
    requires Evolves(u, v) && Evolves(v, w)
    ensures Evolves(u, w)
  {
    forall g | g in u.archive && w.archive[g] != u.archive[g] ensures Live(u, g) {
      if v.archive[g] == u.archive[g] {
        var id :| id in v.buffers && v.buffers[id].generation == g;
        assert id in u.buffers && u.buffers[id].generation == g;
      }
    }
  }

  lemma {:induction false} ApplyAllKeepsOk(w: World, ops: seq<Op>)
    requires WorldOk(w)
    ensures WorldOk(ApplyAll(w, ops)) && Evolves(w, ApplyAll(w, ops))
    decreases |ops|
  {
    if ops != [] {
      ApplyKeepsOk(w, ops[0]);
      ApplyAllKeepsOk(Apply(w, ops[0]), ops[1..]);
      EvolvesTrans(w, Apply(w, ops[0]), ApplyAll(w, ops));
    }
  }

  /** A cursor is accepted exactly by the stream whose live generation it was made for. */
  lemma AcceptedIffLive(w: World, stream: string, generation: string, position: nat, limit: nat)
    requires WorldOk(w) && generation in w.archive
    ensures ReplayEntries(w, stream, CursorText(generation, position), limit).available <==>
            stream in w.buffers && w.buffers[stream].generation == generation
  {
    if stream in w.buffers { CursorRoundTrip(generation, position, w.buffers[stream].generation); }
  }

  /** Main result: once a generation was cleared or evicted, its cursors are refused for ever, by every
      stream. */
  lemma DeadGenerationsStayRefused(
    w: World, ops: seq<Op>, stream: string, generation: string, position: nat, limit: nat)
    requires WorldOk(w) && generation in w.archive && !Live(w, generation)
    ensures !Live(ApplyAll(w, ops), generation)
    ensures !ReplayEntries(ApplyAll(w, ops), stream, CursorText(generation, position), limit).available
  {
    ApplyAllKeepsOk(w, ops);
    AcceptedIffLive(ApplyAll(w, ops), stream, generation, position, limit);
  }

  /** What a buffer once answered for a key, it answers as long as the generation lives. */
  lemma KeyStays(b: Buffer, c: Buffer, key: string)
    requires KeysOk(b) && KeysOk(c) && b.generation == c.generation && b.events <= c.events && Seen(b, key)
    ensures Seen(c, key) && c.idempotency[key] == b.idempotency[key]
  {
    var i :| 0 <= i < |b.events| && b.events[i].key == key;
    assert c.events[i].key == key;
  }

  lemma AppendIsSeen(w: World, stream: string, e: Entry, name: string)
    requires e.key != "" && stream in AppendEvent(w, stream, e, name).buffers
    ensures var b := AppendEvent(w, stream, e, name).buffers[stream];
            Seen(b, e.key) && b.idempotency[e.key] == AppendCursor(w, stream, e, name)
  {
  }

  /** Main result: while a generation lives, appending again with a key it has seen changes nothing and
      answers with the cursor of the first time, whatever happened in between. */
  lemma RepeatedKeyAddsNothing(w: World, stream: string, e: Entry, name: string, ops: seq<Op>, again: Entry, other: string)
    requires WorldOk(w) && Fresh(w, name) && e.key != "" && again.key == e.key
    requires var first := AppendEvent(w, stream, e, name); var v := ApplyAll(first, ops);
             stream in first.buffers && stream in v.buffers &&
             v.buffers[stream].generation == first.buffers[stream].generation
    ensures var v := ApplyAll(AppendEvent(w, stream, e, name), ops);
            AppendEvent(v, stream, again, other) == v &&
            AppendCursor(v, stream, again, other) == AppendCursor(w, stream, e, name)
  {
    AppendKeepsOk(w, stream, e, name);
    AppendIsSeen(w, stream, e, name);
    SeenStaysSeen(AppendEvent(w, stream, e, name), stream, e.key, ops);
  }

  lemma SeenStaysSeen(w: World, stream: string, key: string, ops: seq<Op>)
    requires WorldOk(w) && stream in w.buffers && Seen(w.buffers[stream], key)
    requires var v := ApplyAll(w, ops);
             stream in v.buffers && v.buffers[stream].generation == w.buffers[stream].generation
    ensures var b := ApplyAll(w, ops).buffers[stream];
            Seen(b, key) && b.idempotency[key] == w.buffers[stream].idempotency[key]
  {
    ApplyAllKeepsOk(w, ops);
    KeyStays(w.buffers[stream], ApplyAll(w, ops).buffers[stream], key);
  }

  /** A reader that always asks again with the last cursor it was given. */
  datatype Reader = Reader(cursor: string, delivered: seq<Delivered>, refused: bool)

  function Poll(w: World, stream: string, r: Reader, limit: nat): Reader {
    var replay := ReplayEntries(w, stream, r.cursor, limit);
    if r.refused then r
    else if !replay.available then r.(refused := true)
    else Reader(replay.cursor, r.delivered + replay.entries, false)
  }

  /** The reader, having started at `from`, holds exactly the events up to its cursor. */
  predicate Follows(w: World, generation: string, from: nat, r: Reader) {
    generation in w.archive && Holds(generation, w.archive[generation], from, r.delivered) &&
    (!r.refused ==> At(r.cursor, generation, from + |r.delivered|))
  }

  lemma {:induction false} NumberedSplits(generation: string, events: seq<Entry>, from: nat, mid: nat, to: nat)
    requires from <= mid <= to <= |events|
    ensures Numbered(generation, events, from, mid) + Numbered(generation, events, mid, to) ==
            Numbered(generation, events, from, to)
  {
    if mid < to { NumberedSplits(generation, events, from, mid, to - 1); }
  }

  lemma {:induction false} NumberedOfPrefix(
    generation: string, less: seq<Entry>, more: seq<Entry>, from: nat, to: nat)
    requires less <= more && from <= to <= |less|
    ensures Numbered(generation, less, from, to) == Numbered(generation, more, from, to)
  {
    if from < to { NumberedOfPrefix(generation, less, more, from, to - 1); }
  }

  predicate Holds(generation: string, events: seq<Entry>, from: nat, delivered: seq<Delivered>) {
    from + |delivered| <= |events| && delivered == Numbered(generation, events, from, from + |delivered|)
  }

  /** The cursor names the position just after these. */
  predicate At(cursor: string, generation: string, position: nat) {
    cursor != "" && ParseCursor(cursor, generation) == Some(position)
  }

  lemma ReplayExtends(b: Buffer, from: nat, delivered: seq<Delivered>, limit: nat)
    requires NoColon(b.generation) && Holds(b.generation, b.events, from, delivered)
    ensures var replay := ReplayFrom(b, from + |delivered|, limit); var more := delivered + replay.entries;
            Holds(b.generation, b.events, from, more) && |more| == Min(|b.events| - from, |delivered| + limit) &&
            At(replay.cursor, b.generation, from + |more|)
  {
    var mid := from + |delivered|;
    var end: nat := Min(|b.events|, mid + limit);
    NumberedSplits(b.generation, b.events, from, mid, end);
    CursorRoundTrip(b.generation, end, "");
  }

  lemma ReplayAt(w: World, stream: string, cursor: string, position: nat, limit: nat)
    requires stream in w.buffers && At(cursor, w.buffers[stream].generation, position)
    requires position <= |w.buffers[stream].events|
    ensures ReplayEntries(w, stream, cursor, limit) == ReplayFrom(w.buffers[stream], position, limit)
  {
  }

  /** A poll of the live generation brings the next events, as many as the limit allows. */
  lemma LivePollFollows(w: World, stream: string, from: nat, r: Reader, limit: nat)
    requires WorldOk(w) && stream in w.buffers && !r.refused && Follows(w, w.buffers[stream].generation, from, r)
    ensures var generation, next := w.buffers[stream].generation, Poll(w, stream, r, limit);
            !next.refused && Follows(w, generation, from, next) &&
            |next.delivered| == Min(|w.archive[generation]| - from, |r.delivered| + limit)
  {
    hide ParseCursor;
    hide CursorText;
    hide Numbered;
    ReplayAt(w, stream, r.cursor, from + |r.delivered|, limit);
    ReplayExtends(w.buffers[stream], from, r.delivered, limit);
  }

  lemma OtherPollIsRefused(w: World, stream: string, generation: string, from: nat, r: Reader, limit: nat)
    requires WorldOk(w) && Follows(w, generation, from, r)
    requires stream !in w.buffers || w.buffers[stream].generation != generation
    ensures Poll(w, stream, r, limit) == r.(refused := true)
  {
    if !r.refused && stream in w.buffers { ForeignCursor(r.cursor, generation, w.buffers[stream].generation); }
  }

  /** A cursor names a position in one generation at most. */
  lemma ForeignCursor(cursor: string, generation: string, other: string)
    requires ParseCursor(cursor, generation).Some? && other != generation
    ensures ParseCursor(cursor, other) == None
  {
  }

  lemma EvolutionKeepsFollowing(w: World, v: World, generation: string, from: nat, r: Reader)
    requires Follows(w, generation, from, r) && Evolves(w, v)
    ensures Follows(v, generation, from, r)
  {
    NumberedOfPrefix(generation, w.archive[generation], v.archive[generation], from, from + |r.delivered|);
  }

  datatype Turn = Work(op: Op) | Ask(limit: nat)

  /** The broker and one reader of a stream, interleaved. */
  function Interleave(w: World, stream: string, r: Reader, turns: seq<Turn>): (World, Reader)
    decreases |turns|
  {
    if turns == [] then (w, r)
    else
      match turns[0]
      case Work(op) => Interleave(Apply(w, op), stream, r, turns[1..])
      case Ask(limit) => Interleave(w, stream, Poll(w, stream, r, limit), turns[1..])
  }

  /** Main result: however appends, clears, evictions and polls interleave, a reader that started at a
      cursor of a generation holds each event of that generation from there up to its own cursor, once
      and in order. */
  lemma {:induction false} ChainedReplayDeliversOnce(
    w: World, stream: string, generation: string, from: nat, r: Reader, turns: seq<Turn>)
    requires WorldOk(w) && Follows(w, generation, from, r)
    ensures Follows(Interleave(w, stream, r, turns).0, generation, from, Interleave(w, stream, r, turns).1)
    decreases |turns|
  {
    if turns != [] {
      match turns[0]
      case Work(op) =>
        ApplyKeepsOk(w, op);
        EvolutionKeepsFollowing(w, Apply(w, op), generation, from, r);
        ChainedReplayDeliversOnce(Apply(w, op), stream, generation, from, r, turns[1..]);
      case Ask(limit) =>
        if stream in w.buffers && w.buffers[stream].generation == generation {
          if !r.refused { LivePollFollows(w, stream, from, r, limit); }
        } else {
          OtherPollIsRefused(w, stream, generation, from, r, limit);
        }
        ChainedReplayDeliversOnce(w, stream, generation, from, Poll(w, stream, r, limit), turns[1..]);
    }
  }
}
