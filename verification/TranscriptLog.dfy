/** The revisioned log of transcript changes, of which a workflow keeps a trimmed buffer. */
module TranscriptLog {
  import opened Prelude
  import opened TranscriptPaging
  import Decimal
  import Utf8

  const BUFFER_LIMIT := 80

  datatype Delta = Delta(revision: nat, index: nat, message: ChatMessage)

  /** `recorded` is every delta of the workflow's whole life and `cutAt` the revision reached before
      the last continue-as-new; the code keeps only the revision and the buffer. */
  datatype Log = Log(revision: nat, deltas: seq<Delta>, recorded: seq<Delta>, cutAt: Option<nat>)

  function Trimmed(deltas: seq<Delta>): seq<Delta> {
    if |deltas| > BUFFER_LIMIT then deltas[|deltas| - BUFFER_LIMIT..] else deltas
  }

  /** Every change takes a new revision; only a change with a place and a message leaves a delta. */
  function Record(log: Log, index: int, message: Option<ChatMessage>): Log {
    var revision := log.revision + 1;
    if index < 0 || message.None? then log.(revision := revision)
    else
      var d := Delta(revision, index, message.value);
      log.(revision := revision, deltas := Trimmed(log.deltas + [d]), recorded := log.recorded + [d])
  }

  /** Continue-as-new skips a revision and leaves the buffer behind. */
  function Cut(log: Log): Log {
    log.(revision := log.revision + 1, deltas := [], cutAt := Some(log.revision))
  }

  const EMPTY := Log(0, [], [], None)

  predicate Increasing(ds: seq<Delta>) {
    forall i, j :: 0 <= i < j < |ds| ==> ds[i].revision < ds[j].revision
  }

  predicate UpTo(ds: seq<Delta>, revision: nat) { forall i :: 0 <= i < |ds| ==> ds[i].revision <= revision }

  predicate After(ds: seq<Delta>, revision: nat) { forall i :: 0 <= i < |ds| ==> ds[i].revision > revision }

  predicate Suffix(ds: seq<Delta>, all: seq<Delta>) {
    |ds| <= |all| && ds == all[|all| - |ds|..]
  }

  /** What the buffer no longer holds. */
  function Gone(log: Log): seq<Delta>
    requires |log.deltas| <= |log.recorded|
  {
    log.recorded[..|log.recorded| - |log.deltas|]
  }

  /** The buffer is the tail of everything recorded, reaches back no further than the last cut, and lacks
      nothing since then unless it is full. */
  predicate LogOk(log: Log) {
    Increasing(log.recorded) && UpTo(log.recorded, log.revision) && Suffix(log.deltas, log.recorded) &&
    |log.deltas| <= BUFFER_LIMIT &&
    (log.cutAt.Some? ==> log.cutAt.value < log.revision && After(log.deltas, log.cutAt.value + 1)) &&
    LacksNothing(log)
  }

  predicate LacksNothing(log: Log)
    requires |log.deltas| <= |log.recorded|
  {
    |log.deltas| < BUFFER_LIMIT ==> if log.cutAt.Some? then UpTo(Gone(log), log.cutAt.value) else Gone(log) == []
  }

  lemma TrimmedSuffix(ds: seq<Delta>, all: seq<Delta>, d: Delta)
    requires Suffix(ds, all)
    ensures Suffix(Trimmed(ds + [d]), all + [d]) && |Trimmed(ds + [d])| <= BUFFER_LIMIT
    ensures |Trimmed(ds + [d])| < BUFFER_LIMIT ==>
              |ds| < BUFFER_LIMIT && (all + [d])[..|all + [d]| - |Trimmed(ds + [d])|] == all[..|all| - |ds|]
  {
    assert ds + [d] == (all + [d])[|all| - |ds|..];
  }

  lemma TrimmedAfter(ds: seq<Delta>, revision: nat)
    requires After(ds, revision)
    ensures After(Trimmed(ds), revision)
  {
  }

  lemma RecordKeepsOk(log: Log, index: int, message: Option<ChatMessage>)
    requires LogOk(log)
    ensures LogOk(Record(log, index, message))
  {
    hide Trimmed;
    hide Increasing;
    hide UpTo;
    if index >= 0 && message.Some? {
      var d := Delta(log.revision + 1, index, message.value);
      TrimmedSuffix(log.deltas, log.recorded, d);
      if log.cutAt.Some? {
        assert After(log.deltas + [d], log.cutAt.value + 1);
        TrimmedAfter(log.deltas + [d], log.cutAt.value + 1);
      }
      StillIncreasing(log.recorded, log.revision, d);
      hide After;
      hide Suffix;
    } else {
      UpToLater(log.recorded, log.revision);
    }
  }

  lemma UpToLater(ds: seq<Delta>, revision: nat)
    requires UpTo(ds, revision)
    ensures UpTo(ds, revision + 1)
  {
  }

  lemma StillIncreasing(ds: seq<Delta>, revision: nat, d: Delta)
    requires Increasing(ds) && UpTo(ds, revision) && d.revision > revision
    ensures Increasing(ds + [d]) && UpTo(ds + [d], d.revision)
  {
  }

  lemma CutKeepsOk(log: Log)
    requires LogOk(log)
    ensures LogOk(Cut(log))
  {
  }

  function DeltaBytes(d: Delta): nat {
    MESSAGE_OVERHEAD + Utf8.ByteLength(Decimal.Print(d.revision)) + Utf8.ByteLength(Decimal.Print(d.index)) +
    MessageBytes(d.message)
  }

  function DeltasBytes(ds: seq<Delta>): nat {
    if ds == [] then BASE_OVERHEAD else DeltaBytes(ds[|ds| - 1]) + DeltasBytes(ds[..|ds| - 1])
  }

  function Later(ds: seq<Delta>, revision: int): seq<Delta> {
    if ds == [] then []
    else Later(ds[..|ds| - 1], revision) + (if ds[|ds| - 1].revision > revision then [ds[|ds| - 1]] else [])
  }

  datatype DeltaResult = DeltaResult(
    fromRevision: nat, toRevision: nat, deltas: seq<Delta>, needsSnapshot: bool, limited: bool,
    byteLimit: int, estimatedBytes: int)

  function Answer(log: Log, after: nat, ds: seq<Delta>, snapshot: bool, limited: bool, bytes: int, limit: int): DeltaResult {
    DeltaResult(after, log.revision, ds, snapshot, limited, limit, Min(bytes, limit))
  }

  function DeltasSince(log: Log, afterRevision: int, maxBytes: int): DeltaResult {
    var after: nat := Max(0, afterRevision);
    var limit := ByteLimit(maxBytes);
    if after >= log.revision then Answer(log, after, [], false, false, BASE_OVERHEAD, limit)
    else if log.deltas == [] || after < log.deltas[0].revision - 1 then
      Answer(log, after, [], true, false, BASE_OVERHEAD, limit)
    else
      var ds := Later(log.deltas, after);
      if DeltasBytes(ds) > limit then Answer(log, after, [], true, true, limit, limit)
      else Answer(log, after, ds, false, false, DeltasBytes(ds), limit)
  }

  lemma {:induction false} LaterConcat(a: seq<Delta>, b: seq<Delta>, revision: int)
    ensures Later(a + b, revision) == Later(a, revision) + Later(b, revision)
  {
    if b == [] {
      assert a + b == a;
    } else {
      var n := |b| - 1;
      assert (a + b)[..|a| + n] == a + b[..n];
      LaterConcat(a, b[..n], revision);
    }
  }

  lemma {:induction false} NoneLater(ds: seq<Delta>, revision: int)
    requires forall i :: 0 <= i < |ds| ==> ds[i].revision <= revision
    ensures Later(ds, revision) == []
  {
    if ds != [] { NoneLater(ds[..|ds| - 1], revision); }
  }

  /** Main result: when no snapshot is asked for, the answer is exactly what was ever recorded after the
      cursor, in order, however much was trimmed or cut, and its bytes are within the limit. */
  lemma DeltasAreComplete(log: Log, afterRevision: int, maxBytes: int)
    requires LogOk(log)
    ensures var r := DeltasSince(log, afterRevision, maxBytes);
            r.fromRevision == Max(0, afterRevision) && r.toRevision == log.revision &&
            (!r.needsSnapshot ==> r.deltas == Later(log.recorded, Max(0, afterRevision)) && Increasing(r.deltas)) &&
            (r.needsSnapshot ==> r.deltas == []) && r.estimatedBytes <= r.byteLimit == ByteLimit(maxBytes) &&
            (!r.needsSnapshot ==> DeltasBytes(r.deltas) == r.estimatedBytes && TextBytes(r.deltas) <= ByteLimit(maxBytes))
  {
    hide Later;
    assert DeltasBytes([]) == BASE_OVERHEAD;
    hide DeltasBytes;
    var after: nat := Max(0, afterRevision);
    if after >= log.revision {
      NoneLater(log.recorded, after);
    } else if Reaches(log, after) {
      ReachingIsEnough(log, after);
    }
    LaterIsIncreasing(log.recorded, after);
    TextCostsItsBytes(DeltasSince(log, afterRevision, maxBytes).deltas);
  }

  /** UTF-8 bytes of the texts alone. */
  function TextBytes(ds: seq<Delta>): nat {
    if ds == [] then 0 else Utf8.ByteLength(ds[|ds| - 1].message.content) + TextBytes(ds[..|ds| - 1])
  }

  lemma {:induction false} TextCostsItsBytes(ds: seq<Delta>)
    ensures TextBytes(ds) <= DeltasBytes(ds)
  {
    if ds != [] { TextCostsItsBytes(ds[..|ds| - 1]); }
  }

  lemma {:induction false} LaterIsIncreasing(ds: seq<Delta>, revision: int)
    requires Increasing(ds)
    ensures Increasing(Later(ds, revision))
    ensures forall d :: d in Later(ds, revision) ==> d in ds && d.revision > revision
  {
    if ds != [] {
      var init := ds[..|ds| - 1];
      LaterIsIncreasing(init, revision);
      forall d | d in Later(init, revision) ensures d.revision < ds[|ds| - 1].revision {
        var i :| 0 <= i < |init| && init[i] == d;
      }
    }
  }

  /** The buffer goes back to the first change after the cursor. */
  predicate Reaches(log: Log, after: nat) { log.deltas != [] && log.deltas[0].revision <= after + 1 }

  /** Main result: a snapshot is asked for exactly when there is something new and either the buffer no
      longer reaches back to the cursor, or what was recorded since is too big. */
  lemma SnapshotIff(log: Log, afterRevision: int, maxBytes: int)
    requires LogOk(log)
    ensures var after: nat := if afterRevision < 0 then 0 else afterRevision;
            var r := DeltasSince(log, afterRevision, maxBytes);
            (r.needsSnapshot <==>
               after < log.revision &&
               (!Reaches(log, after) || DeltasBytes(Later(log.recorded, after)) > ByteLimit(maxBytes))) &&
            (r.limited <==> r.needsSnapshot && Reaches(log, after))
  {
    hide Later;
    hide DeltasBytes;
    var after: nat := Max(0, afterRevision);
    if after < log.revision && Reaches(log, after) { ReachingIsEnough(log, after); }
  }

  /** If the buffer reaches back to the cursor, it holds everything recorded since. */
  lemma ReachingIsEnough(log: Log, after: nat)
    requires LogOk(log) && Reaches(log, after)
    ensures Later(log.deltas, after) == Later(log.recorded, after)
  {
    hide Later;
    var n := |log.recorded| - |log.deltas|;
    assert log.recorded == log.recorded[..n] + log.deltas;
    assert log.recorded[n] == log.deltas[0];
    LaterConcat(log.recorded[..n], log.deltas, after);
    NoneLater(log.recorded[..n], after);
  }

  /** A buffer that held something goes on reaching back to where it was, through fewer than eighty new
      deltas and no cut. */
  lemma StillReaches(log: Log, later: Log, added: seq<(nat, ChatMessage)>)
    requires LogOk(log) && LogOk(later) && Grew(log, later, added) && later.cutAt == log.cutAt
    requires log.deltas != [] && |added| < BUFFER_LIMIT
    ensures Reaches(later, log.revision)
  {
    var n, m := |log.recorded|, |later.recorded| - |later.deltas|;
    PositionsLength(later.recorded[n..]);
    var i := n - |log.deltas|;
    assert later.recorded[i] == log.deltas[0];
    if |later.deltas| < BUFFER_LIMIT && later.cutAt.Some? {
      assert i < m ==> Gone(later)[i] == log.deltas[0];
    }
    assert m < n;
    assert later.deltas[0] == later.recorded[m] == log.recorded[m];
  }

  lemma {:induction false} PositionsLength(ds: seq<Delta>)
    ensures |Positions(ds)| == |ds|
  {
    if ds != [] { PositionsLength(ds[..|ds| - 1]); }
  }

  /** A cursor from before a continue-as-new is always told to take a snapshot. */
  lemma OldCursorsNeedSnapshot(log: Log, afterRevision: int, maxBytes: int)
    requires LogOk(log) && log.cutAt.Some? && afterRevision <= log.cutAt.value
    ensures DeltasSince(log, afterRevision, maxBytes).needsSnapshot
  {
  }

  /** The places and messages of deltas. */
  function Positions(ds: seq<Delta>): seq<(nat, ChatMessage)> {
    if ds == [] then [] else Positions(ds[..|ds| - 1]) + [(ds[|ds| - 1].index, ds[|ds| - 1].message)]
  }

  /** From one log to a later one: nothing recorded is lost or changed, and what was added, under later
      revisions, are exactly these places and messages. */
  ghost predicate Grew(log: Log, later: Log, added: seq<(nat, ChatMessage)>) {
    log.revision <= later.revision && log.recorded <= later.recorded &&
    After(later.recorded[|log.recorded|..], log.revision) &&
    Positions(later.recorded[|log.recorded|..]) == added
  }

  lemma RecordGrows(log: Log, index: int, message: Option<ChatMessage>)
    ensures Grew(log, Record(log, index, message), if index < 0 || message.None? then [] else [(index, message.value)])
  {
    var n := |log.recorded|;
    assert log.recorded[n..] == [];
    if index >= 0 && message.Some? {
      var d := Delta(log.revision + 1, index, message.value);
      assert (log.recorded + [d])[n..] == [d] && [d][..0] == [];
    }
  }

  lemma CutGrows(log: Log)
    ensures Grew(log, Cut(log), [])
  {
    assert log.recorded[|log.recorded|..] == [];
  }

  lemma StillGrows(log: Log)
    ensures Grew(log, log, [])
  {
    assert log.recorded[|log.recorded|..] == [];
  }

  lemma {:induction false} PositionsConcat(a: seq<Delta>, b: seq<Delta>)
    ensures Positions(a + b) == Positions(a) + Positions(b)
  {
    if b == [] {
      assert a + b == a;
    } else {
      var n := |b| - 1;
      assert (a + b)[..|a| + n] == a + b[..n];
      PositionsConcat(a, b[..n]);
    }
  }

  lemma GrewTrans(a: Log, b: Log, c: Log, first: seq<(nat, ChatMessage)>, second: seq<(nat, ChatMessage)>)
    requires Grew(a, b, first) && Grew(b, c, second)
    ensures Grew(a, c, first + second)
  {
    var x, y := b.recorded[|a.recorded|..], c.recorded[|b.recorded|..];
    assert c.recorded[|a.recorded|..] == x + y;
    PositionsConcat(x, y);
  }

  lemma {:induction false} AllLater(ds: seq<Delta>, revision: int)
    requires forall i :: 0 <= i < |ds| ==> ds[i].revision > revision
    ensures Later(ds, revision) == ds
  {
    if ds != [] { AllLater(ds[..|ds| - 1], revision); }
  }

  /** A client that had seen a log and asks a later one without being sent to a snapshot gets exactly
      what was added in between. */
  lemma ClientCatchesUp(log: Log, later: Log, added: seq<(nat, ChatMessage)>, maxBytes: int)
    requires LogOk(log) && LogOk(later) && Grew(log, later, added)
    requires !DeltasSince(later, log.revision, maxBytes).needsSnapshot
    ensures Positions(DeltasSince(later, log.revision, maxBytes).deltas) == added
  {
    hide DeltasSince;
    hide Later;
    DeltasAreComplete(later, log.revision, maxBytes);
    LaterIsAdded(log, later, added);
  }

  /** If nothing was cut since and the buffer still reaches back, a client is sent to a snapshot exactly if
      what was added since is too big for one answer. */
  lemma NoSnapshotIff(log: Log, later: Log, added: seq<(nat, ChatMessage)>, maxBytes: int)
    requires LogOk(log) && LogOk(later) && Grew(log, later, added) && later.cutAt == log.cutAt
    requires Reaches(later, log.revision) || (log.deltas != [] && |added| < BUFFER_LIMIT)
    ensures DeltasSince(later, log.revision, maxBytes).needsSnapshot <==>
            log.revision < later.revision && DeltasBytes(later.recorded[|log.recorded|..]) > ByteLimit(maxBytes)
  {
    hide DeltasSince;
    hide Later;
    hide DeltasBytes;
    if log.deltas != [] && |added| < BUFFER_LIMIT { StillReaches(log, later, added); }
    SnapshotIff(later, log.revision, maxBytes);
    LaterIsAdded(log, later, added);
  }

  lemma LaterIsAdded(log: Log, later: Log, added: seq<(nat, ChatMessage)>)
    requires LogOk(log) && LogOk(later) && Grew(log, later, added)
    ensures Later(later.recorded, log.revision) == later.recorded[|log.recorded|..]
  {
    hide Later;
    var n := |log.recorded|;
    assert later.recorded == log.recorded + later.recorded[n..];
    LaterConcat(log.recorded, later.recorded[n..], log.revision);
    NoneLater(log.recorded, log.revision);
    AllLater(later.recorded[n..], log.revision);
    assert [] + later.recorded[n..] == later.recorded[n..];
  }
}
