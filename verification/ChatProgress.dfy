/** Where the chat workflow goes and what moves its clock: every end, every turn, every revision. */
module ChatProgress {
  import opened Prelude
  import opened TranscriptPaging
  import opened ChatState

  /** Main result: when the workflow ends: expired at a check with no handler running that is not asked to
      continue as new, 15 days into a run that nobody touched; deleted on waking with a request there;
      crashed by a turn that fails. */
  lemma EndsIff(s: State, e: Event)
    requires !s.phase.Ended?
    ensures Step(s, e).phase == Ended(Expired) <==>
              e.Checked? && s.phase.Checking? && !s.resuming && e.handlersDone && !e.suggested &&
              s.clock.now - s.clock.startedAt >= 15 * 24 * 60 * 60 && !s.clock.touchedThisRun
    ensures Step(s, e).phase == Ended(Deleted) <==> e.Woken? && s.phase.Waiting? && s.deleteRequested
    ensures Step(s, e).phase == Ended(Crashed) <==> e == TurnEnded(Failure) && s.phase.Responding?
  {
    hide RenderedOf;
  }

  /** Main result: when a turn begins: at a check that neither continues as new nor expires, with the first
      of the queue, or in a run that resumes the agent it inherited. */
  lemma TurnBeginsIff(s: State, e: Event)
    requires StateOk(s) && !s.phase.Responding?
    ensures Step(s, e).phase.Responding? <==>
              s.phase.Checking? &&
              (if s.resuming then e.Resumed?
               else e.Checked? && s.backlog.pending != [] && !(e.handlersDone && (e.suggested || Due(s.clock))))
    ensures Step(s, e).phase.Responding? && !s.resuming ==>
              Step(s, e).active == Some(s.backlog.pending[0]) && Step(s, e).backlog.pending == s.backlog.pending[1..]
    ensures Step(s, e).phase.Responding? && s.resuming ==>
              Step(s, e).active == s.active && Step(s, e).backlog == s.backlog && !Step(s, e).resuming
  {
    hide RenderedOf;
    hide StateOk;
  }

  /** How a turn ends: settled, hot or not, or crashed; and nothing stays active. */
  lemma TurnEndsIff(s: State, e: Event)
    requires s.phase.Responding?
    ensures Step(s, e).phase == s.phase <==> !e.TurnEnded?
    ensures e.TurnEnded? ==>
              Step(s, e).active.None? && Step(s, e).backlog == s.backlog &&
              Step(s, e).phase == (match e.end
                                   case Finished(_, hot) => Settling(hot)
                                   case UserFacingError(_) => Settling(false)
                                   case Failure => Ended(Crashed))
  {
    hide RenderedOf;
  }

  /** The wait begins at a check with an empty queue and ends, when woken, as soon as there is a message or
      the time to live is up or a checkpoint is ready. */
  lemma WaitIff(s: State, e: Event)
    requires !s.phase.Ended?
    ensures !s.phase.Waiting? ==>
              (Step(s, e).phase.Waiting? <==>
                 s.phase.Checking? && !s.resuming && e.Checked? && s.backlog.pending == [] &&
                 !(e.handlersDone && (e.suggested || Due(s.clock))))
    ensures s.phase.Waiting? ==>
              (Step(s, e).phase.Checking? <==>
                 e.Woken? && !s.deleteRequested && (s.backlog.pending != [] || e.checkpointReady || Due(s.clock)))
    ensures s.phase.Settling? && e.Settled? ==> Step(s, e).phase.Checking? && (Step(s, e).resuming <==> s.phase.hot || s.resuming)
  {
    hide RenderedOf;
  }

  /** What the next run starts from: the compacted conversation and the queue, with no message active, no
      delete request, and the agent to resume if its turn ended hot. Otherwise only the agent changes the
      conversation. */
  lemma NextRunStartsFrom(s: State, e: Event)
    requires !s.phase.Ended?
    ensures ContinuesAsNew(s, e) ==>
              var t := Step(s, e);
              t.phase.Checking? && (t.resuming <==> e.Settled?) && t.active.None? && !t.deleteRequested &&
              t.backlog == s.backlog && t.context == e.compacted
    ensures !ContinuesAsNew(s, e) ==>
              Step(s, e).context == if e.AgentProgress? && s.phase.Responding? then e.conversation else s.context
    ensures e.Signalled? ==> Step(s, e).phase == s.phase && Step(s, e).active == s.active
  {
    hide RenderedOf;
  }

  /** One undisturbed turn: the check that begins it, its end, and the return to the checks. */
  function Round(at: int): seq<Event> {
    [Checked(false, false, at, []), TurnEnded(Finished(None, false)), Settled(at, [])]
  }

  function Rounds(at: int, n: nat): seq<Event> { if n == 0 then [] else Round(at) + Rounds(at, n - 1) }

  lemma {:induction false} RunsOn(s: State, a: seq<Event>, b: seq<Event>)
    ensures Run(s, a + b) == Run(Run(s, a), b) && Activations(s, a + b) == Activations(s, a) + Activations(Run(s, a), b)
    decreases |a|
  {
    hide Step;
    hide Activated;
    if a == [] {
      assert a + b == b;
    } else {
      assert (a + b)[0] == a[0] && (a + b)[1..] == a[1..] + b;
      RunsOn(Step(s, a[0]), a[1..], b);
    }
  }

  lemma ThreeSteps(s: State, a: Event, b: Event, c: Event)
    ensures var s1, s2, s3 := Step(s, a), Step(Step(s, a), b), Step(Step(Step(s, a), b), c);
            Run(s, [a, b, c]) == s3 &&
            Activations(s, [a, b, c]) == Activated(s, s1) + Activated(s1, s2) + Activated(s2, s3)
  {
    hide Step;
    hide Activated;
    var s1 := Step(s, a);
    assert [a, b, c][1..] == [b, c] && [b, c][1..] == [c] && [c][1..] == [];
    assert Run(s, [a, b, c]) == Run(s1, [b, c]) == Run(Step(s1, b), [c]);
    assert Activations(Step(s1, b), [c]) == Activated(Step(s1, b), Step(Step(s1, b), c));
    assert Activations(s1, [b, c]) == Activated(s1, Step(s1, b)) + Activations(Step(s1, b), [c]);
  }

  predicate AtChecks(s: State) { s.phase.Checking? && !s.resuming }

  lemma RoundTakesFirst(s: State, at: int)
    requires AtChecks(s) && s.backlog.pending != []
    ensures var t := Run(s, Round(at));
            AtChecks(t) && t.backlog.pending == s.backlog.pending[1..] &&
            Activations(s, Round(at)) == [s.backlog.pending[0]]
  {
    hide RenderedOf;
    var a, b, c := Round(at)[0], Round(at)[1], Round(at)[2];
    var s1 := Step(s, a);
    var s2 := Step(s1, b);
    ThreeSteps(s, a, b, c);
    assert s1.phase.Responding? && s1.active == Some(s.backlog.pending[0]);
    assert s2.phase == Settling(false) && s2.backlog == s1.backlog && !s2.resuming;
  }

  /** Main result: if turns end and the runtime asks for nothing else, the queue is worked off, in order,
      a turn for each message. */
  lemma {:induction false} QueueIsWorkedOff(s: State, at: int)
    requires AtChecks(s)
    ensures var events := Rounds(at, |s.backlog.pending|);
            Run(s, events).backlog.pending == [] && AtChecks(Run(s, events)) &&
            Activations(s, events) == s.backlog.pending
    decreases |s.backlog.pending|
  {
    hide Step;
    hide Round;
    if s.backlog.pending != [] {
      var t := Run(s, Round(at));
      RoundTakesFirst(s, at);
      RunsOn(s, Round(at), Rounds(at, |t.backlog.pending|));
      QueueIsWorkedOff(t, at);
      assert s.backlog.pending == [s.backlog.pending[0]] + s.backlog.pending[1..];
    }
  }

  /** Signals by which a user touches the workflow. */
  predicate Touches(e: Event) {
    e.Signalled? && (e.signal.Chat? || e.signal.Steer? || e.signal.Interrupt? || e.signal.ResolveApproval?)
  }

  /** What every event does to the clock. */
  lemma ClockAfter(s: State, e: Event)
    requires StateOk(s) && !s.phase.Ended?
    ensures var c, d := s.clock, Step(s, e).clock;
            d.signalledAt == (if Touches(e) then c.now else c.signalledAt) &&
            (if ContinuesAsNew(s, e) then
               var revived := s.backlog.pending != [] || e.Settled?;
               d.now == d.startedAt == (if c.now > e.startedAt then c.now else e.startedAt) &&
               (d.touchedThisRun <==> revived) && d.touchedAt == if revived then d.now else c.touchedAt
             else
               d.now == (if e.Tick? && e.to > c.now then e.to else c.now) && d.startedAt == c.startedAt &&
               (d.touchedThisRun <==> c.touchedThisRun || Touches(e)) &&
               d.touchedAt == if Touches(e) then c.now else c.touchedAt)
  {
    hide RenderedOf;
    hide BacklogOk;
    hide TranscriptLog.LogOk;
  }

  /** The time of the last touch by a user in a run of events. */
  function LastTouch(s: State, events: seq<Event>, last: int): int
    decreases |events|
  {
    if events == [] then last
    else LastTouch(Step(s, events[0]), events[1..], if Touches(events[0]) && !s.phase.Ended? then s.clock.now else last)
  }

  lemma {:induction false} LastTouchIsKept(s: State, events: seq<Event>)
    requires StateOk(s)
    ensures Run(s, events).clock.signalledAt == LastTouch(s, events, s.clock.signalledAt)
    decreases |events|
  {
    if events != [] {
      StepKeepsOk(s, events[0]);
      if s.phase.Ended? { EndedStepStays(s, events[0]); } else { ClockAfter(s, events[0]); }
      hide Step;
      LastTouchIsKept(Step(s, events[0]), events[1..]);
    }
  }

  /** Main result: a workflow that expired had nothing waiting, and no user had touched it for 15 days. */
  lemma ExpiredLongAfterLastTouch(at: int, events: seq<Event>)
    requires Run(Begin(at), events).phase == Ended(Expired)
    ensures var s := Run(Begin(at), events);
            s.backlog.pending == [] && s.clock.now >= LastTouch(Begin(at), events, at) + 15 * 24 * 60 * 60
  {
    ExpiryOnlyWhenIdle(Begin(at), events);
    LastTouchIsKept(Begin(at), events);
  }

  /** Main result: whatever a client can see of the state changes only under a new state revision, and
      revisions never fall. */
  lemma VisibleChangeRaisesRevision(s: State, e: Event)
    ensures var t := Step(s, e);
            t.stateRevision >= s.stateRevision && t.log.revision >= s.log.revision &&
            (t.backlog.pending != s.backlog.pending || t.active != s.active || t.deleteRequested != s.deleteRequested ||
             (t.phase.Responding? && !s.phase.Responding?) || (s.phase.Responding? && !t.phase.Responding?) ==>
               t.stateRevision > s.stateRevision)
  {
    hide RenderedOf;
    match e
    case Signalled(signal) => SignalRevisions(s, signal);
    case TurnEnded(end) => TurnEndRevisions(s, end);
    case _ =>
  }

  lemma SignalRevisions(s: State, signal: Signal)
    ensures var t := Receive(s, signal);
            t.stateRevision >= s.stateRevision && t.log.revision >= s.log.revision && t.active == s.active && t.phase == s.phase &&
            (t.backlog.pending != s.backlog.pending || t.deleteRequested != s.deleteRequested ==>
               t.stateRevision > s.stateRevision)
  {
    hide RenderedOf;
  }

  lemma TurnEndRevisions(s: State, end: TurnEnd)
    ensures var t := EndTurn(s, end);
            t.stateRevision > s.stateRevision && t.log.revision >= s.log.revision
  {
    hide RenderedOf;
  }

  /** A message laid over a transcript stands at its place, or behind the rest if that is further on; the
      rest is as it was. */
  lemma OverlayShows(t: seq<ChatMessage>, index: nat, m: ChatMessage)
    ensures var o, at := Overlay(t, index, m), if index < |t| then index else |t|;
            at < |o| && o[at] == m && |o| == (if index < |t| then |t| else |t| + 1) &&
            forall i :: 0 <= i < |t| && i != at ==> o[i] == t[i]
  {
  }

  /** With nothing queued, the transcript is the conversation with the active message laid over it. */
  lemma ActiveMessageIsShown(s: State)
    requires s.backlog.pending == []
    ensures s.active.None? ==> RenderedOf(s) == s.context
    ensures s.active.Some? && s.active.value.transcriptIndex >= 0 ==>
              var q, t := s.active.value, RenderedOf(s);
              var at := if q.transcriptIndex < |s.context| then q.transcriptIndex else |s.context|;
              at < |t| && t[at] == ChatMessage(User, q.content, q.attachments)
  {
    if s.active.Some? && s.active.value.transcriptIndex >= 0 {
      OverlayShows(s.context, s.active.value.transcriptIndex, AsChat(s.active.value));
    }
  }
}
