/** The chat workflow as a state machine: queue, clock, transcript log, continue-as-new. */
module ChatState {
  import opened Prelude
  import opened Attachments
  import opened TranscriptPaging
  import TranscriptLog

  /** 15 days, in seconds. */
  const RUN_TTL := 1_296_000

  datatype Queued = Queued(
    content: string, transcriptIndex: int, attachments: seq<AttachmentRef>, settleAfterRevision: int)

  /** The queue, with everything ever accepted into it and ever activated from it. */
  datatype Backlog = Backlog(pending: seq<Queued>, accepted: seq<Queued>, activated: seq<Queued>)

  /** The workflow's clock; `signalledAt` is when a user last signalled it. */
  datatype Clock = Clock(now: int, startedAt: int, touchedAt: int, touchedThisRun: bool, signalledAt: int)

  datatype EndReason = Expired | Deleted | Crashed

  /** Where the main loop is: before its checks, waiting, in an agent turn, telling that the turn
      settled (and whether it will continue as new with the agent's hot state), or over. */
  datatype Phase = Checking | Waiting | Responding | Settling(hot: bool) | Ended(reason: EndReason)

  datatype State = State(
    phase: Phase,
    resuming: bool,
    context: seq<ChatMessage>,
    active: Option<Queued>,
    stateRevision: nat,
    deleteRequested: bool,
    backlog: Backlog,
    clock: Clock,
    log: TranscriptLog.Log
  )

  function Overlay(t: seq<ChatMessage>, index: int, m: ChatMessage): seq<ChatMessage> {
    if index < 0 then t else if index < |t| then t[index := m] else t + [m]
  }

  function AsChat(q: Queued): ChatMessage { ChatMessage(User, q.content, q.attachments) }

  function OverlayAll(t: seq<ChatMessage>, queue: seq<Queued>): seq<ChatMessage>
    decreases |queue|
  {
    if queue == [] then t
    else OverlayAll(Overlay(t, queue[0].transcriptIndex, AsChat(queue[0])), queue[1..])
  }

  /** The agent's conversation with the active and the queued messages laid over it. */
  function Rendered(context: seq<ChatMessage>, active: Option<Queued>, pending: seq<Queued>): seq<ChatMessage> {
    OverlayAll(if active.None? then context
               else Overlay(context, active.value.transcriptIndex, AsChat(active.value)), pending)
  }

  function RenderedOf(s: State): seq<ChatMessage> { Rendered(s.context, s.active, s.backlog.pending) }

  function Touched(c: Clock): Clock { c.(touchedAt := c.now, touchedThisRun := true, signalledAt := c.now) }

  function Touch(s: State): State { s.(clock := Touched(s.clock)) }

  function StateChange(s: State): State { s.(stateRevision := s.stateRevision + 1) }

  function RecordChange(s: State, index: int, message: Option<ChatMessage>): State {
    s.(log := TranscriptLog.Record(s.log, index, message))
  }

  function RecordSystem(s: State, text: string): State {
    RecordChange(s, |RenderedOf(s)|, Some(ChatMessage(System, text, [])))
  }

  function RecordLatest(s: State): State {
    var t := RenderedOf(s);
    if t == [] then RecordChange(s, -1, None) else RecordChange(s, |t| - 1, Some(t[|t| - 1]))
  }

  function Accept(b: Backlog, q: Queued): Backlog {
    b.(pending := b.pending + [q], accepted := b.accepted + [q])
  }

  function ActivateNext(b: Backlog): Backlog
    requires b.pending != []
  {
    b.(pending := b.pending[1..], activated := b.activated + [b.pending[0]])
  }

  function NewQueued(s: State, content: string, attachments: seq<AttachmentRef>, settleAfter: int): Queued {
    Queued(content, |RenderedOf(s)|, attachments, Max(0, settleAfter))
  }

  function Enqueue(s: State, content: string, attachments: seq<AttachmentRef>, settleAfter: int): State {
    var q := NewQueued(s, content, attachments, settleAfter);
    StateChange(RecordChange(s.(backlog := Accept(s.backlog, q)), q.transcriptIndex, Some(AsChat(q))))
  }

  /** Signals. A `notice` is the text of the system message a signal leaves. */
  datatype Signal =
    | Chat(message: string, attachments: seq<AttachmentRef>, settleAfter: int)
    | Steer(message: string, attachments: seq<AttachmentRef>, notice: string)
    | Interrupt(message: string, notice: string)
    | ResolveApproval(complaint: Option<string>, delegated: bool)
    | ChildApproval(changed: bool)
    | Delete

  function Receive(s: State, signal: Signal): State {
    match signal
    case Chat(message, attachments, settleAfter) => Enqueue(Touch(s), message, attachments, settleAfter)
    case Steer(message, attachments, notice) =>
      if attachments != [] then Enqueue(Touch(s), message, attachments, 0) else RecordSystem(Touch(s), notice)
    case Interrupt(message, notice) =>
      if s.phase != Responding then Enqueue(Touch(s), message, [], 0) else RecordSystem(Touch(s), notice)
    case ResolveApproval(complaint, delegated) =>
      if complaint.Some? then RecordSystem(Touch(s), complaint.value)
      else if delegated then StateChange(Touch(s))
      else Touch(s)
    case ChildApproval(changed) => if changed then StateChange(s) else s
    case Delete => StateChange(s.(deleteRequested := true))
  }

  /** The next run starts now or later; a queue or a hot agent counts as a touch. */
  function NextClock(c: Clock, startedAt: int, revived: bool): Clock {
    var t := Max(c.now, startedAt);
    Clock(t, t, if revived then t else c.touchedAt, revived || c.touchedAt > t, c.signalledAt)
  }

  function WithoutDeltas(s: State): State { s.(log := TranscriptLog.Cut(s.log)) }

  function Reclocked(s: State, startedAt: int, revived: bool): State {
    s.(clock := NextClock(s.clock, startedAt, revived))
  }

  function Fresh(s: State, hot: bool, context: seq<ChatMessage>): State {
    s.(phase := Checking, resuming := hot, context := context, active := None, deleteRequested := false)
  }

  /** Continue-as-new and the restore of the next run, which starts with the compacted context. Deltas
      and the delete request stay behind; the queue and the last touch move on. */
  function NextRun(s: State, hot: bool, startedAt: int, context: seq<ChatMessage>): State {
    StateChange(Fresh(Reclocked(WithoutDeltas(s), startedAt, s.backlog.pending != [] || hot), hot, context))
  }

  function Activate(s: State): State
    requires s.backlog.pending != []
  {
    StateChange(s.(phase := Responding, active := Some(s.backlog.pending[0]), backlog := ActivateNext(s.backlog)))
  }

  predicate Due(c: Clock) { c.now >= c.startedAt + RUN_TTL }

  /** The checks before waiting. `handlersDone` and `suggested` are the runtime's to say. */
  function Check(s: State, handlersDone: bool, suggested: bool, startedAt: int, context: seq<ChatMessage>): State {
    if handlersDone && suggested then NextRun(s, false, startedAt, context)
    else if handlersDone && Due(s.clock) then
      if s.clock.touchedThisRun then NextRun(s, false, startedAt, context) else s.(phase := Ended(Expired))
    else if s.backlog.pending != [] then Activate(s)
    else s.(phase := Waiting)
  }

  /** Waking from the wait, which ends when something is due. */
  function Wake(s: State, checkpointReady: bool): State {
    if s.deleteRequested then s.(phase := Ended(Deleted))
    else if s.backlog.pending != [] || checkpointReady || Due(s.clock) then s.(phase := Checking)
    else s
  }

  datatype TurnEnd =
    | Finished(effectivePrompt: Option<string>, hot: bool)
    | UserFacingError(text: string)
    | Failure

  function ClearActive(s: State, next: Phase): State { StateChange(s.(active := None, phase := next)) }

  /** A guard may have rewritten the prompt of the active message. */
  function RecordPrompt(s: State, prompt: Option<string>): State {
    if prompt.None? || s.active.None? then s
    else
      var q := s.active.value;
      RecordChange(s, q.transcriptIndex, Some(ChatMessage(User, prompt.value, q.attachments)))
  }

  function EndTurn(s: State, end: TurnEnd): State {
    match end
    case Finished(prompt, hot) => ClearActive(RecordLatest(RecordPrompt(s, prompt)), Settling(hot))
    case UserFacingError(text) => ClearActive(RecordSystem(s, text), Settling(false))
    case Failure => ClearActive(s, Ended(Crashed))
  }

  /** Everything that can happen next. */
  datatype Event =
    | Signalled(signal: Signal)
    | Tick(to: int)
    | Checked(handlersDone: bool, suggested: bool, startedAt: int, compacted: seq<ChatMessage>)
    | Resumed
    | Woken(checkpointReady: bool)
    | AgentProgress(conversation: seq<ChatMessage>)
    | TurnEnded(end: TurnEnd)
    | Settled(startedAt: int, compacted: seq<ChatMessage>)

  function Resume(s: State): State { StateChange(s.(phase := Responding, resuming := false)) }

  function Settle(s: State, startedAt: int, context: seq<ChatMessage>): State
    requires s.phase.Settling?
  {
    if s.phase.hot then NextRun(s, true, startedAt, context) else s.(phase := Checking)
  }

  function TickTo(s: State, to: int): State { s.(clock := s.clock.(now := Max(s.clock.now, to))) }

  /** One step; an event that is not possible where the loop is changes nothing. */
  function Step(s: State, e: Event): State {
    if s.phase.Ended? then s
    else
      match e
      case Signalled(signal) => Receive(s, signal)
      case Tick(to) => TickTo(s, to)
      case Checked(handlersDone, suggested, startedAt, compacted) =>
        if s.phase.Checking? && !s.resuming then Check(s, handlersDone, suggested, startedAt, compacted) else s
      case Resumed => if s.phase.Checking? && s.resuming then Resume(s) else s
      case Woken(ready) => if s.phase.Waiting? then Wake(s, ready) else s
      case AgentProgress(conversation) => if s.phase.Responding? then s.(context := conversation) else s
      case TurnEnded(end) => if s.phase.Responding? then EndTurn(s, end) else s
      case Settled(startedAt, compacted) => if s.phase.Settling? then Settle(s, startedAt, compacted) else s
  }

  function Run(s: State, events: seq<Event>): State
    decreases |events|
  {
    if events == [] then s else Run(Step(s, events[0]), events[1..])
  }

  /** A new workflow: nothing queued, nothing recorded, touched by its start. */
  function Begin(at: int): State {
    State(Checking, false, [], None, 1, false, Backlog([], [], []), Clock(at, at, at, true, at),
          TranscriptLog.EMPTY)
  }

  /** What waits is what was accepted and not yet activated. */
  predicate BacklogOk(b: Backlog) { b.accepted == b.activated + b.pending }

  /** A queue is never left in a run that counts as untouched, and touches are not in the future. */
  predicate ClockOk(c: Clock, pending: seq<Queued>) {
    c.signalledAt <= c.touchedAt <= c.now && c.startedAt <= c.now &&
    (pending != [] ==> c.touchedThisRun) &&
    (!c.touchedThisRun ==> c.touchedAt <= c.startedAt)
  }

  predicate StateOk(s: State) {
    BacklogOk(s.backlog) && ClockOk(s.clock, s.backlog.pending) && TranscriptLog.LogOk(s.log)
  }

  lemma AcceptKeepsOk(b: Backlog, q: Queued)
    requires BacklogOk(b)
    ensures BacklogOk(Accept(b, q))
  {
    assert (b.activated + b.pending) + [q] == b.activated + (b.pending + [q]);
  }

  lemma ActivateKeepsOk(b: Backlog)
    requires BacklogOk(b) && b.pending != []
    ensures BacklogOk(ActivateNext(b))
  {
    assert b.activated + b.pending == (b.activated + [b.pending[0]]) + b.pending[1..];
  }

  lemma RecordKeepsOk(s: State, index: int, message: Option<ChatMessage>)
    requires StateOk(s)
    ensures StateOk(RecordChange(s, index, message))
  {
    TranscriptLog.RecordKeepsOk(s.log, index, message);
  }

  lemma RecordSystemKeepsOk(s: State, text: string)
    requires StateOk(s)
    ensures StateOk(RecordSystem(s, text))
  {
    RecordKeepsOk(s, |RenderedOf(s)|, Some(ChatMessage(System, text, [])));
  }

  lemma EnqueueKeepsOk(s: State, content: string, attachments: seq<AttachmentRef>, settleAfter: int)
    requires StateOk(s) && s.clock.touchedThisRun
    ensures StateOk(Enqueue(s, content, attachments, settleAfter))
  {
    var q := NewQueued(s, content, attachments, settleAfter);
    AcceptKeepsOk(s.backlog, q);
    RecordKeepsOk(s.(backlog := Accept(s.backlog, q)), q.transcriptIndex, Some(AsChat(q)));
  }

  lemma ReceiveKeepsOk(s: State, signal: Signal)
    requires StateOk(s)
    ensures StateOk(Receive(s, signal))
  {
    var t := Touch(s);
    assert StateOk(t);
    match signal
    case Chat(message, attachments, settleAfter) =>
      EnqueueKeepsOk(t, message, attachments, settleAfter);
    case Steer(message, attachments, notice) =>
      EnqueueKeepsOk(t, message, attachments, 0);
      RecordSystemKeepsOk(t, notice);
    case Interrupt(message, notice) =>
      EnqueueKeepsOk(t, message, [], 0);
      RecordSystemKeepsOk(t, notice);
    case ResolveApproval(complaint, delegated) =>
      if complaint.Some? { RecordSystemKeepsOk(t, complaint.value); }
    case ChildApproval(changed) =>
    case Delete =>
  }

  lemma NextRunKeepsOk(s: State, hot: bool, startedAt: int, context: seq<ChatMessage>)
    requires StateOk(s)
    ensures StateOk(NextRun(s, hot, startedAt, context))
  {
    TranscriptLog.CutKeepsOk(s.log);
  }

  lemma CheckKeepsOk(s: State, handlersDone: bool, suggested: bool, startedAt: int, context: seq<ChatMessage>)
    requires StateOk(s)
    ensures StateOk(Check(s, handlersDone, suggested, startedAt, context))
  {
    NextRunKeepsOk(s, false, startedAt, context);
    if s.backlog.pending != [] { ActivateKeepsOk(s.backlog); }
  }

  lemma EndTurnKeepsOk(s: State, end: TurnEnd)
    requires StateOk(s)
    ensures StateOk(EndTurn(s, end))
  {
    match end
    case Finished(prompt, hot) =>
      if prompt.Some? && s.active.Some? {
        var q := s.active.value;
        RecordKeepsOk(s, q.transcriptIndex, Some(ChatMessage(User, prompt.value, q.attachments)));
      }
      RecordLatestKeepsOk(RecordPrompt(s, prompt));
    case UserFacingError(text) =>
      RecordSystemKeepsOk(s, text);
    case Failure =>
  }

  lemma RecordLatestKeepsOk(s: State)
    requires StateOk(s)
    ensures StateOk(RecordLatest(s))
  {
    var t := RenderedOf(s);
    RecordKeepsOk(s, -1, None);
    if t != [] { RecordKeepsOk(s, |t| - 1, Some(t[|t| - 1])); }
  }

  lemma StepKeepsOk(s: State, e: Event)
    requires StateOk(s)
    ensures StateOk(Step(s, e))
  {
    match e
    case Signalled(signal) => ReceiveKeepsOk(s, signal);
    case Checked(handlersDone, suggested, startedAt, compacted) =>
      CheckKeepsOk(s, handlersDone, suggested, startedAt, compacted);
    case TurnEnded(end) => EndTurnKeepsOk(s, end);
    case Settled(startedAt, compacted) => NextRunKeepsOk(s, true, startedAt, compacted);
    case _ =>
  }

  lemma {:induction false} RunKeepsOk(s: State, events: seq<Event>)
    requires StateOk(s)
    ensures StateOk(Run(s, events))
    decreases |events|
  {
    if events != [] {
      StepKeepsOk(s, events[0]);
      RunKeepsOk(Step(s, events[0]), events[1..]);
    }
  }

  /** What a user sent: text and attachments. */
  type Arrival = (string, seq<AttachmentRef>)

  function Contents(queue: seq<Queued>): seq<Arrival> {
    if queue == [] then []
    else Contents(queue[..|queue| - 1]) + [(queue[|queue| - 1].content, queue[|queue| - 1].attachments)]
  }

  /** The chat message an event brings, if any: a chat signal's, a steering signal's with attachments, or
      an interrupt's outside a turn. */
  function Arrives(s: State, e: Event): seq<Arrival> {
    if s.phase.Ended? || !e.Signalled? then []
    else
      match e.signal
      case Chat(message, attachments, _) => [(message, attachments)]
      case Steer(message, attachments, _) => if attachments != [] then [(message, attachments)] else []
      case Interrupt(message, _) => if s.phase != Responding then [(message, [])] else []
      case ResolveApproval(_, _) => []
      case ChildApproval(_) => []
      case Delete => []
  }

  function Arrivals(s: State, events: seq<Event>): seq<Arrival>
    decreases |events|
  {
    if events == [] then [] else Arrives(s, events[0]) + Arrivals(Step(s, events[0]), events[1..])
  }

  /** The message that an event makes the active one, seen from the states before and after. */
  function Activated(s: State, after: State): seq<Queued> {
    if s.phase.Checking? && !s.resuming && after.phase.Responding? && after.active.Some? then [after.active.value] else []
  }

  function Activations(s: State, events: seq<Event>): seq<Queued>
    decreases |events|
  {
    if events == [] then []
    else Activated(s, Step(s, events[0])) + Activations(Step(s, events[0]), events[1..])
  }

  lemma ContentsOfOne(queue: seq<Queued>, q: Queued)
    ensures Contents(queue + [q]) == Contents(queue) + [(q.content, q.attachments)]
  {
    assert (queue + [q])[..|queue|] == queue;
  }

  lemma EnqueueAccepts(s: State, content: string, attachments: seq<AttachmentRef>, settleAfter: int)
    ensures Contents(Enqueue(s, content, attachments, settleAfter).backlog.accepted) ==
            Contents(s.backlog.accepted) + [(content, attachments)]
  {
    hide Contents;
    hide RenderedOf;
    ContentsOfOne(s.backlog.accepted, NewQueued(s, content, attachments, settleAfter));
  }

  lemma ReceiveAccepts(s: State, signal: Signal)
    requires !s.phase.Ended?
    ensures Contents(Receive(s, signal).backlog.accepted) ==
            Contents(s.backlog.accepted) + Arrives(s, Signalled(signal))
  {
    hide Contents;
    hide Enqueue;
    hide RenderedOf;
    match signal
    case Chat(message, attachments, settleAfter) => EnqueueAccepts(Touch(s), message, attachments, settleAfter);
    case Steer(message, attachments, notice) => EnqueueAccepts(Touch(s), message, attachments, 0);
    case Interrupt(message, notice) => EnqueueAccepts(Touch(s), message, [], 0);
    case _ =>
  }

  lemma OthersAcceptNothing(s: State, e: Event)
    requires !e.Signalled?
    ensures Step(s, e).backlog.accepted == s.backlog.accepted
  {
    hide RenderedOf;
  }

  /** Every message that arrives is accepted, and nothing else is. */
  lemma StepAccepts(s: State, e: Event)
    ensures Contents(Step(s, e).backlog.accepted) == Contents(s.backlog.accepted) + Arrives(s, e)
  {
    hide Contents;
    hide Receive;
    if s.phase.Ended? {
      EndedStepStays(s, e);
    } else if e.Signalled? {
      ReceiveAccepts(s, e.signal);
    } else {
      OthersAcceptNothing(s, e);
    }
  }

  lemma EndedStepStays(s: State, e: Event)
    requires s.phase.Ended?
    ensures Step(s, e) == s && Arrives(s, e) == []
  {
  }

  /** What is activated is what becomes the active message, and nothing is taken back. */
  lemma StepActivates(s: State, e: Event)
    ensures Step(s, e).backlog.activated == s.backlog.activated + Activated(s, Step(s, e))
  {
    hide RenderedOf;
    hide Receive;
    hide EndTurn;
    hide NextClock;
    match e
    case Signalled(signal) => ReceiveActivatesNothing(s, signal);
    case TurnEnded(end) => EndTurnActivatesNothing(s, end);
    case _ =>
  }

  lemma ReceiveActivatesNothing(s: State, signal: Signal)
    ensures Receive(s, signal).backlog.activated == s.backlog.activated && Receive(s, signal).phase == s.phase
  {
    hide RenderedOf;
  }

  lemma EndTurnActivatesNothing(s: State, end: TurnEnd)
    ensures EndTurn(s, end).backlog == s.backlog && !EndTurn(s, end).phase.Responding?
  {
    hide RenderedOf;
  }

  lemma {:induction false} RunAccepts(s: State, events: seq<Event>)
    ensures Contents(Run(s, events).backlog.accepted) == Contents(s.backlog.accepted) + Arrivals(s, events)
    decreases |events|
  {
    hide Step;
    hide Contents;
    hide Arrives;
    if events != [] {
      var next := Step(s, events[0]);
      StepAccepts(s, events[0]);
      RunAccepts(next, events[1..]);
      assert Contents(s.backlog.accepted) + Arrives(s, events[0]) + Arrivals(next, events[1..]) ==
             Contents(s.backlog.accepted) + (Arrives(s, events[0]) + Arrivals(next, events[1..]));
    }
  }

  lemma {:induction false} RunActivates(s: State, events: seq<Event>)
    ensures Run(s, events).backlog.activated == s.backlog.activated + Activations(s, events)
    decreases |events|
  {
    hide Step;
    hide Activated;
    if events != [] {
      StepActivates(s, events[0]);
      RunActivates(Step(s, events[0]), events[1..]);
    }
  }

  /** Main result: whatever signals, turns and continue-as-new cycles come in whatever order, the messages
      that became active, in that order, followed by those that wait, are exactly the messages that
      arrived, in order of arrival. */
  lemma EveryMessageActivatedOnceOrPending(at: int, events: seq<Event>)
    ensures Contents(Activations(Begin(at), events) + Run(Begin(at), events).backlog.pending) ==
            Arrivals(Begin(at), events)
  {
    hide Run;
    var t := Run(Begin(at), events);
    RunKeepsOk(Begin(at), events);
    RunAccepts(Begin(at), events);
    RunActivates(Begin(at), events);
    assert t.backlog.activated == Activations(Begin(at), events);
    assert Contents(t.backlog.accepted) == Contents([]) + Arrivals(Begin(at), events);
    assert Contents([]) == [];
  }

  lemma {:induction false} OverlayLast(t: seq<ChatMessage>, queue: seq<Queued>, q: Queued)
    ensures OverlayAll(t, queue + [q]) == Overlay(OverlayAll(t, queue), q.transcriptIndex, AsChat(q))
    decreases |queue|
  {
    if queue != [] {
      assert (queue + [q])[1..] == queue[1..] + [q];
      OverlayLast(Overlay(t, queue[0].transcriptIndex, AsChat(queue[0])), queue[1..], q);
    }
  }

  /** An accepted message shows at the end of the transcript, where its delta says. */
  lemma AcceptedMessageIsShown(s: State, content: string, attachments: seq<AttachmentRef>, settleAfter: int)
    ensures RenderedOf(Enqueue(s, content, attachments, settleAfter)) ==
            RenderedOf(s) + [ChatMessage(User, content, attachments)]
  {
    var shown := if s.active.None? then s.context
                 else Overlay(s.context, s.active.value.transcriptIndex, AsChat(s.active.value));
    OverlayLast(shown, s.backlog.pending, NewQueued(s, content, attachments, settleAfter));
  }

  /** Nothing waits, and the last touch of any kind is at least the full time to live ago. */
  predicate Idled(s: State) {
    s.backlog.pending == [] && s.clock.now >= s.clock.touchedAt + RUN_TTL &&
    s.clock.now >= s.clock.signalledAt + RUN_TTL
  }

  lemma ExpiryStep(s: State, e: Event)
    requires StateOk(s) && !s.phase.Ended? && Step(s, e).phase == Ended(Expired)
    ensures Idled(Step(s, e))
  {
  }

  /** Main result: the workflow never expires with a message waiting, nor within 15 days of a touch. */
  lemma {:induction false} ExpiryOnlyWhenIdle(s: State, events: seq<Event>)
    requires StateOk(s) && (s.phase == Ended(Expired) ==> Idled(s))
    ensures Run(s, events).phase == Ended(Expired) ==> Idled(Run(s, events))
    decreases |events|
  {
    if events != [] {
      var next := Step(s, events[0]);
      StepKeepsOk(s, events[0]);
      if next.phase == Ended(Expired) && !s.phase.Ended? { ExpiryStep(s, events[0]); }
      ExpiryOnlyWhenIdle(next, events[1..]);
    }
  }

  /** Whether an event makes the workflow continue as new: at a checkpoint the runtime suggests, when the
      time to live is up and it was touched, or after a turn that leaves a hot agent. */
  predicate ContinuesAsNew(s: State, e: Event) {
    match e
    case Checked(handlersDone, suggested, _, _) =>
      s.phase.Checking? && !s.resuming && handlersDone && (suggested || (Due(s.clock) && s.clock.touchedThisRun))
    case Settled(_, _) => s.phase.Settling? && s.phase.hot
    case _ => false
  }

  predicate EverContinuesAsNew(s: State, events: seq<Event>)
    decreases |events|
  {
    events != [] && (ContinuesAsNew(s, events[0]) || EverContinuesAsNew(Step(s, events[0]), events[1..]))
  }

  /** The places and messages an event makes the workflow tell its clients. */
  function Announces(s: State, e: Event): seq<(nat, ChatMessage)> {
    var t := RenderedOf(s);
    if s.phase.Ended? then []
    else
      match e
      case Signalled(signal) =>
        if Arrives(s, e) != [] then [(|t|, ChatMessage(User, Arrives(s, e)[0].0, Arrives(s, e)[0].1))]
        else (match signal
              case Steer(_, _, notice) => [(|t|, ChatMessage(System, notice, []))]
              case Interrupt(_, notice) => [(|t|, ChatMessage(System, notice, []))]
              case ResolveApproval(complaint, _) =>
                if complaint.Some? then [(|t|, ChatMessage(System, complaint.value, []))] else []
              case _ => [])
      case TurnEnded(end) =>
        if !s.phase.Responding? then []
        else (match end
              case Finished(prompt, _) =>
                (if prompt.Some? && s.active.Some? && s.active.value.transcriptIndex >= 0
                 then [(s.active.value.transcriptIndex, ChatMessage(User, prompt.value, s.active.value.attachments))]
                 else []) +
                (if t == [] then [] else [(|t| - 1, t[|t| - 1])])
              case UserFacingError(text) => [(|t|, ChatMessage(System, text, []))]
              case Failure => [])
      case _ => []
  }

  function Announcements(s: State, events: seq<Event>): seq<(nat, ChatMessage)>
    decreases |events|
  {
    if events == [] then [] else Announces(s, events[0]) + Announcements(Step(s, events[0]), events[1..])
  }

  /** The log takes exactly what is announced, and a cut exactly when the workflow continues as new. */
  lemma StepAnnounces(s: State, e: Event)
    ensures TranscriptLog.Grew(s.log, Step(s, e).log, Announces(s, e))
    ensures Step(s, e).log.cutAt == if ContinuesAsNew(s, e) && !s.phase.Ended? then Some(s.log.revision) else s.log.cutAt
  {
    hide TranscriptLog.Grew;
    hide RenderedOf;
    hide Receive;
    TranscriptLog.StillGrows(s.log);
    TranscriptLog.CutGrows(s.log);
    StepCuts(s, e);
    hide EndTurn;
    match e
    case Signalled(signal) => SignalAnnounces(s, signal);
    case TurnEnded(end) => EndAnnounces(s, end);
    case _ =>
  }

  lemma StepCuts(s: State, e: Event)
    ensures Step(s, e).log.cutAt == if ContinuesAsNew(s, e) && !s.phase.Ended? then Some(s.log.revision) else s.log.cutAt
  {
    hide RenderedOf;
    hide Receive;
    hide EndTurn;
    hide NextClock;
    match e
    case Signalled(signal) => ReceiveNeverCuts(s, signal);
    case TurnEnded(end) => EndTurnNeverCuts(s, end);
    case _ =>
  }

  lemma ReceiveNeverCuts(s: State, signal: Signal)
    ensures Receive(s, signal).log.cutAt == s.log.cutAt
  {
    hide RenderedOf;
  }

  lemma EndTurnNeverCuts(s: State, end: TurnEnd)
    ensures EndTurn(s, end).log.cutAt == s.log.cutAt
  {
    hide RenderedOf;
  }

  lemma SignalAnnounces(s: State, signal: Signal)
    ensures !s.phase.Ended? ==> TranscriptLog.Grew(s.log, Receive(s, signal).log, Announces(s, Signalled(signal)))
  {
    hide TranscriptLog.Grew;
    var n := |RenderedOf(s)|;
    TranscriptLog.StillGrows(s.log);
    match signal
    case Chat(message, attachments, settleAfter) =>
      TranscriptLog.RecordGrows(s.log, n, Some(ChatMessage(User, message, attachments)));
    case Steer(message, attachments, notice) =>
      TranscriptLog.RecordGrows(s.log, n, Some(ChatMessage(User, message, attachments)));
      TranscriptLog.RecordGrows(s.log, n, Some(ChatMessage(System, notice, [])));
    case Interrupt(message, notice) =>
      TranscriptLog.RecordGrows(s.log, n, Some(ChatMessage(User, message, [])));
      TranscriptLog.RecordGrows(s.log, n, Some(ChatMessage(System, notice, [])));
    case ResolveApproval(complaint, delegated) =>
      if complaint.Some? { TranscriptLog.RecordGrows(s.log, n, Some(ChatMessage(System, complaint.value, []))); }
    case _ =>
  }

  lemma EndAnnounces(s: State, end: TurnEnd)
    ensures s.phase.Responding? ==> TranscriptLog.Grew(s.log, EndTurn(s, end).log, Announces(s, TurnEnded(end)))
  {
    hide TranscriptLog.Grew;
    var t := RenderedOf(s);
    TranscriptLog.StillGrows(s.log);
    match end
    case Finished(prompt, hot) => FinishAnnounces(s, prompt);
    case UserFacingError(text) => TranscriptLog.RecordGrows(s.log, |t|, Some(ChatMessage(System, text, [])));
    case Failure =>
  }

  lemma FinishAnnounces(s: State, prompt: Option<string>)
    ensures s.phase.Responding? ==>
              TranscriptLog.Grew(s.log, RecordLatest(RecordPrompt(s, prompt)).log, Announces(s, TurnEnded(Finished(prompt, false))))
    ensures Announces(s, TurnEnded(Finished(prompt, false))) == Announces(s, TurnEnded(Finished(prompt, true)))
  {
    hide TranscriptLog.Grew;
    var t, told := RenderedOf(s), RecordPrompt(s, prompt);
    var first, second: seq<(nat, ChatMessage)> := [], [];
    if prompt.Some? && s.active.Some? {
      var q := s.active.value;
      var m := ChatMessage(User, prompt.value, q.attachments);
      TranscriptLog.RecordGrows(s.log, q.transcriptIndex, Some(m));
      first := if q.transcriptIndex < 0 then [] else [(q.transcriptIndex, m)];
    } else {
      TranscriptLog.StillGrows(s.log);
    }
    assert RenderedOf(told) == t;
    if t == [] {
      TranscriptLog.RecordGrows(told.log, -1, None);
    } else {
      TranscriptLog.RecordGrows(told.log, |t| - 1, Some(t[|t| - 1]));
      second := [(|t| - 1, t[|t| - 1])];
    }
    TranscriptLog.GrewTrans(s.log, told.log, RecordLatest(told).log, first, second);
  }

  lemma {:induction false} RunAnnounces(s: State, events: seq<Event>)
    ensures TranscriptLog.Grew(s.log, Run(s, events).log, Announcements(s, events))
    decreases |events|
  {
    hide TranscriptLog.Grew;
    if events == [] {
      TranscriptLog.StillGrows(s.log);
    } else {
      var next := Step(s, events[0]);
      StepAnnounces(s, events[0]);
      RunAnnounces(next, events[1..]);
      TranscriptLog.GrewTrans(s.log, next.log, Run(s, events).log, Announces(s, events[0]), Announcements(next, events[1..]));
    }
  }

  /** Main result: a client that had seen the revision of some moment, and later asks without being sent to
      a snapshot, gets exactly what the workflow announced since, in order, whatever happened. */
  lemma DeltasCompleteOverRuns(at: int, before: seq<Event>, since: seq<Event>, maxBytes: int)
    ensures var s := Run(Begin(at), before);
            var r := TranscriptLog.DeltasSince(Run(s, since).log, s.log.revision, maxBytes);
            !r.needsSnapshot ==> TranscriptLog.Positions(r.deltas) == Announcements(s, since)
  {
    var s := Run(Begin(at), before);
    RunKeepsOk(Begin(at), before);
    RunKeepsOk(s, since);
    RunAnnounces(s, since);
    if !TranscriptLog.DeltasSince(Run(s, since).log, s.log.revision, maxBytes).needsSnapshot {
      TranscriptLog.ClientCatchesUp(s.log, Run(s, since).log, Announcements(s, since), maxBytes);
    }
  }

  lemma {:induction false} NoCutWithoutContinuing(s: State, events: seq<Event>)
    requires !EverContinuesAsNew(s, events)
    ensures Run(s, events).log.cutAt == s.log.cutAt
    decreases |events|
  {
    if events != [] {
      StepAnnounces(s, events[0]);
      NoCutWithoutContinuing(Step(s, events[0]), events[1..]);
    }
  }

  /** Main result: a client that had seen the revision of some moment, since when the workflow did not
      continue as new, is sent to a snapshot exactly if what was announced since is too big for one
      answer, as long as that is fewer than eighty deltas, or the buffer still reaches back. */
  lemma SnapshotOverRunsIff(at: int, before: seq<Event>, since: seq<Event>, maxBytes: int)
    requires var s := Run(Begin(at), before);
             !EverContinuesAsNew(s, since) &&
             (TranscriptLog.Reaches(Run(s, since).log, s.log.revision) ||
              (s.log.deltas != [] && |Announcements(s, since)| < TranscriptLog.BUFFER_LIMIT))
    ensures var s := Run(Begin(at), before);
            var later := Run(s, since).log;
            TranscriptLog.DeltasSince(later, s.log.revision, maxBytes).needsSnapshot <==>
            |s.log.recorded| <= |later.recorded| && s.log.revision < later.revision &&
            TranscriptLog.DeltasBytes(later.recorded[|s.log.recorded|..]) > ByteLimit(maxBytes)
  {
    var s := Run(Begin(at), before);
    RunKeepsOk(Begin(at), before);
    RunKeepsOk(s, since);
    RunAnnounces(s, since);
    NoCutWithoutContinuing(s, since);
    TranscriptLog.NoSnapshotIff(s.log, Run(s, since).log, Announcements(s, since), maxBytes);
  }

  lemma {:induction false} CutsRise(s: State, events: seq<Event>)
    requires StateOk(s) && s.log.cutAt.Some?
    ensures var cut := Run(s, events).log.cutAt; cut.Some? && cut.value >= s.log.cutAt.value
    decreases |events|
  {
    if events != [] {
      StepKeepsOk(s, events[0]);
      StepAnnounces(s, events[0]);
      CutsRise(Step(s, events[0]), events[1..]);
    }
  }

  /** Main result: once the workflow continued as new, every cursor up to the revision it had then is told
      to take a snapshot, for ever. */
  lemma CursorsBeforeCutNeedSnapshot(s: State, e: Event, events: seq<Event>, afterRevision: int, maxBytes: int)
    requires StateOk(s) && !s.phase.Ended? && ContinuesAsNew(s, e) && afterRevision <= s.log.revision
    ensures TranscriptLog.DeltasSince(Run(Step(s, e), events).log, afterRevision, maxBytes).needsSnapshot
  {
    StepKeepsOk(s, e);
    StepAnnounces(s, e);
    CutsRise(Step(s, e), events);
    RunKeepsOk(Step(s, e), events);
    TranscriptLog.OldCursorsNeedSnapshot(Run(Step(s, e), events).log, afterRevision, maxBytes);
  }

  /** A delete request is dropped by exactly the steps that continue as new. */
  lemma DeleteSurvivesStepIff(s: State, e: Event)
    requires s.deleteRequested && !s.phase.Ended?
    ensures Step(s, e).deleteRequested <==> !ContinuesAsNew(s, e)
  {
  }

  predicate NoDelete(events: seq<Event>) {
    forall i :: 0 <= i < |events| ==> events[i] != Signalled(Delete)
  }

  lemma {:induction false} NoDeleteNoRequest(s: State, events: seq<Event>)
    requires !s.deleteRequested && NoDelete(events)
    ensures !Run(s, events).deleteRequested
    decreases |events|
  {
    if events != [] {
      assert events[0] != Signalled(Delete);
      NoDeleteNoRequest(Step(s, events[0]), events[1..]);
    }
  }

  lemma {:induction false} EndedStays(s: State, events: seq<Event>)
    requires s.phase.Ended?
    ensures Run(s, events) == s && !EverContinuesAsNew(s, events)
    decreases |events|
  {
    if events != [] { EndedStays(s, events[1..]); }
  }

  /** Main result: a delete request that is not repeated is still there after a run exactly if the workflow
      never continued as new in it. */
  lemma {:induction false} DeleteSurvivesIff(s: State, events: seq<Event>)
    requires s.deleteRequested && NoDelete(events)
    ensures Run(s, events).deleteRequested <==> !EverContinuesAsNew(s, events)
    decreases |events|
  {
    if s.phase.Ended? {
      EndedStays(s, events);
    } else if events != [] {
      DeleteSurvivesStepIff(s, events[0]);
      assert NoDelete(events[1..]);
      if ContinuesAsNew(s, events[0]) {
        NoDeleteNoRequest(Step(s, events[0]), events[1..]);
      } else {
        DeleteSurvivesIff(Step(s, events[0]), events[1..]);
      }
    }
  }

  /** A run that loses one: a delete during a turn that ends with a hot agent. */
  function LosingRun(at: int, message: string): seq<Event> {
    [Signalled(Chat(message, [], 0)), Checked(true, false, at, []), Signalled(Delete),
     TurnEnded(Finished(None, true)), Settled(at, [])]
  }

  lemma DeleteIsLost(at: int, message: string)
    ensures var before, after := Run(Begin(at), LosingRun(at, message)[..3]), Run(Begin(at), LosingRun(at, message));
            before.phase.Responding? && before.deleteRequested && !after.deleteRequested && !after.phase.Ended?
  {
    var events := LosingRun(at, message);
    var s0 := Begin(at);
    var s1 := Step(s0, events[0]);
    assert s1.backlog.pending != [] && s1.phase.Checking?;
    var s2 := Step(s1, events[1]);
    assert s2.phase.Responding?;
    var s3 := Step(s2, events[2]);
    var s4 := Step(s3, events[3]);
    assert s4.phase == Settling(true);
    var s5 := Step(s4, events[4]);
    RunsAlong(s0, events, s1, s2, s3, s4, s5);
  }

  lemma RunsAlong(s0: State, events: seq<Event>, s1: State, s2: State, s3: State, s4: State, s5: State)
    requires |events| == 5 && s1 == Step(s0, events[0]) && s2 == Step(s1, events[1]) && s3 == Step(s2, events[2])
    requires s4 == Step(s3, events[3]) && s5 == Step(s4, events[4])
    ensures Run(s0, events[..3]) == s3 && Run(s0, events) == s5
  {
    hide Step;
    assert events[4..][1..] == [] && events[3..][1..] == events[4..] && events[2..][1..] == events[3..];
    assert events[1..][1..] == events[2..];
    assert Run(s4, events[4..]) == s5;
    assert Run(s3, events[3..]) == s5;
    assert Run(s2, events[2..]) == s5;
    assert Run(s1, events[1..]) == s5;
    var three := events[..3];
    assert three[1..][1..][1..] == [];
    assert Run(s2, three[1..][1..]) == s3;
    assert Run(s1, three[1..]) == s3;
  }
}
