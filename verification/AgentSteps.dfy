/** The order in which an agent may do things, and what that means for every response. */
module AgentSteps {
  import opened Prelude
  import opened Messages
  import opened AgentTrace

  /** Where an agent stands: between runs; in a run with its conversation just restored, between two
      calls, or right after an answered response; at the guards before a call; about to send, or
      waiting for, an attempt or its retry; at the guards after a call; with a call lost to an interrupt,
      a response to take, a response taken, or a failure to raise; running the tools of a recorded
      response; about to continue as new; and done with a response that ends the run. */
  datatype Stage =
    | Off | Opened | Idle | Rested(response: Response)
    | Guarding | Sending(retry: bool) | Flying(retry: bool) | Reviewing(response: Response)
    | Lost | Arriving(response: Response) | Owed(response: Response) | Failing
    | Acting(response: Response, ends: seq<Task>) | Leaving(response: Response) | Closing(response: Response)

  predicate Between(s: Stage) { s.Opened? || s.Idle? }

  /** Control messages may be recorded. */
  predicate Recording(s: Stage) { Between(s) || s.Rested? }

  predicate AllEnded(tasks: seq<Task>) { forall i :: 0 <= i < |tasks| ==> !tasks[i].Running? }

  /** A task broke, and not because an interrupt had it cancelled. */
  predicate Broke(ends: seq<Task>, undisturbed: bool) {
    exists i :: 0 <= i < |ends| && ends[i].Broken? && (undisturbed || !ends[i].failure.cancelled)
  }

  /** The answer a finished task leaves, or the notice for a task that was cancelled. */
  function AnswerOf(request: ToolRequest, end: Task): Answer {
    if end.Finished? then Real(request.id, end.value) else Cut(request.id)
  }

  predicate AnswersFor(answers: seq<Answer>, tools: seq<ToolRequest>, ends: seq<Task>) {
    |answers| == |tools| == |ends| && forall i :: 0 <= i < |tools| ==> answers[i] == AnswerOf(tools[i], ends[i])
  }

  predicate EndsRun(r: Response) { r.guardAction.Some? || r.tools == [] }

  predicate MayEnd(s: Stage, how: RunEnd, undisturbed: bool) {
    match how
    case ByAnswer(r) => s == Closing(r) && r.guardAction.None?
    case ByGuard(r) => s == Closing(r) && r.guardAction.Some?
    case ByContinuing(r) => s == Leaving(r)
    case ByTurns => Between(s)
    case ByBudget => s == Sending(false) || s.Leaving?
    case ByFailure => s.Failing? || (s.Acting? && Broke(s.ends, undisturbed))
  }

  function AfterGuards(s: Stage, v: Verdict, undisturbed: bool): Option<Stage> {
    match s
    case Guarding =>
      Some(match v case Passes => Sending(false) case Says(r) => Arriving(r) case Fails(_) => Failing)
    case Reviewing(response) =>
      Some(match v case Passes => Arriving(response) case Says(r) => Arriving(r)
                   case Fails(f) => if f.cancelled && !undisturbed then Lost else Failing)
    case _ => None
  }

  function AfterAttempt(retry: bool, end: ActivityEnd, undisturbed: bool): Option<Stage> {
    match end
    case Completed(r) => if undisturbed then Some(Reviewing(r)) else None
    case Discarded => if undisturbed then None else Some(Lost)
    case Failed(f) =>
      Some(if f.cancelled && !undisturbed then Lost
           else if f.contextOverflow && !retry then Sending(true) else Failing)
  }

  /** The stage an event leads to, if it may happen at all; `undisturbed` says that no interrupt was
      accepted since the last call started. */
  function After(s: Stage, e: Event, undisturbed: bool): Option<Stage> {
    match e
    case Accepted(_, _) => Some(s)
    case Restored(_) => if s.Off? then Some(Opened) else None
    case Prompted(_) => if s.Off? || s.Opened? then Some(Idle) else None
    case Control(q, _) =>
      if !Recording(s) then None else if q.Interrupts? then Some(Idle) else Some(s)
    case CallStarted => if Between(s) then Some(Guarding) else None
    case GuardsSaid(v) => AfterGuards(s, v, undisturbed)
    case Attempted(_) => if s.Sending? then Some(Flying(s.retry)) else None
    case ActivityEnded(end) => if s.Flying? then AfterAttempt(s.retry, end, undisturbed) else None
    case Arrived(r) => if s == Arriving(r) then Some(Owed(r)) else None
    case Withdrawn => if s.Lost? || (s.Owed? && !undisturbed) then Some(Idle) else None
    case Replied(r) =>
      if s != Owed(r) || !undisturbed then None
      else Some(if EndsRun(r) then Closing(r) else Acting(r, seq(|r.tools|, _ => Running)))
    case TaskEnded(i, end) =>
      if s.Acting? && i < |s.ends| && s.ends[i].Running? && !end.Running? then Some(s.(ends := s.ends[i := end]))
      else None
    case Answered(answers) =>
      if s.Acting? && AllEnded(s.ends) && !Broke(s.ends, undisturbed) && AnswersFor(answers, s.response.tools, s.ends)
      then Some(Rested(s.response)) else None
    case Suggested(freshStart, enabled) =>
      if s.Rested? && undisturbed then Some(if freshStart && enabled then Leaving(s.response) else Idle) else None
    case Ended(how) => if MayEnd(s, how, undisturbed) then Some(Off) else None
  }

  function StageOf(t: Trace): Stage {
    match t
    case Start => Off
    case Then(before, e) =>
      var next := After(StageOf(before), e, Undisturbed(before));
      if next.Some? then next.value else Off
  }

  predicate Allowed(t: Trace, e: Event) { After(StageOf(t), e, Undisturbed(t)).Some? }

  /** Everything happened when it might. */
  predicate InStep(t: Trace) {
    match t
    case Start => true
    case Then(before, e) => InStep(before) && Allowed(before, e)
  }

  predicate InCall(s: Stage) { !s.Off? && !s.Opened? && !s.Idle? }

  /** During a call and the tools after it, an interrupt waits exactly if one was accepted since. */
  lemma {:induction false} DisturbedMeansWaiting(t: Trace)
    requires InStep(t) && CallsAfterFlush(t) && InCall(StageOf(t))
    ensures |Recorded(t, Interrupts)| <= |Sent(t, Interrupts)|
    ensures Undisturbed(t) <==> |Recorded(t, Interrupts)| == |Sent(t, Interrupts)|
  {
    if !t.event.CallStarted? { DisturbedMeansWaiting(t.before); }
  }

  /** Nothing happened but signals. */
  predicate Heard(past: Trace, t: Trace)
    decreases t
  {
    past == t || (t.Then? && t.event.Accepted? && Heard(past, t.before))
  }

  lemma {:induction false} HeardKeepsStage(past: Trace, t: Trace)
    requires Heard(past, t)
    ensures StageOf(t) == StageOf(past)
    decreases t
  {
    if past != t { HeardKeepsStage(past, t.before); }
  }

  /** What the agent did first after some moment, if anything happened but signals. */
  lemma {:induction false} FirstDeed(past: Trace, t: Trace) returns (before: Trace, deed: Event)
    requires InStep(t) && Extends(past, t) && !Heard(past, t)
    ensures Heard(past, before) && !deed.Accepted? && Extends(Then(before, deed), t)
    ensures StageOf(before) == StageOf(past) && Allowed(before, deed)
    decreases t
  {
    if Heard(past, t.before) {
      before, deed := t.before, t.event;
      HeardKeepsStage(past, before);
    } else {
      before, deed := FirstDeed(past, t.before);
    }
  }

  lemma {:induction false} InStepBefore(past: Trace, t: Trace)
    requires InStep(t) && Extends(past, t)
    ensures InStep(past)
    decreases t
  {
    if past != t { InStepBefore(past, t.before); }
  }

  lemma {:induction false} HeardUndisturbed(past: Trace, t: Trace)
    requires Heard(past, t) && Undisturbed(t)
    ensures Undisturbed(past)
    decreases t
  {
    if past != t { HeardUndisturbed(past, t.before); }
  }

  /** The first thing done after an event, and the stage it is done in. */
  lemma FirstAfter(past: Trace, e: Event, t: Trace) returns (before: Trace, deed: Event)
    requires InStep(t) && Extends(Then(past, e), t) && !Heard(Then(past, e), t)
    ensures Heard(Then(past, e), before) && !deed.Accepted? && Extends(Then(before, deed), t)
    ensures Allowed(past, e) && Allowed(before, deed)
    ensures Some(StageOf(before)) == After(StageOf(past), e, Undisturbed(past))
  {
    hide After;
    hide Undisturbed;
    InStepBefore(Then(past, e), t);
    before, deed := FirstDeed(Then(past, e), t);
  }

  /** Main result: the first thing done about a response that arrived is to record it, unless an interrupt
      was accepted since the call started; then, and only then, it is dropped. */
  lemma ArrivedIsRecorded(past: Trace, t: Trace, r: Response) returns (before: Trace)
    requires InStep(t) && Extends(Then(past, Arrived(r)), t) && !Heard(Then(past, Arrived(r)), t)
    ensures Heard(Then(past, Arrived(r)), before)
    ensures Extends(Then(before, if Undisturbed(before) then Replied(r) else Withdrawn), t)
  {
    hide Heard;
    hide Extends;
    hide InStep;
    hide StageOf;
    hide Undisturbed;
    var deed;
    before, deed := FirstAfter(past, Arrived(r), t);
  }

  /** Main result: a recorded response with a guard's action, or without tool calls, is the end of its run. */
  lemma LastReplyEndsRun(past: Trace, t: Trace, r: Response) returns (before: Trace)
    requires InStep(t) && Extends(Then(past, Replied(r)), t) && !Heard(Then(past, Replied(r)), t)
    requires r.guardAction.Some? || r.tools == []
    ensures Heard(Then(past, Replied(r)), before)
    ensures Extends(Then(before, Ended(if r.guardAction.Some? then ByGuard(r) else ByAnswer(r))), t)
  {
    hide Heard;
    hide Extends;
    hide InStep;
    hide StageOf;
    hide Undisturbed;
    var deed;
    before, deed := FirstAfter(past, Replied(r), t);
    ClosingEnds(r, deed, Undisturbed(before));
  }

  lemma ClosingEnds(r: Response, deed: Event, undisturbed: bool)
    requires After(Closing(r), deed, undisturbed).Some? && !deed.Accepted?
    ensures deed == Ended(if r.guardAction.Some? then ByGuard(r) else ByAnswer(r))
  {
  }

  /** Main result: a first attempt that overflowed the context is tried again, unless it was cancelled by an
      interrupt; a completed one goes to the guards, and any other failure ends the run. */
  lemma AttemptIsFollowedUp(past: Trace, t: Trace, end: ActivityEnd) returns (before: Trace, deed: Event)
    requires InStep(t) && Extends(Then(past, ActivityEnded(end)), t) && !Heard(Then(past, ActivityEnded(end)), t)
    ensures Heard(Then(past, ActivityEnded(end)), before) && Extends(Then(before, deed), t)
    ensures match end
            case Completed(_) => deed.GuardsSaid?
            case Discarded => deed.Withdrawn?
            case Failed(f) =>
              if f.cancelled && !Undisturbed(past) then deed.Withdrawn?
              else if f.contextOverflow && StageOf(past) == Flying(false) then deed.Attempted?
              else deed == Ended(ByFailure)
  {
    hide Heard;
    hide Extends;
    hide InStep;
    hide StageOf;
    hide Undisturbed;
    before, deed := FirstAfter(past, ActivityEnded(end), t);
    EndIsFollowedUp(StageOf(past), end, Undisturbed(past), deed, Undisturbed(before));
  }

  lemma EndIsFollowedUp(s: Stage, end: ActivityEnd, undisturbed: bool, deed: Event, later: bool)
    requires var next := After(s, ActivityEnded(end), undisturbed);
             next.Some? && After(next.value, deed, later).Some? && !deed.Accepted?
    ensures match end
            case Completed(_) => deed.GuardsSaid?
            case Discarded => deed.Withdrawn?
            case Failed(f) =>
              if f.cancelled && !undisturbed then deed.Withdrawn?
              else if f.contextOverflow && s == Flying(false) then deed.Attempted?
              else deed == Ended(ByFailure)
  {
  }

  /** Main result: what the guards say is what the agent makes of a call: the response they give, or the
      provider's if they let it pass, arrives; their failure ends the run, or, if an interrupt had it
      cancelled after the call, withdraws it; and before the call their passing leads to an attempt. */
  lemma VerdictIsFollowed(past: Trace, t: Trace, v: Verdict) returns (before: Trace, deed: Event)
    requires InStep(t) && Extends(Then(past, GuardsSaid(v)), t) && !Heard(Then(past, GuardsSaid(v)), t)
    ensures Heard(Then(past, GuardsSaid(v)), before) && Extends(Then(before, deed), t)
    ensures StageOf(past).Guarding? || StageOf(past).Reviewing?
    ensures match v
            case Says(r) => deed == Arrived(r)
            case Passes =>
              if StageOf(past).Guarding? then deed.Attempted? || deed == Ended(ByBudget)
              else deed == Arrived(StageOf(past).response)
            case Fails(f) =>
              if StageOf(past).Reviewing? && f.cancelled && !Undisturbed(past) then deed.Withdrawn?
              else deed == Ended(ByFailure)
  {
    hide Heard;
    hide Extends;
    hide InStep;
    hide StageOf;
    hide Undisturbed;
    before, deed := FirstAfter(past, GuardsSaid(v), t);
    SaidIsFollowed(StageOf(past), v, Undisturbed(past), deed, Undisturbed(before));
  }

  lemma SaidIsFollowed(s: Stage, v: Verdict, undisturbed: bool, deed: Event, later: bool)
    requires var next := After(s, GuardsSaid(v), undisturbed);
             next.Some? && After(next.value, deed, later).Some? && !deed.Accepted?
    ensures s.Guarding? || s.Reviewing?
    ensures match v
            case Says(r) => deed == Arrived(r)
            case Passes =>
              if s.Guarding? then deed.Attempted? || deed == Ended(ByBudget) else deed == Arrived(s.response)
            case Fails(f) =>
              if s.Reviewing? && f.cancelled && !undisturbed then deed.Withdrawn? else deed == Ended(ByFailure)
  {
  }

  /** Signals came and tool calls ended, and nothing else happened. */
  predicate Working(past: Trace, t: Trace)
    decreases t
  {
    past == t || (t.Then? && (t.event.Accepted? || t.event.TaskEnded?) && Working(past, t.before))
  }

  /** How the tool calls of a response ended, since it was recorded. */
  function Ends(past: Trace, t: Trace, count: nat): seq<Task>
    decreases t
  {
    if t == past || t.Start? then seq(count, _ => Running)
    else
      var before := Ends(past, t.before, count);
      if t.event.TaskEnded? && t.event.task < |before| then before[t.event.task := t.event.outcome] else before
  }

  lemma {:induction false} WorkingStage(past: Trace, t: Trace, r: Response)
    requires InStep(t) && Working(past, t) && StageOf(past) == Acting(r, seq(|r.tools|, _ => Running))
    ensures StageOf(t) == Acting(r, Ends(past, t, |r.tools|))
    decreases t
  {
    if past != t { WorkingStage(past, t.before, r); }
  }

  lemma {:induction false} FirstAfterWork(past: Trace, t: Trace) returns (before: Trace, deed: Event)
    requires InStep(t) && Extends(past, t) && !Working(past, t)
    ensures Working(past, before) && !deed.Accepted? && !deed.TaskEnded? && Extends(Then(before, deed), t)
    ensures InStep(before) && Allowed(before, deed)
    decreases t
  {
    if Working(past, t.before) {
      before, deed := t.before, t.event;
    } else {
      before, deed := FirstAfterWork(past, t.before);
    }
  }

  /** Main result: the tool calls of any other recorded response are answered one by one in their order,
      each by what its task came to, or, if a task broke and no interrupt had it cancelled, the run fails. */
  lemma OtherReplyIsAnswered(past: Trace, t: Trace, r: Response) returns (before: Trace, deed: Event)
    requires InStep(t) && Extends(Then(past, Replied(r)), t) && !Working(Then(past, Replied(r)), t)
    requires r.guardAction.None? && r.tools != []
    ensures Working(Then(past, Replied(r)), before) && Extends(Then(before, deed), t)
    ensures var ends := Ends(Then(past, Replied(r)), before, |r.tools|);
            if deed.Answered? then
              AllEnded(ends) && !Broke(ends, Undisturbed(before)) && AnswersFor(deed.answers, r.tools, ends)
            else deed == Ended(ByFailure) && Broke(ends, Undisturbed(before))
  {
    hide Working;
    hide Extends;
    hide Undisturbed;
    hide Broke;
    hide AllEnded;
    hide AnswersFor;
    var replied := Then(past, Replied(r));
    InStepBefore(replied, t);
    before, deed := FirstAfterWork(replied, t);
    WorkingStage(replied, before, r);
    hide StageOf;
    ActingGoesOn(r, Ends(replied, before, |r.tools|), deed, Undisturbed(before));
  }

  lemma ActingGoesOn(r: Response, ends: seq<Task>, deed: Event, undisturbed: bool)
    requires After(Acting(r, ends), deed, undisturbed).Some? && !deed.Accepted? && !deed.TaskEnded?
    ensures if deed.Answered? then
              AllEnded(ends) && !Broke(ends, undisturbed) && AnswersFor(deed.answers, r.tools, ends)
            else deed == Ended(ByFailure) && Broke(ends, undisturbed)
  {
  }

  /** Steering was recorded, signals came, and nothing else happened. */
  predicate Catching(past: Trace, t: Trace)
    decreases t
  {
    past == t || (t.Then? && (t.event.Accepted? || (t.event.Control? && !t.event.queue.Interrupts?)) && Catching(past, t.before))
  }

  lemma {:induction false} CatchingStage(past: Trace, t: Trace)
    requires InStep(t) && Catching(past, t) && StageOf(past).Rested?
    ensures StageOf(t) == StageOf(past)
    decreases t
  {
    if past != t { CatchingStage(past, t.before); }
  }

  lemma {:induction false} FirstAfterCatching(past: Trace, t: Trace) returns (before: Trace, deed: Event)
    requires InStep(t) && Extends(past, t) && !Catching(past, t)
    ensures Catching(past, before) && Extends(Then(before, deed), t) && InStep(before) && Allowed(before, deed)
    ensures !deed.Accepted? && (deed.Control? ==> deed.queue.Interrupts?)
    decreases t
  {
    if Catching(past, t.before) {
      before, deed := t.before, t.event;
    } else {
      before, deed := FirstAfterCatching(past, t.before);
    }
  }

  /** Main result: after the answers of a turn, steering is recorded, and then either waiting interrupts
      are, or, if none came, the runtime is asked whether to continue as new. */
  lemma AnswersAreFollowed(past: Trace, t: Trace, answers: seq<Answer>) returns (before: Trace, deed: Event)
    requires InStep(t) && Extends(Then(past, Answered(answers)), t) && !Catching(Then(past, Answered(answers)), t)
    ensures Catching(Then(past, Answered(answers)), before) && Extends(Then(before, deed), t)
    ensures (deed.Control? && deed.queue.Interrupts?) || (deed.Suggested? && Undisturbed(before))
  {
    hide Undisturbed;
    hide Broke;
    hide AllEnded;
    hide AnswersFor;
    var answered := Then(past, Answered(answers));
    InStepBefore(answered, t);
    before, deed := FirstAfterCatching(answered, t);
    CatchingStage(answered, before);
  }

  /** Main result: the run continues as new exactly if that is enabled and the runtime suggests it, or
      fails for want of a budget to compact to. */
  lemma SuggestionIsFollowed(past: Trace, t: Trace, suggested: bool, enabled: bool) returns (before: Trace, deed: Event)
    requires InStep(t) && Extends(Then(past, Suggested(suggested, enabled)), t) && !Heard(Then(past, Suggested(suggested, enabled)), t)
    ensures Heard(Then(past, Suggested(suggested, enabled)), before) && Extends(Then(before, deed), t)
    ensures StageOf(past).Rested?
    ensures if suggested && enabled then deed == Ended(ByContinuing(StageOf(past).response)) || deed == Ended(ByBudget)
            else deed.Control? || deed.CallStarted? || deed == Ended(ByTurns)
  {
    hide Heard;
    hide Extends;
    hide InStep;
    hide StageOf;
    hide Undisturbed;
    before, deed := FirstAfter(past, Suggested(suggested, enabled), t);
    SuggestedIsFollowed(StageOf(past), suggested, enabled, Undisturbed(past), deed, Undisturbed(before));
  }

  lemma SuggestedIsFollowed(s: Stage, suggested: bool, enabled: bool, undisturbed: bool, deed: Event, later: bool)
    requires var next := After(s, Suggested(suggested, enabled), undisturbed);
             next.Some? && After(next.value, deed, later).Some? && !deed.Accepted?
    ensures s.Rested?
    ensures if suggested && enabled then deed == Ended(ByContinuing(s.response)) || deed == Ended(ByBudget)
            else deed.Control? || deed.CallStarted? || deed == Ended(ByTurns)
  {
  }

  /** Responses that arrived: the turns used. */
  function Turns(t: Trace): nat {
    match t
    case Start => 0
    case Then(before, e) => Turns(before) + if e.Arrived? then 1 else 0
  }

  /** Turns lost to an interrupt that came before the response was recorded. */
  function Dropped(t: Trace): nat {
    match t
    case Start => 0
    case Then(before, e) => Dropped(before) + if e.Withdrawn? && StageOf(before).Owed? then 1 else 0
  }

  function AnsweredTurns(t: Trace): nat {
    match t
    case Start => 0
    case Then(before, e) => AnsweredTurns(before) + if e.Answered? then 1 else 0
  }

  /** Turns in which the run ended. */
  function LastTurns(t: Trace): nat {
    match t
    case Start => 0
    case Then(before, e) => LastTurns(before) + if e.Ended? && TurnOpen(StageOf(before)) then 1 else 0
  }

  predicate TurnOpen(s: Stage) { s.Owed? || s.Acting? || s.Closing? }

  /** Every turn was dropped, answered by tools, or its run's last, but for the one under way. */
  lemma {:induction false} TurnsAreAccounted(t: Trace)
    requires InStep(t)
    ensures Turns(t) == Dropped(t) + AnsweredTurns(t) + LastTurns(t) + if TurnOpen(StageOf(t)) then 1 else 0
  {
    hide Undisturbed;
    if t.Then? {
      TurnsAreAccounted(t.before);
      TurnOpens(StageOf(t.before), t.event, Undisturbed(t.before));
      hide After;
    }
  }

  /** A turn opens when a response arrives, and closes when it is dropped, answered or ends the run. */
  lemma TurnOpens(s: Stage, e: Event, undisturbed: bool)
    requires After(s, e, undisturbed).Some?
    ensures var next := After(s, e, undisturbed).value;
            if e.Arrived? then !TurnOpen(s) && TurnOpen(next)
            else if (e.Withdrawn? && s.Owed?) || e.Answered? || (e.Ended? && TurnOpen(s)) then TurnOpen(s) && !TurnOpen(next)
            else TurnOpen(next) == TurnOpen(s)
  {
  }

  lemma {:induction false} NoLastTurns(past: Trace, t: Trace)
    requires Continues(past, t)
    ensures LastTurns(t) == LastTurns(past)
    decreases t
  {
    if past != t { NoLastTurns(past, t.before); }
  }

  /** Main result: a stretch of a run in which no turn is left open had each of its turns answered by
      tools or dropped for an interrupt. */
  lemma TurnsWereUsed(past: Trace, t: Trace)
    requires InStep(t) && InStep(past) && Continues(past, t)
    requires !TurnOpen(StageOf(past)) && !TurnOpen(StageOf(t))
    ensures Turns(t) - Turns(past) == (AnsweredTurns(t) - AnsweredTurns(past)) + (Dropped(t) - Dropped(past))
  {
    TurnsAreAccounted(past);
    TurnsAreAccounted(t);
    NoLastTurns(past, t);
  }
}
