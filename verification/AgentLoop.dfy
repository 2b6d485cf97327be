/** The agent loop against an environment that delivers signals and outcomes as it likes. */
module AgentLoop {
  import opened Prelude
  import opened Messages
  import opened ContextBudget
  import opened ContentTruncation
  import opened ContextWindow
  import opened Compaction
  import opened AgentTrace
  import opened AgentSteps

  datatype RunError = Crashed(failure: Failure) | PromptRequired | BudgetInvalid(reason: BudgetError)
                    | SnapshotInvalid(cause: ContextError)

  datatype CallOutcome = Reply(response: Response) | Interrupted | Raised(error: RunError)

  datatype ToolOutcome = Answers(answers: seq<Answer>, interrupted: bool) | ToolsRaised(failure: Failure)

  datatype AgentState = AgentState(snapshot: Snapshot, turns: int)

  datatype RunResult =
    | FinalAnswer(response: Response)
    | GuardStop(response: Response)
    | ContinueAsNew(response: Response, state: AgentState)
    | MaxTurnsReached
    | AlreadyTerminated

  datatype RunOutcome = Returned(result: RunResult, turns: int) | RunRaised(reason: RunError)

  /** One pass of the loop ends the run or goes on at a turn count. */
  datatype Step = Stop(outcome: RunOutcome) | Again(turn: int)

  const OVERFLOW_RECOVERY_ATTEMPTS := 1

  function EndOfError(error: RunError): RunEnd { if error.BudgetInvalid? then ByBudget else ByFailure }

  /** How the trace names the way a run ended. */
  function EndOf(r: RunOutcome): RunEnd
    requires r.Returned? ==> !r.result.AlreadyTerminated?
  {
    match r
    case RunRaised(error) => EndOfError(error)
    case Returned(result, _) =>
      match result
      case FinalAnswer(response) => ByAnswer(response)
      case GuardStop(response) => ByGuard(response)
      case ContinueAsNew(response, _) => ByContinuing(response)
      case MaxTurnsReached => ByTurns
      case AlreadyTerminated => assert false; ByTurns
  }

  function OutcomeOf(end: ActivityEnd): CallOutcome {
    match end
    case Completed(response) => Reply(response)
    case Discarded => Interrupted
    case Failed(failure) => Raised(Crashed(failure))
  }

  function RunningCount(tasks: seq<Task>): nat {
    if tasks == [] then 0 else (if tasks[0].Running? then 1 else 0) + RunningCount(tasks[1..])
  }

  lemma {:induction false} RunningCountZero(tasks: seq<Task>)
    ensures RunningCount(tasks) == 0 <==> AllEnded(tasks)
  {
    if tasks != [] { RunningCountZero(tasks[1..]); }
  }

  lemma {:induction false} EndingOneTask(tasks: seq<Task>, i: nat, end: Task)
    requires i < |tasks| && tasks[i].Running? && !end.Running?
    ensures RunningCount(tasks[i := end]) == RunningCount(tasks) - 1
  {
    if i == 0 {
      assert tasks[0 := end][1..] == tasks[1..];
    } else {
      assert tasks[i := end][1..] == tasks[1..][i - 1 := end];
      EndingOneTask(tasks[1..], i - 1, end);
    }
  }

  class Agent {
    const limits: Limits
    const reservedInput: nat
    const continueAsNewEnabled: bool
    const wording: Wording
    const context: SlidingWindowContextManager
    var contextInitialized: bool
    var pendingImmediate: seq<string>
    var pendingAfterTool: seq<string>
    var pendingInterrupts: seq<string>
    var interruptRequested: bool
    var terminated: bool
    /** Everything accepted and recorded since the agent was made. */
    ghost var trace: Trace
    /** Interrupts the environment may still send. */
    var undelivered: nat

    constructor (wording: Wording, limits: Limits, reservedInput: nat, continueAsNewEnabled: bool,
                 context: SlidingWindowContextManager, undelivered: nat)
      requires context.Valid() && context.messages == []
      ensures Valid() && this.context == context && this.undelivered == undelivered && !terminated && Stage().Off?
    {
      this.wording := wording;
      this.limits := limits;
      this.reservedInput := reservedInput;
      this.continueAsNewEnabled := continueAsNewEnabled;
      this.context := context;
      this.undelivered := undelivered;
      contextInitialized := false;
      pendingImmediate, pendingAfterTool, pendingInterrupts := [], [], [];
      interruptRequested, terminated := false, false;
      trace := Start;
    }

    /** Every accepted message is recorded once, in order, or still waits; the conversation is what
        was recorded; no disturbed response was ever recorded; calls started with nothing urgent
        waiting; what was sent was paired; and everything happened in the order it may. */
    ghost predicate Consistent()
      reads this, context
    {
      context.Valid() && context.messages == History(wording, trace) &&
      Ledger(trace, Immediate, pendingImmediate) && Ledger(trace, AfterTool, pendingAfterTool) &&
      Ledger(trace, Interrupts, pendingInterrupts) &&
      OnlyUndisturbedReplies(trace) && CallsAfterFlush(trace) && SendsPaired(trace) && InStep(trace)
    }

    /** Besides, the flag is up exactly while interrupts are waiting. */
    ghost predicate Valid()
      reads this, context
    {
      context.Valid() && Consistent() && (interruptRequested <==> pendingInterrupts != [])
    }

    ghost function Stage(): Stage
      reads this
    {
      StageOf(trace)
    }

    /** Interrupts that can still cut a turn short. */
    ghost function InterruptsLeft(): nat
      reads this
    {
      undelivered + |pendingInterrupts|
    }

    /** Fields no signal touches. */
    ghost function Settings(): (bool, bool)
      reads this
    {
      (contextInitialized, terminated)
    }

    /** What a wait leaves: nothing undone, no interrupt lost. */
    twostate predicate OnlySignals()
      reads this
    {
      Continues(old(trace), trace) && Turns(trace) == Turns(old(trace)) &&
      InterruptsLeft() == old(InterruptsLeft()) && Settings() == old(Settings()) &&
      (old(interruptRequested) ==> interruptRequested)
    }

    /** While a call is on, or its tools, the flag is up exactly if an interrupt came since it started. */
    lemma FlagMeansDisturbed()
      requires Valid() && InCall(Stage())
      ensures Undisturbed(trace) <==> !interruptRequested
    {
      DisturbedMeansWaiting(trace);
    }

    lemma MayEndNow(how: RunEnd)
      requires Valid() && MayEnd(Stage(), how, !interruptRequested)
      ensures Allowed(trace, Ended(how))
    {
      if InCall(Stage()) { FlagMeansDisturbed(); }
    }

    /** Notes in the trace what leaves the conversation and the queues as they are. */
    ghost method Note(e: Event)
      requires Valid() && Silent(e) && !e.Accepted? && !e.CallStarted? && !e.Attempted? && Allowed(trace, e)
      modifies this`trace
      ensures Valid() && trace == Then(old(trace), e)
    {
      trace := Then(trace, e);
    }

    method Steer(message: string, mode: string) returns (known: bool)
      requires Valid()
      modifies this
      ensures Valid() && known == (mode == "immediate" || mode == "after_next_tool_result")
      ensures trace == if !known then old(trace)
                       else Then(old(trace), Accepted(if mode == "immediate" then Immediate else AfterTool, message))
      ensures InterruptsLeft() == old(InterruptsLeft()) && interruptRequested == old(interruptRequested)
      ensures undelivered == old(undelivered) && Settings() == old(Settings()) && Stage() == old(Stage())
    {
      if mode == "immediate" {
        pendingImmediate := pendingImmediate + [message];
        trace := Then(trace, Accepted(Immediate, message));
        return true;
      }
      if mode == "after_next_tool_result" {
        pendingAfterTool := pendingAfterTool + [message];
        trace := Then(trace, Accepted(AfterTool, message));
        return true;
      }
      return false;
    }

    method Interrupt(message: string)
      requires Valid() && undelivered > 0
      modifies this
      ensures Valid() && trace == Then(old(trace), Accepted(Interrupts, message)) && interruptRequested
      ensures undelivered == old(undelivered) - 1 && InterruptsLeft() == old(InterruptsLeft())
      ensures Settings() == old(Settings()) && Stage() == old(Stage())
    {
      pendingInterrupts := pendingInterrupts + [message];
      interruptRequested := true;
      trace := Then(trace, Accepted(Interrupts, message));
      undelivered := undelivered - 1;
    }

    /** A point where the workflow waits: any finite number of signals may be delivered. */
    method Suspend()
      requires Valid()
      modifies this
      ensures Valid() && OnlySignals() && Stage() == old(Stage())
    {
      var signals: nat := *;
      while signals > 0
        invariant Valid() && OnlySignals() && Stage() == old(Stage())
      {
        var text: string := *;
        var mode: string := *;
        var interrupting: bool := *;
        if interrupting {
          if undelivered > 0 {
            Interrupt(text);
          }
        } else {
          var _ := Steer(text, mode);
        }
        signals := signals - 1;
      }
    }

    function Waiting(q: Queue): seq<string>
      reads this
    {
      match q
      case Immediate => pendingImmediate
      case AfterTool => pendingAfterTool
      case Interrupts => pendingInterrupts
    }

    /** Takes the first waiting message of a queue and records it with its tag. */
    method RecordNext(q: Queue)
      requires Consistent() && Waiting(q) != [] && Recording(Stage())
      modifies this, context
      ensures Consistent() && Stage() == (if q.Interrupts? then Idle else old(Stage()))
      ensures Consistent() && trace == Then(old(trace), Control(q, old(Waiting(q))[0]))
      ensures Waiting(q) == old(Waiting(q))[1..]
      ensures forall o: Queue :: o != q ==> Waiting(o) == old(Waiting(o))
      ensures interruptRequested == old(interruptRequested) && undelivered == old(undelivered)
      ensures Settings() == old(Settings())
    {
      var text := Waiting(q)[0];
      FirstLeaves(Recorded(trace, q), Waiting(q));
      match q {
        case Immediate => pendingImmediate := pendingImmediate[1..];
        case AfterTool => pendingAfterTool := pendingAfterTool[1..];
        case Interrupts => pendingInterrupts := pendingInterrupts[1..];
      }
      context.RecordMessage(Message(User, Str(wording.control(q, text))));
      trace := Then(trace, Control(q, text));
    }

    /** Records every waiting message of a queue, first come first recorded. */
    method Flush(q: Queue)
      requires Consistent() && Recording(Stage())
      modifies this, context
      ensures Consistent() && Waiting(q) == [] && Recording(Stage()) && Turns(trace) == Turns(old(trace))
      ensures Stage() == (if q.Interrupts? && old(Waiting(q)) != [] then Idle else old(Stage()))
      ensures trace == WithControls(old(trace), q, old(Waiting(q))) && Continues(old(trace), trace)
      ensures forall o: Queue :: o != q ==> Waiting(o) == old(Waiting(o))
      ensures interruptRequested == old(interruptRequested) && undelivered == old(undelivered)
      ensures Settings() == old(Settings())
    {
      while Waiting(q) != []
        invariant Consistent() && Continues(old(trace), trace) && Recording(Stage())
        invariant Turns(trace) == Turns(old(trace)) && Stage() == (if q.Interrupts? && old(Waiting(q)) != Waiting(q) then Idle else old(Stage()))
        invariant old(|Waiting(q)|) >= |Waiting(q)|
        invariant WithControls(trace, q, Waiting(q)) == WithControls(old(trace), q, old(Waiting(q)))
        invariant forall o: Queue :: o != q ==> Waiting(o) == old(Waiting(o))
        invariant interruptRequested == old(interruptRequested) && undelivered == old(undelivered)
        invariant Settings() == old(Settings())
        decreases |Waiting(q)|
      {
        RecordNext(q);
      }
    }

    method FlushInterruptContext()
      requires Consistent() && Recording(Stage())
      modifies this, context
      ensures Valid() && !interruptRequested && Turns(trace) == Turns(old(trace))
      ensures Stage() == if old(pendingInterrupts) != [] then Idle else old(Stage())
      ensures trace == WithControls(old(trace), Interrupts, old(pendingInterrupts))
      ensures Continues(old(trace), trace)
      ensures pendingImmediate == old(pendingImmediate) && pendingAfterTool == old(pendingAfterTool)
      ensures InterruptsLeft() == old(undelivered) && Settings() == old(Settings())
    {
      Flush(Interrupts);
      assert Waiting(Immediate) == pendingImmediate && Waiting(AfterTool) == pendingAfterTool;
      assert Waiting(Interrupts) == [];
      interruptRequested := false;
    }

    /** Records a prompt, a reply or the answers to its tool calls. */
    method Record(e: Event)
      requires Valid() && (e.Prompted? || e.Replied? || e.Answered?) && Allowed(trace, e)
      modifies context, this`trace
      ensures Valid() && trace == Then(old(trace), e) && context.messages == old(context.messages) + Render(wording, e)
    {
      context.RecordMessage(Render(wording, e)[0]);
      trace := Then(trace, e);
    }

    /** Runs one provider activity until it ends or an interrupt asks to discard it. */
    method RunProviderActivity() returns (end: ActivityEnd)
      requires Valid() && Stage().Flying?
      modifies this
      ensures Valid() && OnlySignals()
      ensures Some(Stage()) == AfterAttempt(old(Stage()).retry, end, !interruptRequested)
    {
      Suspend();
      var failure: Failure := *;
      var failed: bool := *;
      if interruptRequested {
        label Discarding:
        Suspend();
        ContinuesTrans(old(trace), old@Discarding(trace), trace);
        end := if failed && !failure.cancelled then Failed(failure) else Discarded;
      } else {
        var response: Response := *;
        end := if failed then Failed(failure) else Completed(response);
      }
      FlagMeansDisturbed();
      Note(ActivityEnded(end));
    }

    /** What the provider is sent under the first or the retry budget. */
    ghost function Outgoing(overflowRetry: bool): seq<Message>
      requires context.Valid() && BudgetFor(limits, reservedInput, overflowRetry).Valid()
      reads this, context
    {
      ForModel(context.settings, context.encoding, context.messages,
               Some(BudgetFor(limits, reservedInput, overflowRetry)))
    }

    /** The attempts of one call: the first budget, then at most one retry under the stricter one. */
    ghost predicate SentInOrder(sent: seq<seq<Message>>)
      requires context.Valid()
      reads this, context
    {
      var first, retry := BudgetFor(limits, reservedInput, false), BudgetFor(limits, reservedInput, true);
      |sent| <= 1 + OVERFLOW_RECOVERY_ATTEMPTS &&
      (|sent| >= 1 ==> first.Valid() && sent[0] == Outgoing(false)) &&
      (|sent| == 2 ==> retry.Valid() && sent[1] == Outgoing(true))
    }

    ghost method LogAttempt(budget: Budget, messages: seq<Message>)
      requires Valid() && budget.Valid() && Stage().Sending?
      requires messages == ForModel(context.settings, context.encoding, context.messages, Some(budget))
      modifies this`trace
      ensures Valid() && trace == Then(old(trace), Attempted(messages)) && InterruptsLeft() == old(InterruptsLeft())
    {
      if RestoresUnmixed(trace) {
        HistoryUnmixed(wording, trace);
        SentMessagesArePaired(context.settings, context.encoding, context.messages, Some(budget));
      }
      trace := Then(trace, Attempted(messages));
    }

    /** Each attempt is in the trace with what it sent. */
    method SendAttempt(budget: Budget) returns (end: ActivityEnd, messages: seq<Message>)
      requires Valid() && budget.Valid() && Stage().Sending?
      modifies this
      ensures Valid() && OnlySignals()
      ensures Some(Stage()) == AfterAttempt(old(Stage()).retry, end, !interruptRequested)
      ensures messages == ForModel(context.settings, context.encoding, context.messages, Some(budget))
    {
      hide InStep;
      hide CallsAfterFlush;
      hide SendsPaired;
      hide OnlyUndisturbedReplies;
      hide Ledger;
      hide History;
      hide Consistent;
      hide ForModel;
      messages := MessagesForModel(context.settings, context.encoding, context.messages, Some(budget));
      LogAttempt(budget, messages);
      label Sent:
      end := RunProviderActivity();
      ContinuesTrans(old(trace), old@Sent(trace), trace);
    }

    /** A call that raised left a failure to raise, or found that the budget is none. */
    ghost predicate Raises(error: RunError)
      reads this
    {
      (error.Crashed? || error.BudgetInvalid?) && MayEnd(Stage(), EndOfError(error), !interruptRequested) &&
      (error.BudgetInvalid? ==> !BudgetFor(limits, reservedInput, false).Valid())
    }

    /** Calls the provider, and once more under the stricter budget if the context overflowed; `sent`
        lists what each attempt sent, and `ends` how it ended. */
    method CallProviderWithContextRecovery()
      returns (outcome: CallOutcome, ghost sent: seq<seq<Message>>, ghost ends: seq<ActivityEnd>)
      requires Valid() && Stage() == Sending(false)
      modifies this
      ensures Valid() && OnlySignals() && SentInOrder(sent) && |ends| == |sent|
      ensures |sent| >= 1 <==> BudgetFor(limits, reservedInput, false).Valid()
      ensures |sent| == 2 ==> ends[0].Failed? && ends[0].failure.contextOverflow
      ensures |sent| == 1 && ends[0].Failed? && ends[0].failure.contextOverflow ==>
                ends[0].failure.cancelled && interruptRequested
      ensures |sent| >= 1 ==>
                var end := ends[|ends| - 1];
                outcome == if end.Failed? && end.failure.cancelled && interruptRequested then Interrupted else OutcomeOf(end)
      ensures outcome.Reply? ==> Stage() == Reviewing(outcome.response)
      ensures outcome.Interrupted? ==> Stage().Lost? && interruptRequested
      ensures outcome.Raised? ==> Raises(outcome.error)
    {
      hide InStep;
      hide CallsAfterFlush;
      hide SendsPaired;
      hide OnlyUndisturbedReplies;
      hide Ledger;
      hide History;
      hide StageOf;
      hide Turns;
      hide ForModel;
      hide BudgetFor;
      hide Consistent;
      sent, ends := [], [];
      var budget := BudgetFor(limits, reservedInput, false);
      var checked := budget.Checked();
      if checked.Err? {
        return Raised(BudgetInvalid(checked.error)), sent, ends;
      }
      RetryIsStricter(limits, reservedInput);
      var retries := 0;
      while true
        invariant Valid() && OnlySignals() && SentInOrder(sent) && |ends| == |sent|
        invariant 0 <= retries == |sent| <= OVERFLOW_RECOVERY_ATTEMPTS
        invariant budget == BudgetFor(limits, reservedInput, retries == 1) && Stage() == Sending(retries == 1)
        invariant retries == 1 ==> ends[0].Failed? && ends[0].failure.contextOverflow
        decreases OVERFLOW_RECOVERY_ATTEMPTS - retries
      {
        label Sending:
        var end, messages := SendAttempt(budget);
        ContinuesTrans(old(trace), old@Sending(trace), trace);
        sent, ends := sent + [messages], ends + [end];
        match end {
          case Completed(response) => return Reply(response), sent, ends;
          case Discarded => return Interrupted, sent, ends;
          case Failed(failure) =>
            if interruptRequested && failure.cancelled {
              return Interrupted, sent, ends;
            }
            if retries >= OVERFLOW_RECOVERY_ATTEMPTS || !failure.contextOverflow {
              return Raised(Crashed(failure)), sent, ends;
            }
            retries := retries + 1;
            budget := BudgetFor(limits, reservedInput, true);
        }
      }
    }

    ghost method LogCallStarted()
      requires Valid() && pendingInterrupts == [] && pendingImmediate == [] && Between(Stage())
      modifies this`trace
      ensures Valid() && trace == Then(old(trace), CallStarted) && InterruptsLeft() == old(InterruptsLeft())
    {
      trace := Then(trace, CallStarted);
    }

    /** Guards run in activities of their own; they let the call pass, answer it, or fail. */
    method GuardStage() returns (verdict: Verdict)
      requires Valid() && (Stage().Guarding? || Stage().Reviewing?)
      modifies this
      ensures Valid() && OnlySignals()
      ensures Some(Stage()) == AfterGuards(old(Stage()), verdict, !interruptRequested)
    {
      Suspend();
      FlagMeansDisturbed();
      verdict := *;
      Note(GuardsSaid(verdict));
    }

    /** One guarded provider call: a response, nothing because of an interrupt, or a failure. */
    method CallProvider() returns (outcome: CallOutcome)
      requires Valid() && pendingInterrupts == [] && pendingImmediate == [] && Between(Stage())
      modifies this
      ensures Valid() && Continues(Then(old(trace), CallStarted), trace) && Turns(trace) == Turns(old(trace))
      ensures InterruptsLeft() == old(InterruptsLeft()) && Settings() == old(Settings())
      ensures outcome.Reply? ==> Stage() == Arriving(outcome.response)
      ensures outcome.Interrupted? ==> Stage().Lost? && interruptRequested
      ensures outcome.Raised? ==> Raises(outcome.error)
    {
      hide InStep;
      hide CallsAfterFlush;
      hide SendsPaired;
      hide OnlyUndisturbedReplies;
      hide Ledger;
      hide History;
      hide Consistent;
      hide BudgetFor;
      LogCallStarted();
      var verdict := GuardStage();
      match verdict {
        case Fails(failure) => return Raised(Crashed(failure));
        case Says(response) => return Reply(response);
        case Passes =>
      }
      label Calling:
      ghost var sent, ends;
      outcome, sent, ends := CallProviderWithContextRecovery();
      ContinuesTrans(Then(old(trace), CallStarted), old@Calling(trace), trace);
      if outcome.Reply? {
        label Guarding:
        verdict := GuardStage();
        ContinuesTrans(Then(old(trace), CallStarted), old@Guarding(trace), trace);
        match verdict {
          case Fails(failure) =>
            return if interruptRequested && failure.cancelled then Interrupted else Raised(Crashed(failure));
          case Says(response) => return Reply(response);
          case Passes =>
        }
      }
    }

    /** A tool task ends. */
    method EndTask(tasks: seq<Task>, i: nat, end: Task) returns (after: seq<Task>)
      requires Valid() && Stage().Acting? && tasks == Stage().ends
      requires i < |tasks| && tasks[i].Running? && !end.Running?
      modifies this`trace
      ensures Valid() && OnlySignals() && after == tasks[i := end] && Stage() == old(Stage()).(ends := after)
      ensures RunningCount(after) == RunningCount(tasks) - 1
    {
      EndingOneTask(tasks, i, end);
      after := tasks[i := end];
      Note(TaskEnded(i, end));
    }

    /** Waits until an interrupt is up or every tool task has ended, in whatever order they end. */
    method WaitForTasks(count: nat) returns (tasks: seq<Task>)
      requires Valid() && Stage().Acting? && Stage().ends == seq(count, _ => Running)
      modifies this
      ensures Valid() && OnlySignals() && Stage() == old(Stage()).(ends := tasks)
      ensures |tasks| == count && (interruptRequested || AllEnded(tasks))
    {
      tasks := seq(count, _ => Running);
      var patience: nat := *;
      RunningCountZero(tasks);
      while !interruptRequested && RunningCount(tasks) > 0
        invariant Valid() && OnlySignals() && |tasks| == count && Stage() == old(Stage()).(ends := tasks)
        decreases patience, RunningCount(tasks)
      {
        RunningCountZero(tasks);
        var i: nat := *;
        var end: Task := *;
        label Idle:
        if 0 <= i < count && tasks[i].Running? && !end.Running? {
          tasks := EndTask(tasks, i, end);
        } else if patience > 0 {
          Suspend();
          patience := patience - 1;
        } else {
          var first := FirstRunning(tasks);
          tasks := EndTask(tasks, first, Finished(ToolValue("", false)));
        }
        ContinuesTrans(old(trace), old@Idle(trace), trace);
      }
      RunningCountZero(tasks);
    }

    /** The end of one task that is awaited: its own, or after cancellation any end at all. */
    method AwaitTask(tasks: seq<Task>, i: nat) returns (after: seq<Task>)
      requires Valid() && Stage().Acting? && Stage().ends == tasks && i < |tasks|
      requires tasks[i].Running? ==> interruptRequested
      modifies this
      ensures Valid() && OnlySignals() && Stage() == old(Stage()).(ends := after)
      ensures |after| == |tasks| && !after[i].Running? && forall j :: 0 <= j < |tasks| && j != i ==> after[j] == tasks[j]
      ensures !tasks[i].Running? ==> after == tasks && interruptRequested == old(interruptRequested)
    {
      if !tasks[i].Running? {
        return tasks;
      }
      Suspend();
      label Awaited:
      var end: Task := *;
      if end.Running? {
        end := Broken(Failure(true, false));
      }
      after := EndTask(tasks, i, end);
      ContinuesTrans(old(trace), old@Awaited(trace), trace);
    }

    /** Runs the requested tools side by side. If it returns, there is one answer per request, in
        request order: the tool's own where its task finished, the interruption notice where the task
        was cancelled; a task that had finished before the interrupt keeps its own answer. */
    method ExecuteRequestedTools(requests: seq<ToolRequest>)
      returns (outcome: ToolOutcome, ghost atWait: seq<Task>, ghost ends: seq<Task>)
      requires Valid() && Stage().Acting? && Stage().response.tools == requests
      requires Stage().ends == seq(|requests|, _ => Running)
      modifies this
      ensures Valid() && OnlySignals() && Stage() == old(Stage()).(ends := ends)
      ensures |atWait| == |ends| == |requests|
      ensures forall i :: 0 <= i < |requests| && !atWait[i].Running? ==> ends[i] == atWait[i]
      ensures outcome.Answers? ==>
                AllEnded(ends) && !Broke(ends, !interruptRequested) && AnswersFor(outcome.answers, requests, ends) &&
                outcome.interrupted == interruptRequested && (!interruptRequested ==> AllEnded(atWait))
      ensures outcome.ToolsRaised? ==> Broke(ends, !interruptRequested)
    {
      hide InStep;
      hide CallsAfterFlush;
      hide SendsPaired;
      hide OnlyUndisturbedReplies;
      hide Ledger;
      hide History;
      hide StageOf;
      hide Turns;
      var tasks := WaitForTasks(|requests|);
      atWait := tasks;
      var interrupted := interruptRequested;
      var answers := [];
      for i := 0 to |requests|
        invariant Valid() && OnlySignals() && interrupted == interruptRequested && Stage() == old(Stage()).(ends := tasks)
        invariant |tasks| == |requests| && |answers| == i && (interrupted || AllEnded(tasks))
        invariant forall j :: 0 <= j < |tasks| && (i <= j || !atWait[j].Running?) ==> tasks[j] == atWait[j]
        invariant forall j :: 0 <= j < i ==>
                    !tasks[j].Running? && answers[j] == AnswerOf(requests[j], tasks[j]) &&
                    (tasks[j].Broken? ==> tasks[j].failure.cancelled && interrupted)
      {
        label Awaiting:
        tasks := AwaitTask(tasks, i);
        ContinuesTrans(old(trace), old@Awaiting(trace), trace);
        match tasks[i] {
          case Finished(value) =>
            answers := answers + [Real(requests[i].id, value)];
          case Broken(failure) =>
            if !(interrupted && failure.cancelled) {
              return ToolsRaised(failure), atWait, tasks;
            }
            answers := answers + [Cut(requests[i].id)];
        }
      }
      return ToolOutcome.Answers(answers, interrupted), atWait, tasks;
    }

    /** Records the initiating prompt, or restores a carried state. */
    method Begin(prompt: Option<string>, state: Option<AgentState>) returns (r: Result<int, RunError>)
      requires Valid() && Stage().Off?
      modifies this, context
      ensures Valid() && InterruptsLeft() == old(InterruptsLeft()) && terminated == old(terminated)
      ensures Extends(old(trace), trace) && Turns(trace) == Turns(old(trace))
      ensures AnsweredTurns(trace) == AnsweredTurns(old(trace)) && Dropped(trace) == Dropped(old(trace))
      ensures if r.Ok? then Between(Stage()) else Stage().Off?
      ensures RestoresUnmixed(old(trace)) && (state.Some? ==> AllUnmixed(state.value.snapshot.messages)) ==>
                RestoresUnmixed(trace)
      ensures r.Ok? <==> Begins(prompt, state)
      ensures r.Err? ==> !r.error.BudgetInvalid?
      ensures r.Ok? ==> r.value == if state.None? then 0 else state.value.turns
      ensures r.Ok? ==> context.messages == Opening(prompt, state, old(contextInitialized), old(context.messages))
    {
      if state.Some? {
        var restored := context.Restore(state.value.snapshot);
        if restored.Err? {
          return Err(SnapshotInvalid(restored.error));
        }
        trace := Then(trace, Restored(context.messages));
        contextInitialized := true;
        return Ok(state.value.turns);
      }
      if prompt.None? {
        return Err(PromptRequired);
      }
      if !contextInitialized {
        context.ReplaceMessages([]);
        trace := Then(trace, Restored([]));
        contextInitialized := true;
      }
      Record(Prompted(prompt.value));
      return Ok(0);
    }

    method FlushInterrupts()
      requires Valid() && (Between(Stage()) || (Stage().Rested? && interruptRequested))
      modifies this, context
      ensures Valid() && !interruptRequested && terminated == old(terminated)
      ensures Between(Stage()) && Turns(trace) == Turns(old(trace))
      ensures Continues(old(trace), trace) && InterruptsLeft() == old(undelivered)
      ensures WellPaired(old(context.messages)) ==> WellPaired(context.messages)
    {
      if WellPaired(context.messages) {
        ControlsKeepPairing(wording, trace, Interrupts, pendingInterrupts);
      }
      FlushInterruptContext();
    }

    method FlushSteering(q: Queue)
      requires Valid() && q != Interrupts && Recording(Stage())
      modifies this, context
      ensures Stage() == old(Stage()) && Turns(trace) == Turns(old(trace))
      ensures Valid() && Waiting(q) == [] && terminated == old(terminated) && Continues(old(trace), trace)
      ensures interruptRequested == old(interruptRequested) && InterruptsLeft() == old(InterruptsLeft())
      ensures WellPaired(old(context.messages)) ==> WellPaired(context.messages)
    {
      if WellPaired(context.messages) {
        ControlsKeepPairing(wording, trace, q, Waiting(q));
      }
      assert Waiting(Interrupts) == pendingInterrupts;
      Flush(q);
      assert Waiting(Interrupts) == pendingInterrupts;
    }

    /** Records a reply. */
    method RecordReply(response: Response)
      requires Valid() && Stage() == Owed(response) && !interruptRequested
      modifies context, this`trace
      ensures Valid() && trace == Then(old(trace), Replied(response))
      ensures Stage() == if EndsRun(response) then Closing(response)
                         else Acting(response, seq(|response.tools|, _ => Running))
      ensures context.messages == old(context.messages) + Render(wording, Replied(response))
      ensures response.tools == [] && WellPaired(old(context.messages)) ==> WellPaired(context.messages)
    {
      if response.tools == [] && WellPaired(context.messages) {
        BareMessageKeepsPairing(wording, context.messages, Replied(response));
      }
      FlagMeansDisturbed();
      Record(Replied(response));
    }

    /** Runs the tools of a reply just recorded, records their answers, then the steering that waited
        for them. The exchange is complete if this returns. */
    method AnswerTools(response: Response, ghost before: seq<Message>)
      returns (interrupted: bool, failure: Option<Failure>)
      requires Valid() && response.tools != []
      requires Stage() == Acting(response, seq(|response.tools|, _ => Running))
      requires context.messages == before + Render(wording, Replied(response))
      modifies this, context
      ensures Valid() && InterruptsLeft() == old(InterruptsLeft()) && terminated == old(terminated)
      ensures Continues(old(trace), trace) && Turns(trace) == Turns(old(trace))
      ensures if failure.None? then Stage() == Rested(response) && interrupted == interruptRequested
              else MayEnd(Stage(), ByFailure, !interruptRequested)
      ensures failure.None? && WellPaired(before) ==> WellPaired(context.messages)
      ensures failure.None? && !interrupted ==> Waiting(AfterTool) == []
    {
      ghost var atWait, ends;
      var outcome;
      outcome, atWait, ends := ExecuteRequestedTools(response.tools);
      FlagMeansDisturbed();
      if outcome.ToolsRaised? {
        return false, Some(outcome.failure);
      }
      if WellPaired(before) {
        ExchangeKeepsPairing(wording, before, response, outcome.answers);
      }
      Record(Answered(outcome.answers));
      label Answering:
      FlushSteering(AfterTool);
      ContinuesTrans(old(trace), old@Answering(trace), trace);
      return outcome.interrupted, None;
    }

    /** Puts waiting interrupts and steering into the conversation, then calls the provider: when the
        call starts, neither queue has anything waiting. */
    method FlushAndCall() returns (outcome: CallOutcome, ghost flushed: Trace)
      requires Valid() && Between(Stage())
      modifies this, context
      ensures Valid() && Continues(old(trace), flushed) && Continues(Then(flushed, CallStarted), trace)
      ensures Ledger(flushed, Interrupts, []) && Ledger(flushed, Immediate, [])
      ensures InterruptsLeft() <= old(InterruptsLeft()) && terminated == old(terminated)
      ensures Turns(trace) == Turns(old(trace)) + if outcome.Reply? then 1 else 0
      ensures outcome.Reply? ==> trace.Then? && trace.event == Arrived(outcome.response) && Stage() == Owed(outcome.response)
      ensures outcome.Interrupted? ==> interruptRequested && Stage().Idle?
      ensures outcome.Raised? ==> Raises(outcome.error)
      ensures WellPaired(old(context.messages)) ==> WellPaired(context.messages)
    {
      if interruptRequested {
        FlushInterrupts();
      }
      label Steering:
      FlushSteering(Immediate);
      ContinuesTrans(old(trace), old@Steering(trace), trace);
      flushed := trace;
      assert Waiting(Immediate) == pendingImmediate;
      outcome := CallProvider();
      match outcome {
        case Reply(response) => Note(Arrived(response));
        case Interrupted => Note(Withdrawn);
        case Raised(_) =>
      }
    }

    /** What a turn that ends the run leaves behind. */
    ghost predicate Stopped(outcome: RunOutcome, turn: int, pairedBefore: bool)
      reads this, context
    {
      Leaves(outcome, turn, pairedBefore) && MayEnd(Stage(), EndOf(outcome), !interruptRequested) &&
      (outcome.RunRaised? && outcome.reason.BudgetInvalid? ==> !BudgetFor(limits, reservedInput, false).Valid())
    }

    ghost predicate Leaves(outcome: RunOutcome, turn: int, pairedBefore: bool)
      reads this, context
    {
      (outcome.Returned? ==> !outcome.result.AlreadyTerminated?) &&
      (outcome.Returned? ==>
        !interruptRequested && outcome.turns == turn &&
        !outcome.result.AlreadyTerminated? && !outcome.result.MaxTurnsReached? &&
        (pairedBefore ==> (WellPaired(context.messages) <==> !OpenExchange(outcome.result))) &&
        (outcome.result.ContinueAsNew? ==> Carries(outcome.result.state, turn)) &&
        (outcome.result.FinalAnswer? ==>
           outcome.result.response.tools == [] && outcome.result.response.guardAction.None?) &&
        (outcome.result.GuardStop? ==> outcome.result.response.guardAction.Some?) &&
        terminated == Terminates(outcome.result))
    }

    /** The state carried into the next run: the compacted conversation and the turns used so far. */
    ghost predicate Carries(state: AgentState, turn: int)
      reads this, context
    {
      var budget := BudgetFor(limits, reservedInput, false);
      continueAsNewEnabled && budget.Valid() && context.Valid() && state.turns == turn &&
      state.snapshot == Snapshot(2, Continuation(context.settings, context.encoding, context.messages, Some(budget)))
    }

    /** Everything after an undisturbed response: record it, run its tools, and stop or go on. A guard
        verdict or a reply without tool calls stops the run. */
    method ActOn(response: Response, turn: int) returns (step: Step)
      requires Valid() && !terminated && !interruptRequested && Stage() == Owed(response)
      modifies this, context
      ensures Valid() && Continues(Then(old(trace), Replied(response)), trace) && Turns(trace) == Turns(old(trace))
      ensures response.guardAction.Some? ==> step == Stop(Returned(GuardStop(response), turn))
      ensures response.guardAction.None? && response.tools == [] ==> step == Stop(Returned(FinalAnswer(response), turn))
      ensures step.Stop? ==> Stopped(step.outcome, turn, WellPaired(old(context.messages)))
      ensures step.Again? ==> Between(Stage()) && !interruptRequested && !terminated
      ensures step.Again? ==> InterruptsLeft() <= old(InterruptsLeft()) && step.turn == turn
      ensures step.Again? && WellPaired(old(context.messages)) ==> WellPaired(context.messages)
    {
      hide InStep;
      hide CallsAfterFlush;
      hide SendsPaired;
      hide OnlyUndisturbedReplies;
      hide Ledger;
      hide History;
      ghost var before := context.messages;
      if response.tools != [] { OpenCallIsUnpaired(wording, before, response); }
      RecordReply(response);
      label Replying:
      if response.guardAction.Some? {
        if response.guardAction.value.Terminate? {
          terminated := true;
        }
        return Stop(Returned(GuardStop(response), turn));
      }
      if response.tools == [] {
        return Stop(Returned(FinalAnswer(response), turn));
      }
      step := ActOnTools(response, turn, before);
      ContinuesTrans(Then(old(trace), Replied(response)), old@Replying(trace), trace);
    }

    /** The runtime says whether the history has grown too long. */
    method AskRuntime() returns (suggested: bool)
      requires Valid() && Stage().Rested? && !interruptRequested
      modifies this`trace
      ensures Valid() && trace == Then(old(trace), Suggested(suggested, continueAsNewEnabled))
    {
      suggested := *;
      FlagMeansDisturbed();
      Note(Suggested(suggested, continueAsNewEnabled));
    }

    /** The agent continues as new if it may and the runtime suggests it. */
    method ShouldContinueAsNew() returns (leaving: bool)
      requires Valid() && Stage().Rested? && !interruptRequested
      modifies this`trace
      ensures Valid() && OnlySignals() && interruptRequested == old(interruptRequested)
      ensures Stage() == (if leaving then Leaving(old(Stage()).response) else Idle)
      ensures leaving ==> continueAsNewEnabled
    {
      FlagMeansDisturbed();
      var suggested := AskRuntime();
      leaving := continueAsNewEnabled && suggested;
    }

    /** The tools of a reply, and what follows their answers: interrupts, or a fresh start, or the next turn. */
    method ActOnTools(response: Response, turn: int, ghost before: seq<Message>) returns (step: Step)
      requires Valid() && !terminated && !interruptRequested && response.tools != [] && response.guardAction.None?
      requires Stage() == Acting(response, seq(|response.tools|, _ => Running))
      requires context.messages == before + Render(wording, Replied(response))
      modifies this, context
      ensures Valid() && Continues(old(trace), trace) && Turns(trace) == Turns(old(trace))
      ensures step.Stop? ==> Stopped(step.outcome, turn, WellPaired(before))
      ensures step.Stop? && step.outcome.Returned? ==> step.outcome.result.ContinueAsNew?
      ensures step.Again? ==> Between(Stage()) && !interruptRequested && !terminated
      ensures step.Again? ==> InterruptsLeft() <= old(InterruptsLeft()) && step.turn == turn
      ensures step.Again? && WellPaired(before) ==> WellPaired(context.messages)
    {
      hide InStep;
      hide CallsAfterFlush;
      hide SendsPaired;
      hide OnlyUndisturbedReplies;
      hide Ledger;
      hide History;
      hide StageOf;
      hide Turns;
      hide Consistent;
      hide BudgetFor;
      hide ForModel;
      var interrupted, failure := AnswerTools(response, before);
      label Answered:
      if failure.Some? {
        return Stop(RunRaised(Crashed(failure.value)));
      }
      if interruptRequested || interrupted {
        FlushInterrupts();
        ContinuesTrans(old(trace), old@Answered(trace), trace);
        return Again(turn);
      }
      var leaving := ShouldContinueAsNew();
      ContinuesTrans(old(trace), old@Answered(trace), trace);
      if leaving {
        var budget := BudgetFor(limits, reservedInput, false).Checked();
        if budget.Err? {
          return Stop(RunRaised(BudgetInvalid(budget.error)));
        }
        var snapshot := context.ContinuationContextSnapshot(Some(budget.value));
        return Stop(Returned(ContinueAsNew(response, AgentState(snapshot, turn)), turn));
      }
      return Again(turn);
    }

    /** One pass of the loop: either the turn count rises, by one for the response that arrived, or an
        interrupt is used up; a response that arrived undisturbed has been acted on. */
    method TakeTurn(turn: int) returns (step: Step)
      requires Valid() && !terminated && Between(Stage())
      modifies this, context
      ensures Valid() && Continues(old(trace), trace)
      ensures step.Stop? ==> Stopped(step.outcome, turn + 1, WellPaired(old(context.messages)))
      ensures step.Stop? && step.outcome.Returned? ==> Turns(trace) == Turns(old(trace)) + 1
      ensures step.Again? ==> Between(Stage()) && !interruptRequested && !terminated
      ensures step.Again? && WellPaired(old(context.messages)) ==> WellPaired(context.messages)
      ensures step.Again? ==> step.turn - turn == Turns(trace) - Turns(old(trace))
      ensures step.Again? ==>
                (step.turn == turn && InterruptsLeft() < old(InterruptsLeft())) ||
                (step.turn == turn + 1 && InterruptsLeft() <= old(InterruptsLeft()))
    {
      ghost var flushed;
      var outcome;
      outcome, flushed := FlushAndCall();
      ContinuesTrans(flushed, Then(flushed, CallStarted), trace);
      ContinuesTrans(old(trace), flushed, trace);
      label Called:
      match outcome {
        case Raised(error) =>
          return Stop(RunRaised(error));
        case Interrupted =>
          FlushInterrupts();
          step := Again(turn);
        case Reply(response) =>
          if interruptRequested {
            DropReply();
            step := Again(turn + 1);
          } else {
            step := ActOn(response, turn + 1);
            ContinuesTrans(old@Called(trace), Then(old@Called(trace), Replied(response)), trace);
          }
      }
      ContinuesTrans(old(trace), old@Called(trace), trace);
    }

    /** A response that arrived with an interrupt waiting is not recorded. */
    method DropReply()
      requires Valid() && Stage().Owed? && interruptRequested
      modifies this, context
      ensures Valid() && !interruptRequested && terminated == old(terminated)
      ensures Between(Stage()) && Turns(trace) == Turns(old(trace))
      ensures Continues(old(trace), trace) && InterruptsLeft() == old(undelivered)
      ensures WellPaired(old(context.messages)) ==> WellPaired(context.messages)
    {
      FlagMeansDisturbed();
      Note(Withdrawn);
      label Dropping:
      FlushInterrupts();
      ContinuesTrans(old(trace), old@Dropping(trace), trace);
    }

    /** Since then, what waited in any queue was recorded in order or still waits. */
    twostate lemma NothingIsLost()
      requires old(Valid()) && Valid() && Extends(old(trace), trace)
      ensures forall q: Queue :: Recorded(old(trace), q) <= Recorded(trace, q) &&
                old(Waiting(q)) <= Recorded(trace, q)[|Recorded(old(trace), q)|..] + Waiting(q)
    {
      forall q: Queue
        ensures Recorded(old(trace), q) <= Recorded(trace, q) &&
          old(Waiting(q)) <= Recorded(trace, q)[|Recorded(old(trace), q)|..] + Waiting(q)
      {
        NothingIsForgotten(old(trace), trace, q, old(Waiting(q)), Waiting(q));
      }
    }

    /** The agent loop. It ends for any finite number of interrupts; whatever the environment does, it
        only adds to what happened before, so that what waited in a queue is recorded in its order or
        still waits, and every control message is recorded once; no disturbed response is recorded, and
        every other is, and acted on; the turns are the responses that arrived; how the run ended is in
        the trace, and if it ran out of turns each was answered by tools or dropped for an interrupt; and
        a run that entered its loop and returned leaves no interrupt waiting, and an exchange open
        exactly if a guard stopped it on a response with tool calls. */
    method Run(prompt: Option<string>, state: Option<AgentState>, maxTurns: int) returns (r: RunOutcome)
      requires Valid() && Stage().Off?
      modifies this, context
      ensures Valid() && Extends(old(trace), trace) && Stage().Off?
      ensures !old(terminated) && Begins(prompt, state) ==>
                (r.Returned? ==> !r.result.AlreadyTerminated?) && trace.Then? && trace.event == Ended(EndOf(r)) &&
                StageOf(trace.before) != Off
      ensures r.RunRaised? && r.reason.BudgetInvalid? ==> !BudgetFor(limits, reservedInput, false).Valid()
      ensures r.Returned? && !old(terminated) && FirstTurn(state) <= maxTurns ==>
                r.turns - FirstTurn(state) == Turns(trace) - Turns(old(trace))
      ensures r.Returned? && r.result.MaxTurnsReached? ==>
                Turns(trace) - Turns(old(trace)) ==
                (AnsweredTurns(trace) - AnsweredTurns(old(trace))) + (Dropped(trace) - Dropped(old(trace)))
      ensures forall q: Queue :: Recorded(old(trace), q) <= Recorded(trace, q) &&
                old(Waiting(q)) <= Recorded(trace, q)[|Recorded(old(trace), q)|..] + Waiting(q)
      ensures RestoresUnmixed(old(trace)) && (state.Some? ==> AllUnmixed(state.value.snapshot.messages)) ==>
                RestoresUnmixed(trace)
      ensures r.Returned? ==> (r.result.AlreadyTerminated? <==> old(terminated))
      ensures r.Returned? && !old(terminated) && FirstTurn(state) < maxTurns ==>
                !interruptRequested && pendingInterrupts == [] && FirstTurn(state) < r.turns <= maxTurns
      ensures r.Returned? && r.result.MaxTurnsReached? ==> r.turns == maxTurns
      ensures r.Returned? ==> terminated == (old(terminated) || Terminates(r.result))
      ensures r.Returned? && r.result.ContinueAsNew? ==> Carries(r.result.state, r.turns)
      ensures r.Returned? && !old(terminated) && (state.None? ==> prompt.Some?) ==>
                WellPaired(Opening(prompt, state, old(contextInitialized), old(context.messages))) ==>
                (WellPaired(context.messages) <==> !OpenExchange(r.result))
    {
      hide InStep;
      hide CallsAfterFlush;
      hide SendsPaired;
      hide OnlyUndisturbedReplies;
      hide Ledger;
      hide History;
      hide Consistent;
      hide BudgetFor;
      hide Recorded;
      if terminated {
        r := Returned(AlreadyTerminated, FirstTurn(state));
      } else {
        var begun := Begin(prompt, state);
        if begun.Err? {
          r := RunRaised(begun.error);
        } else {
          label Begun:
          r := TakeAllTurns(begun.value, maxTurns);
          ExtendsTrans(old(trace), old@Begun(trace), trace);
        }
      }
      NothingIsLost();
    }

    /** The loop, and the note how the run ended. */
    method TakeAllTurns(first: int, maxTurns: int) returns (r: RunOutcome)
      requires Valid() && !terminated && Between(Stage())
      modifies this, context
      ensures Valid() && Extends(old(trace), trace) && Stage().Off?
      ensures RestoresUnmixed(old(trace)) ==> RestoresUnmixed(trace)
      ensures (r.Returned? ==> !r.result.AlreadyTerminated?) && trace.Then? && trace.event == Ended(EndOf(r)) &&
              StageOf(trace.before) != Off
      ensures r.RunRaised? && r.reason.BudgetInvalid? ==> !BudgetFor(limits, reservedInput, false).Valid()
      ensures r.Returned? && first <= maxTurns ==> r.turns - first == Turns(trace) - Turns(old(trace))
      ensures r.Returned? && r.result.MaxTurnsReached? ==>
                r.turns == maxTurns && !terminated && (WellPaired(old(context.messages)) ==> WellPaired(context.messages)) &&
                Turns(trace) - Turns(old(trace)) ==
                (AnsweredTurns(trace) - AnsweredTurns(old(trace))) + (Dropped(trace) - Dropped(old(trace)))
      ensures r.Returned? && !r.result.MaxTurnsReached? ==> Leaves(r, r.turns, WellPaired(old(context.messages)))
      ensures r.Returned? && first < maxTurns ==>
                !interruptRequested && pendingInterrupts == [] && first < r.turns <= maxTurns
    {
      hide InStep;
      hide CallsAfterFlush;
      hide SendsPaired;
      hide OnlyUndisturbedReplies;
      hide Ledger;
      hide History;
      r := TakeTurns(first, maxTurns);
      ContinuesExtends(old(trace), trace);
      if r.Returned? && r.result.MaxTurnsReached? {
        TurnsWereUsed(old(trace), trace);
      }
      Note(Ended(EndOf(r)));
    }

    /** The loop over turns. */
    method TakeTurns(first: int, maxTurns: int) returns (r: RunOutcome)
      requires Valid() && !terminated && Between(Stage())
      modifies this, context
      ensures Valid() && Continues(old(trace), trace)
      ensures (r.Returned? ==> !r.result.AlreadyTerminated?) && Allowed(trace, Ended(EndOf(r)))
      ensures r.RunRaised? && r.reason.BudgetInvalid? ==> !BudgetFor(limits, reservedInput, false).Valid()
      ensures r.Returned? && first <= maxTurns ==> r.turns - first == Turns(trace) - Turns(old(trace))
      ensures r.Returned? && r.result.MaxTurnsReached? ==>
                r.turns == maxTurns && !terminated && (WellPaired(old(context.messages)) ==> WellPaired(context.messages))
      ensures r.Returned? && !r.result.MaxTurnsReached? ==> Leaves(r, r.turns, WellPaired(old(context.messages)))
      ensures r.Returned? && first < maxTurns ==>
                !interruptRequested && pendingInterrupts == [] && first < r.turns <= maxTurns
    {
      var turn := first;
      ghost var entered := false;
      while turn < maxTurns
        invariant Valid() && !terminated && first <= turn && Between(Stage())
        invariant Continues(old(trace), trace) && turn - first == Turns(trace) - Turns(old(trace))
        invariant WellPaired(old(context.messages)) ==> WellPaired(context.messages)
        invariant entered ==> !interruptRequested && turn <= maxTurns
        invariant !entered ==> turn == first
        decreases maxTurns - turn + InterruptsLeft()
      {
        entered := true;
        label Turning:
        var step := TakeTurn(turn);
        ContinuesTrans(old(trace), old@Turning(trace), trace);
        if step.Stop? {
          MayEndNow(EndOf(step.outcome));
          return step.outcome;
        }
        turn := step.turn;
      }
      return Returned(MaxTurnsReached, maxTurns);
    }
  }

  /** A run begins with a prompt or a state that can be restored. */
  predicate Begins(prompt: Option<string>, state: Option<AgentState>) {
    if state.None? then prompt.Some? else state.value.snapshot.version == 2
  }

  function FirstTurn(state: Option<AgentState>): int {
    if state.Some? then state.value.turns else 0
  }

  /** The conversation a run starts from. */
  function Opening(prompt: Option<string>, state: Option<AgentState>, initialized: bool,
                   messages: seq<Message>): seq<Message>
    requires state.None? ==> prompt.Some?
  {
    if state.Some? then state.value.snapshot.messages
    else (if initialized then messages else []) + [Message(User, Str(prompt.value))]
  }

  /** A terminating guard verdict ends this agent for good. */
  predicate Terminates(r: RunResult) { r.GuardStop? && r.response.guardAction == Some(Terminate) }

  /** A guard may stop a run on a response whose tool calls are then never answered. */
  predicate OpenExchange(r: RunResult) { r.GuardStop? && r.response.tools != [] }

  method FirstRunning(tasks: seq<Task>) returns (i: nat)
    requires RunningCount(tasks) > 0
    ensures i < |tasks| && tasks[i].Running?
  {
    i := 0;
    RunningCountZero(tasks);
    while !tasks[i].Running?
      invariant 0 <= i < |tasks|
      invariant exists k :: i <= k < |tasks| && tasks[k].Running?
      decreases |tasks| - i
    {
      i := i + 1;
    }
  }

  /** Both attempts of a provider call send complete exchanges, and the second no more messages. */
  lemma AttemptsArePairedAndShrink(agent: Agent)
    requires agent.Consistent() && RestoresUnmixed(agent.trace)
    requires BudgetFor(agent.limits, agent.reservedInput, false).Valid()
    ensures BudgetFor(agent.limits, agent.reservedInput, true).Valid()
    ensures WellPaired(agent.Outgoing(false)) && WellPaired(agent.Outgoing(true))
    ensures |agent.Outgoing(true)| <= |agent.Outgoing(false)|
  {
    var c := agent.context;
    HistoryUnmixed(agent.wording, agent.trace);
    RetryIsStricter(agent.limits, agent.reservedInput);
    RetrySendsNoMore(c.settings, c.encoding, c.messages, agent.limits, agent.reservedInput);
    SentMessagesArePaired(c.settings, c.encoding, c.messages,
                          Some(BudgetFor(agent.limits, agent.reservedInput, false)));
    SentMessagesArePaired(c.settings, c.encoding, c.messages,
                          Some(BudgetFor(agent.limits, agent.reservedInput, true)));
  }

  lemma FirstLeaves(recorded: seq<string>, waiting: seq<string>)
    requires waiting != []
    ensures recorded + waiting == (recorded + [waiting[0]]) + waiting[1..]
  {
  }
}
