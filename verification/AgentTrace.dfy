/** What happens to an agent, as a trace of accepted signals and recorded messages. */
module AgentTrace {
  import opened Prelude
  import opened Messages
  import opened ExchangeRepair

  /** The three queues a user can put a message into while the agent works. */
  datatype Queue = Immediate | AfterTool | Interrupts

  datatype ToolRequest = ToolRequest(id: string, name: string, input: string)

  datatype GuardAction = Block | Terminate

  datatype Response = Response(text: string, tools: seq<ToolRequest>, guardAction: Option<GuardAction>)

  datatype ToolValue = ToolValue(payload: string, isError: bool)

  /** The result recorded for one requested tool: its own, or the notice that it was interrupted. */
  datatype Answer = Real(id: string, value: ToolValue) | Cut(id: string)

  /** What an exception says about itself. */
  datatype Failure = Failure(cancelled: bool, contextOverflow: bool)

  /** What the guards around a provider call decide. */
  datatype Verdict = Passes | Says(response: Response) | Fails(failure: Failure)

  datatype ActivityEnd = Completed(response: Response) | Discarded | Failed(failure: Failure)

  /** A tool call on its way. */
  datatype Task = Running | Finished(value: ToolValue) | Broken(failure: Failure)

  /** How a run ended. */
  datatype RunEnd =
    | ByAnswer(response: Response) | ByGuard(response: Response) | ByContinuing(response: Response)
    | ByTurns | ByFailure | ByBudget

  /** Signals accepted; what was recorded into the conversation; what the provider, the guards and the
      tools did, and whether the runtime suggested to continue as new; and what the agent made of it: a
      response that arrived and counts as a turn, a call or response withdrawn because of an interrupt,
      the end of a run. */
  datatype Event =
    | Accepted(queue: Queue, text: string)
    | Restored(messages: seq<Message>)
    | Prompted(text: string)
    | Control(queue: Queue, text: string)
    | Replied(response: Response)
    | Answered(answers: seq<Answer>)
    | CallStarted
    | GuardsSaid(verdict: Verdict)
    | Attempted(messages: seq<Message>)
    | ActivityEnded(end: ActivityEnd)
    | TaskEnded(task: nat, outcome: Task)
    | Arrived(response: Response)
    | Withdrawn
    | Suggested(freshStart: bool, enabled: bool)
    | Ended(how: RunEnd)

  /** Events in order, the latest outermost. */
  datatype Trace = Start | Then(before: Trace, event: Event)

  function Events(t: Trace): seq<Event> {
    match t
    case Start => []
    case Then(before, e) => Events(before) + [e]
  }

  /** Messages accepted for a queue, in order of arrival. */
  function Sent(t: Trace, q: Queue): seq<string> {
    match t
    case Start => []
    case Then(before, e) =>
      if e.Accepted? && e.queue == q then Sent(before, q) + [e.text] else Sent(before, q)
  }

  /** Messages of a queue that were recorded into the conversation, in order. */
  function Recorded(t: Trace, q: Queue): seq<string> {
    match t
    case Start => []
    case Then(before, e) =>
      if e.Control? && e.queue == q then Recorded(before, q) + [e.text] else Recorded(before, q)
  }

  /** Everything accepted for the queue was recorded once, in order, or still waits in it. */
  predicate Ledger(t: Trace, q: Queue, waiting: seq<string>) {
    Sent(t, q) == Recorded(t, q) + waiting
  }

  /** What happened up to some moment, and then more. */
  predicate Extends(past: Trace, t: Trace)
    decreases t
  {
    past == t || (t.Then? && Extends(past, t.before))
  }

  /** More happened within one run: no conversation was restored and no run ended. */
  predicate Continues(past: Trace, t: Trace)
    decreases t
  {
    past == t || (t.Then? && !t.event.Restored? && !t.event.Ended? && Continues(past, t.before))
  }

  lemma {:induction false} ContinuesTrans(t: Trace, u: Trace, v: Trace)
    requires Continues(t, u) && Continues(u, v)
    ensures Continues(t, v)
    decreases v
  {
    if u != v { ContinuesTrans(t, u, v.before); }
  }

  lemma {:induction false} ExtendsTrans(t: Trace, u: Trace, v: Trace)
    requires Extends(t, u) && Extends(u, v)
    ensures Extends(t, v)
    decreases v
  {
    if u != v { ExtendsTrans(t, u, v.before); }
  }

  lemma {:induction false} ContinuesExtends(t: Trace, u: Trace)
    requires Continues(t, u)
    ensures Extends(t, u) && (RestoresUnmixed(t) ==> RestoresUnmixed(u))
    decreases u
  {
    if t != u { ContinuesExtends(t, u.before); }
  }

  lemma {:induction false} QueuesGrow(past: Trace, t: Trace, q: Queue)
    requires Extends(past, t)
    ensures Sent(past, q) <= Sent(t, q) && Recorded(past, q) <= Recorded(t, q)
    decreases t
  {
    if past != t { QueuesGrow(past, t.before, q); }
  }

  /** What waited in a queue at some moment was, from its front on, recorded since in that order, and
      the rest of it still waits ahead of everything else. */
  lemma NothingIsForgotten(past: Trace, t: Trace, q: Queue, waiting: seq<string>, waitingNow: seq<string>)
    requires Extends(past, t) && Ledger(past, q, waiting) && Ledger(t, q, waitingNow)
    ensures Recorded(past, q) <= Recorded(t, q)
    ensures waiting <= Recorded(t, q)[|Recorded(past, q)|..] + waitingNow
  {
    QueuesGrow(past, t, q);
    var before, after := Recorded(past, q), Recorded(t, q);
    assert Sent(t, q)[|before|..] == after[|before|..] + waitingNow;
    assert Sent(past, q)[|before|..] == waiting;
  }

  /** Whenever a provider call started, no interrupt and no immediate steering was waiting. */
  predicate CallsAfterFlush(t: Trace) {
    match t
    case Start => true
    case Then(before, e) =>
      CallsAfterFlush(before) &&
      (e.CallStarted? ==> Ledger(before, Interrupts, []) && Ledger(before, Immediate, []))
  }

  /** No restored conversation held a message that mixes calls and results. */
  predicate RestoresUnmixed(t: Trace) {
    match t
    case Start => true
    case Then(before, e) => RestoresUnmixed(before) && (e.Restored? ==> AllUnmixed(e.messages))
  }

  /** Everything sent to a provider was paired, if no restored conversation was mixed. */
  predicate SendsPaired(t: Trace) {
    match t
    case Start => true
    case Then(before, e) =>
      SendsPaired(before) && (e.Attempted? && RestoresUnmixed(before) ==> WellPaired(e.messages))
  }

  /** A call has started and no interrupt was accepted since. */
  predicate Undisturbed(t: Trace) {
    match t
    case Start => false
    case Then(before, e) => e.CallStarted? || (!(e.Accepted? && e.queue == Interrupts) && Undisturbed(before))
  }

  /** Every recorded response came from a call that no interrupt disturbed. */
  predicate OnlyUndisturbedReplies(t: Trace) {
    match t
    case Start => true
    case Then(before, e) => OnlyUndisturbedReplies(before) && (e.Replied? ==> Undisturbed(before))
  }

  lemma {:induction false} UndisturbedMeans(t: Trace) returns (c: nat)
    requires Undisturbed(t)
    ensures c < |Events(t)| && Events(t)[c].CallStarted?
    ensures forall j :: c <= j < |Events(t)| ==> !(Events(t)[j].Accepted? && Events(t)[j].queue == Interrupts)
  {
    if t.event.CallStarted? {
      c := |Events(t)| - 1;
    } else {
      c := UndisturbedMeans(t.before);
    }
  }

  /** Read off positions: between the last call start before a recorded reply and that reply, no
      interrupt was accepted. */
  lemma {:induction false} RepliesAreUndisturbed(t: Trace, i: nat)
    requires OnlyUndisturbedReplies(t) && i < |Events(t)| && Events(t)[i].Replied?
    ensures exists c: nat :: c < i && Events(t)[c].CallStarted? &&
              forall j :: c <= j < i ==> !(Events(t)[j].Accepted? && Events(t)[j].queue == Interrupts)
  {
    var before := Events(t.before);
    if i == |before| {
      var c := UndisturbedMeans(t.before);
      assert Events(t)[c].CallStarted?;
    } else {
      assert before[i] == Events(t)[i];
      RepliesAreUndisturbed(t.before, i);
      var c: nat :| c < i && before[c].CallStarted? &&
        forall j :: c <= j < i ==> !(before[j].Accepted? && before[j].queue == Interrupts);
      forall j | c <= j < i ensures !(Events(t)[j].Accepted? && Events(t)[j].queue == Interrupts) {
        assert Events(t)[j] == before[j];
      }
      assert Events(t)[c] == before[c];
    }
  }

  /** Read off positions: every list sent in a life without mixed restored conversations was paired. */
  lemma {:induction false} AttemptsArePaired(t: Trace, i: nat)
    requires SendsPaired(t) && RestoresUnmixed(t) && i < |Events(t)| && Events(t)[i].Attempted?
    ensures WellPaired(Events(t)[i].messages)
  {
    if i < |Events(t.before)| { AttemptsArePaired(t.before, i); }
  }

  function UseBlocks(tools: seq<ToolRequest>): seq<Block> {
    seq(|tools|, i requires 0 <= i < |tools| => ToolUse(Some(tools[i].id), tools[i].name, tools[i].input))
  }

  /** Fixed texts: how a control message is tagged, and what an interrupted tool call answers. */
  datatype Wording = Wording(control: (Queue, string) -> string, cut: string)

  function AnswerBlocks(w: Wording, answers: seq<Answer>): seq<Block> {
    seq(|answers|, i requires 0 <= i < |answers| =>
      match answers[i]
      case Real(id, value) => ToolResult(Some(id), Chars(value.payload), value.isError)
      case Cut(id) => ToolResult(Some(id), Chars(w.cut), true))
  }

  /** The conversation message an event records, if any. */
  function Render(w: Wording, e: Event): seq<Message> {
    match e
    case Prompted(text) => [Message(User, Str(text))]
    case Control(q, text) => [Message(User, Str(w.control(q, text)))]
    case Replied(r) => [Message(Assistant, Blocks([Text(Some(r.text))] + UseBlocks(r.tools)))]
    case Answered(answers) => [Message(User, Blocks(AnswerBlocks(w, answers)))]
    case _ => []
  }

  /** Leaves the conversation as it is. */
  predicate Silent(e: Event) {
    !e.Restored? && !e.Prompted? && !e.Control? && !e.Replied? && !e.Answered?
  }

  /** The conversation the trace leaves: what was recorded since it was last restored. */
  function History(w: Wording, t: Trace): seq<Message> {
    match t
    case Start => []
    case Then(before, e) =>
      if e.Restored? then e.messages
      else if Silent(e) then History(w, before)
      else History(w, before) + Render(w, e)
  }

  /** The trace after the given messages of one queue were recorded in turn. */
  function WithControls(t: Trace, q: Queue, texts: seq<string>): Trace
    decreases |texts|
  {
    if texts == [] then t else WithControls(Then(t, Control(q, texts[0])), q, texts[1..])
  }

  /** Every request is answered, in request order. */
  predicate AnswersAll(answers: seq<Answer>, tools: seq<ToolRequest>) {
    |answers| == |tools| && forall i :: 0 <= i < |tools| ==> answers[i].id == tools[i].id
  }

  lemma UseBlockMembers(m: Message, text: string, tools: seq<ToolRequest>)
    requires m == Message(Assistant, Blocks([Text(Some(text))] + UseBlocks(tools)))
    ensures !HasResult(m)
    ensures UseIds(m) == set i | 0 <= i < |tools| :: tools[i].id
  {
    var bs := BlocksOf(m);
    forall i | 0 <= i < |tools| ensures tools[i].id in UseIds(m) {
      assert bs[i + 1] == ToolUse(Some(tools[i].id), tools[i].name, tools[i].input);
      assert bs[i + 1] in bs;
    }
    forall id | id in UseIds(m) ensures exists i :: 0 <= i < |tools| && tools[i].id == id {
      var k :| 0 <= k < |bs| && bs[k].ToolUse? && bs[k].id == Some(id);
      assert tools[k - 1].id == id;
    }
  }

  lemma AnswerBlockMembers(w: Wording, m: Message, answers: seq<Answer>, tools: seq<ToolRequest>)
    requires m == Message(User, Blocks(AnswerBlocks(w, answers))) && AnswersAll(answers, tools)
    ensures UseIds(m) == {} && forall i :: 0 <= i < |tools| ==> tools[i].id in ResultIds(m)
  {
    var bs := BlocksOf(m);
    forall i | 0 <= i < |tools| ensures tools[i].id in ResultIds(m) {
      assert bs[i].ToolResult? && bs[i].useId == Some(tools[i].id);
      assert bs[i] in bs;
    }
  }

  /** Recording a prompt, a control message or a reply without tool calls keeps a history paired. */
  lemma BareMessageKeepsPairing(w: Wording, history: seq<Message>, e: Event)
    requires WellPaired(history)
    requires e.Prompted? || e.Control? || (e.Replied? && e.response.tools == [])
    ensures WellPaired(history + Render(w, e))
  {
    var m := Render(w, e)[0];
    if e.Replied? { UseBlockMembers(m, e.response.text, []); }
    assert UseIds(m) == {} && !HasResult(m);
    assert WellPaired([m]);
    PairedConcat(history, [m]);
  }

  /** Control messages never break an exchange. */
  lemma {:induction false} ControlsKeepPairing(w: Wording, t: Trace, q: Queue, texts: seq<string>)
    requires WellPaired(History(w, t))
    ensures WellPaired(History(w, WithControls(t, q, texts)))
    decreases |texts|
  {
    if texts != [] {
      BareMessageKeepsPairing(w, History(w, t), Control(q, texts[0]));
      ControlsKeepPairing(w, Then(t, Control(q, texts[0])), q, texts[1..]);
    }
  }

  /** A reply with its complete answers keeps a history paired. */
  lemma ExchangeKeepsPairing(w: Wording, history: seq<Message>, r: Response, answers: seq<Answer>)
    requires WellPaired(history) && AnswersAll(answers, r.tools) && r.tools != []
    ensures WellPaired(history + Render(w, Replied(r)) + Render(w, Answered(answers)))
  {
    var use, results := Render(w, Replied(r))[0], Render(w, Answered(answers))[0];
    UseBlockMembers(use, r.text, r.tools);
    AnswerBlockMembers(w, results, answers, r.tools);
    assert r.tools[0].id in UseIds(use);
    ExchangeIsPaired(use, results);
    PairedConcat(history, [use, results]);
    assert history + [use] + [results] == history + [use, results];
  }

  lemma RenderUnmixed(w: Wording, e: Event)
    ensures AllUnmixed(Render(w, e))
  {
    if e.Replied? {
      UseBlockMembers(Render(w, e)[0], e.response.text, e.response.tools);
    } else if e.Answered? {
      var m := Render(w, e)[0];
      assert UseIds(m) == {} by {
        forall b | b in BlocksOf(m) ensures !b.ToolUse? {
          var i :| 0 <= i < |e.answers| && AnswerBlocks(w, e.answers)[i] == b;
        }
      }
    }
  }

  /** Nothing the agent records mixes calls and results. */
  lemma {:induction false} HistoryUnmixed(w: Wording, t: Trace)
    requires RestoresUnmixed(t)
    ensures AllUnmixed(History(w, t))
  {
    if t.Then? {
      HistoryUnmixed(w, t.before);
      RenderUnmixed(w, t.event);
    }
  }

  /** The conversation says everything: a recorded reply has its text and then its calls, in order. */
  lemma ReplyInFull(w: Wording, r: Response)
    ensures |Render(w, Replied(r))| == 1
    ensures var m := Render(w, Replied(r))[0];
            m.role.Assistant? && |BlocksOf(m)| == 1 + |r.tools| && BlocksOf(m)[0] == Text(Some(r.text)) &&
            forall i :: 0 <= i < |r.tools| ==>
              BlocksOf(m)[1 + i] == ToolUse(Some(r.tools[i].id), r.tools[i].name, r.tools[i].input)
  {
    UseBlocksAre(r.tools);
    hide UseBlocks;
    var uses := UseBlocks(r.tools);
    assert BlocksOf(Render(w, Replied(r))[0]) == [Text(Some(r.text))] + uses;
    assert forall i :: 0 <= i < |uses| ==> ([Text(Some(r.text))] + uses)[1 + i] == uses[i];
  }

  lemma UseBlocksAre(tools: seq<ToolRequest>)
    ensures |UseBlocks(tools)| == |tools|
    ensures forall i :: 0 <= i < |tools| ==>
              UseBlocks(tools)[i] == ToolUse(Some(tools[i].id), tools[i].name, tools[i].input)
  {
  }

  /** Recorded answers have their ids, payloads and error marks, in order. */
  lemma AnswersInFull(w: Wording, answers: seq<Answer>)
    ensures |Render(w, Answered(answers))| == 1
    ensures var m := Render(w, Answered(answers))[0];
            m.role.User? && |BlocksOf(m)| == |answers| &&
            forall i :: 0 <= i < |answers| ==>
              BlocksOf(m)[i] == match answers[i]
                                case Real(id, value) => ToolResult(Some(id), Chars(value.payload), value.isError)
                                case Cut(id) => ToolResult(Some(id), Chars(w.cut), true)
  {
    assert BlocksOf(Render(w, Answered(answers))[0]) == AnswerBlocks(w, answers);
  }

  /** A reply whose tool calls were never answered leaves the history unpaired. */
  lemma OpenCallIsUnpaired(w: Wording, history: seq<Message>, r: Response)
    requires r.tools != []
    ensures !WellPaired(history + Render(w, Replied(r)))
  {
    var ms := history + Render(w, Replied(r));
    UseBlockMembers(ms[|history|], r.text, r.tools);
    assert r.tools[0].id in UseIds(ms[|history|]);
    assert !CallAnswered(ms, |history|);
  }
}
