/** Approval of tool calls: guards, pending requests, decisions, and the memory of always-allowed keys. */
module Approvals {
  import opened Prelude
  import Decimal

  const MUTATING := "mutating"
  const MCP := "mcp"
  const ADMIN := "admin"

  datatype GuardDef = GuardDef(name: string, fulfills: set<string>)

  datatype ToolDef = ToolDef(name: string, toolType: string, preGuards: seq<GuardDef>, postGuards: seq<GuardDef>)

  /** Tool types that need a guard before, and a guard after, the tool. */
  datatype GuardPolicy = GuardPolicy(requiredPre: set<string>, requiredPost: set<string>)

  const DEFAULT_POLICY := GuardPolicy({ADMIN, MUTATING, MCP}, {})

  /** The only guard the chat agent's tool set registers. */
  const APPROVAL_GUARD := GuardDef("mutating_tool_approval", {MUTATING, MCP})

  predicate Fulfil(guards: seq<GuardDef>, toolType: string) {
    forall i :: 0 <= i < |guards| ==> toolType in guards[i].fulfills
  }

  predicate GuardsValid(policy: GuardPolicy, tool: ToolDef) {
    (tool.toolType in policy.requiredPre ==> tool.preGuards != []) &&
    (tool.toolType in policy.requiredPost ==> tool.postGuards != []) &&
    Fulfil(tool.preGuards, tool.toolType) && Fulfil(tool.postGuards, tool.toolType)
  }

  datatype GuardError = MissingPre | MissingPost | PreDoesNotFulfil(guard: string) | PostDoesNotFulfil(guard: string)

  /** The check before every tool call; it names the first thing wrong. */
  method ValidateToolGuards(policy: GuardPolicy, tool: ToolDef) returns (error: Option<GuardError>)
    ensures error.None? <==> GuardsValid(policy, tool)
    ensures error.None? <==>
              (tool.toolType in policy.requiredPre ==> tool.preGuards != []) &&
              (tool.toolType in policy.requiredPost ==> tool.postGuards != []) &&
              (forall i :: 0 <= i < |tool.preGuards| ==> tool.toolType in tool.preGuards[i].fulfills) &&
              forall i :: 0 <= i < |tool.postGuards| ==> tool.toolType in tool.postGuards[i].fulfills
    ensures error == Some(MissingPre) <==> tool.toolType in policy.requiredPre && tool.preGuards == []
    ensures error.Some? && error.value.PreDoesNotFulfil? ==>
              exists i :: 0 <= i < |tool.preGuards| && tool.preGuards[i].name == error.value.guard &&
                tool.toolType !in tool.preGuards[i].fulfills && Fulfil(tool.preGuards[..i], tool.toolType)
  {
    if tool.toolType in policy.requiredPre && tool.preGuards == [] { return Some(MissingPre); }
    if tool.toolType in policy.requiredPost && tool.postGuards == [] { return Some(MissingPost); }
    for i := 0 to |tool.preGuards|
      invariant Fulfil(tool.preGuards[..i], tool.toolType)
    {
      if tool.toolType !in tool.preGuards[i].fulfills { return Some(PreDoesNotFulfil(tool.preGuards[i].name)); }
    }
    assert tool.preGuards == tool.preGuards[..|tool.preGuards|];
    for i := 0 to |tool.postGuards|
      invariant Fulfil(tool.postGuards[..i], tool.toolType)
    {
      if tool.toolType !in tool.postGuards[i].fulfills { return Some(PostDoesNotFulfil(tool.postGuards[i].name)); }
    }
    assert tool.postGuards == tool.postGuards[..|tool.postGuards|];
    return None;
  }

  /** Guards run in order and the first that does not pass ends the matter. */
  method ExecuteGuards(guards: seq<GuardDef>, passes: GuardDef -> bool) returns (failed: Option<nat>)
    ensures failed.None? <==> forall i :: 0 <= i < |guards| ==> passes(guards[i])
    ensures failed.Some? ==> failed.value < |guards| && !passes(guards[failed.value]) &&
                             forall i :: 0 <= i < failed.value ==> passes(guards[i])
  {
    for i := 0 to |guards|
      invariant forall j :: 0 <= j < i ==> passes(guards[j])
    {
      if !passes(guards[i]) { return Some(i); }
    }
    return None;
  }

  datatype Decision = Allow | AlwaysAllow | Deny | Expired | Cancelled | Unknown(text: string)

  predicate Yes(d: Decision) { d == Allow || d == AlwaysAllow }

  predicate ByUser(d: Decision) { Yes(d) || d == Deny }

  datatype Origin = Own(call: nat) | Child(workflow: string, approval: string)

  /** Why one guard let a call pass. */
  datatype Grant = ById(id: string) | ByMemory

  datatype Fact =
    | Called(call: nat, tool: ToolDef, key: string)
    | Asked(id: string, origin: Origin, key: string)
    | Decided(id: string, decision: Decision)
    | Remembered(key: string, id: string, origin: Origin)
    | Ran(call: nat, tool: ToolDef, key: string, grants: seq<Grant>)

  /** What has happened in the life of the workflow, continue-as-new included. */
  datatype History = Nothing | Then(before: History, fact: Fact)

  datatype Request = Request(origin: Origin, key: string)

  /** A call between two guards: one grant for each guard passed. */
  datatype Waiting = Waiting(call: nat, tool: ToolDef, key: string, passed: seq<Grant>)

  datatype State = State(
    counter: nat,
    calls: nat,
    pending: map<string, Request>,
    decisions: map<string, Decision>,
    waiting: map<string, Waiting>,
    memory: set<string>,
    history: History
  )

  const INITIAL := State(0, 0, map[], map[], map[], {}, Nothing)

  function IdOf(n: nat): string { "approval-" + Decimal.Print(n) }

  function Note(s: State, f: Fact): State { s.(history := Then(s.history, f)) }

  function Ask(s: State, origin: Origin, key: string): State {
    var id := IdOf(s.counter + 1);
    Note(s.(counter := s.counter + 1, pending := s.pending[id := Request(origin, key)]), Asked(id, origin, key))
  }

  /** The call's next guard, or its body once all have passed. */
  function GoOn(s: State, w: Waiting): State
    decreases |w.tool.preGuards| - |w.passed|
  {
    if |w.passed| >= |w.tool.preGuards| then Note(s, Ran(w.call, w.tool, w.key, w.passed))
    else if w.key in s.memory then GoOn(s, w.(passed := w.passed + [ByMemory]))
    else Ask(s, Own(w.call), w.key).(waiting := s.waiting[IdOf(s.counter + 1) := w])
  }

  predicate Registered(tool: ToolDef) {
    tool.postGuards == [] && forall i :: 0 <= i < |tool.preGuards| ==> tool.preGuards[i] == APPROVAL_GUARD
  }

  /** Every call takes the next number. */
  function NewCall(s: State, tool: ToolDef, key: string): State {
    Note(s.(calls := s.calls + 1), Called(s.calls, tool, key))
  }

  function Start(s: State, tool: ToolDef, key: string): State {
    if !Registered(tool) || !GuardsValid(DEFAULT_POLICY, tool) then s
    else GoOn(NewCall(s, tool, key), Waiting(s.calls, tool, key, []))
  }

  function Remember(s: State, d: Decision, id: string, r: Request): State {
    if d == AlwaysAllow then Note(s.(memory := s.memory + {r.key}), Remembered(r.key, id, r.origin)) else s
  }

  function Resolve(s: State, id: string, d: Decision): State {
    if !ByUser(d) || id !in s.pending then s
    else if s.pending[id].origin.Child? then
      Remember(Note(s.(pending := s.pending - {id}), Decided(id, d)), d, id, s.pending[id])
    else Note(s.(decisions := s.decisions[id := d]), Decided(id, d))
  }

  /** The wait is over: nothing of the request is left but, perhaps, the waiting call. */
  function Forget(s: State, id: string): State {
    s.(pending := s.pending - {id}, waiting := s.waiting - {id})
  }

  function Wake(s: State, id: string): State
    requires id in s.waiting && id in s.decisions
  {
    var d, w := s.decisions[id], s.waiting[id];
    var next := Remember(Forget(s, id).(decisions := s.decisions - {id}), d, id, Request(Own(w.call), w.key));
    if Yes(d) then GoOn(next, w.(passed := w.passed + [ById(id)])) else next
  }

  predicate IsChild(r: Request, workflow: string, approval: string) { r.origin == Child(workflow, approval) }

  function RequestChild(s: State, workflow: string, approval: string, key: string): State {
    if key in s.memory || exists id :: id in s.pending && IsChild(s.pending[id], workflow, approval) then s
    else Ask(s, Child(workflow, approval), key)
  }

  function ExpireChild(s: State, workflow: string, approval: string): State {
    s.(pending := map id | id in s.pending && !IsChild(s.pending[id], workflow, approval) :: s.pending[id])
  }

  /** A new run keeps the memory and the counter. */
  function ContinueAsNew(s: State): State { s.(pending := map[], decisions := map[], waiting := map[]) }

  datatype Event =
    | CallTool(tool: ToolDef, key: string)
    | Resolved(id: string, decision: Decision)
    | Woken(id: string)
    | TimedOut(id: string)
    | WaitCancelled(id: string)
    | TaskCancelled(id: string)
    | ChildAsked(workflow: string, approval: string, key: string)
    | ChildExpired(workflow: string, approval: string)
    | NewRun

  /** One step; an event that is not possible where things stand changes nothing. A timeout or a
      cancelled wait forgets the request; a cancelled task leaves it pending with nobody waiting. */
  function Step(s: State, e: Event): State {
    match e
    case CallTool(tool, key) => Start(s, tool, key)
    case Resolved(id, d) => Resolve(s, id, d)
    case Woken(id) => if id in s.waiting && id in s.decisions then Wake(s, id) else s
    case TimedOut(id) => if id in s.waiting then Forget(s, id) else s
    case WaitCancelled(id) => if id in s.waiting && id !in s.decisions then Forget(s, id) else s
    case TaskCancelled(id) => s.(waiting := s.waiting - {id})
    case ChildAsked(workflow, approval, key) => RequestChild(s, workflow, approval, key)
    case ChildExpired(workflow, approval) => ExpireChild(s, workflow, approval)
    case NewRun => ContinueAsNew(s)
  }

  function Run(s: State, events: seq<Event>): State
    decreases |events|
  {
    if events == [] then s else Run(Step(s, events[0]), events[1..])
  }

  predicate Has(h: History, f: Fact) { h.Then? && (h.fact == f || Has(h.before, f)) }

  predicate EverAsked(h: History, id: string) {
    h.Then? && ((h.fact.Asked? && h.fact.id == id) || EverAsked(h.before, id))
  }

  predicate EverRemembered(h: History, key: string) {
    h.Then? && ((h.fact.Remembered? && h.fact.key == key) || EverRemembered(h.before, key))
  }

  /** The user's last word on a request. */
  function LastDecision(h: History, id: string): Option<Decision> {
    if h.Nothing? then None
    else if h.fact.Decided? && h.fact.id == id then Some(h.fact.decision)
    else LastDecision(h.before, id)
  }

  predicate SaidYes(h: History, id: string) {
    LastDecision(h, id) == Some(Allow) || LastDecision(h, id) == Some(AlwaysAllow)
  }

  predicate EverCalled(h: History, call: nat) {
    h.Then? && ((h.fact.Called? && h.fact.call == call) || EverCalled(h.before, call))
  }

  predicate CalledFor(h: History, call: nat, key: string) {
    h.Then? && ((h.fact.Called? && h.fact.call == call && h.fact.key == key) || CalledFor(h.before, call, key))
  }

  predicate EverRan(h: History, call: nat) {
    h.Then? && ((h.fact.Ran? && h.fact.call == call) || EverRan(h.before, call))
  }

  /** The approval was what let some body run. */
  predicate EverServed(h: History, id: string) {
    h.Then? && ((h.fact.Ran? && ById(id) in h.fact.grants) || EverServed(h.before, id))
  }

  /** A grant is worth something: this very call asked and the user's last word was yes, or its key
      had been remembered. */
  predicate Granted(h: History, call: nat, key: string, g: Grant) {
    match g
    case ById(id) => Has(h, Asked(id, Own(call), key)) && SaidYes(h, id)
    case ByMemory => EverRemembered(h, key)
  }

  predicate AllGranted(h: History, call: nat, key: string, grants: seq<Grant>) {
    forall i :: 0 <= i < |grants| ==> Granted(h, call, key, grants[i])
  }

  predicate NeedsApproval(toolType: string) { toolType == MUTATING || toolType == MCP }

  predicate Justified(h: History, f: Fact) {
    match f
    case Called(call, _, _) => !EverCalled(h, call)
    case Asked(id, origin, key) => !EverAsked(h, id) && (origin.Own? ==> CalledFor(h, origin.call, key))
    case Decided(id, _) => EverAsked(h, id)
    case Remembered(key, id, origin) => Has(h, Asked(id, origin, key)) && LastDecision(h, id) == Some(AlwaysAllow)
    case Ran(call, tool, key, grants) =>
      Has(h, Called(call, tool, key)) && !EverRan(h, call) && tool.toolType != ADMIN &&
      (NeedsApproval(tool.toolType) ==> grants != []) && AllGranted(h, call, key, grants)
  }

  /** Every fact was justified by what came before it. */
  predicate AllJustified(h: History) { h.Then? ==> Justified(h.before, h.fact) && AllJustified(h.before) }

  predicate Issued(h: History, counter: nat) {
    h.Then? ==> Issued(h.before, counter) && (h.fact.Asked? ==> exists n: nat :: n <= counter && h.fact.id == IdOf(n))
  }

  predicate CallsIssued(h: History, calls: nat) {
    h.Then? ==> CallsIssued(h.before, calls) && (h.fact.Called? ==> h.fact.call < calls)
  }

  predicate PendingOk(h: History, pending: map<string, Request>) {
    forall id :: id in pending ==> Has(h, Asked(id, pending[id].origin, pending[id].key))
  }

  predicate DecisionsOk(h: History, decisions: map<string, Decision>) {
    forall id :: id in decisions ==> LastDecision(h, id) == Some(decisions[id])
  }

  predicate MemoryOk(h: History, memory: set<string>) { forall key :: key in memory ==> EverRemembered(h, key) }

  /** Grants already held rest on requests that are settled for good. */
  predicate Held(h: History, pending: map<string, Request>, w: Waiting) {
    AllGranted(h, w.call, w.key, w.passed) &&
    forall i :: 0 <= i < |w.passed| && w.passed[i].ById? ==> w.passed[i].id !in pending
  }

  predicate CallOk(h: History, pending: map<string, Request>, w: Waiting) {
    GuardsValid(DEFAULT_POLICY, w.tool) && Registered(w.tool) && Held(h, pending, w) &&
    Has(h, Called(w.call, w.tool, w.key)) && !EverRan(h, w.call)
  }

  predicate WaitingOk(h: History, pending: map<string, Request>, waiting: map<string, Waiting>) {
    forall id :: id in waiting ==> Has(h, Asked(id, Own(waiting[id].call), waiting[id].key)) && CallOk(h, pending, waiting[id])
  }

  /** No call waits twice. */
  predicate CallsApart(waiting: map<string, Waiting>) {
    forall a, b :: a in waiting && b in waiting && waiting[a].call == waiting[b].call ==> a == b
  }

  predicate NotWaiting(waiting: map<string, Waiting>, call: nat) {
    forall id :: id in waiting ==> waiting[id].call != call
  }

  /** A child request is pending at most once. */
  predicate ChildrenOnce(pending: map<string, Request>) {
    forall a, b :: a in pending && b in pending && pending[a].origin.Child? && pending[a].origin == pending[b].origin ==> a == b
  }

  /** Only requests of this workflow's own calls leave a decision lying for the call to pick up. */
  predicate OwnDecisions(pending: map<string, Request>, decisions: map<string, Decision>) {
    forall id :: id in pending && id in decisions ==> pending[id].origin.Own?
  }

  predicate StateOk(s: State) {
    AllJustified(s.history) && Issued(s.history, s.counter) && PendingOk(s.history, s.pending) &&
    DecisionsOk(s.history, s.decisions) && MemoryOk(s.history, s.memory) &&
    WaitingOk(s.history, s.pending, s.waiting) && ChildrenOnce(s.pending) &&
    OwnDecisions(s.pending, s.decisions) && CallsIssued(s.history, s.calls) && CallsApart(s.waiting)
  }

  lemma IdsDiffer(a: nat, b: nat)
    requires IdOf(a) == IdOf(b)
    ensures a == b
  {
    assert IdOf(a)[9..] == Decimal.Print(a) && IdOf(b)[9..] == Decimal.Print(b);
    Decimal.PrintInjective(a, b);
  }

  lemma {:induction false} FreshId(h: History, counter: nat)
    requires Issued(h, counter)
    ensures !EverAsked(h, IdOf(counter + 1))
  {
    if h.Then? {
      FreshId(h.before, counter);
      if h.fact.Asked? {
        var n: nat :| n <= counter && h.fact.id == IdOf(n);
        if h.fact.id == IdOf(counter + 1) { IdsDiffer(n, counter + 1); }
      }
    }
  }

  lemma {:induction false} IssuedMore(h: History, counter: nat)
    requires Issued(h, counter)
    ensures Issued(h, counter + 1)
  {
    if h.Then? { IssuedMore(h.before, counter); }
  }

  lemma {:induction false} HasMeansAsked(h: History, id: string, origin: Origin, key: string)
    requires Has(h, Asked(id, origin, key))
    ensures EverAsked(h, id)
  {
    if h.fact != Asked(id, origin, key) { HasMeansAsked(h.before, id, origin, key); }
  }

  lemma {:induction false} DecidedMeansAsked(h: History, id: string)
    requires AllJustified(h) && LastDecision(h, id).Some?
    ensures EverAsked(h, id)
  {
    if !(h.fact.Decided? && h.fact.id == id) { DecidedMeansAsked(h.before, id); }
  }

  lemma {:induction false} FreshCall(h: History, calls: nat)
    requires CallsIssued(h, calls) && AllJustified(h)
    ensures !EverCalled(h, calls) && !EverRan(h, calls) && CallsIssued(h, calls + 1)
  {
    if h.Then? {
      FreshCall(h.before, calls);
      if h.fact.Ran? { HasMeansCalled(h.before, h.fact.call, h.fact.tool, h.fact.key); }
    }
  }

  lemma {:induction false} HasMeansCalled(h: History, call: nat, tool: ToolDef, key: string)
    requires Has(h, Called(call, tool, key))
    ensures EverCalled(h, call) && CalledFor(h, call, key)
  {
    if h.fact != Called(call, tool, key) { HasMeansCalled(h.before, call, tool, key); }
  }

  lemma HeldNote(h: History, pending: map<string, Request>, w: Waiting, f: Fact)
    requires Held(h, pending, w) && (f.Decided? ==> f.id in pending)
    ensures Held(Then(h, f), pending, w)
  {
    forall i | 0 <= i < |w.passed| ensures Granted(Then(h, f), w.call, w.key, w.passed[i]) {
      assert Granted(h, w.call, w.key, w.passed[i]);
    }
  }

  lemma WaitingNote(h: History, pending: map<string, Request>, waiting: map<string, Waiting>, f: Fact)
    requires WaitingOk(h, pending, waiting) && (f.Decided? ==> f.id in pending)
    requires f.Ran? ==> NotWaiting(waiting, f.call)
    ensures WaitingOk(Then(h, f), pending, waiting)
  {
    forall id | id in waiting ensures Held(Then(h, f), pending, waiting[id]) {
      HeldNote(h, pending, waiting[id], f);
    }
  }

  /** Remembering a key, or running the body of a call that does not wait, disturbs nothing. */
  lemma NoteKeepsOk(s: State, f: Fact)
    requires StateOk(s) && Justified(s.history, f) && (f.Remembered? || (f.Ran? && NotWaiting(s.waiting, f.call)))
    ensures StateOk(Note(s, f))
  {
    WaitingNote(s.history, s.pending, s.waiting, f);
  }

  lemma HeldAsk(h: History, pending: map<string, Request>, w: Waiting, id: string, r: Request)
    requires Held(h, pending, w) && !EverAsked(h, id)
    ensures Held(Then(h, Asked(id, r.origin, r.key)), pending[id := r], w)
  {
    HeldNote(h, pending, w, Asked(id, r.origin, r.key));
    forall i | 0 <= i < |w.passed| && w.passed[i].ById? ensures w.passed[i].id != id {
      assert Granted(h, w.call, w.key, w.passed[i]);
      HasMeansAsked(h, w.passed[i].id, Own(w.call), w.key);
    }
  }

  lemma AskKeepsOk(s: State, origin: Origin, key: string)
    requires StateOk(s) && (origin.Own? ==> CalledFor(s.history, origin.call, key))
    requires origin.Child? ==> forall id :: id in s.pending ==> s.pending[id].origin != origin
    ensures StateOk(Ask(s, origin, key))
  {
    var id, r := IdOf(s.counter + 1), Request(origin, key);
    FreshId(s.history, s.counter);
    IssuedMore(s.history, s.counter);
    if id in s.decisions { DecidedMeansAsked(s.history, id); }
    forall other | other in s.waiting
      ensures CallOk(Then(s.history, Asked(id, origin, key)), s.pending[id := r], s.waiting[other])
    {
      HeldAsk(s.history, s.pending, s.waiting[other], id, r);
    }
  }

  /** With only the approval guard registered, a tool that needs approval has it as a guard, and no
      admin tool passes validation. */
  lemma ToolIsGuarded(tool: ToolDef)
    requires GuardsValid(DEFAULT_POLICY, tool) && Registered(tool)
    ensures tool.toolType != ADMIN && (NeedsApproval(tool.toolType) ==> tool.preGuards != [])
  {
    assert ADMIN !in APPROVAL_GUARD.fulfills;
    if tool.preGuards != [] { assert tool.toolType in tool.preGuards[0].fulfills; }
  }

  lemma AskingKeepsOk(s: State, w: Waiting)
    requires StateOk(s) && CallOk(s.history, s.pending, w) && NotWaiting(s.waiting, w.call)
    ensures StateOk(Ask(s, Own(w.call), w.key).(waiting := s.waiting[IdOf(s.counter + 1) := w]))
  {
    hide AllJustified;
    hide Issued;
    hide CallsIssued;
    hide GuardsValid;
    hide Registered;
    hide IdOf;
    HasMeansCalled(s.history, w.call, w.tool, w.key);
    AskKeepsOk(s, Own(w.call), w.key);
    assert !EverAsked(s.history, IdOf(s.counter + 1)) by { FreshId(s.history, s.counter); }
    HeldAsk(s.history, s.pending, w, IdOf(s.counter + 1), Request(Own(w.call), w.key));
    hide Held;
  }

  lemma {:induction false} GoOnKeepsOk(s: State, w: Waiting)
    requires StateOk(s) && CallOk(s.history, s.pending, w) && NotWaiting(s.waiting, w.call)
    ensures StateOk(GoOn(s, w))
    decreases |w.tool.preGuards| - |w.passed|
  {
    if |w.passed| >= |w.tool.preGuards| {
      ToolIsGuarded(w.tool);
      NoteKeepsOk(s, Ran(w.call, w.tool, w.key, w.passed));
    } else if w.key in s.memory {
      GoOnKeepsOk(s, w.(passed := w.passed + [ByMemory]));
    } else {
      AskingKeepsOk(s, w);
    }
  }

  lemma RememberKeepsOk(s: State, d: Decision, id: string, r: Request)
    requires StateOk(s) && Has(s.history, Asked(id, r.origin, r.key)) && LastDecision(s.history, id) == Some(d)
    ensures StateOk(Remember(s, d, id, r))
  {
    if d == AlwaysAllow { NoteKeepsOk(s, Remembered(r.key, id, r.origin)); }
  }

  lemma FewerPendingKeepsOk(s: State, pending: map<string, Request>)
    requires StateOk(s) && forall id :: id in pending ==> id in s.pending && pending[id] == s.pending[id]
    ensures StateOk(s.(pending := pending))
  {
    assert PendingOk(s.history, pending);
    forall id | id in s.waiting ensures CallOk(s.history, pending, s.waiting[id]) {}
  }

  lemma DecidedKeepsOk(s: State, id: string, d: Decision)
    requires StateOk(s) && id in s.pending
    ensures s.pending[id].origin.Own? ==> StateOk(Note(s.(decisions := s.decisions[id := d]), Decided(id, d)))
    ensures s.pending[id].origin.Child? ==> StateOk(Note(s, Decided(id, d)))
  {
    HasMeansAsked(s.history, id, s.pending[id].origin, s.pending[id].key);
    WaitingNote(s.history, s.pending, s.waiting, Decided(id, d));
  }

  lemma ResolveKeepsOk(s: State, id: string, d: Decision)
    requires StateOk(s)
    ensures StateOk(Resolve(s, id, d))
  {
    if ByUser(d) && id in s.pending {
      DecidedKeepsOk(s, id, d);
      if s.pending[id].origin.Child? {
        var r, decided := s.pending[id], Note(s, Decided(id, d));
        FewerPendingKeepsOk(decided, s.pending - {id});
        RememberKeepsOk(decided.(pending := s.pending - {id}), d, id, r);
      }
    }
  }

  lemma ForgetKeepsOk(s: State, id: string)
    requires StateOk(s)
    ensures StateOk(Forget(s, id))
  {
    FewerPendingKeepsOk(s, s.pending - {id});
  }

  lemma WakeKeepsOk(s: State, id: string)
    requires StateOk(s) && id in s.waiting && id in s.decisions
    ensures StateOk(Wake(s, id))
  {
    var d, w := s.decisions[id], s.waiting[id];
    ForgetKeepsOk(s, id);
    var calm := Forget(s, id).(decisions := s.decisions - {id});
    RememberKeepsOk(calm, d, id, Request(Own(w.call), w.key));
    var next := Remember(calm, d, id, Request(Own(w.call), w.key));
    if Yes(d) {
      if d == AlwaysAllow { HeldNote(s.history, s.pending, w, next.history.fact); }
      GoOnKeepsOk(next, w.(passed := w.passed + [ById(id)]));
    }
  }

  lemma NewCallKeepsOk(s: State, tool: ToolDef, key: string)
    requires StateOk(s)
    ensures StateOk(NewCall(s, tool, key)) && NotWaiting(s.waiting, s.calls)
    ensures !EverRan(NewCall(s, tool, key).history, s.calls)
  {
    FreshCall(s.history, s.calls);
    WaitingNote(s.history, s.pending, s.waiting, Called(s.calls, tool, key));
    forall id | id in s.waiting ensures s.waiting[id].call != s.calls {
      HasMeansCalled(s.history, s.waiting[id].call, s.waiting[id].tool, s.waiting[id].key);
    }
  }

  lemma StepKeepsOk(s: State, e: Event)
    requires StateOk(s)
    ensures StateOk(Step(s, e))
  {
    match e
    case CallTool(tool, key) =>
      if Registered(tool) && GuardsValid(DEFAULT_POLICY, tool) {
        NewCallKeepsOk(s, tool, key);
        GoOnKeepsOk(NewCall(s, tool, key), Waiting(s.calls, tool, key, []));
      }
    case Resolved(id, d) => ResolveKeepsOk(s, id, d);
    case Woken(id) => if id in s.waiting && id in s.decisions { WakeKeepsOk(s, id); }
    case TimedOut(id) => ForgetKeepsOk(s, id);
    case WaitCancelled(id) => ForgetKeepsOk(s, id);
    case TaskCancelled(id) =>
    case ChildAsked(workflow, approval, key) =>
      if Step(s, e) != s { AskKeepsOk(s, Child(workflow, approval), key); }
    case ChildExpired(workflow, approval) => FewerPendingKeepsOk(s, ExpireChild(s, workflow, approval).pending);
    case NewRun =>
  }

  lemma {:induction false} RunKeepsOk(s: State, events: seq<Event>)
    requires StateOk(s)
    ensures StateOk(Run(s, events))
    decreases |events|
  {
    if events != [] {
      StepKeepsOk(s, events[0]);
      RunKeepsOk(Step(s, events[0]), events[1..]);
    }
  }

  /** What an event may add: a call only when one is made, a decision only when the user takes it, a
      child's request only when the child asks; a tool runs only at its call or when it wakes. */
  predicate MayAdd(e: Event, f: Fact) {
    match f
    case Called(_, tool, key) => e == CallTool(tool, key)
    case Asked(_, origin, key) =>
      if origin.Own? then e.CallTool? || e.Woken? else e == ChildAsked(origin.workflow, origin.approval, key)
    case Decided(id, d) => e == Resolved(id, d)
    case Remembered(_, id, _) => e == Woken(id) || (e.Resolved? && e.id == id)
    case Ran(_, _, _, _) => e.CallTool? || e.Woken?
  }

  /** A history and what came after it, all of it the doing of one event. */
  predicate GrowsBy(h: History, later: History, e: Event)
    decreases later
  {
    later == h || (later.Then? && MayAdd(e, later.fact) && GrowsBy(h, later.before, e))
  }

  predicate Extends(h: History, later: History)
    decreases later
  {
    later == h || (later.Then? && Extends(h, later.before))
  }

  lemma {:induction false} GrowsByTrans(a: History, b: History, c: History, e: Event)
    requires GrowsBy(a, b, e) && GrowsBy(b, c, e)
    ensures GrowsBy(a, c, e)
    decreases c
  {
    if b != c { GrowsByTrans(a, b, c.before, e); }
  }

  lemma {:induction false} ExtendsTrans(a: History, b: History, c: History)
    requires Extends(a, b) && Extends(b, c)
    ensures Extends(a, c)
    decreases c
  {
    if b != c { ExtendsTrans(a, b, c.before); }
  }

  lemma {:induction false} GrowthExtends(h: History, later: History, e: Event)
    requires GrowsBy(h, later, e)
    ensures Extends(h, later)
    decreases later
  {
    if h != later { GrowthExtends(h, later.before, e); }
  }

  lemma {:induction false} GoOnGrows(s: State, w: Waiting, e: Event)
    requires e.CallTool? || e.Woken?
    ensures GrowsBy(s.history, GoOn(s, w).history, e)
    decreases |w.tool.preGuards| - |w.passed|
  {
    if |w.passed| < |w.tool.preGuards| && w.key in s.memory { GoOnGrows(s, w.(passed := w.passed + [ByMemory]), e); }
  }

  /** No step takes anything back, and each adds only what its event may. */
  lemma StepGrows(s: State, e: Event)
    ensures GrowsBy(s.history, Step(s, e).history, e)
  {
    hide GoOn;
    match e
    case CallTool(tool, key) =>
      if Registered(tool) && GuardsValid(DEFAULT_POLICY, tool) {
        var called := NewCall(s, tool, key);
        GoOnGrows(called, Waiting(s.calls, tool, key, []), e);
        GrowsByTrans(s.history, called.history, GoOn(called, Waiting(s.calls, tool, key, [])).history, e);
      }
    case Resolved(id, d) =>
      assert GrowsBy(s.history, Then(s.history, Decided(id, d)), e);
    case Woken(id) =>
      if id in s.waiting && id in s.decisions {
        var d, w := s.decisions[id], s.waiting[id];
        var next := Remember(Forget(s, id).(decisions := s.decisions - {id}), d, id, Request(Own(w.call), w.key));
        GoOnGrows(next, w.(passed := w.passed + [ById(id)]), e);
        GrowsByTrans(s.history, next.history, GoOn(next, w.(passed := w.passed + [ById(id)])).history, e);
      }
    case _ =>
  }

  /** Nothing is forgotten over runs, continue-as-new included. */
  lemma {:induction false} RunExtends(s: State, events: seq<Event>)
    ensures Extends(s.history, Run(s, events).history)
    decreases |events|
  {
    hide Step;
    if events != [] {
      StepGrows(s, events[0]);
      GrowthExtends(s.history, Step(s, events[0]).history, events[0]);
      RunExtends(Step(s, events[0]), events[1..]);
      ExtendsTrans(s.history, Step(s, events[0]).history, Run(s, events).history);
    }
  }

  /** What the user says to a pending request becomes the last word on it. */
  lemma UsersWordIsRecorded(s: State, id: string, d: Decision)
    requires ByUser(d) && id in s.pending
    ensures LastDecision(Step(s, Resolved(id, d)).history, id) == Some(d)
  {
  }

  lemma {:induction false} StillAsked(h: History, later: History, id: string)
    requires Extends(h, later) && EverAsked(h, id)
    ensures EverAsked(later, id)
    decreases later
  {
    if h != later { StillAsked(h, later.before, id); }
  }

  /** Fact f was added to the history h when it was `before`. */
  predicate Moment(h: History, before: History, f: Fact) {
    h.Then? && ((h.before == before && h.fact == f) || Moment(h.before, before, f))
  }

  predicate AskedFor(h: History, id: string, key: string) {
    h.Then? && ((h.fact.Asked? && h.fact.id == id && h.fact.key == key) || AskedFor(h.before, id, key))
  }

  /** The user once answered always-allow to a request with this key. */
  predicate EverAlwaysAllowed(h: History, key: string) {
    h.Then? &&
    ((h.fact.Decided? && h.fact.decision == AlwaysAllow && AskedFor(h.before, h.fact.id, key)) ||
     EverAlwaysAllowed(h.before, key))
  }

  lemma {:induction false} MomentIsJustified(h: History, before: History, f: Fact)
    requires AllJustified(h) && Moment(h, before, f)
    ensures Justified(before, f) && AllJustified(before)
  {
    if !(h.before == before && h.fact == f) { MomentIsJustified(h.before, before, f); }
  }

  lemma {:induction false} HasMeansAskedFor(h: History, id: string, origin: Origin, key: string)
    requires Has(h, Asked(id, origin, key))
    ensures AskedFor(h, id, key)
  {
    if h.fact != Asked(id, origin, key) { HasMeansAskedFor(h.before, id, origin, key); }
  }

  lemma {:induction false} AlwaysAllowedBy(h: History, id: string, origin: Origin, key: string)
    requires AllJustified(h) && Has(h, Asked(id, origin, key)) && LastDecision(h, id) == Some(AlwaysAllow)
    ensures EverAlwaysAllowed(h, key)
  {
    if h.fact.Decided? && h.fact.id == id {
      HasMeansAskedFor(h.before, id, origin, key);
    } else {
      if h.fact == Asked(id, origin, key) { DecidedMeansAsked(h.before, id); }
      AlwaysAllowedBy(h.before, id, origin, key);
    }
  }

  lemma {:induction false} RememberedWasAllowed(h: History, key: string)
    requires AllJustified(h) && EverRemembered(h, key)
    ensures EverAlwaysAllowed(h, key)
  {
    if h.fact.Remembered? && h.fact.key == key {
      AlwaysAllowedBy(h.before, h.fact.id, h.fact.origin, key);
    } else {
      RememberedWasAllowed(h.before, key);
    }
  }

  /** Main result, over any run with any number of continue-as-new cycles: when the body of a mutating
      or MCP tool ran, that call had been made with this tool and key and had not run before, and it
      had itself asked and the user's last word on it was yes, or the user had earlier answered
      always-allow to a request with the same key. */
  lemma BodiesRunOnlyWithApproval(
    events: seq<Event>, before: History, call: nat, tool: ToolDef, key: string, grants: seq<Grant>)
    requires Moment(Run(INITIAL, events).history, before, Ran(call, tool, key, grants))
    requires NeedsApproval(tool.toolType)
    ensures Has(before, Called(call, tool, key)) && !EverRan(before, call)
    ensures EverAlwaysAllowed(before, key) ||
            exists id :: Has(before, Asked(id, Own(call), key)) && SaidYes(before, id)
  {
    RunKeepsOk(INITIAL, events);
    MomentIsJustified(Run(INITIAL, events).history, before, Ran(call, tool, key, grants));
    assert Granted(before, call, key, grants[0]);
    if grants[0].ByMemory? { RememberedWasAllowed(before, key); }
  }

  /** No two calls share a number, so an approval asked for by a call is that call's alone. */
  lemma CallsAreApart(events: seq<Event>, before: History, call: nat, tool: ToolDef, key: string)
    requires Moment(Run(INITIAL, events).history, before, Called(call, tool, key))
    ensures !EverCalled(before, call)
  {
    RunKeepsOk(INITIAL, events);
    MomentIsJustified(Run(INITIAL, events).history, before, Called(call, tool, key));
  }

  lemma {:induction false} AskedOnce(h: History, id: string, a: Origin, x: string, b: Origin, y: string)
    requires AllJustified(h) && Has(h, Asked(id, a, x)) && Has(h, Asked(id, b, y))
    ensures a == b && x == y
  {
    if h.fact == Asked(id, a, x) {
      if h.fact != Asked(id, b, y) { HasMeansAsked(h.before, id, b, y); }
    } else if h.fact == Asked(id, b, y) {
      HasMeansAsked(h.before, id, a, x);
    } else {
      AskedOnce(h.before, id, a, x, b, y);
    }
  }

  /** An approval that served some body was asked for by a call that ran. */
  lemma {:induction false} ServedCall(h: History, id: string) returns (call: nat, key: string)
    requires AllJustified(h) && EverServed(h, id)
    ensures Has(h, Asked(id, Own(call), key)) && EverRan(h, call)
  {
    if h.fact.Ran? && ById(id) in h.fact.grants {
      call, key := h.fact.call, h.fact.key;
      var i :| 0 <= i < |h.fact.grants| && h.fact.grants[i] == ById(id);
      assert Granted(h.before, call, key, h.fact.grants[i]);
    } else {
      call, key := ServedCall(h.before, id);
    }
  }

  /** Main result: an approval lets at most one body run. */
  lemma EachApprovalServesOnce(
    events: seq<Event>, before: History, call: nat, tool: ToolDef, key: string, grants: seq<Grant>, id: string)
    requires Moment(Run(INITIAL, events).history, before, Ran(call, tool, key, grants)) && ById(id) in grants
    ensures !EverServed(before, id)
  {
    RunKeepsOk(INITIAL, events);
    MomentIsJustified(Run(INITIAL, events).history, before, Ran(call, tool, key, grants));
    var i :| 0 <= i < |grants| && grants[i] == ById(id);
    assert Granted(before, call, key, grants[i]);
    if EverServed(before, id) {
      var other, otherKey := ServedCall(before, id);
      AskedOnce(before, id, Own(call), key, Own(other), otherKey);
    }
  }

  /** The one guard the set-up registers is not meant for admin tools, so none of these ever runs. */
  lemma AdminToolsNeverRun(
    events: seq<Event>, before: History, call: nat, tool: ToolDef, key: string, grants: seq<Grant>)
    requires Moment(Run(INITIAL, events).history, before, Ran(call, tool, key, grants))
    ensures tool.toolType != ADMIN
  {
    RunKeepsOk(INITIAL, events);
    MomentIsJustified(Run(INITIAL, events).history, before, Ran(call, tool, key, grants));
  }

  /** No approval id is issued twice, continue-as-new included: nothing of the history of the runs so far
      is gone from the history of those that follow, and an id is never asked for after it was. */
  lemma ApprovalIdsNeverRepeat(
    events: seq<Event>, more: seq<Event>, before: History, id: string, origin: Origin, key: string)
    requires Moment(Run(Run(INITIAL, events), more).history, before, Asked(id, origin, key))
    ensures Extends(Run(INITIAL, events).history, Run(Run(INITIAL, events), more).history)
    ensures !EverAsked(before, id)
  {
    var s := Run(INITIAL, events);
    RunKeepsOk(INITIAL, events);
    RunKeepsOk(s, more);
    RunExtends(s, more);
    MomentIsJustified(Run(s, more).history, before, Asked(id, origin, key));
  }

  lemma {:induction false} GoOnAsksNext(s: State, w: Waiting, id: string)
    requires id in GoOn(s, w).pending && id !in s.pending
    ensures id == IdOf(s.counter + 1)
    decreases |w.tool.preGuards| - |w.passed|
  {
    if |w.passed| < |w.tool.preGuards| && w.key in s.memory { GoOnAsksNext(s, w.(passed := w.passed + [ByMemory]), id); }
  }

  lemma NewPendingIsNext(s: State, e: Event, id: string)
    requires id in Step(s, e).pending && id !in s.pending
    ensures id == IdOf(s.counter + 1)
  {
    hide GoOn;
    match e
    case CallTool(tool, key) => GoOnAsksNext(NewCall(s, tool, key), Waiting(s.calls, tool, key, []), id);
    case Woken(other) =>
      var d, w := s.decisions[other], s.waiting[other];
      var next := Remember(Forget(s, other).(decisions := s.decisions - {other}), d, other, Request(Own(w.call), w.key));
      if Yes(d) { GoOnAsksNext(next, w.(passed := w.passed + [ById(other)]), id); }
    case _ =>
  }

  /** The same without the history: an id that becomes pending was not pending in any state before, in
      this run or an earlier one. */
  lemma PendingIdsAreNew(events: seq<Event>, more: seq<Event>, e: Event, id: string)
    requires var s := Run(Run(INITIAL, events), more); id in Step(s, e).pending && id !in s.pending
    ensures id !in Run(INITIAL, events).pending
  {
    var u := Run(INITIAL, events);
    var s := Run(u, more);
    RunKeepsOk(INITIAL, events);
    RunKeepsOk(u, more);
    RunExtends(u, more);
    NewPendingIsNext(s, e, id);
    FreshId(s.history, s.counter);
    if id in u.pending {
      HasMeansAsked(u.history, id, u.pending[id].origin, u.pending[id].key);
      StillAsked(u.history, s.history, id);
    }
  }

  /** However often a subagent repeats a request, at most one approval for it is pending. */
  lemma ChildRequestsPendAtMostOnce(events: seq<Event>, a: string, b: string)
    requires var pending := Run(INITIAL, events).pending;
             a in pending && b in pending && pending[a].origin.Child? && pending[a].origin == pending[b].origin
    ensures a == b
  {
    RunKeepsOk(INITIAL, events);
  }
}
