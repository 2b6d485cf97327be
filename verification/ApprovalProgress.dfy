/** What a decision leads to: approved calls run, others never do, and what was always allowed stays so. */
module ApprovalProgress {
  import opened Prelude
  import opened Approvals

  /** A call stands behind a pending request of its own. */
  predicate WaitsAs(s: State, call: nat, key: string, id: string) {
    id in s.pending && s.pending[id] == Request(Own(call), key) && id in s.waiting && s.waiting[id].call == call &&
    s.waiting[id].key == key
  }

  /** Going on runs the body if no guard is left or the key is remembered, and else asks under the next id. */
  lemma {:induction false} GoOnRunsIff(s: State, w: Waiting)
    ensures var t := GoOn(s, w);
            if |w.passed| >= |w.tool.preGuards| || w.key in s.memory then
              t.history.Then? && t.history.before == s.history && t.history.fact.Ran? && t.history.fact.call == w.call &&
              t.history.fact.tool == w.tool && t.history.fact.key == w.key && t == s.(history := t.history)
            else
              var id := IdOf(s.counter + 1);
              t == s.(counter := s.counter + 1, pending := s.pending[id := Request(Own(w.call), w.key)],
                      waiting := s.waiting[id := w], history := Then(s.history, Asked(id, Own(w.call), w.key)))
    decreases |w.tool.preGuards| - |w.passed|
  {
    if |w.passed| < |w.tool.preGuards| && w.key in s.memory { GoOnRunsIff(s, w.(passed := w.passed + [ByMemory])); }
  }

  /** Main result: a valid call runs at once if its tool has no guard or its key is remembered, and asks
      under the next id if not; an invalid one does nothing. */
  lemma CalledToolRunsIff(s: State, tool: ToolDef, key: string)
    requires StateOk(s)
    ensures var t, valid := Step(s, CallTool(tool, key)), Registered(tool) && GuardsValid(DEFAULT_POLICY, tool);
            (!valid ==> t == s) &&
            (valid ==> Has(t.history, Called(s.calls, tool, key)) && t.calls == s.calls + 1) &&
            (EverRan(t.history, s.calls) <==> valid && (tool.preGuards == [] || key in s.memory)) &&
            (WaitsAs(t, s.calls, key, IdOf(s.counter + 1)) <==> valid && tool.preGuards != [] && key !in s.memory)
  {
    NewCallKeepsOk(s, tool, key);
    FreshCall(s.history, s.calls);
    NextIdIsFree(s);
    GoOnRunsIff(NewCall(s, tool, key), Waiting(s.calls, tool, key, []));
  }

  lemma NextIdIsFree(s: State)
    requires StateOk(s)
    ensures IdOf(s.counter + 1) !in s.pending && IdOf(s.counter + 1) !in s.waiting && IdOf(s.counter + 1) !in s.decisions
  {
    var id := IdOf(s.counter + 1);
    FreshId(s.history, s.counter);
    if id in s.pending { HasMeansAsked(s.history, id, s.pending[id].origin, s.pending[id].key); }
    if id in s.waiting { HasMeansAsked(s.history, id, Own(s.waiting[id].call), s.waiting[id].key); }
    if id in s.decisions { DecidedMeansAsked(s.history, id); }
  }

  /** Main result: when a call wakes with the user's decision it runs exactly after a yes, if this was its
      last guard or its key is now remembered; after a yes with guards left it waits under the next id;
      after anything else it is gone. Its request is settled in every case. */
  lemma WokenCallRunsIff(s: State, id: string)
    requires StateOk(s) && id in s.waiting && id in s.decisions
    ensures var t, w, d := Step(s, Woken(id)), s.waiting[id], s.decisions[id];
            var through := |w.passed| + 1 >= |w.tool.preGuards| || w.key in s.memory || d == AlwaysAllow;
            var yes := d == Allow || d == AlwaysAllow;
            (EverRan(t.history, w.call) <==> yes && through) &&
            (WaitsAs(t, w.call, w.key, IdOf(s.counter + 1)) <==> yes && !through) &&
            (!yes ==> NotWaiting(t.waiting, w.call)) &&
            id !in t.waiting && id !in t.pending && id !in t.decisions &&
            (d == AlwaysAllow ==> w.key in t.memory) && s.memory <= t.memory
  {
    hide GuardsValid;
    hide Registered;
    hide Held;
    var w, d := s.waiting[id], s.decisions[id];
    NextIdIsFree(s);
    var next := Remember(Forget(s, id).(decisions := s.decisions - {id}), d, id, Request(Own(w.call), w.key));
    GoOnRunsIff(next, w.(passed := w.passed + [ById(id)]));
  }

  /** Main result: a call that needs approval once, and whose key is not remembered, runs after the user's
      word exactly if that is a yes. */
  lemma UserDecides(s: State, tool: ToolDef, key: string, d: Decision)
    requires StateOk(s) && Registered(tool) && GuardsValid(DEFAULT_POLICY, tool)
    requires |tool.preGuards| == 1 && key !in s.memory && ByUser(d)
    ensures var id := IdOf(s.counter + 1);
            var t := Run(s, [CallTool(tool, key), Resolved(id, d), Woken(id)]);
            (EverRan(t.history, s.calls) <==> d == Allow || d == AlwaysAllow) && (d == AlwaysAllow ==> key in t.memory)
  {
    var id := IdOf(s.counter + 1);
    var called := Step(s, CallTool(tool, key));
    CalledToolRunsIff(s, tool, key);
    StepKeepsOk(s, CallTool(tool, key));
    CalledWaits(s, tool, key);
    var decided := Step(called, Resolved(id, d));
    StepKeepsOk(called, Resolved(id, d));
    WokenCallRunsIff(decided, id);
    ThreeSteps(s, CallTool(tool, key), Resolved(id, d), Woken(id));
  }

  lemma CalledWaits(s: State, tool: ToolDef, key: string)
    requires Registered(tool) && GuardsValid(DEFAULT_POLICY, tool) && tool.preGuards != [] && key !in s.memory
    ensures var id, t := IdOf(s.counter + 1), Step(s, CallTool(tool, key));
            id in t.waiting && t.waiting[id] == Waiting(s.calls, tool, key, []) && t.memory == s.memory
  {
  }

  lemma ThreeSteps(s: State, a: Event, b: Event, c: Event)
    ensures Run(s, [a, b, c]) == Step(Step(Step(s, a), b), c)
  {
    hide Step;
    assert [a, b, c][1..] == [b, c] && [b, c][1..] == [c] && [c][1..] == [];
    assert Run(s, [a, b, c]) == Run(Step(s, a), [b, c]) == Run(Step(Step(s, a), b), [c]);
  }

  /** A call that was made and does not wait is over: it ran, or never will. */
  predicate Over(s: State, call: nat) { call < s.calls && NotWaiting(s.waiting, call) && !EverRan(s.history, call) }

  lemma OverStep(s: State, e: Event, call: nat)
    requires StateOk(s) && Over(s, call)
    ensures Over(Step(s, e), call)
  {
    hide GoOn;
    hide StateOk;
    match e
    case CallTool(tool, key) =>
      assert !EverRan(NewCall(s, tool, key).history, call);
      GoOnRunsIff(NewCall(s, tool, key), Waiting(s.calls, tool, key, []));
    case Resolved(id, d) =>
      assert !EverRan(Then(s.history, Decided(id, d)), call);
    case Woken(id) =>
      if id in s.waiting && id in s.decisions {
        var w, d := s.waiting[id], s.decisions[id];
        var next := Remember(Forget(s, id).(decisions := s.decisions - {id}), d, id, Request(Own(w.call), w.key));
        assert !EverRan(next.history, call);
        GoOnRunsIff(next, w.(passed := w.passed + [ById(id)]));
      }
    case _ =>
  }

  /** Main result: a call that was denied, timed out or cancelled never runs, whatever follows. */
  lemma {:induction false} CallsThatAreOverNeverRun(s: State, events: seq<Event>, call: nat)
    requires StateOk(s) && Over(s, call)
    ensures !EverRan(Run(s, events).history, call)
    decreases |events|
  {
    if events != [] {
      OverStep(s, events[0], call);
      StepKeepsOk(s, events[0]);
      CallsThatAreOverNeverRun(Step(s, events[0]), events[1..], call);
    }
  }

  /** A timeout or a cancelled wait settles the request and is the end of the call; a cancelled task is the
      end of the call alone. */
  lemma GivenUpCallIsOver(s: State, id: string, e: Event)
    requires StateOk(s) && id in s.waiting
    requires e == TimedOut(id) || (e == WaitCancelled(id) && id !in s.decisions) || e == TaskCancelled(id)
    ensures var t := Step(s, e);
            id !in t.waiting && NotWaiting(t.waiting, s.waiting[id].call) &&
            (if e.TaskCancelled? then t.pending == s.pending else t.pending == s.pending - {id}) &&
            t.memory == s.memory && t.history == s.history
  {
  }

  /** A decision settles a child's request at once, and an always-allow is remembered. */
  lemma ChildDecisionSettles(s: State, id: string, d: Decision)
    requires id in s.pending && s.pending[id].origin.Child? && (d == Allow || d == AlwaysAllow || d == Deny)
    ensures var t := Step(s, Resolved(id, d));
            t.pending == s.pending - {id} && t.memory == s.memory + (if d == AlwaysAllow then {s.pending[id].key} else {}) &&
            t.decisions == s.decisions && t.waiting == s.waiting
  {
  }

  /** A child's request is pending once made, unless its key is remembered, and costs no other its place. */
  lemma ChildRequestIsPending(s: State, workflow: string, approval: string, key: string)
    requires StateOk(s)
    ensures var t := Step(s, ChildAsked(workflow, approval, key));
            (key in s.memory ==> t == s) &&
            (key !in s.memory ==> exists other :: other in t.pending && t.pending[other].origin == Child(workflow, approval)) &&
            forall other :: other in s.pending ==> other in t.pending && t.pending[other] == s.pending[other]
  {
    hide StateOk;
    NextIdIsFree(s);
    var t := Step(s, ChildAsked(workflow, approval, key));
    if key !in s.memory && t != s {
      assert IdOf(s.counter + 1) in t.pending;
    }
  }

  /** An expired request is gone, and no other. */
  lemma ExpiredRequestIsGone(s: State, workflow: string, approval: string)
    ensures var t := Step(s, ChildExpired(workflow, approval));
            t == s.(pending := t.pending) &&
            forall other :: (other in t.pending <==> other in s.pending && s.pending[other].origin != Child(workflow, approval)) &&
                            (other in t.pending ==> t.pending[other] == s.pending[other])
  {
  }

  /** A new run starts with nothing pending, the same counters and the same memory. */
  lemma NewRunKeepsMemory(s: State)
    ensures var t := Step(s, NewRun);
            t.pending.Keys == t.decisions.Keys == t.waiting.Keys == {} &&
            t.counter == s.counter && t.calls == s.calls && t.memory == s.memory && t.history == s.history
  {
  }

  /** A decision for a request that is not pending, or that is no decision, changes nothing; one for a
      request of one's own is kept for the call. */
  lemma OwnDecisionWaits(s: State, id: string, d: Decision)
    ensures var t := Step(s, Resolved(id, d));
            (id !in s.pending || !(d == Allow || d == AlwaysAllow || d == Deny) ==> t == s) &&
            (id in s.pending && s.pending[id].origin.Own? && (d == Allow || d == AlwaysAllow || d == Deny) ==>
               id in t.decisions && t.decisions[id] == d && t.pending == s.pending && t.waiting == s.waiting)
  {
  }

  ghost predicate MemoryComplete(s: State) { forall key :: EverRemembered(s.history, key) ==> key in s.memory }

  lemma StepKeepsMemory(s: State, e: Event)
    requires StateOk(s) && MemoryComplete(s)
    ensures MemoryComplete(Step(s, e))
  {
    hide GoOn;
    hide StateOk;
    match e
    case CallTool(tool, key) =>
      assert forall k :: EverRemembered(NewCall(s, tool, key).history, k) ==> k in s.memory;
      GoOnRunsIff(NewCall(s, tool, key), Waiting(s.calls, tool, key, []));
    case Resolved(id, d) =>
      assert forall key :: EverRemembered(Then(s.history, Decided(id, d)), key) ==> key in s.memory;
    case Woken(id) =>
      if id in s.waiting && id in s.decisions {
        var w, d := s.waiting[id], s.decisions[id];
        var next := Remember(Forget(s, id).(decisions := s.decisions - {id}), d, id, Request(Own(w.call), w.key));
        assert forall key :: EverRemembered(next.history, key) ==> key in next.memory;
        GoOnRunsIff(next, w.(passed := w.passed + [ById(id)]));
      }
    case _ =>
  }

  lemma {:induction false} RunKeepsMemory(s: State, events: seq<Event>)
    requires StateOk(s) && MemoryComplete(s)
    ensures MemoryComplete(Run(s, events))
    decreases |events|
  {
    if events != [] {
      StepKeepsOk(s, events[0]);
      StepKeepsMemory(s, events[0]);
      RunKeepsMemory(Step(s, events[0]), events[1..]);
    }
  }

  /** Main result: over any run with any number of continue-as-new cycles, the memory holds exactly the
      keys that were ever remembered. */
  lemma MemoryIsEverythingRemembered(events: seq<Event>, key: string)
    ensures key in Run(INITIAL, events).memory <==> EverRemembered(Run(INITIAL, events).history, key)
  {
    RunKeepsOk(INITIAL, events);
    RunKeepsMemory(INITIAL, events);
  }
}
