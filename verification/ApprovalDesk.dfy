/** The approval state of the chat workflow as the object its signal handlers update. */
module ApprovalDesk {
  import opened Prelude
  import opened Approvals
  import opened ApprovalProgress

  class Desk {
    var approvalCounter: nat
    var pendingApprovals: map<string, Request>
    var approvalDecisions: map<string, Decision>
    var approvalMemory: set<string>
    var waitingCalls: map<string, Waiting>
    var startedCalls: nat
    ghost var history: History

    ghost function State(): State
      reads this
    {
      Approvals.State.State(approvalCounter, startedCalls, pendingApprovals, approvalDecisions, waitingCalls,
        approvalMemory, history)
    }

    constructor ()
      ensures State() == INITIAL && StateOk(State())
    {
      approvalCounter, pendingApprovals, approvalDecisions := 0, map[], map[];
      approvalMemory, waitingCalls, startedCalls, history := {}, map[], 0, Nothing;
    }

    method NewRequest(origin: Origin, key: string) returns (id: string)
      modifies this
      ensures State() == Ask(old(State()), origin, key) && id == IdOf(old(approvalCounter) + 1)
    {
      approvalCounter := approvalCounter + 1;
      id := IdOf(approvalCounter);
      pendingApprovals := pendingApprovals[id := Request(origin, key)];
      history := Then(history, Asked(id, origin, key));
    }

    /** The guards still to pass, in order, until one has to wait for the user; then the tool's body. */
    method RunPreGuards(call: Waiting)
      modifies this
      ensures State() == GoOn(old(State()), call)
    {
      var w := call;
      while |w.passed| < |w.tool.preGuards|
        invariant State() == old(State()) && GoOn(State(), w) == GoOn(State(), call)
        decreases |w.tool.preGuards| - |w.passed|
      {
        if w.key !in approvalMemory {
          var id := NewRequest(Own(w.call), w.key);
          waitingCalls := waitingCalls[id := w];
          return;
        }
        w := w.(passed := w.passed + [ByMemory]);
      }
      history := Then(history, Ran(w.call, w.tool, w.key, w.passed));
    }

    method ExecuteTool(tool: ToolDef, key: string) returns (error: Option<GuardError>)
      requires StateOk(State()) && Registered(tool)
      modifies this
      ensures State() == Step(old(State()), CallTool(tool, key)) && StateOk(State())
      ensures error.None? <==> GuardsValid(DEFAULT_POLICY, tool)
      ensures EverRan(history, old(startedCalls)) <==> error.None? && (tool.preGuards == [] || key in old(approvalMemory))
    {
      CalledToolRunsIff(State(), tool, key);
      StepKeepsOk(State(), CallTool(tool, key));
      error := ValidateToolGuards(DEFAULT_POLICY, tool);
      if error.None? {
        var w := Waiting(startedCalls, tool, key, []);
        startedCalls := startedCalls + 1;
        history := Then(history, Called(w.call, tool, key));
        RunPreGuards(w);
      }
    }

    method Remember(d: Decision, id: string, r: Request)
      modifies this
      ensures State() == Approvals.Remember(old(State()), d, id, r)
    {
      if d == AlwaysAllow {
        approvalMemory := approvalMemory + {r.key};
        history := Then(history, Remembered(r.key, id, r.origin));
      }
    }

    method ResolveApproval(id: string, d: Decision)
      requires StateOk(State())
      modifies this
      ensures State() == Step(old(State()), Resolved(id, d)) && StateOk(State())
    {
      StepKeepsOk(State(), Resolved(id, d));
      if !ByUser(d) || id !in pendingApprovals { return; }
      var approval := pendingApprovals[id];
      history := Then(history, Decided(id, d));
      if approval.origin.Child? {
        pendingApprovals := pendingApprovals - {id};
        Remember(d, id, approval);
        return;
      }
      approvalDecisions := approvalDecisions[id := d];
    }

    /** The waiting call finds the decision and goes on, or fails on a no. */
    method WakeCall(id: string)
      requires StateOk(State()) && id in waitingCalls && id in approvalDecisions
      modifies this
      ensures State() == Step(old(State()), Woken(id)) && StateOk(State())
      ensures var w, d := old(waitingCalls)[id], old(approvalDecisions)[id];
              EverRan(history, w.call) <==>
              (d == Allow || d == AlwaysAllow) &&
              (|w.passed| + 1 >= |w.tool.preGuards| || w.key in old(approvalMemory) || d == AlwaysAllow)
    {
      WokenCallRunsIff(State(), id);
      StepKeepsOk(State(), Woken(id));
      var d, w := approvalDecisions[id], waitingCalls[id];
      approvalDecisions := approvalDecisions - {id};
      pendingApprovals := pendingApprovals - {id};
      waitingCalls := waitingCalls - {id};
      Remember(d, id, Request(Own(w.call), w.key));
      if Yes(d) { RunPreGuards(w.(passed := w.passed + [ById(id)])); }
    }

    /** Looks through the pending approvals for one of this child request. */
    method FindChild(workflow: string, approval: string) returns (found: Option<string>)
      ensures found.Some? ==> found.value in pendingApprovals && IsChild(pendingApprovals[found.value], workflow, approval)
      ensures found.None? ==> forall id :: id in pendingApprovals ==> !IsChild(pendingApprovals[id], workflow, approval)
    {
      var ids := pendingApprovals.Keys;
      while ids != {}
        invariant ids <= pendingApprovals.Keys
        invariant forall id :: id in pendingApprovals && id !in ids ==> !IsChild(pendingApprovals[id], workflow, approval)
        decreases ids
      {
        var id :| id in ids;
        if IsChild(pendingApprovals[id], workflow, approval) { return Some(id); }
        ids := ids - {id};
      }
      return None;
    }

    method RequestChildApproval(workflow: string, approval: string, key: string)
      requires StateOk(State())
      modifies this
      ensures State() == Step(old(State()), ChildAsked(workflow, approval, key)) && StateOk(State())
    {
      StepKeepsOk(State(), ChildAsked(workflow, approval, key));
      if key in approvalMemory { return; }
      var found := FindChild(workflow, approval);
      if found.None? {
        var _ := NewRequest(Child(workflow, approval), key);
      }
    }

    /** Forgetting the first match forgets them all, there being at most one. */
    method ExpireChildApproval(workflow: string, approval: string)
      requires StateOk(State())
      modifies this
      ensures State() == Step(old(State()), ChildExpired(workflow, approval)) && StateOk(State())
    {
      StepKeepsOk(State(), ChildExpired(workflow, approval));
      ghost var after := ExpireChild(State(), workflow, approval).pending;
      var found := FindChild(workflow, approval);
      if found.Some? { pendingApprovals := pendingApprovals - {found.value}; }
      assert pendingApprovals == after;
    }
  }
}
