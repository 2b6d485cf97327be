/** The chat workflow object: its signal handlers, queries and the steps of its main loop. */
module ChatWorkflow {
  import opened Prelude
  import opened Attachments
  import opened TranscriptPaging
  import opened TranscriptLog
  import opened ChatState

  class SimpleChatWorkflow {
    var phase: Phase
    var resuming: bool
    var context: seq<ChatMessage>
    var pendingMessages: seq<Queued>
    var activeMessage: Option<Queued>
    var stateRevision: nat
    var transcriptRevision: nat
    var transcriptDeltas: seq<Delta>
    var now: int
    var runStartedAt: int
    var lastTouchedAt: int
    var touchedThisRun: bool
    var deleteRequested: bool
    ghost var accepted: seq<Queued>
    ghost var activated: seq<Queued>
    ghost var recorded: seq<Delta>
    ghost var signalledAt: int
    ghost var cutAt: Option<nat>

    ghost function TimeState(): Clock
      reads this
    {
      Clock(now, runStartedAt, lastTouchedAt, touchedThisRun, signalledAt)
    }

    ghost function LogState(): Log
      reads this
    {
      Log(transcriptRevision, transcriptDeltas, recorded, cutAt)
    }

    ghost function State(): State
      reads this
    {
      ChatState.State.State(phase, resuming, context, activeMessage, stateRevision, deleteRequested,
        Backlog(pendingMessages, accepted, activated), TimeState(), LogState())
    }

    constructor (at: int)
      ensures State() == Begin(at) && StateOk(State())
    {
      phase, resuming, context := Checking, false, [];
      pendingMessages, activeMessage := [], None;
      stateRevision, transcriptRevision, transcriptDeltas := 1, 0, [];
      now, runStartedAt, lastTouchedAt, touchedThisRun := at, at, at, true;
      deleteRequested := false;
      accepted, activated, recorded, signalledAt, cutAt := [], [], [], at, None;
    }

    function RenderedTranscript(): seq<ChatMessage>
      reads this
    {
      Rendered(context, activeMessage, pendingMessages)
    }

    method TouchNow()
      modifies this
      ensures State() == Touch(old(State()))
    {
      lastTouchedAt := now;
      touchedThisRun := true;
      signalledAt := now;
    }

    method RecordStateChange()
      modifies this
      ensures State() == StateChange(old(State()))
    {
      stateRevision := stateRevision + 1;
    }

    method RecordTranscriptChange(index: int, message: Option<ChatMessage>)
      modifies this
      ensures State() == RecordChange(old(State()), index, message)
    {
      transcriptRevision := transcriptRevision + 1;
      if index < 0 || message.None? {
        return;
      }
      var d := Delta(transcriptRevision, index, message.value);
      transcriptDeltas := transcriptDeltas + [d];
      recorded := recorded + [d];
      if |transcriptDeltas| > BUFFER_LIMIT {
        transcriptDeltas := transcriptDeltas[|transcriptDeltas| - BUFFER_LIMIT..];
      }
    }

    method RecordSystemMessage(text: string)
      modifies this
      ensures State() == RecordSystem(old(State()), text)
    {
      RecordTranscriptChange(|RenderedTranscript()|, Some(ChatMessage(System, text, [])));
    }

    method RecordLatestRenderedMessageChange()
      modifies this
      ensures State() == RecordLatest(old(State()))
    {
      var transcript := RenderedTranscript();
      if transcript == [] {
        RecordTranscriptChange(-1, None);
        return;
      }
      RecordTranscriptChange(|transcript| - 1, Some(transcript[|transcript| - 1]));
    }

    method EnqueueChat(content: string, attachments: seq<AttachmentRef>, settleAfter: int)
      modifies this
      ensures State() == Enqueue(old(State()), content, attachments, settleAfter)
    {
      var q := Queued(content, |RenderedTranscript()|, attachments, Max(0, settleAfter));
      pendingMessages := pendingMessages + [q];
      accepted := accepted + [q];
      RecordTranscriptChange(q.transcriptIndex, Some(AsChat(q)));
      RecordStateChange();
    }

    method ChatSignal(message: string, attachments: seq<AttachmentRef>, settleAfter: int)
      requires StateOk(State())
      modifies this
      ensures State() == Receive(old(State()), Chat(message, attachments, settleAfter)) && StateOk(State())
    {
      ReceiveKeepsOk(State(), Chat(message, attachments, settleAfter));
      TouchNow();
      EnqueueChat(message, attachments, settleAfter);
    }

    method SteerSignal(message: string, attachments: seq<AttachmentRef>, notice: string)
      requires StateOk(State())
      modifies this
      ensures State() == Receive(old(State()), Steer(message, attachments, notice)) && StateOk(State())
    {
      ReceiveKeepsOk(State(), Steer(message, attachments, notice));
      TouchNow();
      if attachments != [] {
        EnqueueChat(message, attachments, 0);
        return;
      }
      RecordSystemMessage(notice);
    }

    method InterruptSignal(message: string, notice: string)
      requires StateOk(State())
      modifies this
      ensures State() == Receive(old(State()), Interrupt(message, notice)) && StateOk(State())
    {
      ReceiveKeepsOk(State(), Interrupt(message, notice));
      TouchNow();
      if phase != Responding {
        EnqueueChat(message, [], 0);
        return;
      }
      RecordSystemMessage(notice);
    }

    method DeleteSignal()
      requires StateOk(State())
      modifies this
      ensures State() == Receive(old(State()), Delete) && StateOk(State())
    {
      deleteRequested := true;
      RecordStateChange();
    }

    /** The query for what changed after a revision. */
    method TranscriptDeltasSince(afterRevision: int, maxBytes: int) returns (r: DeltaResult)
      requires StateOk(State())
      ensures r == DeltasSince(State().log, afterRevision, maxBytes)
      ensures !r.needsSnapshot ==> r.deltas == Later(recorded, Max(0, afterRevision))
      ensures r.needsSnapshot <==>
                Max(0, afterRevision) < transcriptRevision &&
                (transcriptDeltas == [] || transcriptDeltas[0].revision > Max(0, afterRevision) + 1 ||
                 DeltasBytes(Later(recorded, Max(0, afterRevision))) > ByteLimit(maxBytes))
      ensures !r.needsSnapshot ==> DeltasBytes(r.deltas) == r.estimatedBytes <= ByteLimit(maxBytes)
      ensures cutAt.Some? && afterRevision <= cutAt.value ==> r.needsSnapshot
    {
      DeltasAreComplete(State().log, afterRevision, maxBytes);
      SnapshotIff(State().log, afterRevision, maxBytes);
      if cutAt.Some? && afterRevision <= cutAt.value {
        OldCursorsNeedSnapshot(State().log, afterRevision, maxBytes);
      }
      var after: nat := Max(0, afterRevision);
      var limit := ByteLimit(maxBytes);
      if after >= transcriptRevision {
        return DeltaResult(after, transcriptRevision, [], false, false, limit, Min(BASE_OVERHEAD, limit));
      }
      if transcriptDeltas == [] || after < transcriptDeltas[0].revision - 1 {
        return DeltaResult(after, transcriptRevision, [], true, false, limit, Min(BASE_OVERHEAD, limit));
      }
      var deltas := Later(transcriptDeltas, after);
      var bytes := DeltasBytes(deltas);
      if bytes > limit {
        return DeltaResult(after, transcriptRevision, [], true, true, limit, limit);
      }
      return DeltaResult(after, transcriptRevision, deltas, false, false, limit, Min(bytes, limit));
    }

    method TranscriptPageQuery(before: Option<int>, limit: int, maxBytes: int, notice: string) returns (page: Page)
      ensures page == PageOf(RenderedTranscript(), before, limit, maxBytes, notice)
    {
      page := TranscriptPage(RenderedTranscript(), before, limit, maxBytes, notice);
    }

    method ActivateNextQueuedMessage()
      requires pendingMessages != []
      modifies this
      ensures State() == Activate(old(State()))
    {
      var queued := pendingMessages[0];
      pendingMessages := pendingMessages[1..];
      activeMessage := Some(queued);
      activated := activated + [queued];
      phase := Responding;
      RecordStateChange();
    }

    method LeaveDeltasBehind()
      modifies this
      ensures State() == WithoutDeltas(old(State()))
    {
      cutAt := Some(transcriptRevision);
      transcriptRevision := transcriptRevision + 1;
      transcriptDeltas := [];
    }

    method RestoreTouch(startedAt: int, revived: bool)
      modifies this
      ensures State() == Reclocked(old(State()), startedAt, revived)
    {
      now := Max(now, startedAt);
      runStartedAt := now;
      touchedThisRun := lastTouchedAt > runStartedAt;
      if revived {
        lastTouchedAt := runStartedAt;
        touchedThisRun := true;
      }
    }

    method StartAfresh(hot: bool, compacted: seq<ChatMessage>)
      modifies this
      ensures State() == Fresh(old(State()), hot, compacted)
    {
      context := compacted;
      activeMessage := None;
      deleteRequested := false;
      resuming := hot;
      phase := Checking;
    }

    /** Continue-as-new, seen as the same object starting its next run from what it carried over. */
    method ContinueAsNew(hot: bool, startedAt: int, compacted: seq<ChatMessage>)
      modifies this
      ensures State() == NextRun(old(State()), hot, startedAt, compacted)
    {
      var revived := pendingMessages != [] || hot;
      LeaveDeltasBehind();
      RestoreTouch(startedAt, revived);
      StartAfresh(hot, compacted);
      RecordStateChange();
    }

    /** One pass of the checks before the workflow waits for a message. */
    method CheckBeforeWaiting(handlersDone: bool, suggested: bool, startedAt: int, compacted: seq<ChatMessage>)
      requires StateOk(State()) && phase == Checking && !resuming
      modifies this
      ensures State() == Step(old(State()), Checked(handlersDone, suggested, startedAt, compacted)) && StateOk(State())
      ensures phase == Ended(Expired) ==>
                pendingMessages == [] && now >= lastTouchedAt + RUN_TTL && now >= signalledAt + RUN_TTL
    {
      ghost var e := Checked(handlersDone, suggested, startedAt, compacted);
      StepKeepsOk(State(), e);
      if Step(State(), e).phase == Ended(Expired) { ExpiryStep(State(), e); }
      if handlersDone {
        if suggested {
          ContinueAsNew(false, startedAt, compacted);
          return;
        }
        if now >= runStartedAt + RUN_TTL {
          if touchedThisRun {
            ContinueAsNew(false, startedAt, compacted);
            return;
          }
          phase := Ended(Expired);
          return;
        }
      }
      if pendingMessages != [] {
        ActivateNextQueuedMessage();
        return;
      }
      phase := Waiting;
    }

    method WakeUp(checkpointReady: bool)
      requires StateOk(State()) && phase == Waiting
      modifies this
      ensures State() == Step(old(State()), Woken(checkpointReady)) && StateOk(State())
    {
      StepKeepsOk(State(), Woken(checkpointReady));
      if deleteRequested {
        phase := Ended(Deleted);
      } else if pendingMessages != [] || checkpointReady || now >= runStartedAt + RUN_TTL {
        phase := Checking;
      }
    }

    method ClearActiveTurn(next: Phase)
      modifies this
      ensures State() == ClearActive(old(State()), next)
    {
      activeMessage := None;
      phase := next;
      RecordStateChange();
    }

    method EndActiveTurn(end: TurnEnd)
      requires StateOk(State()) && phase == Responding
      modifies this
      ensures State() == Step(old(State()), TurnEnded(end)) && StateOk(State())
    {
      StepKeepsOk(State(), TurnEnded(end));
      match end {
        case Finished(prompt, hot) =>
          if prompt.Some? && activeMessage.Some? {
            var q := activeMessage.value;
            RecordTranscriptChange(q.transcriptIndex, Some(ChatMessage(User, prompt.value, q.attachments)));
          }
          RecordLatestRenderedMessageChange();
          ClearActiveTurn(Settling(hot));
        case UserFacingError(text) =>
          RecordSystemMessage(text);
          ClearActiveTurn(Settling(false));
        case Failure =>
          ClearActiveTurn(Ended(Crashed));
      }
    }

    /** After the settled event went out: the next message, or the next run of a hot agent. */
    method AfterSettled(startedAt: int, compacted: seq<ChatMessage>)
      requires StateOk(State()) && phase.Settling?
      modifies this
      ensures State() == Step(old(State()), Settled(startedAt, compacted)) && StateOk(State())
    {
      StepKeepsOk(State(), Settled(startedAt, compacted));
      if phase.hot {
        ContinueAsNew(true, startedAt, compacted);
      } else {
        phase := Checking;
      }
    }

    method ResumeHotAgent()
      requires StateOk(State()) && phase == Checking && resuming
      modifies this
      ensures State() == Step(old(State()), Resumed) && StateOk(State())
    {
      StepKeepsOk(State(), Resumed);
      resuming := false;
      phase := Responding;
      RecordStateChange();
    }
  }
}
