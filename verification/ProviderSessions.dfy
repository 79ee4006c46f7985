/** The session object of `provider_session.py`, updated in place.

    Each method is one uninterrupted section of the source between two awaits and carries out exactly
    one step of the machine, whose results then hold of the object. */
module ProviderSessions {
  import opened Prelude
  import opened Lifecycle
  import opened LoopLimits
  import opened Tape
  import opened SessionMachine
  import opened SessionSafety
  import P = ProviderEvents
  import Utf8

  class ProviderSession {
    const cfg: Config
    const limitTracker: LoopLimitTracker

    var lifecycleState: State
    var deferredCancellation: Option<string>
    var sessionStartSettled: bool
    var sessionStartedSuccessfully: bool

    var operationStarted: bool
    var cleanup: Cleanup
    var pendingEvent: bool
    var pendingEventCleanupFailed: bool
    var selection: Option<Choice>
    var deadlineLatched: bool
    var terminalEmitted: bool
    var cleanupDiagnosticEmitted: bool
    var limitsObserved: bool

    var acceptedText: seq<string>
    var acceptedTextBytes: nat
    var completedText: Option<string>
    var usageObserved: bool

    // The writer's session counter, the clock, the lock and the position of each task.
    var nextSequence: nat
    var clock: int
    var decisionLock: DecisionLock
    var deadlineWatcher: Watcher
    var runner: RunnerPc
    var finalizer: FinalizerPc
    var raisedInternalError: bool

    // What the rest of the program saw.
    ghost var output: Output
    ghost var recording: Recording
    ghost var delivered: seq<P.ProviderEvent>
    ghost var scan: P.Scan
    ghost var deltaWriteFailed: bool
    ghost var cleanupCalls: seq<CleanupCall>

    ghost function View(): Session
      reads this, limitTracker
    {
      Session(
        lifecycleState,
        output,
        recording,
        Stream(acceptedText, acceptedTextBytes, completedText, usageObserved, delivered, scan,
               deltaWriteFailed),
        Start(deferredCancellation, sessionStartSettled, sessionStartedSuccessfully),
        selection,
        Budget(deadlineLatched, limitTracker.View()),
        Operation(operationStarted, cleanup, cleanupCalls, pendingEvent, pendingEventCleanupFailed),
        Ending(limitsObserved, terminalEmitted, cleanupDiagnosticEmitted),
        decisionLock, deadlineWatcher, runner, finalizer, clock, raisedInternalError)
    }

    ghost predicate Framed()
      reads this, limitTracker
    {
      limitTracker.Valid() && limitTracker.limits == cfg.limits && nextSequence == |output.published| + 1
    }

    ghost predicate Valid()
      reads this, limitTracker
    {
      Framed() && Inv(cfg, View())
    }

    constructor (cfg: Config, tracker: LoopLimitTracker, now: int)
      requires tracker.Valid() && tracker.limits == cfg.limits && tracker.exhausted.None?
      ensures Valid() && View() == Created(cfg, tracker.View(), now)
      ensures this.cfg == cfg && limitTracker == tracker
    {
      this.cfg, limitTracker := cfg, tracker;
      var submitted :=
        INITIAL.(status := Lifecycle.Starting, startCommandId := Some(cfg.startCommand),
                 task := Some(cfg.task));
      lifecycleState := submitted;
      deferredCancellation, sessionStartSettled, sessionStartedSuccessfully := None, false, false;
      operationStarted, cleanup, pendingEvent := false, NotStarted, false;
      pendingEventCleanupFailed, selection, deadlineLatched := false, None, false;
      terminalEmitted, cleanupDiagnosticEmitted, limitsObserved := false, false, false;
      acceptedText, acceptedTextBytes, completedText, usageObserved := [], 0, None, false;
      nextSequence, clock, decisionLock := 1, now, Free;
      deadlineWatcher, runner, finalizer := Absent, NotRun, NoFinalizer;
      raisedInternalError := false;
      output := Output([], SILENT, false);
      var first := RecordUpdate(TaskSubmitted(cfg.startCommand, cfg.task), submitted);
      recording := Recording([first], Guard(cfg.sessionId, BLANK, first));
      delivered, scan, deltaWriteFailed, cleanupCalls := [], P.UNSEEN, false, [];
      new;
      CreatedInv(cfg, tracker.View(), now);
    }

    // ----- Shared sections -----

    method Unlock()
      requires Framed()
      modifies this
      ensures Framed() && View() == Release(old(View()))
    {
      decisionLock := Free;
    }

    /** The holder of the decision lock goes on to `at`. */
    method MoveTo(at: Point)
      requires Framed() && decisionLock.Held?
      modifies this
      ensures Framed() && View() == Goto(old(View()), at)
    {
      decisionLock := Held(decisionLock.owner, at);
    }

    method Elapse(elapsed: nat)
      requires Framed()
      modifies this
      ensures Framed() && View() == old(View()).(now := old(View()).now + elapsed)
    {
      clock := clock + elapsed;
    }

    /** The task that owns `run` goes on to `next`. */
    method RunTo(next: RunnerPc)
      requires Framed()
      modifies this
      ensures Framed() && View() == old(View()).(runner := next)
    {
      runner := next;
    }

    method FinalizeTo(next: FinalizerPc)
      requires Framed()
      modifies this
      ensures Framed() && View() == old(View()).(finalizer := next)
    {
      finalizer := next;
    }

    method SetOperationStarted(value: bool)
      requires Framed()
      modifies this
      ensures Framed()
      ensures View() == old(View()).(operation := old(View()).operation.(started := value))
    {
      operationStarted := value;
    }

    method SetPendingEvent(pending: bool, failed: bool)
      requires Framed()
      modifies this
      ensures Framed()
      ensures View() == old(View()).(operation := old(View()).operation.(
                          pendingRead := pending, pendingFailed := failed))
    {
      pendingEvent := pending;
      pendingEventCleanupFailed := failed;
    }

    method Examine(observed: P.ProviderEvent)
      requires Framed()
      modifies this
      ensures Framed() && View() == old(View()).Examine(observed)
    {
      hide P.Observe;
      delivered := delivered + [observed];
      scan := P.Observe(scan, observed);
    }

    method SetCompletedText(text: string)
      requires Framed()
      modifies this
      ensures Framed()
      ensures View() == old(View()).(stream := old(View()).stream.(completedText := Some(text)))
    {
      completedText := Some(text);
    }

    method AppendText(text: string)
      requires Framed()
      modifies this
      ensures Framed()
      ensures View() == old(View()).(stream := old(View()).stream.(
                          acceptedText := old(acceptedText) + [text],
                          acceptedBytes := old(acceptedTextBytes) + Utf8.Length(text)))
    {
      acceptedText := acceptedText + [text];
      acceptedTextBytes := acceptedTextBytes + Utf8.Length(text);
    }

    method SetDeferredCancellation(command: Option<string>)
      requires Framed()
      modifies this
      ensures Framed()
      ensures View() == old(View()).(start := old(View()).start.(deferred := command))
    {
      deferredCancellation := command;
    }

    method MarkBroken()
      requires Framed()
      modifies this
      ensures Framed() && View() == Broken(old(View()))
    {
      output := output.(broken := true);
    }

    method MarkDiagnosticEmitted()
      requires Framed()
      modifies this
      ensures Framed()
      ensures View() == old(View()).(ending := old(View()).ending.(diagnosticEmitted := true))
    {
      cleanupDiagnosticEmitted := true;
    }

    method StopWatcher()
      requires Framed()
      modifies this
      ensures Framed() && View() == old(View()).(watcher := Stopped)
    {
      deadlineWatcher := Stopped;
    }

    /** The protocol writer raised inside `run`'s own transaction. */
    method RaiseFromWrite()
      requires Framed()
      modifies this
      ensures Framed() && View() == Broken(Release(old(View()))).(runner := Raised)
    {
      Unlock();
      MarkBroken();
      RunTo(Raised);
    }

    method SettleStartSucceeded()
      requires Framed()
      modifies this
      ensures Framed() && View() == SettleStart(old(View()))
    {
      SetDeferredCancellation(None);
      sessionStartedSuccessfully, sessionStartSettled := true, true;
      Unlock();
    }

    /** The finalizer leaves the terminal transaction. */
    method LeaveTerminal()
      requires Framed()
      modifies this
      ensures Framed() && View() == AbandonTerminal(old(View()))
    {
      Unlock();
      FinalizeTo(FinalizerPc.Ended);
    }

    method FailTerminalWrite()
      requires Framed()
      modifies this
      ensures Framed() && View() == AbandonTerminal(Broken(old(View())))
    {
      MarkBroken();
      LeaveTerminal();
    }

    method FailTerminalInternally()
      requires Framed()
      modifies this
      ensures Framed() && View() == AbandonTerminal(old(View())).(faulted := true)
    {
      LeaveTerminal();
      raisedInternalError := true;
    }

    method Notify(call: Call)
      requires Framed()
      modifies this
      ensures Framed() && View() == SessionMachine.Notify(cfg, old(View()), call)
    {
      recording := Recording(
        recording.calls + [call],
        if recording.tape.None? then None else Guard(cfg.sessionId, recording.tape.value, call));
    }

    /** `_accept_lifecycle_locked`: the observer hears of an update exactly when the reducer accepts it,
        together with the state it led to. */
    method AcceptLifecycle(update: Update)
      requires Framed()
      modifies this
      ensures Framed() && View() == AcceptUpdate(cfg, old(View()), update)
      ensures recording.calls
              == old(recording.calls)
                 + if Reduce(old(lifecycleState), update).Accepted?
                   then [RecordUpdate(update, lifecycleState)] else []
    {
      var reduction := Reduce(lifecycleState, update);
      if reduction.Rejected? {
        raisedInternalError := true;
      } else {
        lifecycleState := reduction.state;
        Notify(RecordUpdate(update, lifecycleState));
      }
    }

    /** One event accepted by the protocol writer. */
    method EmitSession(body: Body, correlation: string) returns (event: Event)
      requires Framed()
      modifies this
      ensures Framed() && event == NextEvent(cfg, old(View()), body, correlation)
      ensures View() == Publish(cfg, old(View()), event)
    {
      event := Event(body, cfg.sessionId, nextSequence, Some(correlation));
      nextSequence := nextSequence + 1;
      output := Output(output.published + [event], Hear(cfg, output.audience, event), output.broken);
    }

    method BeginCleanup(mode: CleanupMode)
      requires Framed()
      modifies this
      ensures Framed()
      ensures View() == old(View()).(operation := old(View()).operation.(
                          cleanup := InProgress(mode),
                          cleanupCalls := old(cleanupCalls) + [Primary(mode)]))
    {
      cleanup := InProgress(mode);
      cleanupCalls := cleanupCalls + [Primary(mode)];
    }

    /** `_ensure_provider_cleanup`: one primary call on the operation, whoever asks for it. */
    method EnsureProviderCleanup(mode: CleanupMode)
      requires Framed()
      modifies this
      ensures Framed() && View() == EnsureCleanup(old(View()), mode)
      ensures cleanupCalls
              == old(cleanupCalls)
                 + if operationStarted && old(cleanup).NotStarted? then [Primary(mode)] else []
      ensures operationStarted ==> !cleanup.NotStarted?
    {
      if !operationStarted { return; }
      if !cleanup.NotStarted? {
        if cleanup.mode != mode { raisedInternalError := true; }
        return;
      }
      BeginCleanup(mode);
    }

    /** `_latch_provider_deadline_locked`. */
    method LatchProviderDeadline()
      requires Framed()
      modifies this, limitTracker
      ensures Framed() && View() == Latch(old(View()))
    {
      if !deadlineLatched {
        deadlineLatched := true;
        limitTracker.MarkExpired();
      }
      EnsureProviderCleanup(CleanupMode.Cancel);
    }

    /** `_select_locked`. */
    method SelectLocked(choice: Choice)
      requires Framed()
      modifies this
      ensures Framed() && View() == Select(old(View()), choice)
    {
      if selection.Some? { return; }
      selection := Some(choice);
      finalizer := if choice.ChooseTeardown? then Work else AwaitStart;
    }

    method SelectExpiredDeadline()
      requires Framed()
      modifies this, limitTracker
      ensures Framed() && View() == Expire(old(View()))
    {
      LatchProviderDeadline();
      SelectLocked(ChooseDeadline);
    }

    method DeadlineExpired() returns (expired: bool)
      ensures expired == View().Expired(cfg)
    {
      expired := deadlineLatched || clock >= cfg.deadline;
    }

    // ----- Start -----

    /** `run`, up to its first await. */
    method Begin()
      requires Valid() && Run(View()).Some?
      modifies this
      ensures Valid() && View() == Run(old(View())).value
    {
      hide Inv;
      KeepRun(cfg, View());
      runner := AnnouncingStart;
      deadlineWatcher := if selection.None? then Waiting else Absent;
    }

    /** `_publish_started`: the write under the decision lock. */
    method EmitStarted(written: bool)
      requires Valid() && PublishStarted(cfg, View(), written).Some?
      modifies this
      ensures Valid() && View() == PublishStarted(cfg, old(View()), written).value
    {
      hide Inv, Hear;
      KeepPublishStarted(cfg, View(), written);
      if !written {
        RaiseFromWrite();
        return;
      }
      var event := EmitSession(SessionStarted, cfg.startCommand);
      decisionLock := Held(Runner, AcceptStarted(event));
    }

    /** `_publish_started`: the write has returned. */
    method SettleStarted()
      requires Valid() && AdmitStarted(cfg, View()).Some?
      modifies this
      ensures Valid() && View() == AdmitStarted(cfg, old(View())).value
    {
      hide Inv, Reduce, Guard;
      KeepAdmitStarted(cfg, View());
      AcceptLifecycle(Wire(decisionLock.at.event));
      if deferredCancellation.Some? {
        MoveTo(AcceptDeferred);
      } else {
        SettleStartSucceeded();
      }
    }

    method SettleDeferred()
      requires Valid() && AdmitDeferred(cfg, View()).Some?
      modifies this
      ensures Valid() && View() == AdmitDeferred(cfg, old(View())).value
    {
      hide Inv, Reduce, Guard;
      KeepAdmitDeferred(cfg, View());
      AcceptLifecycle(CancelRequested(deferredCancellation.value, cfg.sessionId));
      SettleStartSucceeded();
    }

    /** `_start_provider_operation`, which never yields. */
    method StartProviderOperation(result: StartResult, before: nat, during: nat)
      requires Valid() && StartProvider(cfg, View(), result, before, during).Some?
      modifies this, limitTracker
      ensures Valid() && View() == StartProvider(cfg, old(View()), result, before, during).value
    {
      hide Inv;
      KeepStartProvider(cfg, View(), result, before, during);
      Elapse(before);
      RunTo(AfterLoop);
      if selection.Some? { return; }
      var expired := DeadlineExpired();
      if expired {
        SelectExpiredDeadline();
        return;
      }
      var admitted := limitTracker.AdmitTurn();
      if !admitted {
        SelectLocked(ChooseTurnLimit);
        return;
      }
      OpenOperation(result, during);
    }

    /** `_start_provider_operation`: the provider call and what follows it. */
    method OpenOperation(result: StartResult, during: nat)
      requires Framed()
      modifies this, limitTracker
      ensures Framed() && View() == OpenProvider(cfg, old(View()), result, during)
    {
      hide Expire, Select;
      SetOperationStarted(!result.StartRaised?);
      Elapse(during);
      var expired := DeadlineExpired();
      if expired {
        SelectExpiredDeadline();
      } else if !result.Opened? {
        SelectLocked(ChooseInvalidResponse(StartFailed));
      } else {
        RunTo(LoopTop);
      }
    }

    // ----- The consume loop -----

    /** `_consume_provider_events`: the loop test and the read it issues. */
    method ReadNext()
      requires Valid() && BeginRead(View()).Some?
      modifies this
      ensures Valid() && View() == BeginRead(old(View())).value
    {
      hide Inv;
      KeepBeginRead(cfg, View());
      if selection.Some? {
        RunTo(AfterLoop);
      } else {
        SetPendingEvent(true, pendingEventCleanupFailed);
        RunTo(Reading);
      }
    }

    /** `_consume_provider_events`: the wait for a read or the watcher is over. */
    method ResumeRead(result: ReadResult, reapFailed: bool)
      requires Valid() && FinishRead(cfg, View(), result, reapFailed).Some?
      modifies this
      ensures Valid() && View() == FinishRead(cfg, old(View()), result, reapFailed).value
    {
      hide Inv;
      KeepFinishRead(cfg, View(), result, reapFailed);
      if result.WaitBroken? {
        RunTo(SelectingInvalid(StreamEnded));
        return;
      }
      var expired := DeadlineExpired();
      if expired {
        SetPendingEvent(false, pendingEventCleanupFailed || reapFailed);
        RunTo(SelectingDeadline);
        return;
      }
      if !result.Unfinished? { SetPendingEvent(false, pendingEventCleanupFailed); }
      RunTo(if result.Arrived? then Observing(result.observed) else SelectingInvalid(StreamEnded));
    }

    /** `_select_provider_deadline`. */
    method SelectProviderDeadline()
      requires Valid() && SelectExpired(View()).Some?
      modifies this, limitTracker
      ensures Valid() && View() == SelectExpired(old(View())).value
    {
      hide Inv;
      KeepSelectExpired(cfg, View());
      RunTo(AfterLoop);
      if selection.None? { SelectExpiredDeadline(); }
    }

    /** `_accept_observation`: the two checks before the observation is examined. */
    method EnterObservation()
      requires Valid() && EnterObservationStep(cfg, View()).Some?
      modifies this, limitTracker
      ensures Valid() && View() == EnterObservationStep(cfg, old(View())).value
    {
      hide Inv;
      KeepEnterObservation(cfg, View());
      var observed := decisionLock.at.observed;
      if selection.Some? {
        Unlock();
        return;
      }
      var expired := DeadlineExpired();
      if expired {
        SelectExpiredDeadline();
        Unlock();
        return;
      }
      MoveTo(DispatchObservation(observed));
    }

    /** The grammar check fails: the invalid-response failure becomes the candidate. */
    method RejectObservation()
      requires Framed() && decisionLock.Held?
      modifies this
      ensures Framed() && View() == Reject(old(View()))
    {
      MoveTo(Choosing(ChooseInvalidResponse(OwnGrammar)));
    }

    /** `_accept_observation`: the branch for one kind of observation. */
    method AcceptObservation()
      requires Valid() && DispatchStep(cfg, View()).Some?
      modifies this, limitTracker
      ensures Valid() && View() == DispatchStep(cfg, old(View())).value
    {
      hide Inv, P.Observe;
      AtDispatch(cfg, View());
      Unspent(cfg, View());
      KeepObservation(cfg, View());
      var observed := decisionLock.at.observed;
      Examine(observed);
      hide Dispatch, DispatchDelta, DispatchText, DispatchUsage, DispatchCompleted, DispatchToolCall;
      AcceptExamined(observed);
    }

    method AcceptExamined(observed: P.ProviderEvent)
      requires Framed() && decisionLock.Held? && limitTracker.modelTurnsStarted > 0
      modifies this, limitTracker
      ensures Framed() && View() == Dispatch(cfg, old(View()), observed)
    {
      hide DispatchDelta, DispatchText, DispatchUsage, DispatchCompleted, DispatchToolCall;
      match observed
      case TextDelta(text) => AcceptDeltaObservation(text);
      case TextCompleted(text) => AcceptTextCompleted(text);
      case UsageReported(input, output) => AcceptUsage(input, output);
      case Completed => AcceptCompleted();
      case Failed(code, message) => MoveTo(Choosing(ChooseProviderFailure(code, message)));
      case ToolCallRequested => AcceptToolCall();
      case Foreign => RejectObservation();
    }

    method AcceptTextCompleted(text: string)
      requires Framed() && decisionLock.Held?
      modifies this
      ensures Framed() && View() == DispatchText(old(View()), text)
    {
      var joined := JoinText();
      if completedText.Some? || usageObserved || text != joined {
        RejectObservation();
        return;
      }
      SetCompletedText(text);
      Unlock();
    }

    method AcceptUsage(input: nat, output: nat)
      requires Framed() && decisionLock.Held?
      modifies this
      ensures Framed() && View() == DispatchUsage(cfg, old(View()), input, output)
    {
      if completedText.None? || acceptedText == [] || usageObserved
         || input > MAX_MODEL_USAGE_TOKENS || output > MAX_MODEL_USAGE_TOKENS {
        RejectObservation();
        return;
      }
      MoveTo(NotifyUsage(Usage(cfg.sessionId, input, output)));
    }

    method AcceptCompleted()
      requires Framed() && decisionLock.Held?
      modifies this
      ensures Framed() && View() == DispatchCompleted(old(View()))
    {
      if completedText.None? || acceptedText == [] {
        RejectObservation();
        return;
      }
      MoveTo(Choosing(ChooseCompleted));
    }

    /** `"".join(self._accepted_text)`. */
    method JoinText() returns (text: string)
      ensures text == Join(acceptedText)
    {
      text := "";
      var i := 0;
      while i < |acceptedText|
        invariant 0 <= i <= |acceptedText|
        invariant text == Join(acceptedText[..i])
      {
        assert acceptedText[..i + 1] == acceptedText[..i] + [acceptedText[i]];
        JoinSnoc(acceptedText[..i], acceptedText[i]);
        text := text + acceptedText[i];
        i := i + 1;
      }
      assert acceptedText[..i] == acceptedText;
    }

    method AcceptDeltaObservation(text: string)
      requires Framed() && decisionLock.Held? && limitTracker.modelTurnsStarted > 0
      modifies this, limitTracker
      ensures Framed() && View() == DispatchDelta(cfg, old(View()), text)
    {
      if completedText.Some? || usageObserved {
        RejectObservation();
        return;
      }
      if selection.Some? {
        Unlock();
        return;
      }
      var expired := DeadlineExpired();
      if expired {
        SelectExpiredDeadline();
        Unlock();
        return;
      }
      var encodedLength := Utf8.Length(text);
      var reserved := limitTracker.ReserveOutput(encodedLength);
      if !reserved {
        SelectLocked(ChooseOutputLimit);
        Unlock();
        return;
      }
      if acceptedTextBytes + encodedLength > MAX_PROVIDER_TURN_OUTPUT_BYTES {
        RejectObservation();
        return;
      }
      MoveTo(Point.EmitDelta(text));
    }

    method AcceptToolCall()
      requires Framed() && decisionLock.Held? && limitTracker.modelTurnsStarted > 0
      modifies this, limitTracker
      ensures Framed() && View() == DispatchToolCall(cfg, old(View()))
    {
      if selection.Some? {
        Unlock();
        return;
      }
      var expired := DeadlineExpired();
      if expired {
        SelectExpiredDeadline();
        Unlock();
        return;
      }
      var within := limitTracker.ObserveCall();
      SelectLocked(if within then ChooseToolUnavailable else ChooseToolLimit);
      Unlock();
    }

    /** `_accept_observation`: the delta's write. */
    method EmitDelta(written: bool)
      requires Valid() && PublishDelta(cfg, View(), written).Some?
      modifies this
      ensures Valid() && View() == PublishDelta(cfg, old(View()), written).value
    {
      hide Inv, Hear;
      KeepPublishDelta(cfg, View(), written);
      if !written {
        RaiseFromWrite();
        deltaWriteFailed := true;
        return;
      }
      var text := decisionLock.at.text;
      var event := EmitSession(AssistantDelta(text), cfg.startCommand);
      MoveTo(AcceptDelta(event, text));
    }

    /** `_accept_observation`: the delta's write has returned. */
    method SettleDelta()
      requires Valid() && AdmitDelta(cfg, View()).Some?
      modifies this
      ensures Valid() && View() == AdmitDelta(cfg, old(View())).value
    {
      hide Inv, Reduce, Guard;
      KeepAdmitDelta(cfg, View());
      var text := decisionLock.at.text;
      AcceptLifecycle(Wire(decisionLock.at.event));
      AppendText(text);
      MoveTo(RecheckDeadline);
    }

    /** `_accept_observation`: the usage observer. */
    method SettleUsage()
      requires Valid() && NotifyUsageStep(cfg, View()).Some?
      modifies this
      ensures Valid() && View() == NotifyUsageStep(cfg, old(View())).value
    {
      hide Inv, Guard;
      KeepNotifyUsage(cfg, View());
      Notify(RecordUsage(decisionLock.at.usage));
      usageObserved := true;
      MoveTo(RecheckDeadline);
    }

    /** `_select_deadline_if_due_locked`, at the end of a publication. */
    method RecheckAfterPublication()
      requires Valid() && RecheckDeadlineStep(cfg, View()).Some?
      modifies this, limitTracker
      ensures Valid() && View() == RecheckDeadlineStep(cfg, old(View())).value
    {
      hide Inv;
      KeepRecheckDeadline(cfg, View());
      var expired := DeadlineExpired();
      if selection.None? && expired { SelectExpiredDeadline(); }
      Unlock();
    }

    /** `_select_candidate_locked`. */
    method SelectCandidateLocked()
      requires Valid() && ChooseStep(cfg, View()).Some?
      modifies this, limitTracker
      ensures Valid() && View() == ChooseStep(cfg, old(View())).value
    {
      hide Inv;
      KeepChoose(cfg, View());
      var candidate := decisionLock.at.candidate;
      if selection.None? {
        var expired := DeadlineExpired();
        if expired { SelectExpiredDeadline(); } else { SelectLocked(candidate); }
      }
      Unlock();
    }

    /** `_select_user_cancellation`, up to its candidate. */
    method RequestUserCancellation(command: string)
      requires Valid() && RequestCancellation(cfg, View(), command).Some?
      modifies this
      ensures Valid() && View() == RequestCancellation(cfg, old(View()), command).value
    {
      hide Inv, Reduce, Guard;
      KeepRequestCancellation(cfg, View(), command);
      if selection.Some? { return; }
      decisionLock := Held(Caller, Choosing(ChooseUserCancel(command)));
      if lifecycleState.status.Starting? {
        SetDeferredCancellation(Some(command));
      } else {
        AcceptLifecycle(CancelRequested(command, cfg.sessionId));
      }
    }

    /** `_watch_provider_deadline`, holding the deadline-state lock. */
    method WatchProviderDeadline()
      requires Valid() && WatcherLatch(View()).Some?
      modifies this, limitTracker
      ensures Valid() && View() == WatcherLatch(old(View())).value
    {
      hide Inv;
      KeepWatcher(cfg, View());
      deadlineWatcher := Stopped;
      if selection.None? { LatchProviderDeadline(); }
    }

    // ----- The finalizer -----

    /** `_finalize`: the start has settled. */
    method AwaitStartSettled()
      requires Valid() && FinalizerStarts(View()).Some?
      modifies this
      ensures Valid() && View() == FinalizerStarts(old(View())).value
    {
      hide Inv;
      KeepFinalizerStarts(cfg, View());
      if sessionStartedSuccessfully {
        finalizer := Work;
      } else {
        StopWatcher();
        FinalizeTo(FinalizerPc.Ended);
      }
    }

    /** `_finish_provider_work`, up to joining the cleanup. */
    method FinishProviderWork()
      requires Valid() && FinalizerCleansUp(View()).Some?
      modifies this
      ensures Valid() && View() == FinalizerCleansUp(old(View())).value
    {
      hide Inv;
      KeepFinalizerCleansUp(cfg, View());
      StopWatcher();
      FinalizeTo(AwaitCleanup);
      EnsureProviderCleanup(selection.value.Mode());
    }

    /** `_report_cleanup_failure_once`: written at most once, and a sink that refuses it ends the
        finalizer. */
    method ReportCleanupFailureOnce(written: bool)
      requires Framed()
      modifies this
      ensures Framed() && View() == ReportCleanupFailure(old(View()), written)
      ensures cleanupDiagnosticEmitted
      ensures old(cleanupDiagnosticEmitted) ==> output == old(output) && finalizer == old(finalizer)
      ensures !old(cleanupDiagnosticEmitted) && !written ==> output.broken && finalizer.Ended?
    {
      if cleanupDiagnosticEmitted { return; }
      MarkDiagnosticEmitted();
      if !written {
        FinalizeTo(FinalizerPc.Ended);
        MarkBroken();
      }
    }

    /** `_finish_provider_work` and `_report_cleanup_failure_once`, after joining the cleanup. */
    method JoinProviderCleanup(reapFailed: bool, written: bool)
      requires Valid() && FinalizerJoinsCleanup(View(), reapFailed, written).Some?
      modifies this
      ensures Valid() && View() == FinalizerJoinsCleanup(old(View()), reapFailed, written).value
    {
      hide Inv, ReportCleanupFailure;
      KeepFinalizerJoins(cfg, View(), reapFailed, written);
      CancelAndReapPendingEvent(reapFailed);
      var unconfirmed := pendingEventCleanupFailed || (cleanup.Settled? && cleanup.failed);
      if unconfirmed { ReportCleanupFailureOnce(written); }
    }

    /** `_cancel_and_reap_pending_event`. */
    method CancelAndReapPendingEvent(reapFailed: bool)
      requires Framed() && selection.Some?
      modifies this
      ensures Framed() && View() == Reap(old(View()), reapFailed)
    {
      SetPendingEvent(false, pendingEventCleanupFailed || (pendingEvent && reapFailed));
      FinalizeTo(if selection.value.ChooseTeardown? then FinalizerPc.Ended else AwaitTerminal);
    }

    /** `_emit_selected_terminal`: the completed assistant text. */
    method EmitAssistantCompleted(written: bool)
      requires Valid() && PublishText(cfg, View(), written).Some?
      modifies this
      ensures Valid() && View() == PublishText(cfg, old(View()), written).value
    {
      hide Inv, Hear;
      KeepPublishText(cfg, View(), written);
      if completedText.None? {
        FailTerminalInternally();
        return;
      }
      if !written {
        FailTerminalWrite();
        return;
      }
      var event := EmitSession(AssistantCompleted(completedText.value), cfg.startCommand);
      MoveTo(AcceptText(event));
    }

    /** `_emit_selected_terminal`: the completed text has been written. */
    method SettleAssistantCompleted()
      requires Valid() && AdmitText(cfg, View()).Some?
      modifies this
      ensures Valid() && View() == AdmitText(cfg, old(View())).value
    {
      hide Inv, Reduce, Guard;
      KeepAdmitText(cfg, View());
      AcceptLifecycle(Wire(decisionLock.at.event));
      MoveTo(NotifyLimits);
    }

    /** `_notify_loop_limits_once`. */
    method NotifyLoopLimitsOnce()
      requires Valid() && NotifyLimitsStep(cfg, View()).Some?
      modifies this
      ensures Valid() && View() == NotifyLimitsStep(cfg, old(View())).value
    {
      hide Inv, Guard;
      KeepNotifyLimits(cfg, View());
      MoveTo(Point.EmitTerminal);
      if limitsObserved { return; }
      limitsObserved := true;
      var observed := limitTracker.Snapshot(cfg.sessionId);
      Notify(RecordLimits(observed.value));
    }

    /** `_emit_selected_terminal`: the session terminal. */
    method EmitTerminal(written: bool)
      requires Valid() && PublishTerminal(cfg, View(), written).Some?
      modifies this
      ensures Valid() && View() == PublishTerminal(cfg, old(View()), written).value
    {
      hide Inv, Hear;
      KeepPublishTerminal(cfg, View(), written);
      var terminal := TerminalOf(cfg, selection.value);
      if terminal.None? {
        FailTerminalInternally();
        return;
      }
      if !written {
        FailTerminalWrite();
        return;
      }
      var event := EmitSession(terminal.value.0, terminal.value.1);
      MoveTo(AcceptTerminal(event));
    }

    method SettleTerminal()
      requires Valid() && AdmitTerminal(cfg, View()).Some?
      modifies this
      ensures Valid() && View() == AdmitTerminal(cfg, old(View())).value
    {
      hide Inv, Reduce, Guard;
      KeepAdmitTerminal(cfg, View());
      AcceptLifecycle(Wire(decisionLock.at.event));
      LeaveTerminal();
      terminalEmitted := true;
    }
  }
}
