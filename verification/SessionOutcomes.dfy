/** What a session's outcome means: when the deadline decides, and what each outcome publishes, with the
    codes and messages written out. */
module SessionOutcomes {
  import opened Prelude
  import opened Lifecycle
  import opened LoopLimits
  import opened Tape
  import opened SessionMachine
  import opened SessionSafety
  import opened SessionRuns
  import opened WireGrammar
  import P = ProviderEvents

  // ----- The deadline -----

  /** A step that selects does so for the deadline if the deadline is over by then, and for nothing but
      a deadline that is. */
  predicate DeadlineDecides(cfg: Config, s: Session, t: Session) {
    && s.now <= t.now
    && (s.selection.Some? ==> t.selection == s.selection)
    && (s.selection.None? && t.selection.Some? ==>
          (t.selection == Some(ChooseDeadline) <==> s.budget.latched || t.now >= cfg.deadline))
    && (t.budget.latched && !s.budget.latched ==> t.now >= cfg.deadline)
    && (t.watcher.HoldsGuard? && !s.watcher.HoldsGuard? ==> t.now >= cfg.deadline)
  }

  predicate DecidesIf(cfg: Config, s: Session, t: Option<Session>) {
    t.Some? ==> DeadlineDecides(cfg, s, t.value)
  }

  /** What the deadline is about, apart from the selection. */
  predicate SameClock(s: Session, t: Session) {
    t.now == s.now && t.budget == s.budget && t.watcher == s.watcher
  }

  lemma SelectDecides(s: Session, choice: Choice)
    ensures SameClock(s, Select(s, choice)) && Select(s, choice).lock == s.lock
    ensures Select(s, choice).selection
            == if s.selection.Some? then s.selection else Some(choice)
  {}

  lemma CleanupDecides(s: Session, mode: CleanupMode)
    ensures var t := EnsureCleanup(s, mode);
            SameClock(s, t) && t.selection == s.selection && t.lock == s.lock && t.runner == s.runner
  {}

  lemma LatchDecides(s: Session)
    ensures var t := Latch(s);
            && t.now == s.now && t.budget.latched && t.watcher == s.watcher
            && t.selection == s.selection && t.lock == s.lock && t.runner == s.runner
  {
    hide EnsureCleanup;
    CleanupDecides(
      if s.budget.latched then s
      else s.(budget := Budget(true, MarkProviderWorkExhausted(s.budget.counters))), Cancel);
  }

  lemma ExpireDecides(s: Session)
    ensures var t := Expire(s);
            && t.now == s.now && t.budget.latched && t.watcher == s.watcher && t.lock == s.lock
            && t.selection == if s.selection.Some? then s.selection else Some(ChooseDeadline)
  {
    hide Latch, Select;
    LatchDecides(s);
    SelectDecides(Latch(s), ChooseDeadline);
  }

  /** Candidates that never stand for the deadline themselves. */
  predicate NoDeadline(lock: DecisionLock) {
    lock.Held? && lock.at.Choosing? ==> !lock.at.candidate.ChooseDeadline?
  }

  lemma OpenDecides(cfg: Config, s: Session, result: StartResult, during: nat)
    requires s.selection.None?
    ensures DeadlineDecides(cfg, s, OpenProvider(cfg, s, result, during))
  {
    hide Select, Expire;
    var t := s.(operation := s.operation.(started := !result.StartRaised?), now := s.now + during);
    ExpireDecides(t);
    SelectDecides(t, ChooseInvalidResponse(StartFailed));
  }

  lemma StartDecides(cfg: Config, s: Session, result: StartResult, before: nat, during: nat)
    ensures DecidesIf(cfg, s, StartProvider(cfg, s, result, before, during))
  {
    hide Select, Expire, OpenProvider, AdmitModelTurn;
    var t := s.(now := s.now + before, runner := AfterLoop);
    ExpireDecides(t);
    var (charged, _) := AdmitModelTurn(cfg.limits, t.budget.counters);
    SelectDecides(t.Charge(charged), ChooseTurnLimit);
    if t.selection.None? {
      OpenDecides(cfg, t.Charge(charged), result, during);
    }
  }

  lemma RunnerDecides(cfg: Config, s: Session, step: Step)
    requires OfRunner(step) && !step.DoStartProvider?
    requires s.runner.SelectingDeadline? ==> s.budget.latched || s.now >= cfg.deadline
    ensures DecidesIf(cfg, s, TakeRunner(cfg, s, step))
  {
    hide Select, Expire;
    ExpireDecides(s.(runner := AfterLoop));
  }

  lemma DeltaDecides(cfg: Config, s: Session, text: string)
    requires s.lock.Held?
    ensures DeadlineDecides(cfg, s, DispatchDelta(cfg, s, text))
  {
    hide Select, Expire, ReserveAssistantOutput;
    ExpireDecides(s);
    var (charged, _) := ReserveAssistantOutput(cfg.limits, s.budget.counters, Utf8.Length(text));
    SelectDecides(s.Charge(charged), ChooseOutputLimit);
  }

  lemma ToolDecides(cfg: Config, s: Session)
    requires s.lock.Held?
    ensures DeadlineDecides(cfg, s, DispatchToolCall(cfg, s))
  {
    hide Select, Expire, ObserveToolCall;
    ExpireDecides(s);
    var (charged, within) := ObserveToolCall(cfg.limits, s.budget.counters);
    SelectDecides(s.Charge(charged), if within then ChooseToolUnavailable else ChooseToolLimit);
  }

  lemma DispatchDecides(cfg: Config, s: Session)
    ensures DecidesIf(cfg, s, DispatchStep(cfg, s))
  {
    hide DispatchDelta, DispatchToolCall, P.Observe;
    if s.lock.Held? && s.lock.at.DispatchObservation? {
      var observed := s.lock.at.observed;
      var t := s.Examine(observed);
      if observed.TextDelta? { DeltaDecides(cfg, t, observed.text); }
      ToolDecides(cfg, t);
    }
  }

  lemma AcceptingDecides(cfg: Config)
    ensures forall s: Session, u: Update ::
              var t := AcceptUpdate(cfg, s, u);
              t.now == s.now && t.budget == s.budget && t.watcher == s.watcher
              && t.selection == s.selection
    ensures forall s: Session, call: Call ::
              var t := SessionMachine.Notify(cfg, s, call);
              t.now == s.now && t.budget == s.budget && t.watcher == s.watcher
              && t.selection == s.selection
  {
    hide Reduce, Guard;
  }

  lemma ChoosingDecides(cfg: Config, s: Session)
    requires NoDeadline(s.lock)
    ensures DecidesIf(cfg, s, EnterObservationStep(cfg, s))
    ensures DecidesIf(cfg, s, RecheckDeadlineStep(cfg, s))
    ensures DecidesIf(cfg, s, ChooseStep(cfg, s))
  {
    hide Select, Expire;
    ExpireDecides(s);
    if s.lock.Held? && s.lock.at.Choosing? { SelectDecides(s, s.lock.at.candidate); }
  }

  lemma WritingDecides(cfg: Config, s: Session, written: bool)
    ensures DecidesIf(cfg, s, PublishStarted(cfg, s, written))
    ensures DecidesIf(cfg, s, PublishDelta(cfg, s, written))
    ensures DecidesIf(cfg, s, PublishText(cfg, s, written))
    ensures DecidesIf(cfg, s, PublishTerminal(cfg, s, written))
  {
    hide Hear, TerminalOf;
  }

  lemma AdmittingDecides(cfg: Config, s: Session)
    ensures DecidesIf(cfg, s, AdmitStarted(cfg, s)) && DecidesIf(cfg, s, AdmitDelta(cfg, s))
    ensures DecidesIf(cfg, s, AdmitText(cfg, s)) && DecidesIf(cfg, s, AdmitTerminal(cfg, s))
    ensures DecidesIf(cfg, s, AdmitDeferred(cfg, s)) && DecidesIf(cfg, s, NotifyUsageStep(cfg, s))
    ensures DecidesIf(cfg, s, NotifyLimitsStep(cfg, s))
  {
    hide AcceptUpdate, SessionMachine.Notify;
    AcceptingDecides(cfg);
  }

  lemma HolderDecides(cfg: Config, s: Session, step: Step)
    requires OfHolder(step) && NoDeadline(s.lock)
    ensures DecidesIf(cfg, s, TakeHolder(cfg, s, step))
  {
    hide DecidesIf, PublishStarted, PublishDelta, PublishText, PublishTerminal, AdmitStarted, AdmitDelta;
    hide AdmitText, AdmitTerminal, AdmitDeferred, NotifyLimitsStep, NotifyUsageStep;
    hide EnterObservationStep, RecheckDeadlineStep, ChooseStep, DispatchStep;
    WritingDecides(cfg, s, true);
    WritingDecides(cfg, s, false);
    AdmittingDecides(cfg, s);
    ChoosingDecides(cfg, s);
    DispatchDecides(cfg, s);
  }

  lemma OtherDecides(cfg: Config, s: Session, step: Step)
    requires !OfRunner(step) && !OfHolder(step) && !step.DoRequestCancellation?
    requires s.watcher.HoldsGuard? ==> s.now >= cfg.deadline
    ensures DecidesIf(cfg, s, TakeOther(cfg, s, step))
  {
    hide Latch, EnsureCleanup, RequestCancellation;
    LatchDecides(s.(watcher := Stopped));
    if s.selection.Some? {
      CleanupDecides(s.(watcher := Stopped, finalizer := AwaitCleanup), s.selection.value.Mode());
    }
  }

  lemma RequestDecides(cfg: Config, s: Session, command: string)
    ensures DecidesIf(cfg, s, RequestCancellation(cfg, s, command))
  {
    hide AcceptUpdate;
    AcceptingDecides(cfg);
  }

  /** The deadline is over wherever something speaks of it. */
  predicate DeadlineReal(cfg: Config, s: Session) {
    || s.now >= cfg.deadline
    || (!s.budget.latched && !s.watcher.HoldsGuard? && !s.runner.SelectingDeadline?
        && s.selection != Some(ChooseDeadline))
  }

  lemma CandidatesAreNone(cfg: Config, s: Session)
    requires Inv(cfg, s)
    ensures NoDeadline(s.lock)
  {
    hide InvLock, InvStart, InvFinalizer, InvLife, InvText, InvTape, InvBudget, InvCleanup, InvEvents;
    hide InvScan;
  }

  /** The runner turns to the deadline only behind a read that found it expired. */
  lemma NewlySelecting(cfg: Config, s: Session, step: Step)
    requires OfRunner(step) && TakeRunner(cfg, s, step).Some?
    ensures TakeRunner(cfg, s, step).value.runner.SelectingDeadline? ==>
              s.runner.SelectingDeadline? || s.Expired(cfg)
  {
    hide Select, Expire, OpenProvider;
    SelectingKeepsRunner();
    if step.DoStartProvider? { OpeningMoves(cfg, s, step); }
  }

  lemma OpeningMoves(cfg: Config, s: Session, step: Step)
    requires step.DoStartProvider? && StartProvider(cfg, s, step.result, step.before, step.during).Some?
    ensures !StartProvider(cfg, s, step.result, step.before, step.during).value.runner.SelectingDeadline?
  {
    hide Select, Expire;
    SelectingKeepsRunner();
  }

  lemma TakeDecides(cfg: Config, s: Session, step: Step)
    requires Inv(cfg, s) && DeadlineReal(cfg, s) && Take(cfg, s, step).Some?
    ensures DeadlineDecides(cfg, s, Take(cfg, s, step).value)
    ensures DeadlineReal(cfg, Take(cfg, s, step).value)
  {
    hide Inv, TakeRunner, TakeHolder, TakeOther;
    CandidatesAreNone(cfg, s);
    if step.DoStartProvider? {
      StartTaken(cfg, s, step);
      StartDecides(cfg, s, step.result, step.before, step.during);
      OpeningMoves(cfg, s, step);
    } else if OfRunner(step) {
      RunnerDecides(cfg, s, step);
      NewlySelecting(cfg, s, step);
    } else if OfHolder(step) {
      HolderDecides(cfg, s, step);
      HolderKeepsRunner(cfg, s, step);
    } else {
      if step.DoRequestCancellation? {
        RequestTaken(cfg, s, step.command);
        RequestDecides(cfg, s, step.command);
      } else {
        OtherDecides(cfg, s, step);
      }
      OtherKeepsRunner(cfg, s, step);
    }
  }

  lemma StartTaken(cfg: Config, s: Session, step: Step)
    requires step.DoStartProvider?
    ensures Take(cfg, s, step) == StartProvider(cfg, s, step.result, step.before, step.during)
  {
    hide StartProvider;
  }

  lemma RequestTaken(cfg: Config, s: Session, command: string)
    ensures TakeOther(cfg, s, DoRequestCancellation(command)) == RequestCancellation(cfg, s, command)
  {
    hide RequestCancellation;
  }

  lemma {:induction false} ReachableReal(
    cfg: Config, seed: Counters, now: int, steps: seq<Step>, s: Session)
    requires Reachable(cfg, seed, now, steps, s)
    ensures DeadlineReal(cfg, s)
    decreases |steps|
  {
    hide Inv, Take;
    if steps != [] {
      var front := steps[..|steps| - 1];
      var before := Schedule(cfg, Created(cfg, seed, now), front).value;
      ReachableReal(cfg, seed, now, front, before);
      ReachableInv(cfg, seed, now, front, before);
      TakeDecides(cfg, before, steps[|steps| - 1]);
    }
  }

  /** The deadline decides exactly when it is over: in any interleaving, the step that selects an outcome
      selects the deadline's if and only if the deadline has come by the end of that step; no outcome is
      ever replaced, and a latched budget or a deadline outcome means that the deadline has come. */
  lemma DeadlineDecidesExactly(
    cfg: Config, seed: Counters, now: int, steps: seq<Step>, s: Session, step: Step, t: Session)
    requires Reachable(cfg, seed, now, steps, s) && Take(cfg, s, step) == Some(t)
    ensures s.selection.None? && t.selection.Some? ==>
              (t.selection == Some(ChooseDeadline) <==> t.now >= cfg.deadline)
    ensures s.selection.Some? ==> t.selection == s.selection
    ensures t.budget.latched || t.selection == Some(ChooseDeadline) ==> t.now >= cfg.deadline
  {
    hide Inv, Take, Reachable;
    ReachableReal(cfg, seed, now, steps, s);
    ReachableInv(cfg, seed, now, steps, s);
    TakeDecides(cfg, s, step);
  }

  // ----- What an outcome publishes -----

  /** The code of a provider failure. */
  function ProviderCode(code: P.FailureCode): string {
    "provider_"
    + match code
      case AuthenticationFailed => "authentication_failed"
      case RateLimited => "rate_limited"
      case RequestRejected => "request_rejected"
      case Unavailable => "unavailable"
      case InvalidResponse => "invalid_response"
      case Unknown => "unknown"
  }

  /** The last word of a session on its outcome, and the command it answers. */
  predicate Publishes(cfg: Config, choice: Choice, body: Body, correlation: string) {
    if choice.ChooseUserCancel? then body.SessionCancelled? && correlation == choice.command
    else
      && correlation == cfg.startCommand
      && match choice {
           case ChooseCompleted => body.SessionCompleted?
           case ChooseProviderFailure(code, message) =>
             body == SessionFailed(ProviderCode(code), message)
           case ChooseInvalidResponse(_) =>
             body == SessionFailed("provider_invalid_response",
                                   "The provider returned an invalid response.")
           case ChooseDeadline =>
             body == SessionFailed("provider_work_deadline_exceeded",
                                   "Provider work exceeded its time limit.")
           case ChooseTurnLimit =>
             body == SessionFailed("model_turn_limit_exceeded", "The model-turn limit was reached.")
           case ChooseOutputLimit =>
             body == SessionFailed("assistant_output_limit_exceeded",
                                   "Assistant output exceeded its byte limit.")
           case ChooseToolLimit =>
             body == SessionFailed("tool_call_limit_exceeded",
                                   "The provider tool-call limit was reached.")
           case ChooseToolUnavailable =>
             body == SessionFailed("tool_unavailable", "Provider-requested tools are not available.")
           case _ => false
         }
  }

  lemma CodesAre(code: P.FailureCode)
    ensures P.SessionFailureCode(code) == ProviderCode(code)
  {}

  /** What the reducer made of an ending. */
  predicate EndsIn(u: Update, life: State) {
    && u.EndsSession()
    && (life.status.Completed? <==> u.event.body.SessionCompleted?)
    && (life.status.Cancelled? <==> u.event.body.SessionCancelled?)
    && (life.status.Failed? ==>
          && u.event.body.SessionFailed?
          && life.sessionFailure == Some(Failure(u.event.body.code, u.event.body.message)))
    && u.event.correlationId
       == if u.event.body.SessionCancelled? then life.cancelCommandId else life.startCommandId
  }

  lemma ReduceEnding(state: State, u: Update)
    requires Reduce(state, u).Accepted? && Reduce(state, u).state.status.Terminal()
    ensures EndsIn(u, Reduce(state, u).state)
  {}

  lemma NothingEnded()
    ensures Replay(INITIAL, []) == Accepted(INITIAL)
  {}

  /** The last update of an accepted run that ended is the ending. */
  lemma RunEnding(updates: seq<Update>, life: State)
    requires Replay(INITIAL, updates) == Accepted(life) && life.status.Terminal()
    ensures updates != [] && EndsIn(updates[|updates| - 1], life)
  {
    hide Replay, Reduce, EndsIn;
    NothingEnded();
    var front, last := updates[..|updates| - 1], updates[|updates| - 1];
    assert updates == front + [last];
    ReplaySnoc(INITIAL, front, last);
    ReduceEnding(Replay(INITIAL, front).state, last);
  }

  lemma ReportedIs(cfg: Config, life: State, choice: Choice, u: Update)
    requires Reports(life, choice) && !choice.ChooseTeardown?
    requires life.startCommandId == Some(cfg.startCommand) && EndsIn(u, life)
    ensures u.event.correlationId.Some?
            && Publishes(cfg, choice, u.event.body, u.event.correlationId.value)
  {
    hide ProviderCode, P.SessionFailureCode;
    if choice.ChooseProviderFailure? { CodesAre(choice.code); }
  }

  lemma EndedFacts(cfg: Config, s: Session)
    requires Inv(cfg, s) && s.life.status.Terminal()
    ensures s.selection.Some? && !s.selection.value.ChooseTeardown?
    ensures Reports(s.life, s.selection.value) && s.life.startCommandId == Some(cfg.startCommand)
    ensures InFlight(s.lock) == []
  {
    hide InvText, InvTape, InvBudget, InvCleanup, InvScan, InvStart;
  }

  /** An ended session has published its outcome, as its last event: the completion, the cancellation under
      the command that asked for it, or the failure with exactly this code and message. */
  lemma OutcomeIsPublished(cfg: Config, seed: Counters, now: int, steps: seq<Step>, s: Session)
    requires Reachable(cfg, seed, now, steps, s) && s.life.status.Terminal()
    ensures s.selection.Some? && s.output.published != []
    ensures var e := s.output.published[|s.output.published| - 1];
            e.correlationId.Some?
            && Publishes(cfg, s.selection.value, e.body, e.correlationId.value)
  {
    hide Inv, Reachable, Logged, Updates, Wires, Publishes, RunGuards, UsageWellPlaced, LimitsWellPlaced;
    hide TerminalsCarryLimits, Reports, Replay;
    ReachableInv(cfg, seed, now, steps, s);
    EndedFacts(cfg, s);
    TranscriptAcceptsEveryCall(cfg, seed, now, steps, s);
    PublishedAreRecorded(cfg, seed, now, steps, s);
    var updates := Updates(s.recording.calls);
    RunEnding(updates, s.life);
    LastWire(updates);
    assert s.output.published + [] == s.output.published;
    ReportedIs(cfg, s.life, s.selection.value, updates[|updates| - 1]);
  }

  lemma LastWire(updates: seq<Update>)
    requires updates != [] && updates[|updates| - 1].Wire?
    ensures Wires(updates) != []
    ensures Wires(updates)[|Wires(updates)| - 1] == updates[|updates| - 1].event
  {}
}
