/** The counters a session reports are what it did: one turn, the tool call that ended it, and the bytes
    of the text it accepted. */
module SessionTallies {
  import opened Prelude
  import opened Lifecycle
  import opened LoopLimits
  import opened Tape
  import opened SessionMachine
  import opened SessionSafety
  import opened SessionRuns
  import P = ProviderEvents
  import Utf8

  predicate ToolChosen(selection: Option<Choice>) {
    selection.Some? && (selection.value.ChooseToolLimit? || selection.value.ChooseToolUnavailable?)
  }

  /** The provider has not been asked yet. */
  predicate Unasked(pc: RunnerPc) { pc.NotRun? || pc.AnnouncingStart? || pc.StartingProvider? }

  /** No candidate stands for a tool call: those are selected on the spot. */
  predicate NoTool(lock: DecisionLock) {
    lock.Held? && lock.at.Choosing? ==> !ToolChosen(Some(lock.at.candidate))
  }

  /** The counters against what happened since they were seeded. */
  predicate Tallied(seed: Counters, s: Session) {
    var c := s.budget.counters;
    && seed.modelTurnsStarted <= c.modelTurnsStarted <= seed.modelTurnsStarted + 1
    && (s.operation.started ==> c.modelTurnsStarted == seed.modelTurnsStarted + 1)
    && (Unasked(s.runner) ==> c.modelTurnsStarted == seed.modelTurnsStarted)
    && c.toolCallsObserved == seed.toolCallsObserved + (if ToolChosen(s.selection) then 1 else 0)
    && NoTool(s.lock)
    && (if s.stream.deltaWriteFailed then
          seed.assistantOutputBytes + s.stream.acceptedBytes <= c.assistantOutputBytes
        else
          c.assistantOutputBytes
          == seed.assistantOutputBytes + s.stream.acceptedBytes + Utf8.Length(PendingDelta(s.lock)))
  }

  /** Nothing that is counted has changed. */
  predicate SameTally(s: Session, t: Session) {
    && t.budget.counters == s.budget.counters.(exhausted := t.budget.counters.exhausted)
    && t.stream.acceptedBytes == s.stream.acceptedBytes
    && t.stream.deltaWriteFailed == s.stream.deltaWriteFailed
    && PendingDelta(t.lock) == PendingDelta(s.lock)
    && t.operation.started == s.operation.started
    && (Unasked(t.runner) ==> Unasked(s.runner))
    && ToolChosen(t.selection) == ToolChosen(s.selection)
    && (NoTool(s.lock) ==> NoTool(t.lock))
  }

  predicate TallyIf(s: Session, t: Option<Session>) { t.Some? ==> SameTally(s, t.value) }

  lemma SameStaysTallied(seed: Counters, s: Session, t: Session)
    requires Tallied(seed, s) && SameTally(s, t)
    ensures Tallied(seed, t)
  {
    hide Utf8.Length, NoTool, PendingDelta, ToolChosen;
  }

  lemma SelectTallies(s: Session, choice: Choice)
    ensures !ToolChosen(Some(choice)) ==> SameTally(s, Select(s, choice))
    ensures Select(s, choice).lock == s.lock && Select(s, choice).runner == s.runner
  {}

  lemma CleanupTallies(s: Session, mode: CleanupMode)
    ensures SameTally(s, EnsureCleanup(s, mode)) && EnsureCleanup(s, mode).lock == s.lock
    ensures EnsureCleanup(s, mode).selection == s.selection
  {}

  lemma LatchTallies(s: Session)
    ensures SameTally(s, Latch(s)) && Latch(s).lock == s.lock && Latch(s).selection == s.selection
  {
    hide EnsureCleanup;
    CleanupTallies(
      if s.budget.latched then s
      else s.(budget := Budget(true, MarkProviderWorkExhausted(s.budget.counters))), Cancel);
  }

  lemma ExpireTallies(s: Session)
    ensures SameTally(s, Expire(s)) && Expire(s).lock == s.lock && Expire(s).runner == s.runner
  {
    hide Select, Latch;
    LatchTallies(s);
    SelectTallies(Latch(s), ChooseDeadline);
    SelectingKeepsRunner();
  }

  lemma AcceptTallies(cfg: Config, s: Session, u: Update)
    ensures SameTally(s, AcceptUpdate(cfg, s, u)) && AcceptUpdate(cfg, s, u).lock == s.lock
    ensures AcceptUpdate(cfg, s, u).selection == s.selection
    ensures AcceptUpdate(cfg, s, u).stream == s.stream
    ensures AcceptUpdate(cfg, s, u).budget == s.budget
  {
    hide Reduce, Guard;
  }

  lemma LeavingTallies(s: Session)
    ensures TallyIf(s, Run(s)) && TallyIf(s, BeginStarted(s)) && TallyIf(s, LeaveLoop(s))
    ensures TallyIf(s, JoinFinalizer(s)) && TallyIf(s, CancelRunner(s))
  {}

  lemma HandlersTally(s: Session)
    ensures TallyIf(s, HandleRaised(s)) && TallyIf(s, BeginRecovery(s))
    ensures TallyIf(s, ResumeRecovered(s)) && TallyIf(s, BeginRunnerTeardown(s))
  {}

  lemma LoopTallies(s: Session)
    ensures TallyIf(s, BeginInvalid(s)) && TallyIf(s, BeginObservation(s))
    ensures TallyIf(s, SelectExpired(s))
  {
    hide Select, Expire;
    ExpireTallies(s.(runner := AfterLoop));
  }

  lemma ReadTallies(cfg: Config, s: Session, read: ReadResult, reapFailed: bool)
    ensures TallyIf(s, BeginRead(s)) && TallyIf(s, FinishRead(cfg, s, read, reapFailed))
  {}

  lemma RunnerTallies(cfg: Config, s: Session, step: Step)
    requires OfRunner(step) && !step.DoStartProvider?
    ensures TallyIf(s, TakeRunner(cfg, s, step))
  {
    hide TallyIf, Run, BeginStarted, BeginRead, FinishRead, SelectExpired, BeginInvalid;
    hide BeginObservation, LeaveLoop, JoinFinalizer, CancelRunner, HandleRaised, BeginRecovery;
    hide ResumeRecovered, BeginRunnerTeardown;
    var (read, reapFailed) :=
      if step.DoFinishRead? then (step.read, step.reapFailed) else (StreamOver, false);
    ReadTallies(cfg, s, read, reapFailed);
    LeavingTallies(s);
    HandlersTally(s);
    LoopTallies(s);
  }

  /** The one turn is charged with the start of the provider. */
  lemma OpenTallies(
    cfg: Config, seed: Counters, s: Session, result: StartResult, during: nat)
    requires Tallied(seed, s) && s.selection.None? && s.runner.AfterLoop?
    requires s.budget.counters.modelTurnsStarted == seed.modelTurnsStarted + 1
    ensures Tallied(seed, OpenProvider(cfg, s, result, during))
  {
    hide Select, Expire, Utf8.Length;
    var t := s.(operation := s.operation.(started := !result.StartRaised?), now := s.now + during);
    ExpireTallies(t);
    SelectTallies(t, ChooseInvalidResponse(StartFailed));
    if t.Expired(cfg) {
      SameStaysTallied(seed, t, Expire(t));
    } else if !result.Opened? {
      SameStaysTallied(seed, t, Select(t, ChooseInvalidResponse(StartFailed)));
    }
  }

  lemma StartTallies(cfg: Config, seed: Counters, s: Session, step: Step)
    requires Inv(cfg, s) && Tallied(seed, s) && step.DoStartProvider?
    requires StartProvider(cfg, s, step.result, step.before, step.during).Some?
    ensures Tallied(seed, StartProvider(cfg, s, step.result, step.before, step.during).value)
  {
    hide Inv, Select, Expire, OpenProvider, Utf8.Length;
    NotYetStarted(cfg, s);
    var t := s.(now := s.now + step.before, runner := AfterLoop);
    ExpireTallies(t);
    if t.selection.None? && !t.Expired(cfg) {
      var (charged, admitted) := AdmitModelTurn(cfg.limits, t.budget.counters);
      SelectTallies(t.Charge(charged), ChooseTurnLimit);
      if admitted {
        OpenTallies(cfg, seed, t.Charge(charged), step.result, step.during);
      } else {
        SameStaysTallied(seed, t.Charge(charged), Select(t.Charge(charged), ChooseTurnLimit));
      }
    } else if t.selection.None? {
      SameStaysTallied(seed, t, Expire(t));
    }
  }

  lemma NotYetStarted(cfg: Config, s: Session)
    requires Inv(cfg, s)
    ensures s.runner.StartingProvider? ==> !s.operation.started
  {
    hide InvLock, InvFinalizer, InvLife, InvText, InvPoint, InvTape, InvBudget, InvCleanup, InvEvents;
    hide InvScan;
  }

  /** At an examination nothing is pending, no write failed and no budget is exhausted. */
  lemma TallyAtDispatch(cfg: Config, s: Session)
    requires Inv(cfg, s) && s.lock.Held? && s.lock.at.DispatchObservation?
    ensures !s.stream.deltaWriteFailed && s.selection.None? && !Unasked(s.runner)
    ensures s.operation.started
    ensures s.budget.counters.exhausted.Some? ==> s.budget.latched
    ensures PendingDelta(s.lock) == ""
  {
    hide InvFinalizer, InvLife, InvText, InvTape, InvCleanup, InvEvents;
  }

  lemma EmptyLength()
    ensures Utf8.Length("") == 0
  {}

  lemma DeltaTallies(cfg: Config, seed: Counters, s: Session, text: string)
    requires Tallied(seed, s) && s.lock.Held? && s.lock.at.DispatchObservation?
    requires !s.stream.deltaWriteFailed && !Unasked(s.runner) && s.selection.None?
    requires ReserveAssistantOutput(cfg.limits, s.budget.counters, Utf8.Length(text)).1 ==>
               s.stream.acceptedBytes + Utf8.Length(text) <= MAX_PROVIDER_TURN_OUTPUT_BYTES
    requires s.budget.counters.exhausted.Some? ==> s.budget.latched
    ensures Tallied(seed, DispatchDelta(cfg, s, text))
  {
    hide Select, Expire, Utf8.Length;
    EmptyLength();
    ExpireTallies(s);
    var (charged, reserved) :=
      ReserveAssistantOutput(cfg.limits, s.budget.counters, Utf8.Length(text));
    SelectTallies(s.Charge(charged), ChooseOutputLimit);
    if s.Expired(cfg) { SameStaysTallied(seed, s, Expire(s)); }
    if !reserved {
      SameStaysTallied(seed, s.Charge(charged), Select(s.Charge(charged), ChooseOutputLimit));
    }
  }

  lemma ToolTallies(cfg: Config, seed: Counters, s: Session)
    requires Tallied(seed, s) && s.lock.Held? && s.lock.at.DispatchObservation?
    requires s.selection.None? && (s.budget.counters.exhausted.Some? ==> s.budget.latched)
    ensures Tallied(seed, DispatchToolCall(cfg, s))
  {
    hide Expire, Utf8.Length;
    ExpireTallies(s);
    if s.Expired(cfg) { SameStaysTallied(seed, s, Expire(s)); }
  }

  lemma DispatchTallies(cfg: Config, seed: Counters, s: Session)
    requires Inv(cfg, s) && Tallied(seed, s) && DispatchStep(cfg, s).Some?
    ensures Tallied(seed, DispatchStep(cfg, s).value)
  {
    hide Inv, DispatchDelta, DispatchToolCall, P.Observe, Utf8.Length, ReserveAssistantOutput;
    TallyAtDispatch(cfg, s);
    EmptyLength();
    var observed := s.lock.at.observed;
    var t := s.Examine(observed);
    match observed
    case TextDelta(text) =>
      if ReserveAssistantOutput(cfg.limits, s.budget.counters, Utf8.Length(text)).1 {
        CeilingUnreachable(cfg, s, text);
      }
      DeltaTallies(cfg, seed, t, text);
    case ToolCallRequested => ToolTallies(cfg, seed, t);
    case _ =>
  }

  lemma WritingTallies(cfg: Config, s: Session, written: bool)
    ensures TallyIf(s, PublishStarted(cfg, s, written))
    ensures TallyIf(s, PublishText(cfg, s, written)) && TallyIf(s, PublishTerminal(cfg, s, written))
    ensures written ==> TallyIf(s, PublishDelta(cfg, s, written))
  {
    hide Hear, TerminalOf;
  }

  /** The sink refused a delta: its bytes stay charged. */
  lemma RefusedDelta(cfg: Config, seed: Counters, s: Session)
    requires Tallied(seed, s) && PublishDelta(cfg, s, false).Some?
    ensures Tallied(seed, PublishDelta(cfg, s, false).value)
  {
    hide Utf8.Length;
  }

  /** An accepted delta moves from pending to accepted. */
  lemma AcceptedDelta(cfg: Config, seed: Counters, s: Session)
    requires Inv(cfg, s) && Tallied(seed, s) && AdmitDelta(cfg, s).Some?
    ensures Tallied(seed, AdmitDelta(cfg, s).value)
  {
    hide AcceptUpdate, Utf8.Length, Inv;
    WrittenSoFar(cfg, s);
    AcceptTallies(cfg, s, Wire(s.lock.at.event));
    EmptyLength();
  }

  lemma WrittenSoFar(cfg: Config, s: Session)
    requires Inv(cfg, s) && s.lock.Held? && s.lock.at.AcceptDelta?
    ensures !s.stream.deltaWriteFailed
  {
    hide InvStart, InvFinalizer, InvLife, InvText, InvPoint, InvTape, InvBudget, InvCleanup, InvEvents;
  }

  lemma AdmittingTallies(cfg: Config, s: Session)
    ensures TallyIf(s, AdmitStarted(cfg, s)) && TallyIf(s, AdmitText(cfg, s))
    ensures TallyIf(s, AdmitTerminal(cfg, s)) && TallyIf(s, AdmitDeferred(cfg, s))
    ensures TallyIf(s, NotifyUsageStep(cfg, s)) && TallyIf(s, NotifyLimitsStep(cfg, s))
  {
    hide AcceptUpdate, Guard;
    if s.lock.Held? && Accepting(s.lock.at) { AcceptTallies(cfg, s, Wire(s.lock.at.event)); }
    if s.start.deferred.Some? {
      AcceptTallies(cfg, s, CancelRequested(s.start.deferred.value, cfg.sessionId));
    }
  }

  lemma DecidingTallies(cfg: Config, s: Session)
    requires NoTool(s.lock)
    ensures TallyIf(s, EnterObservationStep(cfg, s)) && TallyIf(s, RecheckDeadlineStep(cfg, s))
    ensures TallyIf(s, ChooseStep(cfg, s))
  {
    hide Select, Expire;
    ExpireTallies(s);
    if s.lock.Held? && s.lock.at.Choosing? { SelectTallies(s, s.lock.at.candidate); }
  }

  /** Holder steps that count nothing. */
  lemma QuietTallies(cfg: Config, s: Session, step: Step)
    requires OfHolder(step) && NoTool(s.lock)
    requires !step.DoDispatch? && !step.DoAdmitDelta? && !(step.DoPublishDelta? && !step.written)
    ensures TallyIf(s, TakeHolder(cfg, s, step))
  {
    hide PublishStarted, PublishDelta, PublishText, PublishTerminal, AdmitStarted, TallyIf;
    hide AdmitText, AdmitTerminal, AdmitDeferred, NotifyLimitsStep, NotifyUsageStep;
    hide EnterObservationStep, RecheckDeadlineStep, ChooseStep;
    WritingTallies(cfg, s, true);
    WritingTallies(cfg, s, false);
    AdmittingTallies(cfg, s);
    DecidingTallies(cfg, s);
  }

  lemma HolderTaken(cfg: Config, s: Session)
    ensures TakeHolder(cfg, s, DoDispatch) == DispatchStep(cfg, s)
    ensures TakeHolder(cfg, s, DoAdmitDelta) == AdmitDelta(cfg, s)
    ensures TakeHolder(cfg, s, DoPublishDelta(false)) == PublishDelta(cfg, s, false)
  {
    hide DispatchStep, AdmitDelta, PublishDelta;
  }

  lemma HolderTallies(cfg: Config, seed: Counters, s: Session, step: Step)
    requires Inv(cfg, s) && Tallied(seed, s) && OfHolder(step) && TakeHolder(cfg, s, step).Some?
    ensures Tallied(seed, TakeHolder(cfg, s, step).value)
  {
    hide Inv, TakeHolder, Tallied, SameTally, DispatchStep, AdmitDelta, PublishDelta;
    HolderTaken(cfg, s);
    TallyHasNoTool(seed, s);
    if step.DoDispatch? {
      DispatchTallies(cfg, seed, s);
    } else if step.DoAdmitDelta? {
      AcceptedDelta(cfg, seed, s);
    } else if step.DoPublishDelta? && !step.written {
      RefusedDelta(cfg, seed, s);
    } else {
      QuietTallies(cfg, s, step);
      SameStaysTallied(seed, s, TakeHolder(cfg, s, step).value);
    }
  }

  lemma TallyHasNoTool(seed: Counters, s: Session)
    requires Tallied(seed, s)
    ensures NoTool(s.lock)
  {}

  lemma OtherTallies(cfg: Config, s: Session, step: Step)
    requires !OfRunner(step) && !OfHolder(step)
    ensures TallyIf(s, TakeOther(cfg, s, step))
  {
    hide Latch, EnsureCleanup, AcceptUpdate;
    LatchTallies(s.(watcher := Stopped));
    if s.selection.Some? {
      CleanupTallies(s.(watcher := Stopped, finalizer := AwaitCleanup), s.selection.value.Mode());
    }
    if step.DoRequestCancellation? {
      AcceptTallies(cfg, s.(lock := Held(Caller, Choosing(ChooseUserCancel(step.command)))),
                    CancelRequested(step.command, cfg.sessionId));
    }
  }

  lemma TakeTallies(cfg: Config, seed: Counters, s: Session, step: Step)
    requires Inv(cfg, s) && Tallied(seed, s) && Take(cfg, s, step).Some?
    ensures Tallied(seed, Take(cfg, s, step).value)
  {
    hide Inv, Tallied, SameTally, TakeHolder, TakeOther;
    if step.DoStartProvider? {
      hide StartProvider;
      StartTallies(cfg, seed, s, step);
    } else {
      hide TakeRunner;
      if OfRunner(step) {
        RunnerTallies(cfg, s, step);
        SameStaysTallied(seed, s, Take(cfg, s, step).value);
      } else if OfHolder(step) {
        HolderTallies(cfg, seed, s, step);
      } else {
        OtherTallies(cfg, s, step);
        SameStaysTallied(seed, s, Take(cfg, s, step).value);
      }
    }
  }

  lemma CreatedTallied(cfg: Config, seed: Counters, now: int)
    ensures Tallied(seed, Created(cfg, seed, now))
  {
    EmptyLength();
  }

  lemma {:induction false} ReachableTallied(
    cfg: Config, seed: Counters, now: int, steps: seq<Step>, s: Session)
    requires Reachable(cfg, seed, now, steps, s)
    ensures Tallied(seed, s)
    decreases |steps|
  {
    hide Inv, Take, Tallied;
    if steps == [] {
      CreatedTallied(cfg, seed, now);
    } else {
      var front := steps[..|steps| - 1];
      var before := Schedule(cfg, Created(cfg, seed, now), front).value;
      ReachableTallied(cfg, seed, now, front, before);
      ReachableInv(cfg, seed, now, front, before);
      TakeTallies(cfg, seed, before, steps[|steps| - 1]);
    }
  }

  /** In every interleaving the reported counters are what happened: at most one model turn, and exactly
      one once the provider was started; one tool call exactly when a tool call ended the session; and the
      UTF-8 bytes of the accepted text and of the delta under way, with more only where the sink refused a
      delta that was already charged. */
  lemma CountersAreWhatHappened(
    cfg: Config, seed: Counters, now: int, steps: seq<Step>, s: Session)
    requires Reachable(cfg, seed, now, steps, s)
    ensures var c := s.budget.counters;
            && seed.modelTurnsStarted <= c.modelTurnsStarted <= seed.modelTurnsStarted + 1
            && (s.operation.started ==> c.modelTurnsStarted == seed.modelTurnsStarted + 1)
            && c.toolCallsObserved
               == seed.toolCallsObserved
                  + (if s.selection == Some(ChooseToolLimit)
                        || s.selection == Some(ChooseToolUnavailable) then 1 else 0)
            && (if s.stream.deltaWriteFailed then
                  seed.assistantOutputBytes + Utf8.Length(s.life.assistantText)
                  <= c.assistantOutputBytes
                else
                  c.assistantOutputBytes
                  == seed.assistantOutputBytes + Utf8.Length(s.life.assistantText)
                     + Utf8.Length(PendingDelta(s.lock)))
  {
    hide Inv, Reachable, Utf8.Length;
    ReachableTallied(cfg, seed, now, steps, s);
    ReachableInv(cfg, seed, now, steps, s);
    TextBytes(cfg, s);
  }

  lemma TextBytes(cfg: Config, s: Session)
    requires Inv(cfg, s)
    ensures s.stream.acceptedBytes == Utf8.Length(s.life.assistantText)
  {
    hide InvLock, InvStart, InvFinalizer, InvLife, InvPoint, InvTape, InvBudget, InvCleanup, InvEvents;
    hide InvScan;
  }
}
