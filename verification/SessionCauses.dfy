/** Every outcome of a session goes back to the step that caused it. */
module SessionCauses {
  import opened Prelude
  import opened Lifecycle
  import opened LoopLimits
  import opened Tape
  import opened SessionMachine
  import opened SessionSafety
  import opened SessionRuns
  import P = ProviderEvents

  /** The observation under examination. */
  predicate Examines(s: Session, step: Step) {
    step.DoDispatch? && s.lock.Held? && s.lock.at.DispatchObservation?
  }

  predicate Unwritten(step: Step) {
    || (step.DoPublishStarted? && !step.written) || (step.DoPublishDelta? && !step.written)
  }

  /** The step gives rise to the outcome: a provider's own event, a budget at its own charge, a start or a
      read that brought nothing, a request, a cancelled task or a line the sink refused. */
  predicate Causes(s: Session, step: Step, choice: Choice) {
    match choice
    case ChooseCompleted => Examines(s, step) && s.lock.at.observed.Completed?
    case ChooseProviderFailure(code, message) =>
      Examines(s, step) && s.lock.at.observed == P.Failed(code, message)
    case ChooseInvalidResponse(reason) =>
      (match reason
       case OwnGrammar => Examines(s, step)
       case StreamEnded => step.DoFinishRead? && !step.read.Arrived?
       case StartFailed => step.DoStartProvider? && !step.result.Opened?)
    case ChooseDeadline => true
    case ChooseTurnLimit => step.DoStartProvider?
    case ChooseOutputLimit => Examines(s, step) && s.lock.at.observed.TextDelta?
    case ChooseToolLimit => Examines(s, step) && s.lock.at.observed.ToolCallRequested?
    case ChooseToolUnavailable => Examines(s, step) && s.lock.at.observed.ToolCallRequested?
    case ChooseUserCancel(command) => step == DoRequestCancellation(command)
    case ChooseTeardown => step.DoRequestTeardown? || step.DoCancelRunner? || Unwritten(step)
  }

  /** The outcome is selected, about to be selected, or what the runner turns to. */
  predicate Stands(s: Session, choice: Choice) {
    || s.selection == Some(choice)
    || (s.lock.Held? && s.lock.at == Choosing(choice))
    || (s.runner.SelectingInvalid? && choice == ChooseInvalidResponse(s.runner.reason))
    || ((s.runner.Raised? || s.runner.Recovering? || s.runner.TearingDown?) && choice.ChooseTeardown?)
  }

  ghost predicate CausesIf(s: Session, step: Step, t: Option<Session>) {
    t.Some? ==> forall choice :: Stands(t.value, choice) ==> Stands(s, choice) || Causes(s, step, choice)
  }

  /** Where a section may have put the selection. */
  predicate SameStanding(s: Session, t: Session) {
    t.lock == s.lock && t.runner == s.runner && t.selection == s.selection
  }

  lemma SelectStands(s: Session, choice: Choice)
    ensures Select(s, choice).lock == s.lock && Select(s, choice).runner == s.runner
    ensures Select(s, choice).selection
            == if s.selection.Some? then s.selection else Some(choice)
  {}

  lemma CleanupStands(s: Session, mode: CleanupMode)
    ensures SameStanding(s, EnsureCleanup(s, mode)) && SameStanding(s, Latch(s))
  {}

  lemma ExpireStands(s: Session)
    ensures Expire(s).lock == s.lock && Expire(s).runner == s.runner
    ensures Expire(s).selection == if s.selection.Some? then s.selection else Some(ChooseDeadline)
  {
    hide Latch, Select;
    CleanupStands(s, Cancel);
    SelectStands(Latch(s), ChooseDeadline);
  }

  lemma AcceptStands(cfg: Config, s: Session, u: Update)
    ensures SameStanding(s, AcceptUpdate(cfg, s, u))
  {
    hide Reduce, Guard;
  }

  lemma OpenCauses(cfg: Config, s: Session, result: StartResult, during: nat, step: Step, before: Session)
    requires step.DoStartProvider? && step.result == result && s.selection.None?
    requires s.lock == before.lock && s.runner.AfterLoop?
    ensures CausesIf(before, step, Some(OpenProvider(cfg, s, result, during)))
  {
    hide Select, Expire;
    var t := s.(operation := s.operation.(started := !result.StartRaised?), now := s.now + during);
    ExpireStands(t);
    SelectStands(t, ChooseInvalidResponse(StartFailed));
  }

  lemma StartCauses(cfg: Config, s: Session, step: Step)
    requires step.DoStartProvider?
    ensures CausesIf(s, step, StartProvider(cfg, s, step.result, step.before, step.during))
  {
    hide Select, Expire, OpenProvider, AdmitModelTurn;
    var t := s.(now := s.now + step.before, runner := AfterLoop);
    ExpireStands(t);
    var (charged, _) := AdmitModelTurn(cfg.limits, t.budget.counters);
    SelectStands(t.Charge(charged), ChooseTurnLimit);
    if t.selection.None? {
      OpenCauses(cfg, t.Charge(charged), step.result, step.during, step, s);
    }
  }

  lemma RunnerCauses(cfg: Config, s: Session, step: Step)
    requires Inv(cfg, s) && OfRunner(step) && !step.DoStartProvider?
    ensures CausesIf(s, step, TakeRunner(cfg, s, step))
  {
    hide Inv, Select, Expire;
    LoopIsLeftSelected(cfg, s);
    ExpireStands(s.(runner := AfterLoop));
  }

  /** Behind its loop the runner always has an outcome. */
  lemma LoopIsLeftSelected(cfg: Config, s: Session)
    requires Inv(cfg, s)
    ensures s.runner.AfterLoop? && s.RunnerFree() ==> s.selection.Some?
  {
    hide InvLock, InvStart, InvLife, InvText, InvPoint, InvTape, InvBudget, InvCleanup, InvEvents;
    hide InvScan;
  }

  lemma DeltaCauses(cfg: Config, s: Session, text: string)
    requires s.lock.Held? && s.lock.at.DispatchObservation?
    requires s.lock.at.observed.TextDelta?
    ensures CausesIf(s, DoDispatch, Some(DispatchDelta(cfg, s, text)))
  {
    hide Select, Expire, ReserveAssistantOutput;
    ExpireStands(s);
    var (charged, _) := ReserveAssistantOutput(cfg.limits, s.budget.counters, Utf8.Length(text));
    SelectStands(s.Charge(charged), ChooseOutputLimit);
  }

  lemma ToolCauses(cfg: Config, s: Session)
    requires s.lock.Held? && s.lock.at.DispatchObservation?
    requires s.lock.at.observed.ToolCallRequested?
    ensures CausesIf(s, DoDispatch, Some(DispatchToolCall(cfg, s)))
  {
    hide Select, Expire, ObserveToolCall;
    ExpireStands(s);
    var (charged, within) := ObserveToolCall(cfg.limits, s.budget.counters);
    SelectStands(s.Charge(charged), if within then ChooseToolUnavailable else ChooseToolLimit);
  }

  lemma ExaminedStands(s: Session, t: Session)
    requires t == s.(stream := t.stream)
    ensures forall choice :: Stands(t, choice) <==> Stands(s, choice)
    ensures forall choice, step :: Causes(t, step, choice) <==> Causes(s, step, choice)
  {}

  lemma DispatchCauses(cfg: Config, s: Session)
    ensures CausesIf(s, DoDispatch, DispatchStep(cfg, s))
  {
    hide DispatchDelta, DispatchToolCall, P.Observe;
    if s.lock.Held? && s.lock.at.DispatchObservation? {
      var observed := s.lock.at.observed;
      var t := s.Examine(observed);
      ExaminedStands(s, t);
      if observed.TextDelta? { DeltaCauses(cfg, t, observed.text); }
      if observed.ToolCallRequested? { ToolCauses(cfg, t); }
    }
  }

  lemma WritingCauses(cfg: Config, s: Session, step: Step)
    requires Publishes(step)
    ensures CausesIf(s, step, TakeHolder(cfg, s, step))
  {
    hide Hear, TerminalOf;
  }

  lemma AdmittingCauses(cfg: Config, s: Session, step: Step)
    requires step.DoAdmitStarted? || step.DoAdmitDeferred? || step.DoAdmitDelta? || step.DoAdmitText?
             || step.DoAdmitTerminal? || step.DoNotifyUsage? || step.DoNotifyLimits?
    ensures CausesIf(s, step, TakeHolder(cfg, s, step))
  {
    hide AcceptUpdate, Guard;
    if s.lock.Held? && Accepting(s.lock.at) { AcceptStands(cfg, s, Wire(s.lock.at.event)); }
    if s.start.deferred.Some? {
      AcceptStands(cfg, s, CancelRequested(s.start.deferred.value, cfg.sessionId));
    }
  }

  lemma DecidingCauses(cfg: Config, s: Session, step: Step)
    requires step.DoEnterObservation? || step.DoRecheckDeadline? || step.DoChoose?
    ensures CausesIf(s, step, TakeHolder(cfg, s, step))
  {
    hide Select, Expire;
    ExpireStands(s);
    if s.lock.Held? && s.lock.at.Choosing? { SelectStands(s, s.lock.at.candidate); }
  }

  lemma HolderCauses(cfg: Config, s: Session, step: Step)
    requires OfHolder(step)
    ensures CausesIf(s, step, TakeHolder(cfg, s, step))
  {
    hide CausesIf, DispatchStep;
    if step.DoDispatch? {
      DispatchCauses(cfg, s);
    } else {
      hide TakeHolder;
      if Publishes(step) {
        WritingCauses(cfg, s, step);
      } else if step.DoEnterObservation? || step.DoRecheckDeadline? || step.DoChoose? {
        DecidingCauses(cfg, s, step);
      } else {
        AdmittingCauses(cfg, s, step);
      }
    }
  }

  lemma OtherCauses(cfg: Config, s: Session, step: Step)
    requires !OfRunner(step) && !OfHolder(step)
    ensures CausesIf(s, step, TakeOther(cfg, s, step))
  {
    hide Latch, EnsureCleanup, AcceptUpdate;
    CleanupStands(s.(watcher := Stopped), Cancel);
    if s.selection.Some? {
      CleanupStands(s.(watcher := Stopped, finalizer := AwaitCleanup), s.selection.value.Mode());
    }
    if step.DoRequestCancellation? {
      AcceptStands(cfg, s.(lock := Held(Caller, Choosing(ChooseUserCancel(step.command)))),
                   CancelRequested(step.command, cfg.sessionId));
    }
  }

  lemma TakeCauses(cfg: Config, s: Session, step: Step)
    requires Inv(cfg, s)
    ensures CausesIf(s, step, Take(cfg, s, step))
  {
    hide Inv, CausesIf, TakeHolder, TakeOther;
    if step.DoStartProvider? {
      hide StartProvider;
      StartCauses(cfg, s, step);
    } else {
      hide TakeRunner;
      if OfRunner(step) {
        RunnerCauses(cfg, s, step);
      } else if OfHolder(step) {
        HolderCauses(cfg, s, step);
      } else {
        OtherCauses(cfg, s, step);
      }
    }
  }

  /** The i-th step of the schedule gave rise to the outcome. */
  predicate CausedAt(cfg: Config, start: Session, steps: seq<Step>, i: nat, choice: Choice)
    requires i < |steps|
  {
    var before := Schedule(cfg, start, steps[..i]);
    before.Some? && Causes(before.value, steps[i], choice)
  }

  /** In every interleaving, whatever outcome stands was caused by some step of the schedule. */
  lemma {:induction false} OutcomesHaveCauses(
    cfg: Config, seed: Counters, now: int, steps: seq<Step>, s: Session, choice: Choice)
    requires Reachable(cfg, seed, now, steps, s) && Stands(s, choice)
    ensures exists i :: 0 <= i < |steps| && CausedAt(cfg, Created(cfg, seed, now), steps, i, choice)
    decreases |steps|
  {
    hide Inv, Take, Stands, Causes;
    var start := Created(cfg, seed, now);
    if steps == [] {
      NothingStands(cfg, seed, now, choice);
    } else {
      var n := |steps| - 1;
      var before := Schedule(cfg, start, steps[..n]).value;
      ReachableInv(cfg, seed, now, steps[..n], before);
      TakeCauses(cfg, before, steps[n]);
      if Stands(before, choice) {
        OutcomesHaveCauses(cfg, seed, now, steps[..n], before, choice);
        var i :| 0 <= i < n && CausedAt(cfg, start, steps[..n], i, choice);
        assert steps[..n][..i] == steps[..i] && steps[..n][i] == steps[i];
        assert CausedAt(cfg, start, steps, i, choice);
      } else {
        assert CausedAt(cfg, start, steps, n, choice);
      }
    }
  }

  lemma NothingStands(cfg: Config, seed: Counters, now: int, choice: Choice)
    ensures !Stands(Created(cfg, seed, now), choice)
  {}
}
