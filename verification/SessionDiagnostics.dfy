/** The cleanup diagnostic of a session goes out when, and only when, the release is in doubt. */
module SessionDiagnostics {
  import opened Prelude
  import opened Lifecycle
  import opened LoopLimits
  import opened Tape
  import opened SessionMachine
  import opened SessionSafety
  import opened SessionRuns
  import P = ProviderEvents

  /** The finalizer has joined the cleanup. */
  predicate Joined(s: Session) {
    s.finalizer.AwaitTerminal? || s.finalizer.InTerminal? || s.ending.terminalEmitted
  }

  predicate CleanupFailed(o: Operation) { o.cleanup.Settled? && o.cleanup.failed }

  /** A reap or the cleanup failed. */
  predicate InDoubt(o: Operation) { o.pendingFailed || CleanupFailed(o) }

  predicate Reported(s: Session) {
    && (s.ending.diagnosticEmitted ==> InDoubt(s.operation))
    && (Joined(s) && CleanupFailed(s.operation) ==> s.ending.diagnosticEmitted)
  }

  /** Neither the report nor its grounds have changed, except that a read may have failed. */
  predicate SameReport(s: Session, t: Session) {
    && t.ending.diagnosticEmitted == s.ending.diagnosticEmitted
    && (s.operation.pendingFailed ==> t.operation.pendingFailed)
    && (CleanupFailed(s.operation) ==> CleanupFailed(t.operation))
    && (Joined(t) && CleanupFailed(t.operation) ==> Joined(s) && CleanupFailed(s.operation))
  }

  predicate ReportIf(s: Session, t: Option<Session>) { t.Some? ==> SameReport(s, t.value) }

  predicate SameGrounds(s: Session, t: Session) {
    && t.ending == s.ending && t.operation == s.operation && t.finalizer == s.finalizer
  }

  lemma SelectReports(s: Session, choice: Choice)
    ensures SameReport(s, Select(s, choice)) && Select(s, choice).operation == s.operation
    ensures Select(s, choice).ending == s.ending
    ensures Joined(Select(s, choice)) ==> Joined(s)
  {}

  lemma CleanupReports(s: Session, mode: CleanupMode)
    ensures var t := EnsureCleanup(s, mode);
            && SameReport(s, t) && t.ending == s.ending && t.finalizer == s.finalizer
            && (CleanupFailed(t.operation) <==> CleanupFailed(s.operation))
            && t.operation.pendingFailed == s.operation.pendingFailed
  {}

  lemma LatchReports(s: Session)
    ensures var t := Latch(s);
            && SameReport(s, t) && t.ending == s.ending && t.finalizer == s.finalizer
            && (CleanupFailed(t.operation) <==> CleanupFailed(s.operation))
            && t.operation.pendingFailed == s.operation.pendingFailed
  {
    hide EnsureCleanup;
    CleanupReports(
      if s.budget.latched then s
      else s.(budget := Budget(true, MarkProviderWorkExhausted(s.budget.counters))), Cancel);
  }

  lemma ExpireReports(s: Session)
    ensures SameReport(s, Expire(s))
  {
    hide Latch, Select;
    LatchReports(s);
    SelectReports(Latch(s), ChooseDeadline);
  }

  lemma AcceptReports(cfg: Config, s: Session, u: Update)
    ensures SameGrounds(s, AcceptUpdate(cfg, s, u))
  {
    hide Reduce, Guard;
  }

  lemma StartReports(cfg: Config, s: Session, step: Step)
    requires step.DoStartProvider? && Inv(cfg, s)
    ensures ReportIf(s, StartProvider(cfg, s, step.result, step.before, step.during))
  {
    hide Inv, Select, Expire, OpenProvider, AdmitModelTurn;
    var t := s.(now := s.now + step.before, runner := AfterLoop);
    ExpireReports(t);
    var (charged, _) := AdmitModelTurn(cfg.limits, t.budget.counters);
    SelectReports(t.Charge(charged), ChooseTurnLimit);
    OpenReports(cfg, t.Charge(charged), step.result, step.during);
  }

  lemma OpenReports(cfg: Config, s: Session, result: StartResult, during: nat)
    ensures SameReport(s, OpenProvider(cfg, s, result, during))
  {
    hide Select, Expire;
    var t := s.(operation := s.operation.(started := !result.StartRaised?), now := s.now + during);
    ExpireReports(t);
    SelectReports(t, ChooseInvalidResponse(StartFailed));
  }

  lemma LoopReports(cfg: Config, s: Session, read: ReadResult, reapFailed: bool)
    ensures ReportIf(s, BeginRead(s)) && ReportIf(s, FinishRead(cfg, s, read, reapFailed))
    ensures ReportIf(s, SelectExpired(s))
  {
    hide Expire;
    ExpireReports(s.(runner := AfterLoop));
  }

  lemma LeavingReports(s: Session)
    ensures ReportIf(s, Run(s)) && ReportIf(s, BeginStarted(s)) && ReportIf(s, LeaveLoop(s))
    ensures ReportIf(s, JoinFinalizer(s)) && ReportIf(s, CancelRunner(s))
    ensures ReportIf(s, BeginInvalid(s)) && ReportIf(s, BeginObservation(s))
  {}

  lemma HandlersReport(s: Session)
    ensures ReportIf(s, HandleRaised(s)) && ReportIf(s, BeginRecovery(s))
    ensures ReportIf(s, ResumeRecovered(s)) && ReportIf(s, BeginRunnerTeardown(s))
  {}

  lemma RunnerReports(cfg: Config, s: Session, step: Step)
    requires OfRunner(step) && !step.DoStartProvider?
    ensures ReportIf(s, TakeRunner(cfg, s, step))
  {
    hide ReportIf, Run, BeginStarted, BeginRead, FinishRead, SelectExpired, BeginInvalid;
    hide BeginObservation, LeaveLoop, JoinFinalizer, CancelRunner, HandleRaised, BeginRecovery;
    hide ResumeRecovered, BeginRunnerTeardown;
    var (read, reapFailed) :=
      if step.DoFinishRead? then (step.read, step.reapFailed) else (StreamOver, false);
    LoopReports(cfg, s, read, reapFailed);
    LeavingReports(s);
    HandlersReport(s);
  }

  lemma DispatchReportsNothing(cfg: Config, s: Session)
    ensures ReportIf(s, DispatchStep(cfg, s))
  {
    hide DispatchDelta, DispatchToolCall, P.Observe;
    if s.lock.Held? && s.lock.at.DispatchObservation? {
      var t := s.Examine(s.lock.at.observed);
      if s.lock.at.observed.TextDelta? { DeltaReports(cfg, t, s.lock.at.observed.text); }
      ToolReports(cfg, t);
    }
  }

  lemma DeltaReports(cfg: Config, s: Session, text: string)
    requires s.lock.Held?
    ensures SameReport(s, DispatchDelta(cfg, s, text))
  {
    hide Select, Expire, ReserveAssistantOutput;
    ExpireReports(s);
    var (charged, _) := ReserveAssistantOutput(cfg.limits, s.budget.counters, Utf8.Length(text));
    SelectReports(s.Charge(charged), ChooseOutputLimit);
  }

  lemma ToolReports(cfg: Config, s: Session)
    requires s.lock.Held?
    ensures SameReport(s, DispatchToolCall(cfg, s))
  {
    hide Select, Expire, ObserveToolCall;
    ExpireReports(s);
    var (charged, within) := ObserveToolCall(cfg.limits, s.budget.counters);
    SelectReports(s.Charge(charged), if within then ChooseToolUnavailable else ChooseToolLimit);
  }

  lemma WritingReports(cfg: Config, s: Session, written: bool)
    ensures ReportIf(s, PublishStarted(cfg, s, written)) && ReportIf(s, PublishDelta(cfg, s, written))
    ensures ReportIf(s, PublishText(cfg, s, written)) && ReportIf(s, PublishTerminal(cfg, s, written))
  {
    hide Hear, TerminalOf;
  }

  /** Only the finalizer, which is joined, accepts the terminal. */
  lemma EndingIsJoined(cfg: Config, s: Session)
    requires Inv(cfg, s)
    ensures s.lock.Held? && s.lock.at.AcceptTerminal? ==> s.finalizer.InTerminal?
    ensures s.finalizer.AwaitTerminal? || s.finalizer.InTerminal? || s.ending.terminalEmitted ==>
              s.operation.started ==> s.operation.cleanup.Settled?
    ensures !s.operation.started ==> s.operation.cleanup.NotStarted?
  {
    hide InvStart, InvFinalizer, InvLife, InvText, InvPoint, InvTape, InvBudget, InvEvents, InvScan;
  }

  lemma AdmittingReports(cfg: Config, s: Session)
    requires Inv(cfg, s)
    ensures ReportIf(s, AdmitStarted(cfg, s)) && ReportIf(s, AdmitDelta(cfg, s))
    ensures ReportIf(s, AdmitText(cfg, s)) && ReportIf(s, AdmitTerminal(cfg, s))
    ensures ReportIf(s, AdmitDeferred(cfg, s)) && ReportIf(s, NotifyUsageStep(cfg, s))
    ensures ReportIf(s, NotifyLimitsStep(cfg, s))
  {
    hide Inv, AcceptUpdate, Guard;
    EndingIsJoined(cfg, s);
    if s.lock.Held? && Accepting(s.lock.at) { AcceptReports(cfg, s, Wire(s.lock.at.event)); }
    if s.start.deferred.Some? {
      AcceptReports(cfg, s, CancelRequested(s.start.deferred.value, cfg.sessionId));
    }
  }

  lemma DecidingReports(cfg: Config, s: Session)
    ensures ReportIf(s, EnterObservationStep(cfg, s)) && ReportIf(s, RecheckDeadlineStep(cfg, s))
    ensures ReportIf(s, ChooseStep(cfg, s))
  {
    hide Select, Expire;
    ExpireReports(s);
    if s.lock.Held? && s.lock.at.Choosing? { SelectReports(s, s.lock.at.candidate); }
  }

  lemma HolderReports(cfg: Config, s: Session, step: Step)
    requires Inv(cfg, s) && OfHolder(step)
    ensures ReportIf(s, TakeHolder(cfg, s, step))
  {
    hide Inv, ReportIf, PublishStarted, PublishDelta, PublishText, PublishTerminal, AdmitStarted;
    hide AdmitDelta, AdmitText, AdmitTerminal, AdmitDeferred, NotifyLimitsStep, NotifyUsageStep;
    hide EnterObservationStep, RecheckDeadlineStep, ChooseStep, DispatchStep;
    WritingReports(cfg, s, true);
    WritingReports(cfg, s, false);
    AdmittingReports(cfg, s);
    DecidingReports(cfg, s);
    DispatchReportsNothing(cfg, s);
  }

  /** A cleanup settles only while nobody has joined it. */
  lemma SettlingReports(cfg: Config, s: Session, failed: bool)
    requires Inv(cfg, s)
    ensures ReportIf(s, CleanupFinishes(s, failed)) && ReportIf(s, CleanupForced(s))
  {
    hide Inv;
    EndingIsJoined(cfg, s);
  }

  lemma FinalizingReports(cfg: Config, s: Session)
    requires Inv(cfg, s)
    ensures ReportIf(s, FinalizerStarts(s)) && ReportIf(s, FinalizerCleansUp(s))
    ensures ReportIf(s, BeginTerminal(s))
  {
    hide Inv, EnsureCleanup;
    if s.selection.Some? {
      CleanupReports(s.(watcher := Stopped, finalizer := AwaitCleanup), s.selection.value.Mode());
    }
  }

  lemma RequestReports(cfg: Config, s: Session, command: string)
    ensures ReportIf(s, RequestCancellation(cfg, s, command)) && ReportIf(s, RequestTeardown(s))
  {
    hide AcceptUpdate;
    AcceptReports(cfg, s.(lock := Held(Caller, Choosing(ChooseUserCancel(command)))),
                  CancelRequested(command, cfg.sessionId));
  }

  lemma WaitingReports(cfg: Config, s: Session, elapsed: nat)
    ensures ReportIf(s, Tick(s, elapsed)) && ReportIf(s, WatcherAcquire(cfg, s))
    ensures ReportIf(s, WatcherLatch(s))
  {
    hide Latch;
    LatchReports(s.(watcher := Stopped));
  }

  lemma OtherReports(cfg: Config, s: Session, step: Step)
    requires Inv(cfg, s) && !OfRunner(step) && !OfHolder(step) && !step.DoFinalizerJoinsCleanup?
    ensures ReportIf(s, TakeOther(cfg, s, step))
  {
    hide Inv, ReportIf, Tick, WatcherAcquire, WatcherLatch, CleanupFinishes, CleanupForced;
    hide RequestCancellation, RequestTeardown, FinalizerStarts, FinalizerCleansUp, BeginTerminal;
    WaitingReports(cfg, s, if step.DoTick? then step.elapsed else 0);
    SettlingReports(cfg, s, step.DoCleanupFinishes? && step.failed);
    FinalizingReports(cfg, s);
    RequestReports(cfg, s, if step.DoRequestCancellation? then step.command else "");
  }

  /** Joining the cleanup is where the diagnostic goes out. */
  lemma JoiningReports(cfg: Config, s: Session, reapFailed: bool, written: bool)
    requires Inv(cfg, s) && Reported(s) && FinalizerJoinsCleanup(s, reapFailed, written).Some?
    ensures Reported(FinalizerJoinsCleanup(s, reapFailed, written).value)
  {
    hide Inv;
    EndingIsJoined(cfg, s);
  }

  lemma SameStaysReported(s: Session, t: Session)
    requires Reported(s) && SameReport(s, t)
    ensures Reported(t)
  {}

  lemma TakeReports(cfg: Config, s: Session, step: Step)
    requires Inv(cfg, s) && Reported(s) && Take(cfg, s, step).Some?
    ensures Reported(Take(cfg, s, step).value)
  {
    hide Inv, Reported, SameReport, TakeHolder;
    if step.DoFinalizerJoinsCleanup? {
      hide FinalizerJoinsCleanup;
      JoiningReports(cfg, s, step.reapFailed, step.written);
    } else {
      hide TakeOther;
      if step.DoStartProvider? {
        hide StartProvider;
        StartReports(cfg, s, step);
      } else {
        hide TakeRunner;
        if OfRunner(step) {
          RunnerReports(cfg, s, step);
        } else if OfHolder(step) {
          HolderReports(cfg, s, step);
        } else {
          OtherReports(cfg, s, step);
        }
      }
      SameStaysReported(s, Take(cfg, s, step).value);
    }
  }

  /** In every interleaving the diagnostic is out only if a reap or the cleanup failed, and once the
      finalizer has joined a cleanup that failed it is out, ahead of any terminal. */
  lemma {:induction false} DiagnosticsAreReal(
    cfg: Config, seed: Counters, now: int, steps: seq<Step>, s: Session)
    requires Reachable(cfg, seed, now, steps, s)
    ensures s.ending.diagnosticEmitted ==>
              s.operation.pendingFailed || (s.operation.cleanup.Settled? && s.operation.cleanup.failed)
    ensures s.operation.cleanup.Settled? && s.operation.cleanup.failed
            && (s.finalizer.AwaitTerminal? || s.finalizer.InTerminal? || s.ending.terminalEmitted) ==>
              s.ending.diagnosticEmitted
    decreases |steps|
  {
    hide Inv, Take;
    if steps != [] {
      var front := steps[..|steps| - 1];
      var before := Schedule(cfg, Created(cfg, seed, now), front).value;
      DiagnosticsAreReal(cfg, seed, now, front, before);
      ReachableInv(cfg, seed, now, front, before);
      TakeReports(cfg, before, steps[|steps| - 1]);
    }
  }
}
