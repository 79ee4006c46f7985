/** No session hangs: the tasks of `provider_session.py` wait for each other through the decision lock,
    the deadline guard, the settled start, the watcher, the cleanup task and the finalizer, and these
    waits never form a cycle; once an outcome is selected, the work that is left is bounded. */
module SessionProgress {
  import opened Prelude
  import opened SessionMachine
  import opened SessionSafety
  import opened SessionRuns
  import opened LoopLimits
  import Lifecycle
  import Tape
  import P = ProviderEvents
  import Utf8

  /** Steps that come from outside: the clock, requests, and a cancellation of `run`. */
  predicate Outside(step: Step) {
    step.DoTick? || step.DoRequestCancellation? || step.DoRequestTeardown? || step.DoCancelRunner?
  }

  /** Steps that the session owes to nobody else: neither the caller who starts `run` nor the provider,
      which brings a read or answers a cleanup call, has to do anything for them. */
  predicate Own(step: Step) {
    && !Outside(step)
    && !step.DoRun?
    && !step.DoCleanupFinishes?
    && !(step.DoFinishRead? && !step.read.Unfinished?)
  }

  // ----- What the waits rely on -----

  /** The start is settled once the runner is past it, so that no finalizer waits for it in vain. */
  predicate StartSettles(s: Session) {
    || s.runner.NotRun? || s.runner.AnnouncingStart? || s.runner.StartingProvider?
    || s.runner.Raised? || s.start.settled
  }

  /** A finalizer at work has stopped the watcher, and a runner in its loop has one. */
  predicate WatcherStops(s: Session) {
    && (s.finalizer.AwaitCleanup? || s.finalizer.AwaitTerminal? || s.finalizer.InTerminal?
        || s.finalizer.Ended? ==>
          s.watcher.Stopped? || s.watcher.Absent?)
    && (s.watcher.Absent? ==> s.runner.NotRun? || (s.selection.Some? && !Active(s.runner)))
  }

  predicate Waits(s: Session) { StartSettles(s) && WatcherStops(s) }

  predicate SameWaits(s: Session, t: Session) {
    && t.lock == s.lock && t.runner == s.runner && t.finalizer == s.finalizer
    && t.watcher == s.watcher && t.start == s.start && t.selection == s.selection
    && t.operation == s.operation && t.ending == s.ending
  }

  /** Reducing and recording leave locks, positions and the start alone. */
  lemma AcceptKeepsWaits(cfg: Config)
    ensures forall s: Session, u: Lifecycle.Update :: SameWaits(s, AcceptUpdate(cfg, s, u))
    ensures forall s: Session, call: Tape.Call :: SameWaits(s, SessionMachine.Notify(cfg, s, call))
  {
    hide Lifecycle.Reduce, Tape.Guard;
  }

  /** Selecting and cleaning up leave the runner, the start, the watcher and the lock alone, and an
      outcome once selected stays with its finalizer. */
  predicate SamePlaces(s: Session, t: Session) {
    && t.lock == s.lock && t.runner == s.runner && t.start == s.start && t.watcher == s.watcher
    && (s.selection.Some? ==> t.selection == s.selection && t.finalizer == s.finalizer)
    && (s.selection.None? && t.selection.Some? ==> t.finalizer.AwaitStart? || t.finalizer.Work?)
    && (t.selection.None? ==> t.finalizer == s.finalizer)
  }

  lemma SelectingKeepsPlaces()
    ensures forall s: Session, c: Choice :: SamePlaces(s, Select(s, c))
    ensures forall s: Session :: SamePlaces(s, Latch(s)) && SamePlaces(s, Expire(s))
    ensures forall s: Session, mode: CleanupMode :: SamePlaces(s, EnsureCleanup(s, mode))
  {}

  ghost predicate WaitsIf(t: Option<Session>) { t.Some? ==> Waits(t.value) }

  lemma RunWaits(cfg: Config, s: Session)
    requires Inv(cfg, s) && Waits(s)
    ensures WaitsIf(Run(s)) && WaitsIf(BeginStarted(s))
  {
    hide Inv;
    RunnerFacts(cfg, s);
  }

  lemma StartingWaits(cfg: Config, s: Session, result: StartResult, before: nat, during: nat)
    requires Inv(cfg, s) && Waits(s)
    ensures WaitsIf(StartProvider(cfg, s, result, before, during))
  {
    hide Inv, Select, Expire;
    SelectingKeepsPlaces();
    RunnerFacts(cfg, s);
  }

  lemma LoopWaits(cfg: Config, s: Session, read: ReadResult, reapFailed: bool)
    requires Waits(s)
    ensures WaitsIf(BeginRead(s)) && WaitsIf(FinishRead(cfg, s, read, reapFailed))
    ensures WaitsIf(SelectExpired(s)) && WaitsIf(BeginInvalid(s)) && WaitsIf(BeginObservation(s))
  {
    hide Expire;
    SelectingKeepsPlaces();
  }

  lemma LeavingWaits(s: Session)
    requires Waits(s)
    ensures WaitsIf(LeaveLoop(s)) && WaitsIf(JoinFinalizer(s)) && WaitsIf(CancelRunner(s))
    ensures WaitsIf(HandleRaised(s)) && WaitsIf(BeginRecovery(s)) && WaitsIf(ResumeRecovered(s))
    ensures WaitsIf(BeginRunnerTeardown(s))
  {}

  lemma RunnerWaits(cfg: Config, s: Session, step: Step)
    requires Inv(cfg, s) && Waits(s) && OfRunner(step)
    ensures WaitsIf(TakeRunner(cfg, s, step))
  {
    hide Inv, Waits, WaitsIf, Run, BeginStarted, StartProvider, BeginRead, FinishRead;
    hide SelectExpired, BeginInvalid, BeginObservation, LeaveLoop, JoinFinalizer, CancelRunner;
    hide HandleRaised, BeginRecovery, ResumeRecovered, BeginRunnerTeardown;
    var (read, reapFailed) :=
      if step.DoFinishRead? then (step.read, step.reapFailed) else (StreamOver, false);
    if step.DoStartProvider? {
      StartingWaits(cfg, s, step.result, step.before, step.during);
    } else {
      RunWaits(cfg, s);
      LoopWaits(cfg, s, read, reapFailed);
      LeavingWaits(s);
    }
  }

  /** What the invariant says about the runner's own waits. */
  lemma RunnerFacts(cfg: Config, s: Session)
    requires Inv(cfg, s)
    ensures s.runner.StartingProvider? && s.lock.Free? ==> s.start.settled
    ensures s.lock.Held? && s.lock.at.EmitStarted? ==>
              s.lock.owner.Runner? && s.runner.StartingProvider?
    ensures s.lock.Held? && s.lock.at.EmitDelta? ==> s.runner.LoopTop?
    ensures s.lock.Held? && InEnding(s.lock.at) ==> s.finalizer.InTerminal? && s.selection.Some?
    ensures s.selection.None? <==> s.finalizer.NoFinalizer?
    ensures Leaves(s.runner) && s.RunnerFree() ==> s.selection.Some?
    ensures s.lock.Held? && s.lock.at.AcceptDeferred? ==> s.start.deferred.Some?
    ensures s.finalizer.InTerminal? ==> s.lock.Held?
    ensures s.finalizer.AwaitCleanup? && s.operation.started ==>
              s.operation.cleanup.InProgress? || s.operation.cleanup.Settled?
    ensures s.operation.cleanup.InProgress? ==> s.operation.started
    ensures s.runner.Returned? ==> s.finalizer.Ended?
  {
    hide InvLife, InvText, InvPoint, InvTape, InvBudget, InvEvents, InvScan;
  }

  lemma WritingWaits(cfg: Config, s: Session, written: bool)
    requires Inv(cfg, s) && Waits(s)
    ensures WaitsIf(PublishStarted(cfg, s, written)) && WaitsIf(PublishDelta(cfg, s, written))
    ensures WaitsIf(PublishText(cfg, s, written)) && WaitsIf(PublishTerminal(cfg, s, written))
  {
    hide Inv, Hear, TerminalOf;
    RunnerFacts(cfg, s);
  }

  lemma AdmittingWaits(cfg: Config, s: Session)
    requires Inv(cfg, s) && Waits(s)
    ensures WaitsIf(AdmitStarted(cfg, s)) && WaitsIf(AdmitDeferred(cfg, s))
    ensures WaitsIf(AdmitDelta(cfg, s)) && WaitsIf(NotifyUsageStep(cfg, s))
    ensures WaitsIf(AdmitText(cfg, s)) && WaitsIf(NotifyLimitsStep(cfg, s))
    ensures WaitsIf(AdmitTerminal(cfg, s))
  {
    hide Inv, AcceptUpdate, SessionMachine.Notify;
    AcceptKeepsWaits(cfg);
    RunnerFacts(cfg, s);
  }

  lemma DecidingWaits(cfg: Config, s: Session)
    requires Waits(s)
    ensures WaitsIf(EnterObservationStep(cfg, s)) && WaitsIf(RecheckDeadlineStep(cfg, s))
    ensures WaitsIf(ChooseStep(cfg, s))
  {
    hide Select, Expire;
    SelectingKeepsPlaces();
  }

  lemma HolderWaits(cfg: Config, s: Session, step: Step)
    requires Inv(cfg, s) && Waits(s) && OfHolder(step) && !step.DoDispatch?
    ensures WaitsIf(TakeHolder(cfg, s, step))
  {
    hide Inv, Waits, WaitsIf, PublishStarted, PublishDelta, PublishText, PublishTerminal;
    hide AdmitStarted, AdmitDeferred, AdmitDelta, NotifyUsageStep, AdmitText, NotifyLimitsStep;
    hide AdmitTerminal, EnterObservationStep, RecheckDeadlineStep, ChooseStep, DispatchStep;
    WritingWaits(cfg, s, true);
    WritingWaits(cfg, s, false);
    AdmittingWaits(cfg, s);
    DecidingWaits(cfg, s);
  }

  /** An examination at most selects an outcome and moves the holder on. */
  lemma DispatchMovesOn(cfg: Config, s: Session, observed: P.ProviderEvent)
    requires s.lock.Held?
    ensures var t := Dispatch(cfg, s, observed);
            SamePlaces(s.(lock := t.lock), t)
  {
    hide Select, Expire;
    SelectingKeepsPlaces();
  }

  lemma DispatchWaits(cfg: Config, s: Session)
    requires Waits(s) && DispatchStep(cfg, s).Some?
    ensures Waits(DispatchStep(cfg, s).value)
  {
    hide Dispatch, P.Observe;
    DispatchMovesOn(cfg, s.Examine(s.lock.at.observed), s.lock.at.observed);
  }

  lemma OtherWaits(cfg: Config, s: Session, step: Step)
    requires Inv(cfg, s) && Waits(s) && !OfRunner(step) && !OfHolder(step)
    requires TakeOther(cfg, s, step).Some?
    ensures Waits(TakeOther(cfg, s, step).value)
  {
    hide Inv, Latch, EnsureCleanup, AcceptUpdate;
    SelectingKeepsPlaces();
    AcceptKeepsWaits(cfg);
    RunnerFacts(cfg, s);
  }

  lemma KeepWaits(cfg: Config, s: Session, step: Step)
    requires Inv(cfg, s) && Waits(s) && Take(cfg, s, step).Some?
    ensures Waits(Take(cfg, s, step).value)
  {
    hide Inv, Waits, TakeRunner, TakeOther, DispatchStep;
    if OfRunner(step) {
      RunnerWaits(cfg, s, step);
    } else if step.DoDispatch? {
      DispatchWaits(cfg, s);
    } else if OfHolder(step) {
      HolderWaits(cfg, s, step);
    } else {
      OtherWaits(cfg, s, step);
    }
  }

  lemma {:induction false} ReachableWaits(
    cfg: Config, seed: Counters, now: int, steps: seq<Step>, s: Session)
    requires Reachable(cfg, seed, now, steps, s)
    ensures Waits(s)
    decreases |steps|
  {
    hide Take, Inv;
    if steps != [] {
      var front := steps[..|steps| - 1];
      var before := Schedule(cfg, Created(cfg, seed, now), front).value;
      ReachableWaits(cfg, seed, now, front, before);
      ReachableInv(cfg, seed, now, front, before);
      KeepWaits(cfg, before, steps[|steps| - 1]);
    }
  }

  // ----- Exactly when a session waits for someone else -----

  /** The runner waits for its caller, for the provider's next event before the deadline, or for
      nothing. */
  predicate RunnerIdle(s: Session) {
    s.runner.NotRun? || s.Gone() || (s.runner.Reading? && !s.watcher.Stopped?)
  }

  predicate FinalizerIdle(s: Session) {
    || s.finalizer.NoFinalizer? || s.finalizer.Ended?
    || (s.finalizer.AwaitStart? && !s.start.settled)
  }

  /** None of the session's own tasks has anything to do. */
  predicate Idle(cfg: Config, s: Session) {
    && s.lock.Free?
    && s.GuardFree()
    && !(s.watcher.Waiting? && s.now >= cfg.deadline)
    && !s.operation.cleanup.InProgress?
    && RunnerIdle(s)
    && FinalizerIdle(s)
  }

  /** The next move of whoever holds the decision lock. */
  function HolderStep(at: Point): Step {
    match at
    case EmitStarted => DoPublishStarted(true)
    case AcceptStarted(_) => DoAdmitStarted
    case AcceptDeferred => DoAdmitDeferred
    case EnterObservation(_) => DoEnterObservation
    case DispatchObservation(_) => DoDispatch
    case EmitDelta(_) => DoPublishDelta(true)
    case AcceptDelta(_, _) => DoAdmitDelta
    case NotifyUsage(_) => DoNotifyUsage
    case RecheckDeadline => DoRecheckDeadline
    case Choosing(_) => DoChoose
    case EmitText => DoPublishText(true)
    case AcceptText(_) => DoAdmitText
    case NotifyLimits => DoNotifyLimits
    case EmitTerminal => DoPublishTerminal(true)
    case AcceptTerminal(_) => DoAdmitTerminal
  }

  /** The next move of a runner that is not idle, while the lock and the guard are free. */
  function RunnerStep(s: Session): Step {
    match s.runner
    case AnnouncingStart => DoBeginStarted
    case StartingProvider => DoStartProvider(Opened, 0, 0)
    case LoopTop => DoBeginRead
    case Reading => DoFinishRead(Unfinished, false)
    case Observing(_) => DoBeginObservation
    case SelectingDeadline => DoSelectExpired
    case SelectingInvalid(_) => DoBeginInvalid
    case AfterLoop => DoLeaveLoop
    case Raised => DoHandleRaised
    case Recovering(_) => DoBeginRecovery
    case Recovered(_) => DoResumeRecovered
    case TearingDown => DoBeginRunnerTeardown
    case _ => DoJoinFinalizer
  }

  /** The next move of a finalizer that is not idle; the grace period bounds its wait for a cleanup. */
  function FinalizerStep(s: Session): Step {
    match s.finalizer
    case AwaitStart => DoFinalizerStarts
    case Work => DoFinalizerCleansUp
    case AwaitCleanup => DoFinalizerJoinsCleanup(false, true)
    case _ => DoBeginTerminal
  }

  function ReadyStep(s: Session): Step {
    if s.watcher.HoldsGuard? then DoWatcherLatch
    else if s.lock.Held? then HolderStep(s.lock.at)
    else if s.operation.cleanup.InProgress? then DoCleanupForced
    else if !FinalizerIdle(s) then FinalizerStep(s)
    else if !RunnerIdle(s) then RunnerStep(s)
    else DoWatcherAcquire
  }

  lemma HolderIsReady(cfg: Config, s: Session)
    requires Inv(cfg, s) && s.GuardFree() && s.lock.Held?
    ensures OfHolder(HolderStep(s.lock.at)) && Own(HolderStep(s.lock.at))
    ensures TakeHolder(cfg, s, HolderStep(s.lock.at)).Some?
  {
    hide Inv, AcceptUpdate, SessionMachine.Notify, Hear, TerminalOf, Dispatch, SelectCandidate, Expire;
    RunnerFacts(cfg, s);
  }

  lemma FinalizerIsReady(cfg: Config, s: Session)
    requires Inv(cfg, s) && s.lock.Free? && !FinalizerIdle(s) && !s.operation.cleanup.InProgress?
    ensures !OfRunner(FinalizerStep(s)) && !OfHolder(FinalizerStep(s)) && Own(FinalizerStep(s))
    ensures TakeOther(cfg, s, FinalizerStep(s)).Some?
  {
    hide Inv, EnsureCleanup;
    RunnerFacts(cfg, s);
  }

  /** With an idle finalizer, whatever a runner waits for is there. */
  lemma RunnerIsReady(cfg: Config, s: Session)
    requires Inv(cfg, s) && Waits(s) && s.GuardFree() && s.lock.Free?
    requires FinalizerIdle(s) && !RunnerIdle(s)
    ensures OfRunner(RunnerStep(s)) && Own(RunnerStep(s)) && TakeRunner(cfg, s, RunnerStep(s)).Some?
  {
    hide Inv, OpenProvider, Expire, Select;
    RunnerFacts(cfg, s);
  }

  lemma OthersAreReady(cfg: Config, s: Session)
    ensures s.watcher.HoldsGuard? ==> TakeOther(cfg, s, DoWatcherLatch).Some?
    ensures s.watcher.Waiting? && s.now >= cfg.deadline ==> TakeOther(cfg, s, DoWatcherAcquire).Some?
    ensures s.operation.cleanup.InProgress? ==> TakeOther(cfg, s, DoCleanupForced).Some?
  {
    hide Latch;
  }

  lemma SomeoneIsReady(cfg: Config, s: Session)
    requires Inv(cfg, s) && Waits(s) && !Idle(cfg, s)
    ensures Own(ReadyStep(s)) && Take(cfg, s, ReadyStep(s)).Some?
  {
    hide Inv, Waits, TakeRunner, TakeHolder, TakeOther, FinalizerIdle, RunnerIdle;
    hide HolderStep, FinalizerStep, RunnerStep;
    OthersAreReady(cfg, s);
    if s.watcher.HoldsGuard? {
    } else if s.lock.Held? {
      HolderIsReady(cfg, s);
    } else if s.operation.cleanup.InProgress? {
    } else if !FinalizerIdle(s) {
      FinalizerIsReady(cfg, s);
    } else if !RunnerIdle(s) {
      RunnerIsReady(cfg, s);
    }
  }

  lemma IdleRunner(cfg: Config, s: Session, step: Step)
    requires Idle(cfg, s) && Own(step) && OfRunner(step)
    ensures TakeRunner(cfg, s, step).None?
  {
    hide OpenProvider, Expire, Select;
  }

  lemma IdleOther(cfg: Config, s: Session, step: Step)
    requires Inv(cfg, s) && Idle(cfg, s) && Own(step) && !OfRunner(step) && !OfHolder(step)
    ensures TakeOther(cfg, s, step).None?
  {
    hide Inv;
  }

  lemma IdleHolder(cfg: Config, s: Session, step: Step)
    requires s.lock.Free? && OfHolder(step)
    ensures TakeHolder(cfg, s, step).None?
  {}

  lemma NobodyIsReady(cfg: Config, s: Session, step: Step)
    requires Inv(cfg, s) && Idle(cfg, s) && Own(step)
    ensures Take(cfg, s, step).None?
  {
    hide Inv, TakeRunner, TakeHolder, TakeOther;
    if OfRunner(step) {
      IdleRunner(cfg, s, step);
    } else if OfHolder(step) {
      IdleHolder(cfg, s, step);
    } else {
      IdleOther(cfg, s, step);
    }
  }

  /** No deadlock, exactly: in every interleaving one of the session's own tasks is ready if and only if
      the session is not idle. */
  lemma NeverStuck(cfg: Config, seed: Counters, now: int, steps: seq<Step>, s: Session)
    requires Reachable(cfg, seed, now, steps, s)
    ensures (exists step :: Own(step) && Take(cfg, s, step).Some?) <==> !Idle(cfg, s)
  {
    hide Take, Inv, Reachable, Own, Idle, Waits;
    ReachableInv(cfg, seed, now, steps, s);
    ReachableWaits(cfg, seed, now, steps, s);
    if Idle(cfg, s) {
      forall step | Own(step) ensures Take(cfg, s, step).None? { NobodyIsReady(cfg, s, step); }
    } else {
      SomeoneIsReady(cfg, s);
    }
  }

  /** An outcome or an expired clock unblocks everything: a session that runs and has either is idle only
      when `run` is over and the finalizer has ended.  In particular a runner blocked in a read is woken
      by the watcher, which the finalizer stops. */
  lemma OutcomeUnblocks(cfg: Config, seed: Counters, now: int, steps: seq<Step>, s: Session)
    requires Reachable(cfg, seed, now, steps, s) && !s.runner.NotRun?
    requires s.selection.Some? || s.now >= cfg.deadline
    ensures Idle(cfg, s) <==> s.Gone() && s.finalizer.Ended? && s.lock.Free? && s.GuardFree()
                              && !s.operation.cleanup.InProgress?
  {
    hide Reachable, Inv;
    ReachableInv(cfg, seed, now, steps, s);
    ReachableWaits(cfg, seed, now, steps, s);
    RunnerFacts(cfg, s);
  }

  // ----- A selected outcome leaves bounded work -----

  function RunnerRank(runner: RunnerPc): nat {
    match runner
    case NotRun => 11
    case AnnouncingStart => 10
    case StartingProvider => 9
    case Reading => 8
    case Observing(_) => 7
    case LoopTop => 6
    case SelectingDeadline => 6
    case SelectingInvalid(_) => 6
    case AfterLoop => 5
    case Joining => 4
    case Raised => 4
    case TearingDown => 3
    case Recovering(_) => 3
    case Recovered(_) => 2
    case Settling => 1
    case Returned => 0
    case Abandoned => 0
  }

  function FinalizerRank(finalizer: FinalizerPc): nat {
    match finalizer
    case NoFinalizer => 6
    case AwaitStart => 5
    case Work => 4
    case AwaitCleanup => 3
    case AwaitTerminal => 2
    case InTerminal => 1
    case Ended => 0
  }

  function LockRank(lock: DecisionLock): nat {
    if lock.Free? then 0
    else
      match lock.at
      case EnterObservation(_) => 6
      case DispatchObservation(_) => 5
      case EmitDelta(_) => 4
      case AcceptDelta(_, _) => 3
      case NotifyUsage(_) => 3
      case EmitStarted => 3
      case AcceptStarted(_) => 2
      case EmitText => 5
      case AcceptText(_) => 4
      case NotifyLimits => 3
      case EmitTerminal => 2
      case RecheckDeadline => 2
      case _ => 1
  }

  function WatcherRank(watcher: Watcher): nat {
    if watcher.Waiting? then 2 else if watcher.HoldsGuard? then 1 else 0
  }

  function CleanupRank(cleanup: Cleanup): nat {
    if cleanup.NotStarted? then 2 else if cleanup.InProgress? then 1 else 0
  }

  /** The work a session has left once its outcome is selected. */
  function Rank(s: Session): nat {
    10 * RunnerRank(s.runner) + 10 * FinalizerRank(s.finalizer) + LockRank(s.lock)
    + WatcherRank(s.watcher) + CleanupRank(s.operation.cleanup)
  }

  predicate Shrinks(s: Session, t: Session) { t.selection == s.selection && Rank(t) < Rank(s) }

  lemma OtherShrinks(cfg: Config, s: Session, step: Step)
    requires s.selection.Some? && !OfRunner(step) && !OfHolder(step) && !Outside(step)
    requires TakeOther(cfg, s, step).Some?
    ensures Shrinks(s, TakeOther(cfg, s, step).value)
  {}

  predicate ShrinksIf(s: Session, t: Option<Session>) { t.Some? ==> Shrinks(s, t.value) }

  lemma WritingShrinks(cfg: Config, s: Session, written: bool)
    requires Inv(cfg, s) && s.selection.Some?
    ensures ShrinksIf(s, PublishStarted(cfg, s, written))
    ensures ShrinksIf(s, PublishDelta(cfg, s, written))
  {
    hide Inv, Hear;
    RunnerFacts(cfg, s);
  }

  lemma EndingShrinks(cfg: Config, s: Session, written: bool)
    requires Inv(cfg, s) && s.selection.Some?
    ensures ShrinksIf(s, PublishText(cfg, s, written))
    ensures ShrinksIf(s, PublishTerminal(cfg, s, written))
  {
    hide Inv, Hear, TerminalOf;
    RunnerFacts(cfg, s);
  }

  lemma AdmittingShrinks(cfg: Config, s: Session)
    requires Inv(cfg, s) && s.selection.Some?
    ensures ShrinksIf(s, AdmitStarted(cfg, s)) && ShrinksIf(s, AdmitDeferred(cfg, s))
    ensures ShrinksIf(s, AdmitDelta(cfg, s)) && ShrinksIf(s, AdmitText(cfg, s))
    ensures ShrinksIf(s, AdmitTerminal(cfg, s))
  {
    hide Inv, AcceptUpdate;
    AcceptKeepsWaits(cfg);
    RunnerFacts(cfg, s);
  }

  lemma NotifyingShrinks(cfg: Config, s: Session)
    requires s.selection.Some?
    ensures ShrinksIf(s, NotifyUsageStep(cfg, s)) && ShrinksIf(s, NotifyLimitsStep(cfg, s))
  {
    hide SessionMachine.Notify;
    AcceptKeepsWaits(cfg);
  }

  lemma DecidingShrinks(cfg: Config, s: Session)
    requires s.selection.Some?
    ensures ShrinksIf(s, EnterObservationStep(cfg, s)) && ShrinksIf(s, RecheckDeadlineStep(cfg, s))
    ensures ShrinksIf(s, ChooseStep(cfg, s))
  {}

  lemma HolderShrinks(cfg: Config, s: Session, step: Step)
    requires Inv(cfg, s) && s.selection.Some? && OfHolder(step) && !step.DoDispatch?
    ensures ShrinksIf(s, TakeHolder(cfg, s, step))
  {
    hide Inv, ShrinksIf, PublishStarted, PublishDelta, PublishText, PublishTerminal;
    hide AdmitStarted, AdmitDeferred, AdmitDelta, NotifyUsageStep, AdmitText, NotifyLimitsStep;
    hide AdmitTerminal, EnterObservationStep, RecheckDeadlineStep, ChooseStep, DispatchStep;
    WritingShrinks(cfg, s, true);
    WritingShrinks(cfg, s, false);
    EndingShrinks(cfg, s, true);
    EndingShrinks(cfg, s, false);
    AdmittingShrinks(cfg, s);
    NotifyingShrinks(cfg, s);
    DecidingShrinks(cfg, s);
  }

  lemma DispatchShrinks(cfg: Config, s: Session)
    requires s.selection.Some?
    ensures ShrinksIf(s, DispatchStep(cfg, s))
  {
    hide Expire, Select, P.Observe;
  }

  lemma LoopShrinks(cfg: Config, s: Session, read: ReadResult, reapFailed: bool)
    requires s.selection.Some?
    ensures ShrinksIf(s, BeginRead(s)) && ShrinksIf(s, FinishRead(cfg, s, read, reapFailed))
    ensures ShrinksIf(s, SelectExpired(s))
  {}

  lemma LockingShrinks(s: Session)
    requires s.selection.Some?
    ensures ShrinksIf(s, BeginInvalid(s)) && ShrinksIf(s, BeginObservation(s))
  {}

  lemma LeavingShrinks(s: Session)
    requires s.selection.Some?
    ensures ShrinksIf(s, LeaveLoop(s)) && ShrinksIf(s, JoinFinalizer(s))
    ensures ShrinksIf(s, HandleRaised(s))
  {}

  lemma HandlingShrinks(s: Session)
    requires s.selection.Some?
    ensures ShrinksIf(s, BeginRecovery(s)) && ShrinksIf(s, ResumeRecovered(s))
    ensures ShrinksIf(s, BeginRunnerTeardown(s))
  {}

  lemma StartingShrinks(cfg: Config, s: Session, result: StartResult, before: nat, during: nat)
    requires s.selection.Some?
    ensures ShrinksIf(s, StartProvider(cfg, s, result, before, during))
  {
    hide OpenProvider, Expire;
  }

  lemma RunShrinks(s: Session)
    requires s.selection.Some?
    ensures ShrinksIf(s, Run(s)) && ShrinksIf(s, BeginStarted(s))
  {}

  lemma RunnerShrinks(cfg: Config, s: Session, step: Step)
    requires s.selection.Some? && OfRunner(step) && !Outside(step)
    ensures ShrinksIf(s, TakeRunner(cfg, s, step))
  {
    hide ShrinksIf, Run, BeginStarted, StartProvider, BeginRead, FinishRead, SelectExpired;
    hide BeginInvalid, BeginObservation, LeaveLoop, JoinFinalizer, CancelRunner, HandleRaised;
    hide BeginRecovery, ResumeRecovered, BeginRunnerTeardown;
    var (read, reapFailed) :=
      if step.DoFinishRead? then (step.read, step.reapFailed) else (StreamOver, false);
    if step.DoStartProvider? {
      StartingShrinks(cfg, s, step.result, step.before, step.during);
    } else {
      RunShrinks(s);
      LoopShrinks(cfg, s, read, reapFailed);
      LockingShrinks(s);
      LeavingShrinks(s);
      HandlingShrinks(s);
    }
  }

  /** After the selection every step that does not come from outside uses up work, and none changes the
      outcome. */
  lemma WorkShrinks(cfg: Config, s: Session, step: Step)
    requires Inv(cfg, s) && s.selection.Some? && Take(cfg, s, step).Some? && !Outside(step)
    ensures Shrinks(s, Take(cfg, s, step).value)
  {
    hide Inv, Shrinks, TakeRunner, TakeOther, DispatchStep;
    if OfRunner(step) {
      RunnerShrinks(cfg, s, step);
    } else if step.DoDispatch? {
      DispatchShrinks(cfg, s);
    } else if OfHolder(step) {
      HolderShrinks(cfg, s, step);
    } else {
      OtherShrinks(cfg, s, step);
    }
  }

  /** Ticks and further requests change nothing of that, and a cancellation of `run` adds no work. */
  lemma OutsideSteps(cfg: Config, s: Session, step: Step)
    requires s.selection.Some? && Take(cfg, s, step).Some? && Outside(step)
    ensures var t := Take(cfg, s, step).value;
            t.selection == s.selection && Rank(t) <= Rank(s)
  {
    hide Take, Rank, Tick, RequestCancellation, RequestTeardown, CancelRunner;
    OutsideIsOne(cfg, s, step);
    match step
    case DoTick(elapsed) => RequestsAddNothing(cfg, s, elapsed, "");
    case DoRequestCancellation(command) => RequestsAddNothing(cfg, s, 0, command);
    case DoRequestTeardown => RequestsAddNothing(cfg, s, 0, "");
    case _ => CancellationAddsNothing(s);
  }

  predicate SameWork(s: Session, t: Option<Session>) {
    t.Some? ==> t.value.selection == s.selection && Rank(t.value) <= Rank(s)
  }

  lemma CancelledRunner(s: Session)
    requires CancelRunner(s).Some?
    ensures var t := CancelRunner(s).value;
            && t == s.(start := t.start, runner := t.runner)
            && RunnerRank(t.runner) <= RunnerRank(s.runner)
  {}

  lemma CancellationAddsNothing(s: Session)
    ensures SameWork(s, CancelRunner(s))
  {
    hide CancelRunner, RunnerRank, FinalizerRank, LockRank, WatcherRank, CleanupRank;
    if CancelRunner(s).Some? { CancelledRunner(s); }
  }

  lemma RequestsAddNothing(cfg: Config, s: Session, elapsed: nat, command: string)
    requires s.selection.Some?
    ensures SameWork(s, Tick(s, elapsed)) && SameWork(s, RequestTeardown(s))
    ensures SameWork(s, RequestCancellation(cfg, s, command))
  {
    hide AcceptUpdate;
  }

  lemma OutsideIsOne(cfg: Config, s: Session, step: Step)
    requires Outside(step)
    ensures Take(cfg, s, step)
            == match step {
                 case DoTick(elapsed) => Tick(s, elapsed)
                 case DoRequestCancellation(command) => RequestCancellation(cfg, s, command)
                 case DoRequestTeardown => RequestTeardown(s)
                 case _ => CancelRunner(s)
               }
  {
    hide Tick, RequestCancellation, RequestTeardown, CancelRunner;
  }

  function Worked(steps: seq<Step>): nat {
    if steps == [] then 0
    else Worked(steps[..|steps| - 1]) + if Outside(steps[|steps| - 1]) then 0 else 1
  }

  /** Whatever the interleaving after the selection, the outcome stays, and the steps taken are paid
      for by the work that was left. */
  lemma {:induction false} WorkIsBounded(cfg: Config, s: Session, more: seq<Step>, t: Session)
    requires Inv(cfg, s) && s.selection.Some? && Schedule(cfg, s, more) == Some(t)
    ensures Inv(cfg, t) && t.selection == s.selection
    ensures Worked(more) + Rank(t) <= Rank(s)
    decreases |more|
  {
    hide Take, Inv, Rank, Outside;
    if more != [] {
      var front, last := more[..|more| - 1], more[|more| - 1];
      var before := Schedule(cfg, s, front).value;
      WorkIsBounded(cfg, s, front, before);
      KeepTake(cfg, before, last);
      if Outside(last) { OutsideSteps(cfg, before, last); } else { WorkShrinks(cfg, before, last); }
    }
  }

  lemma {:induction false} ScheduleConcat(
    cfg: Config, s: Session, steps: seq<Step>, more: seq<Step>)
    requires Schedule(cfg, s, steps).Some?
    ensures Schedule(cfg, s, steps + more) == Schedule(cfg, Schedule(cfg, s, steps).value, more)
    decreases |more|
  {
    hide Take;
    if more == [] {
      assert steps + more == steps;
    } else {
      var front := more[..|more| - 1];
      assert (steps + more)[..|steps + more| - 1] == steps + front;
      ScheduleConcat(cfg, s, steps, front);
    }
  }

  lemma AtMost(s: Session)
    ensures Rank(s) <= 180
  {}

  /** Every session with a selected outcome comes to its end: however its tasks interleave, it takes at
      most 180 more steps; and as soon as it owes none itself, a session that was run has returned and its
      finalizer has ended, with that outcome settled. */
  lemma SelectedSessionsReturn(
    cfg: Config, seed: Counters, now: int, steps: seq<Step>, s: Session, more: seq<Step>, t: Session)
    requires Reachable(cfg, seed, now, steps, s) && s.selection.Some?
    requires Schedule(cfg, s, more) == Some(t)
    ensures t.selection == s.selection
    ensures Worked(more) <= 180
    ensures !t.runner.NotRun? && (forall step :: Own(step) ==> Take(cfg, t, step).None?) ==>
              && t.Gone() && t.finalizer.Ended?
              && (|| t.life.status.Terminal()
                  || t.selection == Some(ChooseTeardown)
                  || !t.start.succeeded
                  || t.output.broken)
  {
    hide Take, Inv, Own, Worked, Created, CancelledInHandler, Reports;
    ReachableInv(cfg, seed, now, steps, s);
    WorkIsBounded(cfg, s, more, t);
    AtMost(s);
    ScheduleConcat(cfg, Created(cfg, seed, now), steps, more);
    assert Reachable(cfg, seed, now, steps + more, t);
    hide Reachable;
    NeverStuck(cfg, seed, now, steps + more, t);
    if !t.runner.NotRun? && Idle(cfg, t) {
      OutcomeUnblocks(cfg, seed, now, steps + more, t);
      ReturnedSessionsSettle(cfg, seed, now, steps + more, t);
    }
  }

  // ----- Returning before the finalizer -----

  /** Only the joins and the handler of a raised write end `run`. */
  predicate StaysIf(s: Session, t: Option<Session>) { !s.Gone() && t.Some? ==> !t.value.Gone() }

  lemma StartingStays(cfg: Config, s: Session, result: StartResult, before: nat, during: nat)
    ensures StaysIf(s, StartProvider(cfg, s, result, before, during))
  {
    hide Expire, Select;
    SelectingKeepsRunner();
  }

  lemma LoopStays(cfg: Config, s: Session, read: ReadResult, reapFailed: bool)
    ensures StaysIf(s, BeginRead(s)) && StaysIf(s, FinishRead(cfg, s, read, reapFailed))
    ensures StaysIf(s, SelectExpired(s)) && StaysIf(s, BeginInvalid(s))
    ensures StaysIf(s, BeginObservation(s)) && StaysIf(s, LeaveLoop(s))
  {
    hide Expire;
    SelectingKeepsRunner();
  }

  lemma HandlersStay(s: Session)
    ensures StaysIf(s, Run(s)) && StaysIf(s, BeginStarted(s)) && StaysIf(s, HandleRaised(s))
    ensures StaysIf(s, BeginRecovery(s)) && StaysIf(s, BeginRunnerTeardown(s))
    ensures StaysIf(s, CancelRunner(s))
  {}

  lemma ReturningRunner(cfg: Config, s: Session, step: Step)
    requires Inv(cfg, s) && !s.Gone() && OfRunner(step)
    requires TakeRunner(cfg, s, step).Some? && TakeRunner(cfg, s, step).value.Gone()
    ensures s.RunnerFree()
    ensures s.finalizer.Ended? || (s.runner.Recovered? && s.runner.cancelled)
  {
    hide Inv, Run, BeginStarted, StartProvider, BeginRead, FinishRead, SelectExpired, BeginInvalid;
    hide BeginObservation, LeaveLoop, CancelRunner, HandleRaised, BeginRecovery, BeginRunnerTeardown;
    RunnerFacts(cfg, s);
    var (read, reapFailed) :=
      if step.DoFinishRead? then (step.read, step.reapFailed) else (StreamOver, false);
    if step.DoStartProvider? {
      StartingStays(cfg, s, step.result, step.before, step.during);
    } else {
      LoopStays(cfg, s, read, reapFailed);
      HandlersStay(s);
    }
  }

  lemma ReturningSteps(cfg: Config, s: Session, step: Step)
    requires Inv(cfg, s) && !s.Gone() && Take(cfg, s, step).Some? && Take(cfg, s, step).value.Gone()
    ensures s.RunnerFree()
    ensures s.finalizer.Ended? || (s.runner.Recovered? && s.runner.cancelled)
  {
    hide Inv, TakeRunner, TakeHolder, TakeOther;
    if OfRunner(step) {
      ReturningRunner(cfg, s, step);
    } else if OfHolder(step) {
      HolderKeepsRunner(cfg, s, step);
    } else {
      OtherKeepsRunner(cfg, s, step);
    }
  }

  /** Exactly when `run` can return before its finalizer has ended: if and only if it was cancelled while
      its handler of a raised write was selecting teardown, and that selection is over. */
  lemma ReturnsEarlyExactly(cfg: Config, seed: Counters, now: int, steps: seq<Step>, s: Session)
    requires Reachable(cfg, seed, now, steps, s) && !s.Gone() && !s.finalizer.Ended?
    ensures (exists step :: Take(cfg, s, step).Some? && Take(cfg, s, step).value.Gone())
            <==> (&& s.runner.Recovered? && s.RunnerFree()
                  && CancelledInHandler(cfg, Created(cfg, seed, now), steps))
  {
    hide Inv, Reachable, Take, CancelledInHandler;
    ReachableInv(cfg, seed, now, steps, s);
    CancellationIsRemembered(cfg, seed, now, steps, s);
    if step :| Take(cfg, s, step).Some? && Take(cfg, s, step).value.Gone() {
      ReturningSteps(cfg, s, step);
    }
    if s.runner.Recovered? && s.RunnerFree() && s.runner.cancelled { ResumesAbandoned(cfg, s); }
  }

  lemma ResumesAbandoned(cfg: Config, s: Session)
    requires s.runner.Recovered? && s.RunnerFree() && s.runner.cancelled
    ensures Take(cfg, s, DoResumeRecovered) == Some(s.(runner := Abandoned))
  {}

  /** It can happen after every raised write that found nothing selected: cancelled in its handler, `run`
      is over while its finalizer has not even started to clean up. */
  lemma RaisedWritesMayReturnEarly(cfg: Config, s: Session)
    requires s.runner.Raised? && s.lock.Free? && s.GuardFree() && s.selection.None?
    ensures var handler := [DoHandleRaised, DoCancelRunner, DoBeginRecovery, DoChoose, DoResumeRecovered];
            var t := Schedule(cfg, s, handler);
            && t.Some? && t.value.runner.Abandoned?
            && (t.value.finalizer.Work? || t.value.finalizer.AwaitStart?)
            && CancelledInHandler(cfg, s, handler)
  {
    hide Take, SelectCandidate, Schedule, CancelledInHandler;
    var handled := s.(start := s.start.(settled := true), runner := Recovering(false));
    var cancelled := handled.(runner := Recovering(true));
    var locked := cancelled.(runner := Recovered(true), lock := Held(Runner, Choosing(ChooseTeardown)));
    HandlerBegins(cfg, s);
    HandlerLocks(cfg, cancelled);
    HandlerChooses(cfg, locked);
    var one: seq<Step> := [DoHandleRaised];
    var two, three := one + [DoCancelRunner], one + [DoCancelRunner] + [DoBeginRecovery];
    ScheduleOne(cfg, s, [], DoHandleRaised);
    assert [] + [DoHandleRaised] == one;
    ScheduleOne(cfg, s, one, DoCancelRunner);
    ScheduleOne(cfg, s, two, DoBeginRecovery);
    ScheduleOne(cfg, s, three, DoChoose);
    ScheduleOne(cfg, s, three + [DoChoose], DoResumeRecovered);
    assert three + [DoChoose] + [DoResumeRecovered]
        == [DoHandleRaised, DoCancelRunner, DoBeginRecovery, DoChoose, DoResumeRecovered];
  }

  lemma ScheduleOne(cfg: Config, s: Session, steps: seq<Step>, last: Step)
    ensures Schedule(cfg, s, []) == Some(s)
    ensures Schedule(cfg, s, steps + [last])
            == match Schedule(cfg, s, steps) { case None => None case Some(t) => Take(cfg, t, last) }
    ensures CancelledInHandler(cfg, s, steps + [last])
            <==> CancelledInHandler(cfg, s, steps)
                 || (&& last.DoCancelRunner? && Schedule(cfg, s, steps).Some?
                     && InHandler(Schedule(cfg, s, steps).value.runner))
  {
    hide Take;
    assert (steps + [last])[..|steps|] == steps;
  }

  lemma HandlerBegins(cfg: Config, s: Session)
    requires s.runner.Raised? && s.lock.Free? && s.selection.None?
    ensures var handled := s.(start := s.start.(settled := true), runner := Recovering(false));
            && Take(cfg, s, DoHandleRaised) == Some(handled)
            && Take(cfg, handled, DoCancelRunner) == Some(handled.(runner := Recovering(true)))
  {}

  lemma HandlerLocks(cfg: Config, s: Session)
    requires s.runner == Recovering(true) && s.lock.Free?
    ensures Take(cfg, s, DoBeginRecovery)
            == Some(s.(runner := Recovered(true), lock := Held(Runner, Choosing(ChooseTeardown))))
  {}

  lemma HandlerChooses(cfg: Config, s: Session)
    requires s.runner == Recovered(true) && s.lock == Held(Runner, Choosing(ChooseTeardown))
    requires s.GuardFree() && s.selection.None?
    ensures var chosen := Release(SelectCandidate(cfg, s, ChooseTeardown));
            && Take(cfg, s, DoChoose) == Some(chosen)
            && (chosen.finalizer.Work? || chosen.finalizer.AwaitStart?)
            && Take(cfg, chosen, DoResumeRecovered) == Some(chosen.(runner := Abandoned))
  {
    hide Latch;
    SelectingKeepsPlaces();
  }

  const REFUSED_START: seq<Step> := [DoRun, DoBeginStarted, DoPublishStarted(false)]

  lemma RefusedStart(cfg: Config, seed: Counters, now: int)
    ensures var s := Schedule(cfg, Created(cfg, seed, now), REFUSED_START);
            && s.Some? && s.value.runner.Raised? && s.value.lock.Free? && s.value.GuardFree()
            && s.value.selection.None?
  {
    hide Take;
    var start := Created(cfg, seed, now);
    var running := start.(runner := AnnouncingStart, watcher := Waiting);
    var locked := running.(runner := StartingProvider, lock := Held(Runner, EmitStarted));
    RefusedSteps(cfg, start);
    var one: seq<Step> := [DoRun];
    ScheduleOne(cfg, start, [], DoRun);
    assert [] + [DoRun] == one;
    ScheduleOne(cfg, start, one, DoBeginStarted);
    ScheduleOne(cfg, start, one + [DoBeginStarted], DoPublishStarted(false));
    assert one + [DoBeginStarted] + [DoPublishStarted(false)] == REFUSED_START;
  }

  lemma RefusedSteps(cfg: Config, s: Session)
    requires s.runner.NotRun? && s.selection.None? && s.lock.Free?
    ensures var running := s.(runner := AnnouncingStart, watcher := Waiting);
            var locked := running.(runner := StartingProvider, lock := Held(Runner, EmitStarted));
            && Take(cfg, s, DoRun) == Some(running)
            && Take(cfg, running, DoBeginStarted) == Some(locked)
            && Take(cfg, locked, DoPublishStarted(false))
               == Some(Broken(Release(locked)).(runner := Raised))
  {}

  /** One such schedule: the very first write is refused, and `run` is cancelled in its handler. */
  lemma EarlyReturnHappens(cfg: Config, seed: Counters, now: int)
    requires Wellformed(cfg, seed)
    ensures var steps := REFUSED_START
              + [DoHandleRaised, DoCancelRunner, DoBeginRecovery, DoChoose, DoResumeRecovered];
            var s := Schedule(cfg, Created(cfg, seed, now), steps);
            && s.Some? && Reachable(cfg, seed, now, steps, s.value)
            && s.value.Gone() && !s.value.finalizer.Ended?
  {
    hide Take, Schedule, Created;
    RefusedStart(cfg, seed, now);
    var raised := Schedule(cfg, Created(cfg, seed, now), REFUSED_START).value;
    RaisedWritesMayReturnEarly(cfg, raised);
    ScheduleConcat(cfg, Created(cfg, seed, now), REFUSED_START,
                   [DoHandleRaised, DoCancelRunner, DoBeginRecovery, DoChoose, DoResumeRecovered]);
  }
}
