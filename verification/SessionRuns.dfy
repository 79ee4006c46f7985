/** What holds in every schedule of a provider session: the results that cross
    `provider_session.py`, `session_state.py`, `loop_limits.py` and the transcript's guards. */
module SessionRuns {
  import opened Prelude
  import opened Lifecycle
  import opened LoopLimits
  import opened Tape
  import opened SessionMachine
  import opened SessionSafety
  import P = ProviderEvents
  import opened WireGrammar

  // ----- Every reachable state satisfies the invariant -----

  lemma KeepRunnerStep(cfg: Config, s: Session, step: Step)
    requires Inv(cfg, s) && OfRunner(step) && TakeRunner(cfg, s, step).Some?
    ensures Inv(cfg, TakeRunner(cfg, s, step).value)
  {
    hide Inv, Run, BeginStarted, StartProvider, BeginRead, FinishRead, SelectExpired, BeginInvalid;
    hide BeginObservation, LeaveLoop, JoinFinalizer, CancelRunner, HandleRaised, ResumeRecovered;
    match step
    case DoRun => KeepRun(cfg, s);
    case DoBeginStarted => KeepBeginStarted(cfg, s);
    case DoStartProvider(result, before, during) =>
      KeepStartProvider(cfg, s, result, before, during);
    case DoBeginRead => KeepBeginRead(cfg, s);
    case DoFinishRead(read, reapFailed) => KeepFinishRead(cfg, s, read, reapFailed);
    case DoSelectExpired => KeepSelectExpired(cfg, s);
    case DoBeginInvalid => KeepBeginInvalid(cfg, s);
    case DoBeginObservation => KeepBeginObservation(cfg, s);
    case DoLeaveLoop => KeepLeaveLoop(cfg, s);
    case DoJoinFinalizer => KeepJoinFinalizer(cfg, s);
    case DoCancelRunner => KeepCancelRunner(cfg, s);
    case DoHandleRaised => KeepHandleRaised(cfg, s);
    case DoBeginRecovery => KeepRunnerTeardown(cfg, s, Recovered(s.runner.cancelled));
    case DoResumeRecovered => KeepResumeRecovered(cfg, s);
    case DoBeginRunnerTeardown => KeepRunnerTeardown(cfg, s, Settling);
  }

  lemma KeepHolderStep(cfg: Config, s: Session, step: Step)
    requires Inv(cfg, s) && OfHolder(step) && TakeHolder(cfg, s, step).Some?
    ensures Inv(cfg, TakeHolder(cfg, s, step).value)
  {
    hide Inv, PublishStarted, AdmitStarted, AdmitDeferred, EnterObservationStep, DispatchStep;
    hide PublishDelta, AdmitDelta, NotifyUsageStep, RecheckDeadlineStep, ChooseStep, PublishText;
    hide AdmitText, NotifyLimitsStep, PublishTerminal, AdmitTerminal;
    match step
    case DoPublishStarted(written) => KeepPublishStarted(cfg, s, written);
    case DoAdmitStarted => KeepAdmitStarted(cfg, s);
    case DoAdmitDeferred => KeepAdmitDeferred(cfg, s);
    case DoEnterObservation => KeepEnterObservation(cfg, s);
    case DoDispatch => KeepObservation(cfg, s);
    case DoPublishDelta(written) => KeepPublishDelta(cfg, s, written);
    case DoAdmitDelta => KeepAdmitDelta(cfg, s);
    case DoNotifyUsage => KeepNotifyUsage(cfg, s);
    case DoRecheckDeadline => KeepRecheckDeadline(cfg, s);
    case DoChoose => KeepChoose(cfg, s);
    case DoPublishText(written) => KeepPublishText(cfg, s, written);
    case DoAdmitText => KeepAdmitText(cfg, s);
    case DoNotifyLimits => KeepNotifyLimits(cfg, s);
    case DoPublishTerminal(written) => KeepPublishTerminal(cfg, s, written);
    case DoAdmitTerminal => KeepAdmitTerminal(cfg, s);
  }

  lemma KeepOtherStep(cfg: Config, s: Session, step: Step)
    requires Inv(cfg, s) && !OfRunner(step) && !OfHolder(step) && TakeOther(cfg, s, step).Some?
    ensures Inv(cfg, TakeOther(cfg, s, step).value)
  {
    hide Inv, Tick, WatcherAcquire, WatcherLatch, RequestCancellation, RequestTeardown;
    hide FinalizerStarts, FinalizerCleansUp, FinalizerJoinsCleanup, BeginTerminal;
    match step
    case DoTick(elapsed) => KeepTick(cfg, s, elapsed);
    case DoWatcherAcquire => KeepWatcher(cfg, s);
    case DoWatcherLatch => KeepWatcher(cfg, s);
    case DoCleanupFinishes(failed) => KeepCleanup(cfg, s, failed);
    case DoCleanupForced => KeepCleanup(cfg, s, true);
    case DoRequestCancellation(command) => KeepRequestCancellation(cfg, s, command);
    case DoRequestTeardown => KeepRequestTeardown(cfg, s);
    case DoFinalizerStarts => KeepFinalizerStarts(cfg, s);
    case DoFinalizerCleansUp => KeepFinalizerCleansUp(cfg, s);
    case DoFinalizerJoinsCleanup(reapFailed, written) =>
      KeepFinalizerJoins(cfg, s, reapFailed, written);
    case DoBeginTerminal => KeepBeginTerminal(cfg, s);
  }

  lemma KeepTake(cfg: Config, s: Session, step: Step)
    requires Inv(cfg, s) && Take(cfg, s, step).Some?
    ensures Inv(cfg, Take(cfg, s, step).value)
  {
    hide Inv, TakeRunner, TakeHolder, TakeOther;
    if OfRunner(step) {
      KeepRunnerStep(cfg, s, step);
    } else if OfHolder(step) {
      KeepHolderStep(cfg, s, step);
    } else {
      KeepOtherStep(cfg, s, step);
    }
  }

  /** The session after some interleaving of its tasks. */
  ghost predicate Reachable(cfg: Config, seed: Counters, now: int, steps: seq<Step>, s: Session) {
    && Wellformed(cfg, seed)
    && Schedule(cfg, Created(cfg, seed, now), steps) == Some(s)
  }

  lemma {:induction false} ReachableInv(
    cfg: Config, seed: Counters, now: int, steps: seq<Step>, s: Session)
    requires Reachable(cfg, seed, now, steps, s)
    ensures Inv(cfg, s)
    decreases |steps|
  {
    if steps == [] {
      CreatedInv(cfg, seed, now);
    } else {
      var front := steps[..|steps| - 1];
      var before := Schedule(cfg, Created(cfg, seed, now), front).value;
      ReachableInv(cfg, seed, now, front, before);
      KeepTake(cfg, before, steps[|steps| - 1]);
    }
  }

  // ----- What the monitors know is a function of the logs -----

  predicate OutputGrows(cfg: Config, before: Output, after: Output) {
    || (after.published == before.published && after.audience == before.audience)
    || (&& after.published != []
        && after.published[..|after.published| - 1] == before.published
        && after.audience == Hear(cfg, before.audience, after.published[|after.published| - 1]))
  }

  predicate RecordingGrows(cfg: Config, before: Recording, after: Recording) {
    || after == before
    || (&& after.calls != []
        && after.calls[..|after.calls| - 1] == before.calls
        && after.tape == if before.tape.None? then None
                         else Guard(cfg.sessionId, before.tape.value, after.calls[|after.calls| - 1]))
  }

  predicate StreamGrows(before: Stream, after: Stream) {
    || (after.delivered == before.delivered && after.scan == before.scan)
    || (&& after.delivered != []
        && after.delivered[..|after.delivered| - 1] == before.delivered
        && after.scan == P.Observe(before.scan, after.delivered[|after.delivered| - 1]))
  }

  predicate Publishes(step: Step) {
    step.DoPublishStarted? || step.DoPublishDelta? || step.DoPublishText? || step.DoPublishTerminal?
  }

  predicate Records(step: Step) {
    || step.DoAdmitStarted? || step.DoAdmitDeferred? || step.DoAdmitDelta? || step.DoNotifyUsage?
    || step.DoAdmitText? || step.DoNotifyLimits? || step.DoAdmitTerminal?
    || step.DoRequestCancellation?
  }

  /** The event that went out and is not yet accepted by the reducer. */
  function InFlight(lock: DecisionLock): seq<Event> {
    if lock.Held? && Accepting(lock.at) then [lock.at.event] else []
  }

  predicate SameLogs(s: Session, t: Session) {
    && t.output.published == s.output.published
    && t.output.audience == s.output.audience
    && t.recording == s.recording
    && t.stream.delivered == s.stream.delivered
    && t.stream.scan == s.stream.scan
    && InFlight(t.lock) == InFlight(s.lock)
  }

  /** Choosing an outcome and starting cleanup leave the logs alone. */
  lemma SelectingKeepsLogs()
    ensures forall s: Session, c: Choice :: SameLogs(s, Select(s, c))
    ensures forall s: Session, mode: CleanupMode :: SameLogs(s, EnsureCleanup(s, mode))
    ensures forall s: Session :: SameLogs(s, Latch(s))
    ensures forall s: Session :: SameLogs(s, Expire(s))
  {}

  predicate KeepsIf(s: Session, t: Option<Session>) { t.Some? ==> SameLogs(s, t.value) }

  lemma WaitingKeepsLogs(cfg: Config, s: Session, elapsed: nat, failed: bool)
    ensures KeepsIf(s, Tick(s, elapsed)) && KeepsIf(s, WatcherAcquire(cfg, s))
    ensures KeepsIf(s, WatcherLatch(s))
    ensures KeepsIf(s, CleanupFinishes(s, failed)) && KeepsIf(s, CleanupForced(s))
  {
    SelectingKeepsLogs();
    hide Latch;
  }

  lemma StartingKeepsLogs(cfg: Config, s: Session, result: StartResult, before: nat, during: nat)
    ensures KeepsIf(s, StartProvider(cfg, s, result, before, during))
  {
    SelectingKeepsLogs();
    hide Select, Expire;
  }

  lemma RunKeepsLogs(s: Session)
    ensures KeepsIf(s, Run(s)) && KeepsIf(s, BeginStarted(s))
  {}

  lemma ReadingKeepsLogs(cfg: Config, s: Session, read: ReadResult, reapFailed: bool)
    ensures KeepsIf(s, BeginRead(s)) && KeepsIf(s, FinishRead(cfg, s, read, reapFailed))
    ensures KeepsIf(s, SelectExpired(s))
  {
    SelectingKeepsLogs();
    hide Expire;
  }

  lemma LockingKeepsLogs(s: Session)
    ensures KeepsIf(s, BeginInvalid(s)) && KeepsIf(s, BeginObservation(s))
    ensures KeepsIf(s, BeginRecovery(s)) && KeepsIf(s, BeginRunnerTeardown(s))
    ensures KeepsIf(s, RequestTeardown(s))
  {}

  lemma LeavingKeepsLogs(s: Session)
    ensures KeepsIf(s, LeaveLoop(s)) && KeepsIf(s, JoinFinalizer(s)) && KeepsIf(s, CancelRunner(s))
    ensures KeepsIf(s, HandleRaised(s)) && KeepsIf(s, ResumeRecovered(s))
  {}

  lemma DecidingKeepsLogs(cfg: Config, s: Session)
    ensures KeepsIf(s, EnterObservationStep(cfg, s)) && KeepsIf(s, RecheckDeadlineStep(cfg, s))
    ensures KeepsIf(s, ChooseStep(cfg, s))
  {
    SelectingKeepsLogs();
    hide Select, Expire;
  }

  lemma FinalizingKeepsLogs(s: Session, reapFailed: bool, written: bool)
    ensures KeepsIf(s, FinalizerStarts(s)) && KeepsIf(s, FinalizerCleansUp(s))
    ensures KeepsIf(s, FinalizerJoinsCleanup(s, reapFailed, written)) && KeepsIf(s, BeginTerminal(s))
  {
    SelectingKeepsLogs();
    hide EnsureCleanup;
  }

  lemma QuietRunner(cfg: Config, s: Session, step: Step)
    requires OfRunner(step)
    ensures KeepsIf(s, TakeRunner(cfg, s, step))
  {
    hide KeepsIf, Run, BeginStarted, StartProvider, BeginRead, FinishRead, SelectExpired;
    hide BeginInvalid, BeginObservation, BeginRecovery, BeginRunnerTeardown, LeaveLoop;
    hide JoinFinalizer, CancelRunner, HandleRaised, ResumeRecovered, RequestTeardown;
    var (read, reapFailed) :=
      if step.DoFinishRead? then (step.read, step.reapFailed) else (StreamOver, false);
    if step.DoStartProvider? {
      StartingKeepsLogs(cfg, s, step.result, step.before, step.during);
    } else {
      RunKeepsLogs(s);
      ReadingKeepsLogs(cfg, s, read, reapFailed);
      LockingKeepsLogs(s);
      LeavingKeepsLogs(s);
    }
  }

  lemma QuietHolder(cfg: Config, s: Session, step: Step)
    requires step.DoEnterObservation? || step.DoRecheckDeadline? || step.DoChoose?
    ensures KeepsIf(s, TakeHolder(cfg, s, step))
  {
    hide KeepsIf, EnterObservationStep, RecheckDeadlineStep, ChooseStep;
    DecidingKeepsLogs(cfg, s);
  }

  lemma QuietOther(cfg: Config, s: Session, step: Step)
    requires !OfRunner(step) && !OfHolder(step) && !step.DoRequestCancellation?
    ensures KeepsIf(s, TakeOther(cfg, s, step))
  {
    hide KeepsIf, Tick, WatcherAcquire, WatcherLatch, CleanupFinishes, CleanupForced;
    hide RequestTeardown, FinalizerStarts, FinalizerCleansUp, FinalizerJoinsCleanup, BeginTerminal;
    var elapsed: nat := if step.DoTick? then step.elapsed else 0;
    var failed := step.DoCleanupFinishes? && step.failed;
    var (reapFailed, written) :=
      if step.DoFinalizerJoinsCleanup? then (step.reapFailed, step.written) else (false, false);
    WaitingKeepsLogs(cfg, s, elapsed, failed);
    LockingKeepsLogs(s);
    FinalizingKeepsLogs(s, reapFailed, written);
  }

  /** Steps that neither write, record nor examine anything. */
  lemma QuietSteps(cfg: Config, s: Session, step: Step)
    requires Take(cfg, s, step).Some?
    requires !Publishes(step) && !Records(step) && !step.DoDispatch?
    ensures SameLogs(s, Take(cfg, s, step).value)
  {
    hide SameLogs, TakeRunner, TakeHolder, TakeOther;
    if OfRunner(step) {
      QuietRunner(cfg, s, step);
    } else if OfHolder(step) {
      QuietHolder(cfg, s, step);
    } else {
      QuietOther(cfg, s, step);
    }
  }

  /** The branches of an examination leave the logs alone. */
  lemma ChargingKeepsLogs(cfg: Config, s: Session, text: string)
    requires s.lock.Held? && InFlight(s.lock) == []
    ensures SameLogs(s, DispatchDelta(cfg, s, text)) && SameLogs(s, DispatchToolCall(cfg, s))
  {
    SelectingKeepsLogs();
    hide Select, Expire;
  }

  lemma ExaminingKeepsLogs(cfg: Config, s: Session, observed: P.ProviderEvent)
    requires s.lock.Held? && InFlight(s.lock) == []
    requires !observed.TextDelta? && !observed.ToolCallRequested?
    ensures SameLogs(s, Dispatch(cfg, s, observed))
  {}

  /** An examination adds one observation and nothing else. */
  lemma DispatchLogs(cfg: Config, s: Session)
    requires DispatchStep(cfg, s).Some?
    ensures SameLogs(s.Examine(s.lock.at.observed), DispatchStep(cfg, s).value)
    ensures InFlight(s.lock) == []
  {
    hide SameLogs, DispatchDelta, DispatchToolCall, DispatchText, DispatchUsage, DispatchCompleted;
    var observed := s.lock.at.observed;
    match observed
    case TextDelta(text) => ChargingKeepsLogs(cfg, s.Examine(observed), text);
    case ToolCallRequested => ChargingKeepsLogs(cfg, s.Examine(observed), "");
    case _ => ExaminingKeepsLogs(cfg, s.Examine(observed), observed);
  }

  predicate LogsGrow(cfg: Config, s: Session, t: Session) {
    && OutputGrows(cfg, s.output, t.output)
    && RecordingGrows(cfg, s.recording, t.recording)
    && StreamGrows(s.stream, t.stream)
  }

  predicate SameStream(s: Session, t: Session) {
    t.stream.delivered == s.stream.delivered && t.stream.scan == s.stream.scan
  }

  /** Only the publications and the records may have grown. */
  predicate GrowsIf(cfg: Config, s: Session, t: Option<Session>) {
    t.Some? ==>
      && OutputGrows(cfg, s.output, t.value.output)
      && RecordingGrows(cfg, s.recording, t.value.recording)
      && SameStream(s, t.value)
  }

  lemma WritingGrows(cfg: Config, s: Session, written: bool)
    ensures GrowsIf(cfg, s, PublishStarted(cfg, s, written))
    ensures GrowsIf(cfg, s, PublishDelta(cfg, s, written))
  {
    hide Hear;
  }

  lemma EndingGrows(cfg: Config, s: Session, written: bool)
    ensures GrowsIf(cfg, s, PublishText(cfg, s, written))
    ensures GrowsIf(cfg, s, PublishTerminal(cfg, s, written))
  {
    hide Hear, TerminalOf;
  }

  lemma PublishingGrows(cfg: Config, s: Session, step: Step)
    requires Take(cfg, s, step).Some? && Publishes(step)
    ensures GrowsIf(cfg, s, Take(cfg, s, step))
  {
    hide GrowsIf, PublishStarted, PublishDelta, PublishText, PublishTerminal;
    match step
    case DoPublishStarted(written) => WritingGrows(cfg, s, written);
    case DoPublishDelta(written) => WritingGrows(cfg, s, written);
    case DoPublishText(written) => EndingGrows(cfg, s, written);
    case DoPublishTerminal(written) => EndingGrows(cfg, s, written);
    case _ => assert false;
  }

  /** Reducing and recording leave the publications and the stream alone. */
  lemma RecordingOne(cfg: Config)
    ensures forall s: Session, u: Update :: GrowsIf(cfg, s, Some(AcceptUpdate(cfg, s, u)))
    ensures forall s: Session, u: Update :: AcceptUpdate(cfg, s, u).stream == s.stream
    ensures forall s: Session, call: Call ::
              GrowsIf(cfg, s, Some(SessionMachine.Notify(cfg, s, call)))
              && SessionMachine.Notify(cfg, s, call).stream == s.stream
  {
    hide Reduce, Guard;
  }

  lemma AdmittingGrows(cfg: Config, s: Session)
    ensures GrowsIf(cfg, s, AdmitStarted(cfg, s)) && GrowsIf(cfg, s, AdmitDelta(cfg, s))
    ensures GrowsIf(cfg, s, AdmitText(cfg, s)) && GrowsIf(cfg, s, AdmitTerminal(cfg, s))
  {
    RecordingOne(cfg);
    hide AcceptUpdate, SessionMachine.Notify;
  }

  lemma NotifyingGrows(cfg: Config, s: Session, command: string)
    ensures GrowsIf(cfg, s, AdmitDeferred(cfg, s)) && GrowsIf(cfg, s, NotifyUsageStep(cfg, s))
    ensures GrowsIf(cfg, s, NotifyLimitsStep(cfg, s))
    ensures GrowsIf(cfg, s, RequestCancellation(cfg, s, command))
  {
    RecordingOne(cfg);
    hide AcceptUpdate, SessionMachine.Notify;
  }

  lemma RecordingGrowsLogs(cfg: Config, s: Session, step: Step)
    requires Take(cfg, s, step).Some? && Records(step)
    ensures GrowsIf(cfg, s, Take(cfg, s, step))
  {
    hide GrowsIf, AdmitStarted, AdmitDelta, AdmitText, AdmitTerminal, AdmitDeferred;
    hide NotifyUsageStep, NotifyLimitsStep, RequestCancellation;
    AdmittingGrows(cfg, s);
    NotifyingGrows(cfg, s, if step.DoRequestCancellation? then step.command else "");
  }

  lemma DispatchGrows(cfg: Config, s: Session)
    requires DispatchStep(cfg, s).Some?
    ensures LogsGrow(cfg, s, DispatchStep(cfg, s).value)
  {
    hide DispatchStep, P.Observe;
    DispatchLogs(cfg, s);
  }

  lemma TakeGrows(cfg: Config, s: Session, step: Step)
    requires Take(cfg, s, step).Some?
    ensures LogsGrow(cfg, s, Take(cfg, s, step).value)
  {
    hide OutputGrows, RecordingGrows, Take;
    if Publishes(step) {
      PublishingGrows(cfg, s, step);
    } else if Records(step) {
      RecordingGrowsLogs(cfg, s, step);
    } else if step.DoDispatch? {
      DispatchTaken(cfg, s);
      DispatchGrows(cfg, s);
    } else {
      QuietSteps(cfg, s, step);
      SameLogsGrow(cfg, s, Take(cfg, s, step).value);
    }
  }

  lemma DispatchTaken(cfg: Config, s: Session)
    ensures Take(cfg, s, DoDispatch) == DispatchStep(cfg, s)
  {
    hide DispatchStep;
  }

  lemma SameLogsGrow(cfg: Config, s: Session, t: Session)
    requires SameLogs(s, t)
    ensures LogsGrow(cfg, s, t)
  {}

  /** Everything examined before the latest observation left the stream open. */
  predicate OpenBefore(events: seq<P.ProviderEvent>) {
    forall i :: 0 <= i < |events| - 1 ==> !events[i].EndsStream()
  }

  ghost predicate Logged(cfg: Config, s: Session) {
    && s.output.audience == HearAll(cfg, s.output.published)
    && s.recording.tape == RunGuards(cfg.sessionId, s.recording.calls)
    && s.stream.scan == P.ScanAll(s.stream.delivered)
    && OpenBefore(s.stream.delivered)
  }

  lemma DispatchReady(cfg: Config, s: Session)
    requires Take(cfg, s, DoDispatch).Some?
    ensures s.lock.Held? && s.lock.at.DispatchObservation?
  {
    hide Dispatch;
  }

  lemma DeliverOnlyAtDispatch(cfg: Config, s: Session, step: Step)
    requires Take(cfg, s, step).Some?
    requires Take(cfg, s, step).value.stream.delivered != s.stream.delivered
    ensures s.lock.Held? && s.lock.at.DispatchObservation?
  {
    hide Take, OutputGrows, RecordingGrows;
    if Publishes(step) {
      PublishingGrows(cfg, s, step);
    } else if Records(step) {
      RecordingGrowsLogs(cfg, s, step);
    } else if step.DoDispatch? {
      DispatchReady(cfg, s);
    } else {
      QuietSteps(cfg, s, step);
    }
  }

  lemma GrownLogs(cfg: Config, s: Session, t: Session)
    requires Logged(cfg, s)
    requires OutputGrows(cfg, s.output, t.output)
    requires RecordingGrows(cfg, s.recording, t.recording)
    requires StreamGrows(s.stream, t.stream)
    requires t.stream.delivered != s.stream.delivered ==> s.stream.scan.ending.None?
    ensures Logged(cfg, t)
  {
    hide Guard, Hear, P.Observe;
    if t.stream.delivered != s.stream.delivered {
      StaysOpen(s.stream.delivered, t.stream.delivered);
    }
  }

  lemma TakeLogs(cfg: Config, s: Session, step: Step)
    requires Inv(cfg, s) && Logged(cfg, s) && Take(cfg, s, step).Some?
    ensures Logged(cfg, Take(cfg, s, step).value)
  {
    hide Take, Inv, Logged;
    TakeGrows(cfg, s, step);
    var t := Take(cfg, s, step).value;
    if t.stream.delivered != s.stream.delivered {
      DeliverOnlyAtDispatch(cfg, s, step);
      AtDispatch(cfg, s);
    }
    GrownLogs(cfg, s, t);
  }

  lemma StaysOpen(before: seq<P.ProviderEvent>, after: seq<P.ProviderEvent>)
    requires P.ScanAll(before).ending.None?
    requires |after| == |before| + 1 && after[..|before|] == before
    ensures OpenBefore(after)
  {
    P.ScanDecides(before);
    forall i | 0 <= i < |before| ensures !after[i].EndsStream() {
      assert after[i] == before[i];
    }
  }

  lemma {:induction false} ReachableLogged(
    cfg: Config, seed: Counters, now: int, steps: seq<Step>, s: Session)
    requires Reachable(cfg, seed, now, steps, s)
    ensures Logged(cfg, s)
    decreases |steps|
  {
    if steps == [] {
      CreatedLogged(cfg, seed, now);
    } else {
      var front := steps[..|steps| - 1];
      var before := Schedule(cfg, Created(cfg, seed, now), front).value;
      ReachableLogged(cfg, seed, now, front, before);
      ReachableInv(cfg, seed, now, front, before);
      TakeLogs(cfg, before, steps[|steps| - 1]);
    }
  }

  lemma CreatedLogged(cfg: Config, seed: Counters, now: int)
    ensures Logged(cfg, Created(cfg, seed, now))
  {
    var calls := Created(cfg, seed, now).recording.calls;
    assert calls[..0] == [];
  }

  // ----- Published and recorded are the same events -----

  function WiresOf(call: Call): seq<Event> {
    if call.RecordUpdate? && call.update.Wire? then [call.update.event] else []
  }

  lemma WiresSnoc(calls: seq<Call>)
    requires calls != []
    ensures Wires(Updates(calls))
            == Wires(Updates(calls[..|calls| - 1])) + WiresOf(calls[|calls| - 1])
  {
    var front, last := calls[..|calls| - 1], calls[|calls| - 1];
    if last.RecordUpdate? {
      assert Updates(calls)[..|Updates(front)|] == Updates(front);
    } else {
      assert Updates(calls) == Updates(front);
    }
  }

  /** How one step moves an event along: out, then into the record, in the same order. */
  predicate Moves(s: Session, t: Session) {
    if t.output.published != s.output.published then
      && t.recording.calls == s.recording.calls
      && InFlight(s.lock) == []
      && t.output.published == s.output.published + InFlight(t.lock)
    else if t.recording.calls == s.recording.calls then InFlight(t.lock) == InFlight(s.lock)
    else
      && t.recording.calls != []
      && t.recording.calls[..|t.recording.calls| - 1] == s.recording.calls
      && InFlight(s.lock) == WiresOf(t.recording.calls[|t.recording.calls| - 1])
      && InFlight(t.lock) == []
  }

  lemma WritingMoves(cfg: Config, s: Session, written: bool)
    ensures MovesIf(s, PublishStarted(cfg, s, written)) && MovesIf(s, PublishDelta(cfg, s, written))
  {
    hide Hear;
  }

  lemma EndingMoves(cfg: Config, s: Session, written: bool)
    ensures MovesIf(s, PublishText(cfg, s, written)) && MovesIf(s, PublishTerminal(cfg, s, written))
  {
    hide Hear, TerminalOf;
  }

  lemma PublishingMoves(cfg: Config, s: Session, step: Step)
    requires Take(cfg, s, step).Some? && Publishes(step) && !Take(cfg, s, step).value.faulted
    ensures Moves(s, Take(cfg, s, step).value)
  {
    hide Moves, PublishStarted, PublishDelta, PublishText, PublishTerminal;
    match step
    case DoPublishStarted(written) => WritingMoves(cfg, s, written);
    case DoPublishDelta(written) => WritingMoves(cfg, s, written);
    case DoPublishText(written) => EndingMoves(cfg, s, written);
    case DoPublishTerminal(written) => EndingMoves(cfg, s, written);
    case _ => assert false;
  }

  lemma AcceptingRecords(cfg: Config)
    ensures forall s: Session, u: Update :: !AcceptUpdate(cfg, s, u).faulted ==>
              var t := AcceptUpdate(cfg, s, u);
              && t.recording.calls == s.recording.calls + [RecordUpdate(u, t.life)]
              && t.output == s.output && t.lock == s.lock && t.start == s.start
    ensures forall s: Session, call: Call ::
              var t := SessionMachine.Notify(cfg, s, call);
              && t.recording.calls == s.recording.calls + [call]
              && t.output == s.output && t.lock == s.lock && t.faulted == s.faulted
    ensures forall s: Session, u: Update :: s.faulted ==> AcceptUpdate(cfg, s, u).faulted
  {
    hide Reduce, Guard;
  }

  lemma AdmittingMoves(cfg: Config, s: Session)
    ensures MovesIf(s, AdmitStarted(cfg, s)) && MovesIf(s, AdmitDelta(cfg, s))
    ensures MovesIf(s, AdmitText(cfg, s)) && MovesIf(s, AdmitTerminal(cfg, s))
  {
    hide AcceptUpdate, SessionMachine.Notify;
    AcceptingRecords(cfg);
  }

  lemma CancellingMoves(cfg: Config, s: Session, command: string)
    ensures MovesIf(s, AdmitDeferred(cfg, s)) && MovesIf(s, RequestCancellation(cfg, s, command))
  {
    hide AcceptUpdate, SessionMachine.Notify;
    AcceptingRecords(cfg);
  }

  lemma NotifyingMoves(cfg: Config, s: Session)
    ensures MovesIf(s, NotifyUsageStep(cfg, s)) && MovesIf(s, NotifyLimitsStep(cfg, s))
  {
    hide AcceptUpdate, SessionMachine.Notify;
    AcceptingRecords(cfg);
  }

  predicate MovesIf(s: Session, t: Option<Session>) {
    t.Some? && !t.value.faulted ==> Moves(s, t.value)
  }

  lemma RecordingMoves(cfg: Config, s: Session, step: Step)
    requires Take(cfg, s, step).Some? && Records(step) && !Take(cfg, s, step).value.faulted
    ensures Moves(s, Take(cfg, s, step).value)
  {
    hide Moves, AdmitStarted, AdmitDelta, AdmitText, AdmitTerminal, AdmitDeferred, NotifyUsageStep;
    hide NotifyLimitsStep, RequestCancellation;
    AdmittingMoves(cfg, s);
    NotifyingMoves(cfg, s);
    CancellingMoves(cfg, s, if step.DoRequestCancellation? then step.command else "");
  }

  lemma DispatchMoves(cfg: Config, s: Session)
    requires DispatchStep(cfg, s).Some?
    ensures Moves(s, Take(cfg, s, DoDispatch).value)
  {
    hide DispatchStep;
    DispatchLogs(cfg, s);
  }

  lemma TakeMoves(cfg: Config, s: Session, step: Step)
    requires Take(cfg, s, step).Some? && !Take(cfg, s, step).value.faulted
    ensures Moves(s, Take(cfg, s, step).value)
  {
    if Publishes(step) {
      PublishingMoves(cfg, s, step);
    } else if Records(step) {
      RecordingMoves(cfg, s, step);
    } else if step.DoDispatch? {
      DispatchMoves(cfg, s);
    } else {
      QuietSteps(cfg, s, step);
    }
  }

  /** The transcript records exactly the events the protocol carries, in order, with at most the
      latest one still on its way. */
  lemma {:induction false} PublishedAreRecorded(
    cfg: Config, seed: Counters, now: int, steps: seq<Step>, s: Session)
    requires Reachable(cfg, seed, now, steps, s)
    ensures s.output.published == Wires(Updates(s.recording.calls)) + InFlight(s.lock)
    decreases |steps|
  {
    if steps == [] {
      var calls := s.recording.calls;
      WiresSnoc(calls);
      assert calls[..0] == [];
    } else {
      var front, step := steps[..|steps| - 1], steps[|steps| - 1];
      var before := Schedule(cfg, Created(cfg, seed, now), front).value;
      hide Take, Updates, Wires;
      PublishedAreRecorded(cfg, seed, now, front, before);
      NeverFaults(cfg, seed, now, steps, s);
      TakeMoves(cfg, before, step);
      MovedMirrors(before, s);
    }
  }

  lemma NeverFaults(cfg: Config, seed: Counters, now: int, steps: seq<Step>, s: Session)
    requires Reachable(cfg, seed, now, steps, s)
    ensures !s.faulted
  {
    ReachableInv(cfg, seed, now, steps, s);
  }

  lemma MovedMirrors(s: Session, t: Session)
    requires s.output.published == Wires(Updates(s.recording.calls)) + InFlight(s.lock)
    requires Moves(s, t)
    ensures t.output.published == Wires(Updates(t.recording.calls)) + InFlight(t.lock)
  {
    hide Updates, Wires, InFlight, WiresOf;
    if t.recording.calls != s.recording.calls {
      WiresSnoc(t.recording.calls);
    }
  }

  // ----- Main results -----

  /** In every interleaving the session's own reducer, cleanup and text checks never fail, and the
      attached transcript accepts every call: usage once, after text and before no later delta;
      limits evidence once, validated, directly before the one terminal it matches. */
  lemma TranscriptAcceptsEveryCall(
    cfg: Config, seed: Counters, now: int, steps: seq<Step>, s: Session)
    requires Reachable(cfg, seed, now, steps, s)
    ensures !s.faulted
    ensures RunGuards(cfg.sessionId, s.recording.calls).Some?
    ensures Replay(INITIAL, Updates(s.recording.calls)) == Accepted(s.life)
    ensures UsageWellPlaced(s.recording.calls)
    ensures LimitsWellPlaced(s.recording.calls)
    ensures TerminalsCarryLimits(s.recording.calls)
    ensures forall i :: 0 <= i < |s.recording.calls| && s.recording.calls[i].RecordLimits? ==>
              s.recording.calls[i].observed.Valid()
              && s.recording.calls[i].observed.sessionId == cfg.sessionId
  {
    hide Inv, Logged, Reachable, RunGuards, Updates, Replay, UsageWellPlaced, LimitsWellPlaced;
    ReachableInv(cfg, seed, now, steps, s);
    ReachableLogged(cfg, seed, now, steps, s);
    TapeFacts(cfg, s);
    UpdatesReplay(cfg.sessionId, s.recording.calls);
    GuardsPlaceUsage(cfg.sessionId, s.recording.calls);
    GuardsPlaceLimits(cfg.sessionId, s.recording.calls);
    EvidenceIsOwn(cfg, s.recording.tape.value, s.recording.calls);
    if s.recording.tape.value.evidence.limits.Some? {
      GuardsPlaceTerminals(cfg.sessionId, s.recording.calls);
    }
  }

  lemma EvidenceIsOwn(cfg: Config, tape: Tape, calls: seq<Call>)
    requires RunGuards(cfg.sessionId, calls) == Some(tape)
    ensures forall i :: 0 <= i < |calls| && calls[i].RecordLimits? ==>
              tape.evidence.limits == Some(calls[i].observed)
    ensures (exists i :: 0 <= i < |calls| && calls[i].RecordUpdate? && calls[i].update.EndsSession())
            ==> tape.state.status.Terminal()
  {
    GuardedEvidence(cfg.sessionId, calls);
  }

  lemma TapeFacts(cfg: Config, s: Session)
    requires Inv(cfg, s) && Logged(cfg, s)
    ensures !s.faulted
    ensures s.recording.tape == RunGuards(cfg.sessionId, s.recording.calls)
    ensures s.recording.tape.Some? && s.recording.tape.value.state == s.life
    ensures s.life.status.Terminal() ==> s.recording.tape.value.evidence.limits.Some?
    ensures var limits := s.recording.tape.value.evidence.limits;
            limits.Some? ==>
              limits.value == Observed(cfg.sessionId, cfg.limits, s.budget.counters)
              && limits.value.Valid()
  {
    hide InvLock, InvStart, InvFinalizer, InvLife, InvText, InvPoint, InvCleanup, InvEvents, InvScan;
  }

  /** The session's tape is what the guards make of its calls, and it knows the session. */
  lemma RecordingIsGuarded(
    cfg: Config, seed: Counters, now: int, steps: seq<Step>, s: Session)
    requires Reachable(cfg, seed, now, steps, s)
    ensures s.recording.tape.Some?
    ensures RunGuards(cfg.sessionId, s.recording.calls) == s.recording.tape
    ensures s.recording.tape.value.state == s.life
    ensures s.life.sessionId.None? || s.life.sessionId == Some(cfg.sessionId)
  {
    hide Reachable;
    ReachableInv(cfg, seed, now, steps, s);
    ReachableLogged(cfg, seed, now, steps, s);
    hide InvLock, InvStart, InvFinalizer, InvText, InvPoint, InvCleanup, InvEvents, InvScan;
  }

  /** What goes out on the protocol stream is always a prefix of one legal session. */
  lemma PublishedIsLegal(cfg: Config, seed: Counters, now: int, steps: seq<Step>, s: Session)
    requires Reachable(cfg, seed, now, steps, s)
    ensures LegalSession(cfg, s.output.published)
  {
    ReachableInv(cfg, seed, now, steps, s);
    ReachableLogged(cfg, seed, now, steps, s);
    HearDecides(cfg, s.output.published);
    hide InvLock, InvStart, InvFinalizer, InvLife, InvText, InvPoint, InvCleanup, InvTape, InvScan;
  }

  /** A latched deadline leaves no room for another outcome; and whatever is selected, the tracker
      is exhausted exactly by the budget the outcome reports. */
  lemma DeadlinePrecedence(cfg: Config, seed: Counters, now: int, steps: seq<Step>, s: Session)
    requires Reachable(cfg, seed, now, steps, s)
    ensures s.budget.latched ==> s.selection.None? || s.selection == Some(ChooseDeadline)
    ensures s.selection.Some? ==>
              var exhausted := s.budget.counters.exhausted;
              && (exhausted == Some(ModelTurns) <==> s.selection == Some(ChooseTurnLimit))
              && (exhausted == Some(ProviderWork) <==> s.selection == Some(ChooseDeadline))
              && (exhausted == Some(AssistantOutput) <==> s.selection == Some(ChooseOutputLimit))
              && (exhausted == Some(ToolCalls) <==> s.selection == Some(ChooseToolLimit))
    ensures s.selection.None? ==>
              (s.budget.counters.exhausted.Some? <==> s.budget.latched)
    ensures Observed(cfg.sessionId, cfg.limits, s.budget.counters).Valid()
  {
    hide Reachable, Inv;
    ReachableInv(cfg, seed, now, steps, s);
    BudgetFacts(cfg, s);
  }

  lemma BudgetFacts(cfg: Config, s: Session)
    requires Inv(cfg, s)
    ensures s.budget.latched ==> s.selection.None? || s.selection == Some(ChooseDeadline)
    ensures s.budget.counters.exhausted
            == match s.selection {
                 case None => if s.budget.latched then Some(ProviderWork) else None
                 case Some(choice) => choice.Budget()
               }
    ensures cfg.limits.Valid() && Consistent(cfg.limits, s.budget.counters)
  {
    hide InvLock, InvStart, InvFinalizer, InvLife, InvText, InvPoint, InvTape, InvCleanup, InvEvents;
    hide InvScan;
  }

  predicate TerminalOut(s: Session) {
    s.output.audience.phase.Over? && s.output.published != []
  }

  /** One primary cleanup call at most, settled or forced before any terminal goes out: it waits for an
      operation that ended by itself and cancels any other. */
  lemma CleanupOnceAndBeforeTerminal(
    cfg: Config, seed: Counters, now: int, steps: seq<Step>, s: Session)
    requires Reachable(cfg, seed, now, steps, s)
    ensures var calls := s.operation.cleanupCalls;
            || calls == []
            || (exists mode :: calls == [Primary(mode)] || calls == [Primary(mode), Force])
    ensures s.operation.cleanupCalls != [] && s.selection.Some? ==>
              s.operation.cleanupCalls[0]
              == Primary(if s.selection.value.ChooseCompleted? || s.selection.value.ChooseProviderFailure?
                         then WaitClosed else CleanupMode.Cancel)
    ensures TerminalOut(s) && s.operation.started ==> s.operation.cleanup.Settled?
  {
    ReachableInv(cfg, seed, now, steps, s);
    hide InvText, InvPoint, InvTape, InvBudget, InvScan;
    match s.operation.cleanup
    case NotStarted =>
    case InProgress(mode) => assert s.operation.cleanupCalls == [Primary(mode)];
    case Settled(mode, _) =>
      assert s.operation.cleanupCalls == [Primary(mode)]
          || s.operation.cleanupCalls == [Primary(mode), Force];
  }

  /** The session's own grammar check rejects only streams that break the grammar; a completed
      session examined a grammatical stream and published its text; and when a grammatical stream
      ended, that ending decides the outcome unless the deadline does. */
  lemma ProviderGrammarDecides(
    cfg: Config, seed: Counters, now: int, steps: seq<Step>, s: Session)
    requires Reachable(cfg, seed, now, steps, s)
    ensures s.selection == Some(ChooseInvalidResponse(OwnGrammar)) ==>
              !P.TurnGrammar(s.stream.delivered)
    ensures s.selection == Some(ChooseCompleted) ==>
              && P.TurnGrammar(s.stream.delivered)
              && s.life.assistantText == P.DeltaText(s.stream.delivered) != ""
              && s.stream.completedText == Some(s.life.assistantText)
    ensures P.TurnGrammar(s.stream.delivered) && P.EndSeen(s.stream.delivered) ==>
              EndsAs(s.stream.delivered[|s.stream.delivered| - 1], s.selection, s.lock)
    ensures s.selection.Some?
            && (s.selection.value.ChooseCompleted? || s.selection.value.ChooseProviderFailure?) ==>
              s.stream.delivered != []
              && Answers(s.stream.delivered[|s.stream.delivered| - 1], s.selection.value)
    ensures OpenBefore(s.stream.delivered)
  {
    hide Inv, Logged, Reachable, P.TurnGrammar, P.EndSeen, EndsAs, OpenBefore;
    ReachableInv(cfg, seed, now, steps, s);
    ReachableLogged(cfg, seed, now, steps, s);
    GrammarFacts(cfg, s);
  }

  lemma GrammarFacts(cfg: Config, s: Session)
    requires Inv(cfg, s) && Logged(cfg, s)
    ensures s.selection == Some(ChooseInvalidResponse(OwnGrammar)) ==>
              !P.TurnGrammar(s.stream.delivered)
    ensures s.selection == Some(ChooseCompleted) ==>
              && P.TurnGrammar(s.stream.delivered)
              && s.life.assistantText == P.DeltaText(s.stream.delivered) != ""
              && s.stream.completedText == Some(s.life.assistantText)
    ensures P.TurnGrammar(s.stream.delivered) && P.EndSeen(s.stream.delivered) ==>
              s.stream.delivered != []
              && EndsAs(s.stream.delivered[|s.stream.delivered| - 1], s.selection, s.lock)
    ensures s.selection.Some? && s.selection.value.Mode().WaitClosed? ==>
              s.stream.delivered != []
              && Answers(s.stream.delivered[|s.stream.delivered| - 1], s.selection.value)
    ensures OpenBefore(s.stream.delivered)
  {
    P.ScanDecides(s.stream.delivered);
    if P.EndSeen(s.stream.delivered) { EndingIsLast(s.stream.delivered); }
    hide InvLock, InvStart, InvFinalizer, InvLife, InvTape, InvBudget, InvCleanup, InvEvents;
  }

  lemma EndingIsLast(events: seq<P.ProviderEvent>)
    requires OpenBefore(events) && P.EndSeen(events)
    ensures events != [] && P.ScanAll(events).ending == Some(events[|events| - 1])
  {
    var i :| 0 <= i < |events| && events[i].EndsStream();
    assert i == |events| - 1;
  }

  // ----- Returning -----

  predicate InHandler(pc: RunnerPc) { pc.Recovering? || pc.Recovered? }

  /** Somewhere in the schedule `run` was cancelled while its handler of a raised write was selecting
      teardown. */
  predicate CancelledInHandler(cfg: Config, start: Session, steps: seq<Step>) {
    && steps != []
    && var front, last := steps[..|steps| - 1], steps[|steps| - 1];
       || CancelledInHandler(cfg, start, front)
       || (&& last.DoCancelRunner?
           && Schedule(cfg, start, front).Some?
           && InHandler(Schedule(cfg, start, front).value.runner))
  }

  /** The runner position remembers such a cancellation. */
  predicate Remembers(pc: RunnerPc) { (InHandler(pc) && pc.cancelled) || pc.Abandoned? }

  predicate RemembersIf(s: Session, t: Option<Session>, extra: bool) {
    t.Some? ==> (Remembers(t.value.runner) <==> Remembers(s.runner) || extra)
  }

  lemma StartingRemembers(cfg: Config, s: Session, result: StartResult, before: nat, during: nat)
    ensures RemembersIf(s, StartProvider(cfg, s, result, before, during), false)
  {
    hide Expire, Select;
    SelectingKeepsRunner();
  }

  lemma LoopRemembers(cfg: Config, s: Session, read: ReadResult, reapFailed: bool)
    ensures RemembersIf(s, BeginRead(s), false)
    ensures RemembersIf(s, FinishRead(cfg, s, read, reapFailed), false)
    ensures RemembersIf(s, SelectExpired(s), false)
    ensures RemembersIf(s, BeginInvalid(s), false) && RemembersIf(s, BeginObservation(s), false)
    ensures RemembersIf(s, LeaveLoop(s), false) && RemembersIf(s, JoinFinalizer(s), false)
  {
    hide Expire;
    SelectingKeepsRunner();
  }

  lemma HandlersRemember(s: Session)
    ensures RemembersIf(s, Run(s), false) && RemembersIf(s, BeginStarted(s), false)
    ensures RemembersIf(s, HandleRaised(s), false) && RemembersIf(s, BeginRecovery(s), false)
    ensures RemembersIf(s, ResumeRecovered(s), false) && RemembersIf(s, BeginRunnerTeardown(s), false)
    ensures RemembersIf(s, CancelRunner(s), InHandler(s.runner))
  {}

  lemma RunnerRemembers(cfg: Config, s: Session, step: Step)
    requires OfRunner(step) && TakeRunner(cfg, s, step).Some?
    ensures Remembers(TakeRunner(cfg, s, step).value.runner)
            <==> Remembers(s.runner) || (step.DoCancelRunner? && InHandler(s.runner))
  {
    hide Run, BeginStarted, StartProvider, BeginRead, FinishRead, SelectExpired, BeginInvalid;
    hide BeginObservation, LeaveLoop, JoinFinalizer, CancelRunner, HandleRaised, BeginRecovery;
    hide ResumeRecovered, BeginRunnerTeardown, Remembers;
    var (read, reapFailed) :=
      if step.DoFinishRead? then (step.read, step.reapFailed) else (StreamOver, false);
    if step.DoStartProvider? {
      StartingRemembers(cfg, s, step.result, step.before, step.during);
    } else {
      LoopRemembers(cfg, s, read, reapFailed);
      HandlersRemember(s);
    }
  }

  lemma SelectingKeepsRunner()
    ensures forall s: Session, c: Choice :: Select(s, c).runner == s.runner
    ensures forall s: Session :: Expire(s).runner == s.runner && Latch(s).runner == s.runner
    ensures forall s: Session, mode: CleanupMode :: EnsureCleanup(s, mode).runner == s.runner
  {}

  /** A holder step moves the runner only where a write raised. */
  lemma HolderKeepsRunner(cfg: Config, s: Session, step: Step)
    requires Inv(cfg, s) && OfHolder(step) && TakeHolder(cfg, s, step).Some?
    ensures var t := TakeHolder(cfg, s, step).value;
            t.runner == s.runner || (t.runner.Raised? && !InHandler(s.runner) && !s.Gone())
  {
    hide Inv, Expire, Select, AcceptUpdate, SessionMachine.Notify, Hear, Dispatch, TerminalOf;
    SelectingKeepsRunner();
    AcceptingKeepsRunner(cfg);
    WriterIsRunner(cfg, s);
    if step.DoDispatch? { DispatchKeepsRunner(cfg, s.Examine(s.lock.at.observed), s.lock.at.observed); }
  }

  lemma WriterIsRunner(cfg: Config, s: Session)
    requires Inv(cfg, s)
    ensures s.lock.Held? && s.lock.at.EmitStarted? ==> s.runner.StartingProvider?
    ensures s.lock.Held? && s.lock.at.EmitDelta? ==> s.runner.LoopTop?
  {
    hide InvStart, InvFinalizer, InvLife, InvText, InvPoint, InvTape, InvBudget, InvCleanup;
    hide InvEvents, InvScan;
  }

  lemma AcceptingKeepsRunner(cfg: Config)
    ensures forall s: Session, u: Update :: AcceptUpdate(cfg, s, u).runner == s.runner
    ensures forall s: Session, call: Call :: SessionMachine.Notify(cfg, s, call).runner == s.runner
  {
    hide Reduce, Guard;
  }

  lemma DispatchKeepsRunner(cfg: Config, s: Session, observed: P.ProviderEvent)
    requires s.lock.Held?
    ensures Dispatch(cfg, s, observed).runner == s.runner
  {
    hide Expire, Select;
    SelectingKeepsRunner();
  }

  lemma OtherKeepsRunner(cfg: Config, s: Session, step: Step)
    requires !OfRunner(step) && !OfHolder(step) && TakeOther(cfg, s, step).Some?
    ensures TakeOther(cfg, s, step).value.runner == s.runner
  {
    hide Latch, EnsureCleanup, AcceptUpdate;
    SelectingKeepsRunner();
    AcceptingKeepsRunner(cfg);
  }

  lemma TakeRemembers(cfg: Config, s: Session, step: Step)
    requires Inv(cfg, s) && Take(cfg, s, step).Some?
    ensures Remembers(Take(cfg, s, step).value.runner)
            <==> Remembers(s.runner) || (step.DoCancelRunner? && InHandler(s.runner))
  {
    hide Inv, TakeRunner, TakeHolder, TakeOther;
    if OfRunner(step) {
      RunnerRemembers(cfg, s, step);
    } else if OfHolder(step) {
      HolderKeepsRunner(cfg, s, step);
    } else {
      OtherKeepsRunner(cfg, s, step);
    }
  }

  lemma {:induction false} CancellationIsRemembered(
    cfg: Config, seed: Counters, now: int, steps: seq<Step>, s: Session)
    requires Reachable(cfg, seed, now, steps, s)
    ensures Remembers(s.runner) <==> CancelledInHandler(cfg, Created(cfg, seed, now), steps)
    decreases |steps|
  {
    hide Take, Inv;
    if steps != [] {
      var front := steps[..|steps| - 1];
      var before := Schedule(cfg, Created(cfg, seed, now), front).value;
      CancellationIsRemembered(cfg, seed, now, front, before);
      ReachableInv(cfg, seed, now, front, before);
      TakeRemembers(cfg, before, steps[|steps| - 1]);
    }
  }

  lemma ReturnFacts(cfg: Config, s: Session)
    requires Inv(cfg, s) && s.Gone()
    ensures s.RunnerFree() && s.selection.Some?
    ensures s.runner.Returned? ==> s.finalizer.Ended?
    ensures s.finalizer.Ended? ==>
              || s.life.status.Terminal()
              || s.selection == Some(ChooseTeardown)
              || !s.start.succeeded
              || s.output.broken
    ensures s.life.status.Terminal() ==> Reports(s.life, s.selection.value)
  {
    hide InvText, InvPoint, InvTape, InvBudget, InvScan, Reports, InvCleanup, InvEvents;
  }

  lemma TerminalWasSent(cfg: Config, s: Session)
    requires Inv(cfg, s) && Logged(cfg, s) && s.Gone() && s.life.status.Terminal()
    ensures EndSent(s.output.published)
  {
    HearDecides(cfg, s.output.published);
    hide InvStart, InvText, InvPoint, InvTape, InvBudget, InvScan, Reports, InvCleanup, HearAll;
  }

  /** No terminal is lost.  When `run` is over an outcome is selected, and `run` has waited for the
      finalizer to end unless it was cancelled while its handler of a raised write was selecting
      teardown; an ended finalizer has published the terminal of the outcome unless the session was torn
      down, its start never went out, or the protocol sink failed. */
  lemma ReturnedSessionsSettle(
    cfg: Config, seed: Counters, now: int, steps: seq<Step>, s: Session)
    requires Reachable(cfg, seed, now, steps, s) && s.Gone()
    ensures s.selection.Some?
    ensures s.runner.Abandoned? <==> CancelledInHandler(cfg, Created(cfg, seed, now), steps)
    ensures s.runner.Returned? ==> s.finalizer.Ended?
    ensures s.finalizer.Ended? ==>
              || s.life.status.Terminal()
              || s.selection == Some(ChooseTeardown)
              || !s.start.succeeded
              || s.output.broken
    ensures s.life.status.Terminal() ==>
              Reports(s.life, s.selection.value) && EndSent(s.output.published)
  {
    hide Inv, Logged, Reachable, Reports, CancelledInHandler, EndSent;
    ReachableInv(cfg, seed, now, steps, s);
    ReachableLogged(cfg, seed, now, steps, s);
    CancellationIsRemembered(cfg, seed, now, steps, s);
    ReturnFacts(cfg, s);
    if s.life.status.Terminal() { TerminalWasSent(cfg, s); }
  }

  // ----- An observer that raises -----

  /** `request_cancellation` cut short by an observer that raises: the update is reduced and told, the
      lock is let go, and nothing is selected. */
  function CancellationRaises(cfg: Config, s: Session, command: string): Session {
    AcceptUpdate(cfg, s, CancelRequested(command, cfg.sessionId))
  }

  /** Exactly when a request for cancellation meets an illegal transition. */
  lemma CancellationFaultsExactly(cfg: Config, s: Session, command: string)
    requires s.lock.Free? && s.selection.None? && !s.faulted
    ensures RequestCancellation(cfg, s, command).value.faulted
            <==> !(|| s.life.status.Starting?
                   || ((s.life.status.Running? || s.life.status.AwaitingApproval?)
                       && s.life.sessionId == Some(cfg.sessionId)))
  {
    hide Guard;
  }

  /** Behind a cancellation whose observer raised, every further request for cancellation does. */
  lemma RaisingObserverBreaksTheNextRequest(
    cfg: Config, seed: Counters, now: int, steps: seq<Step>, s: Session, first: string, second: string)
    requires Reachable(cfg, seed, now, steps, s)
    requires s.lock.Free? && s.selection.None? && !s.life.status.Starting?
    ensures var t := CancellationRaises(cfg, s, first);
            && !t.faulted && t.lock.Free? && t.selection.None?
            && RequestCancellation(cfg, t, second).value.faulted
  {
    hide Reachable, Inv, Guard, Reduce;
    ReachableInv(cfg, seed, now, steps, s);
    CancellationReduces(cfg, s, first);
    NeverFaults(cfg, seed, now, steps, s);
    CancellationFaultsExactly(cfg, CancellationRaises(cfg, s, first), second);
  }
}
