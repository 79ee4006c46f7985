/** Safety of the provider session over every schedule. */
module SessionSafety {
  import opened Prelude
  import opened Lifecycle
  import opened LoopLimits
  import opened Tape
  import opened SessionMachine
  import P = ProviderEvents
  import Utf8

  // ----- The invariant -----
  //
  // Each part names exactly the fields it is about, so that a step leaves the others alone.

  predicate Wellformed(cfg: Config, seed: Counters) {
    cfg.limits.Valid() && Consistent(cfg.limits, seed) && seed.exhausted.None?
  }

  predicate Active(pc: RunnerPc) {
    pc.LoopTop? || pc.Reading? || pc.Observing? || pc.SelectingDeadline? || pc.SelectingInvalid?
  }

  /** The runner is behind its last selection of an outcome. */
  predicate Leaves(pc: RunnerPc) {
    || pc.AfterLoop? || pc.Joining? || pc.Recovered? || pc.Settling? || pc.Returned? || pc.Abandoned?
  }

  predicate InStart(at: Point) { at.EmitStarted? || at.AcceptStarted? || at.AcceptDeferred? }

  predicate InObservation(at: Point) {
    || at.EnterObservation? || at.DispatchObservation? || at.EmitDelta? || at.AcceptDelta?
    || at.NotifyUsage? || at.RecheckDeadline?
  }

  predicate InEnding(at: Point) {
    at.EmitText? || at.AcceptText? || at.NotifyLimits? || at.EmitTerminal? || at.AcceptTerminal?
  }

  predicate Accepting(at: Point) {
    at.AcceptStarted? || at.AcceptDelta? || at.AcceptText? || at.AcceptTerminal?
  }

  /** Whose code holds the lock, and which runner and finalizer positions go with each point. */
  predicate InvLock(lock: DecisionLock, runner: RunnerPc, finalizer: FinalizerPc) {
    && (lock.Held? ==>
          && (InStart(lock.at) ==> lock.owner.Runner? && runner.StartingProvider?)
          && (InObservation(lock.at) ==> lock.owner.Runner? && runner.LoopTop?)
          && (InEnding(lock.at) ==> lock.owner.Finalizer?)
          && (lock.at.Choosing? ==>
                && !lock.owner.Finalizer?
                && (lock.owner.Runner? ==>
                      runner.LoopTop? || runner.AfterLoop? || runner.Settling? || runner.Recovered?)))
    && (finalizer.InTerminal? <==> lock.Held? && InEnding(lock.at))
  }

  /** What each position implies about the published start and the operation. */
  predicate InvStart(
    lock: DecisionLock, runner: RunnerPc, status: Status, start: Start, operation: bool)
  {
    && (start.succeeded ==> start.settled && !status.Starting? && start.deferred.None?)
    && (lock.Held? && InStart(lock.at) ==> !start.succeeded)
    && (!start.succeeded && !status.Starting? ==> lock.Held? && lock.at.AcceptDeferred?)
    && (lock.Held? && lock.at.AcceptDeferred? ==> start.deferred.Some? && status.Running?)
    && (start.deferred.Some? ==> status.Starting? || status.Running?)
    && (runner.NotRun? || runner.AnnouncingStart? ==> !start.succeeded)
    && (runner.StartingProvider? && !(lock.Held? && InStart(lock.at)) ==> start.succeeded)
    && (runner.NotRun? || runner.AnnouncingStart? || runner.StartingProvider? ==> !operation)
    && (Active(runner) ==> start.succeeded && operation)
    && (runner.NotRun? || runner.AnnouncingStart? || (lock.Held? && InStart(lock.at)) ==>
          !start.settled)
  }

  /** The finalizer exists once an outcome is selected and passes its stations in order. */
  predicate InvFinalizer(
    lock: DecisionLock, runner: RunnerPc, finalizer: FinalizerPc, selection: Option<Choice>,
    start: Start, emitted: bool, broken: bool)
  {
    && (selection.None? <==> finalizer.NoFinalizer?)
    && (Leaves(runner) ==> selection.Some? || (lock.Held? && lock.owner.Runner?))
    && (runner.Returned? ==> finalizer.Ended?)
    && (finalizer.Ended? ==>
          || emitted || selection.value.ChooseTeardown? || broken
          || (start.settled && !start.succeeded))
    && (finalizer.AwaitStart? ==> !selection.value.ChooseTeardown?)
    && (finalizer.Work? || finalizer.AwaitCleanup? ==>
          selection.value.ChooseTeardown? || start.succeeded)
    && (finalizer.AwaitTerminal? || finalizer.InTerminal? ==>
          !selection.value.ChooseTeardown? && start.succeeded && !emitted)
    && (lock.Held? && (lock.at.EmitText? || lock.at.AcceptText?) ==>
          selection.Some? && selection.value.ChooseCompleted?)
    && (emitted ==> finalizer.Ended?)
  }

  /** A cancellation is either deferred until the start is published or already reduced. */
  predicate CancelRecorded(deferred: Option<string>, life: State, command: string) {
    || deferred == Some(command)
    || ((life.status.Cancelling? || life.status.Cancelled?) && life.cancelCommandId == Some(command))
  }

  /** The terminal state that reports an outcome. */
  predicate Reports(life: State, choice: Choice) {
    if choice.ChooseCompleted? then life.status.Completed?
    else if choice.ChooseUserCancel? then
      life.status.Cancelled? && life.cancelCommandId == Some(choice.command)
    else
      && choice.TheFailure().Some?
      && life.status.Failed?
      && life.sessionFailure == choice.TheFailure()
  }

  /** The reducer state, and what a selected or candidate outcome says about it. */
  predicate InvLife(
    cfg: Config, life: State, deferred: Option<string>, selection: Option<Choice>,
    lock: DecisionLock, finalizer: FinalizerPc, emitted: bool)
  {
    && WellFormed(life)
    && life.startCommandId == Some(cfg.startCommand)
    && (life.sessionId.Some? ==> life.sessionId == Some(cfg.sessionId))
    && !life.status.Idle? && !life.status.AwaitingApproval?
    && (selection.None? && life.status.Cancelling? ==>
          && lock.Held? && lock.at.Choosing? && life.cancelCommandId.Some?
          && lock.at.candidate == ChooseUserCancel(life.cancelCommandId.value))
    && (selection.None? && deferred.Some? ==>
          && lock.Held? && lock.at.Choosing?
          && lock.at.candidate == ChooseUserCancel(deferred.value))
    && (lock.Held? && lock.at.Choosing? && lock.at.candidate.ChooseUserCancel? ==>
          selection.None? && CancelRecorded(deferred, life, lock.at.candidate.command))
    && (selection.Some? && selection.value.ChooseUserCancel? ==>
          CancelRecorded(deferred, life, selection.value.command))
    && (selection.Some? && selection.value.ChooseCompleted? ==>
          (life.status.Running? || life.status.Completed?) && deferred.None?)
    && (life.status.Terminal() <==> emitted)
    && (emitted ==> selection.Some? && Reports(life, selection.value))
    && (life.assistantCompleted ==>
          && selection.Some? && selection.value.ChooseCompleted?
          && (finalizer.Ended? || finalizer.InTerminal?))
    && (lock.Held? && InEnding(lock.at) ==>
          life.assistantCompleted
          == (&& selection.Some? && selection.value.ChooseCompleted?
              && !lock.at.EmitText? && !lock.at.AcceptText?))
  }

  /** The admitted text, its byte count and the completion candidate. */
  predicate InvText(
    text: string, accepted: seq<string>, bytes: nat, completed: Option<string>, usage: bool,
    reserved: int, status: Status)
  {
    && text == Join(accepted)
    && (accepted == [] <==> text == "")
    && bytes == Utf8.Length(text)
    && bytes <= reserved
    && (completed.Some? ==> completed.value == text)
    && (usage ==> completed.Some? && text != "")
    && (status.Starting? ==> text == "" && completed.None?)
  }

  predicate DeltaPending(
    text: string, bytes: nat, completed: Option<string>, usage: bool, reserved: int)
  {
    text != "" && completed.None? && !usage && bytes + Utf8.Length(text) <= reserved
  }

  /** The point reached inside one observation. */
  predicate InvPoint(
    cfg: Config, lock: DecisionLock, runner: RunnerPc, selection: Option<Choice>, text: string,
    bytes: nat, completed: Option<string>, usage: bool, reserved: int, status: Status)
  {
    && (runner.Observing? ==> runner.observed.Valid())
    && (selection.Some? && selection.value.ChooseCompleted? ==> completed.Some? && text != "")
    && (lock.Held? ==>
          match lock.at {
            case EnterObservation(observed) => observed.Valid()
            case DispatchObservation(observed) => observed.Valid() && selection.None?
            case EmitDelta(delta) =>
              selection.None? && DeltaPending(delta, bytes, completed, usage, reserved)
            case AcceptDelta(_, delta) =>
              selection.None? && DeltaPending(delta, bytes, completed, usage, reserved)
            case NotifyUsage(report) =>
              && selection.None? && report.sessionId == cfg.sessionId
              && completed.Some? && text != "" && !usage
            case RecheckDeadline => selection.None?
            case Choosing(candidate) =>
              && candidate.Budget().None?
              && (candidate.ChooseCompleted? ==>
                selection.None? && completed.Some? && text != "" && status.Running?)
            case _ => true
          })
  }

  /** The transcript accepted every call so far and holds exactly the session's own evidence. */
  predicate InvTape(
    cfg: Config, tape: Option<Tape>, life: State, usage: bool, observed: bool, counters: Counters,
    lock: DecisionLock, finalizer: FinalizerPc, succeeded: bool)
  {
    && tape.Some?
    && tape.value.state == life
    && tape.value.evidence.usage.Some? == usage
    && tape.value.evidence.limits
       == (if observed then Some(Observed(cfg.sessionId, cfg.limits, counters)) else None)
    && (observed ==> succeeded)
    && (life.status.Terminal() ==> observed)
    && (observed ==>
          finalizer.Ended? || (lock.Held? && (lock.at.EmitTerminal? || lock.at.AcceptTerminal?)))
    && (lock.Held? && (lock.at.EmitTerminal? || lock.at.AcceptTerminal?) ==> observed)
  }

  /** Budgets: the counters validate, and exhaustion is the one the outcome reports. */
  predicate InvBudget(cfg: Config, budget: Budget, operation: bool, selection: Option<Choice>) {
    && cfg.limits.Valid()
    && Consistent(cfg.limits, budget.counters)
    && (operation ==> budget.counters.modelTurnsStarted > 0)
    && budget.counters.exhausted
       == (match selection
           case None => if budget.latched then Some(ProviderWork) else None
           case Some(choice) => choice.Budget())
    && (budget.latched ==> selection.None? || selection.value.ChooseDeadline?)
  }

  /** Cleanup: at most one primary call, in the outcome's own mode, settled before any ending. */
  predicate InvCleanup(
    operation: Operation, selection: Option<Choice>, latched: bool, finalizer: FinalizerPc,
    emitted: bool)
  {
    && (!operation.started ==> operation.cleanup.NotStarted?)
    && (match operation.cleanup
        case NotStarted => operation.cleanupCalls == []
        case InProgress(mode) => operation.cleanupCalls == [Primary(mode)]
        case Settled(mode, failed) =>
          || operation.cleanupCalls == [Primary(mode)]
          || (failed && operation.cleanupCalls == [Primary(mode), Force]))
    && (!operation.cleanup.NotStarted? ==>
          match selection
          case None => latched && operation.cleanup.mode.Cancel?
          case Some(choice) => operation.cleanup.mode == choice.Mode())
    && (latched && operation.started ==> !operation.cleanup.NotStarted?)
    && (finalizer.AwaitCleanup? && operation.started ==> !operation.cleanup.NotStarted?)
    && ((finalizer.AwaitTerminal? || finalizer.InTerminal? || emitted) && operation.started ==>
          operation.cleanup.Settled?)
  }

  /** The event being accepted is the one the audience heard last. */
  predicate EventAt(cfg: Config, audience: Audience, life: State, at: Point, selection: Option<Choice>)
    requires Accepting(at)
  {
    var e := at.event;
    && e.sessionId == cfg.sessionId
    && e.sequence == audience.count
    && e.correlationId.Some?
    && (!e.body.SessionCancelled? ==> e.correlationId == Some(cfg.startCommand))
    && match at {
         case AcceptStarted(_) =>
           e.body.SessionStarted? && life.status.Starting? && audience.phase.Streaming?
         case AcceptDelta(_, text) =>
           e.body == AssistantDelta(text) && audience.phase.Streaming?
         case AcceptText(_) =>
           e.body == AssistantCompleted(life.assistantText) && audience.phase.TextDone?
         case AcceptTerminal(_) =>
           && selection.Some?
           && TerminalOf(cfg, selection.value) == Some((e.body, e.correlationId.value))
           && audience.phase.Over?
       }
  }

  /** The audience heard a legal prefix, one event ahead of the reducer while one is accepted. */
  predicate InvEvents(
    cfg: Config, output: Output, life: State, lock: DecisionLock, selection: Option<Choice>)
  {
    var audience := output.audience;
    && audience.valid
    && audience.count == |output.published|
    && audience.text
       == life.assistantText
          + (if lock.Held? && lock.at.AcceptDelta? then lock.at.text else "")
    && if lock.Held? && Accepting(lock.at) then
         && audience.count == life.lastSequence + 1
         && EventAt(cfg, audience, life, lock.at, selection)
       else
         && audience.count == life.lastSequence
         && audience.phase
            == if life.status.Starting? then Silent
               else if life.status.Terminal() then Phase.Over
               else if life.assistantCompleted then TextDone
               else Streaming
  }

  predicate OwnRejection(selection: Option<Choice>, lock: DecisionLock) {
    || selection == Some(ChooseInvalidResponse(OwnGrammar))
    || (lock.Held? && lock.at == Choosing(ChooseInvalidResponse(OwnGrammar)))
  }

  predicate Succeeds(selection: Option<Choice>, lock: DecisionLock) {
    || selection == Some(ChooseCompleted)
    || (lock.Held? && lock.at == Choosing(ChooseCompleted))
  }

  /** The outcome that answers how the provider ended its stream. */
  predicate Answers(ending: P.ProviderEvent, choice: Choice) {
    match ending
    case Completed => choice.ChooseCompleted?
    case Failed(code, message) => choice == ChooseProviderFailure(code, message)
    case ToolCallRequested => choice.ChooseToolUnavailable? || choice.ChooseToolLimit?
    case _ => choice == ChooseInvalidResponse(OwnGrammar)
  }

  /** The provider's own ending decides, unless the deadline does. */
  predicate EndsAs(ending: P.ProviderEvent, selection: Option<Choice>, lock: DecisionLock) {
    || (selection.Some? && (selection.value.ChooseDeadline? || Answers(ending, selection.value)))
    || (selection.None? && lock.Held? && lock.at.Choosing? && Answers(ending, lock.at.candidate))
  }

  /** Completion and provider failure come from the provider's own ending alone. */
  predicate EndingIsSeen(ending: Option<P.ProviderEvent>, selection: Option<Choice>, lock: DecisionLock) {
    && (selection.Some? && selection.value.Mode().WaitClosed? ==>
          ending.Some? && Answers(ending.value, selection.value))
    && (lock.Held? && lock.at.Choosing? && lock.at.candidate.Mode().WaitClosed? ==>
          ending.Some? && Answers(ending.value, lock.at.candidate))
  }

  function PendingDelta(lock: DecisionLock): string {
    if lock.Held? && (lock.at.EmitDelta? || lock.at.AcceptDelta?) then lock.at.text else ""
  }

  /** What the observations examined so far say, and which rejections the session itself made. */
  predicate InvScan(
    stream: Stream, text: string, lock: DecisionLock, selection: Option<Choice>, runner: RunnerPc,
    status: Status)
  {
    && (stream.deltaWriteFailed ==>
          runner.Raised? || runner.Recovering? || runner.TearingDown? || Leaves(runner))
    && (OwnRejection(selection, lock) ==> !stream.scan.valid)
    && (runner.SelectingInvalid? ==> !runner.reason.OwnGrammar?)
    && (status.Starting? ==> stream.scan == P.UNSEEN)
    && (&& !stream.deltaWriteFailed && selection.None? && !(lock.Held? && lock.at.Choosing?) ==>
          && stream.scan.valid && stream.scan.ending.None?
          && stream.scan.text == text + PendingDelta(lock)
          && stream.scan.completed == stream.completedText.Some?
          && stream.scan.usage == (stream.usageObserved || (lock.Held? && lock.at.NotifyUsage?)))
    && (Succeeds(selection, lock) ==> stream.scan.valid && stream.scan.text == text)
    && EndingIsSeen(stream.scan.ending, selection, lock)
    && (stream.scan.valid && stream.scan.ending.Some? ==>
          EndsAs(stream.scan.ending.value, selection, lock))
  }

  predicate Inv(cfg: Config, s: Session) {
    && !s.faulted
    && InvLock(s.lock, s.runner, s.finalizer)
    && InvStart(s.lock, s.runner, s.life.status, s.start, s.operation.started)
    && InvFinalizer(s.lock, s.runner, s.finalizer, s.selection, s.start,
                    s.ending.terminalEmitted, s.output.broken)
    && InvLife(cfg, s.life, s.start.deferred, s.selection, s.lock, s.finalizer,
               s.ending.terminalEmitted)
    && InvText(s.life.assistantText, s.stream.acceptedText, s.stream.acceptedBytes,
               s.stream.completedText, s.stream.usageObserved,
               s.budget.counters.assistantOutputBytes, s.life.status)
    && InvPoint(cfg, s.lock, s.runner, s.selection, s.life.assistantText, s.stream.acceptedBytes,
                s.stream.completedText, s.stream.usageObserved,
                s.budget.counters.assistantOutputBytes, s.life.status)
    && InvTape(cfg, s.recording.tape, s.life, s.stream.usageObserved, s.ending.limitsObserved,
               s.budget.counters, s.lock, s.finalizer, s.start.succeeded)
    && InvBudget(cfg, s.budget, s.operation.started, s.selection)
    && InvCleanup(s.operation, s.selection, s.budget.latched, s.finalizer,
                  s.ending.terminalEmitted)
    && InvEvents(cfg, s.output, s.life, s.lock, s.selection)
    && InvScan(s.stream, s.life.assistantText, s.lock, s.selection, s.runner, s.life.status)
  }

  lemma CreatedInv(cfg: Config, seed: Counters, now: int)
    requires Wellformed(cfg, seed)
    ensures Inv(cfg, Created(cfg, seed, now))
  {}

  // ----- Latching and selecting -----

  lemma KeepLatch(cfg: Config, s: Session)
    requires Inv(cfg, s) && s.selection.None?
    ensures Inv(cfg, Latch(s))
    ensures Latch(s).budget.latched && Latch(s).budget.counters.exhausted == Some(ProviderWork)
    ensures Consistent(cfg.limits, Latch(s).budget.counters)
  {
    hide InvStart, InvLife, InvText, InvPoint, InvEvents, InvScan;
  }

  /** Where the current holder, if any, may settle the outcome as `choice`. */
  predicate MaySettle(lock: DecisionLock, choice: Choice) {
    if lock.Free? then
      !choice.Mode().WaitClosed? && !choice.ChooseUserCancel?
      && choice != ChooseInvalidResponse(OwnGrammar)
    else if lock.at.Choosing? then lock.at.candidate == choice || choice.ChooseDeadline?
    else
      && (lock.at.EnterObservation? || lock.at.DispatchObservation? || lock.at.RecheckDeadline?)
      && (choice.Budget().Some? || choice.ChooseToolUnavailable?)
  }

  /** A charge that only adds, and whose exhaustion is the one `choice` reports. */
  predicate ChargesFor(cfg: Config, s: Session, charged: Counters, choice: Choice) {
    && Consistent(cfg.limits, charged) && charged.exhausted == choice.Budget()
    && s.budget.counters.modelTurnsStarted <= charged.modelTurnsStarted
    && s.budget.counters.assistantOutputBytes <= charged.assistantOutputBytes
    && (s.budget.latched ==> choice.ChooseDeadline?)
  }

  /** Selecting concerns positions, the reducer state, the budget and the cleanup ... */
  lemma SelectKeepsPlaces(cfg: Config, s: Session, charged: Counters, choice: Choice)
    requires Inv(cfg, s) && s.selection.None? && MaySettle(s.lock, choice)
    requires ChargesFor(cfg, s, charged, choice)
    ensures var t := Release(Select(s.Charge(charged), choice));
            && !t.faulted
            && InvLock(t.lock, t.runner, t.finalizer)
            && InvStart(t.lock, t.runner, t.life.status, t.start, t.operation.started)
            && InvFinalizer(t.lock, t.runner, t.finalizer, t.selection, t.start,
                            t.ending.terminalEmitted, t.output.broken)
            && InvLife(cfg, t.life, t.start.deferred, t.selection, t.lock, t.finalizer,
                       t.ending.terminalEmitted)
            && InvBudget(cfg, t.budget, t.operation.started, t.selection)
            && InvCleanup(t.operation, t.selection, t.budget.latched, t.finalizer,
                          t.ending.terminalEmitted)
  {
    hide Reports, WellFormed, InvText, InvTape, InvEvents, InvScan;
  }

  /** ... and, apart from them, what was admitted, recorded, published and examined. */
  lemma SelectKeepsLogs(cfg: Config, s: Session, charged: Counters, choice: Choice)
    requires Inv(cfg, s) && s.selection.None? && MaySettle(s.lock, choice)
    requires ChargesFor(cfg, s, charged, choice)
    ensures var t := Release(Select(s.Charge(charged), choice));
            && InvText(t.life.assistantText, t.stream.acceptedText, t.stream.acceptedBytes,
                       t.stream.completedText, t.stream.usageObserved,
                       t.budget.counters.assistantOutputBytes, t.life.status)
            && InvPoint(cfg, t.lock, t.runner, t.selection, t.life.assistantText,
                        t.stream.acceptedBytes, t.stream.completedText, t.stream.usageObserved,
                        t.budget.counters.assistantOutputBytes, t.life.status)
            && InvTape(cfg, t.recording.tape, t.life, t.stream.usageObserved,
                       t.ending.limitsObserved, t.budget.counters, t.lock, t.finalizer,
                       t.start.succeeded)
            && InvEvents(cfg, t.output, t.life, t.lock, t.selection)
            && InvScan(t.stream, t.life.assistantText, t.lock, t.selection, t.runner, t.life.status)
  {
    hide WellFormed, InvCleanup;
  }

  lemma KeepSelect(cfg: Config, s: Session, charged: Counters, choice: Choice)
    requires Inv(cfg, s) && s.selection.None? && MaySettle(s.lock, choice)
    requires ChargesFor(cfg, s, charged, choice)
    ensures Inv(cfg, Release(Select(s.Charge(charged), choice)))
  {
    hide InvLock, InvStart, InvFinalizer, InvLife, InvText, InvPoint, InvTape, InvBudget, InvCleanup;
    hide InvEvents, InvScan;
    SelectKeepsPlaces(cfg, s, charged, choice);
    SelectKeepsLogs(cfg, s, charged, choice);
  }

  lemma KeepExpire(cfg: Config, s: Session)
    requires Inv(cfg, s) && s.selection.None? && MaySettle(s.lock, ChooseDeadline)
    ensures Inv(cfg, Release(Expire(s)))
  {
    hide Inv;
    KeepLatch(cfg, s);
    KeepSelect(cfg, Latch(s), Latch(s).budget.counters, ChooseDeadline);
    assert Latch(s).Charge(Latch(s).budget.counters) == Latch(s);
  }

  // ----- Each step keeps it -----

  lemma KeepTick(cfg: Config, s: Session, elapsed: nat)
    requires Inv(cfg, s)
    ensures Inv(cfg, Tick(s, elapsed).value)
  {
    hide InvLock, InvStart, InvFinalizer, InvLife, InvText, InvPoint;
    hide InvTape, InvBudget, InvCleanup, InvEvents, InvScan;
  }

  lemma KeepWatcher(cfg: Config, s: Session)
    requires Inv(cfg, s)
    ensures WatcherAcquire(cfg, s).Some? ==> Inv(cfg, WatcherAcquire(cfg, s).value)
    ensures WatcherLatch(s).Some? ==> Inv(cfg, WatcherLatch(s).value)
  {
    hide InvLock, InvStart, InvFinalizer, InvLife, InvText, InvPoint;
    hide InvTape, InvBudget, InvCleanup, InvEvents, InvScan;
    if s.watcher.HoldsGuard? && s.selection.None? { KeepLatch(cfg, s.(watcher := Stopped)); }
  }

  lemma KeepCleanup(cfg: Config, s: Session, failed: bool)
    requires Inv(cfg, s) && s.operation.cleanup.InProgress?
    ensures Inv(cfg, CleanupFinishes(s, failed).value)
    ensures Inv(cfg, CleanupForced(s).value)
  {
    hide InvLock, InvStart, InvFinalizer, InvLife, InvText, InvPoint, InvTape, InvEvents, InvScan;
  }

  lemma KeepRun(cfg: Config, s: Session)
    requires Inv(cfg, s) && Run(s).Some?
    ensures Inv(cfg, Run(s).value)
  {
    hide InvLife, InvText, InvTape, InvBudget, InvCleanup, InvEvents;
  }

  lemma KeepBeginStarted(cfg: Config, s: Session)
    requires Inv(cfg, s) && BeginStarted(s).Some?
    ensures Inv(cfg, BeginStarted(s).value)
  {
    hide Reports;
    hide InvText, InvBudget, InvCleanup;
  }

  /** A raised write lets the lock go and leaves the transaction. */
  lemma KeepRaised(cfg: Config, s: Session, delta: bool)
    requires Inv(cfg, s) && s.lock.Held?
    requires if delta then s.lock.at.EmitDelta? else s.lock.at.EmitStarted?
    ensures Inv(cfg, Broken(Release(s)).(runner := Raised,
                                         stream := s.stream.(deltaWriteFailed :=
                                                     s.stream.deltaWriteFailed || delta)))
  {
    hide Reports;
    hide InvText, InvBudget, InvCleanup;
  }

  lemma KeepStartedOut(cfg: Config, s: Session)
    requires Inv(cfg, s) && s.lock.Held? && s.lock.at.EmitStarted?
    ensures Inv(cfg, PublishStarted(cfg, s, true).value)
  {
    hide Reports;
    hide InvText, InvBudget, InvCleanup;
  }

  lemma KeepPublishStarted(cfg: Config, s: Session, written: bool)
    requires Inv(cfg, s) && PublishStarted(cfg, s, written).Some?
    ensures Inv(cfg, PublishStarted(cfg, s, written).value)
  {
    hide Inv;
    if written { KeepStartedOut(cfg, s); } else { KeepRaised(cfg, s, false); }
  }

  lemma KeepAdmitStarted(cfg: Config, s: Session)
    requires Inv(cfg, s) && AdmitStarted(cfg, s).Some?
    ensures Inv(cfg, AdmitStarted(cfg, s).value)
  {
    if s.start.deferred.Some? { KeepStartedThenCancel(cfg, s); } else { KeepStarted(cfg, s); }
  }

  lemma KeepStarted(cfg: Config, s: Session)
    requires Inv(cfg, s) && s.lock.Held? && s.lock.at.AcceptStarted? && s.start.deferred.None?
    ensures Inv(cfg, SettleStart(AcceptUpdate(cfg, s, Wire(s.lock.at.event))))
  {
    hide Reports;
    hide InvBudget, InvCleanup;
  }

  lemma KeepStartedThenCancel(cfg: Config, s: Session)
    requires Inv(cfg, s) && s.lock.Held? && s.lock.at.AcceptStarted? && s.start.deferred.Some?
    ensures Inv(cfg, Goto(AcceptUpdate(cfg, s, Wire(s.lock.at.event)), AcceptDeferred))
  {
    hide Reports;
    hide InvBudget, InvCleanup;
  }

  lemma KeepAdmitDeferred(cfg: Config, s: Session)
    requires Inv(cfg, s) && AdmitDeferred(cfg, s).Some?
    ensures Inv(cfg, AdmitDeferred(cfg, s).value)
  {
    hide Reports;
    hide InvBudget, InvCleanup;
  }

  /** The runner, holding no lock, may step aside once an outcome exists. */
  lemma KeepStandDown(cfg: Config, s: Session)
    requires Inv(cfg, s) && s.lock.Free? && s.selection.Some? && Leaving(s)
    ensures Inv(cfg, s.(runner := AfterLoop))
  {
    hide InvLife, InvText, InvTape, InvBudget, InvCleanup, InvEvents;
  }

  predicate Leaving(s: Session) {
    s.runner.StartingProvider? || s.runner.SelectingDeadline? || s.runner.LoopTop?
  }

  /** The deadline is found expired by the runner, which then leaves for good. */
  lemma KeepExpireAside(cfg: Config, s: Session)
    requires Inv(cfg, s) && s.selection.None? && s.lock.Free? && Leaving(s)
    ensures Inv(cfg, Expire(s.(runner := AfterLoop)))
  {
    hide Inv;
    KeepExpire(cfg, s);
    KeepStandDown(cfg, Release(Expire(s)));
    assert Expire(s.(runner := AfterLoop)) == Release(Expire(s)).(runner := AfterLoop);
  }

  lemma KeepSelectAside(cfg: Config, s: Session, charged: Counters, choice: Choice)
    requires Inv(cfg, s) && s.selection.None? && s.lock.Free? && Leaving(s)
    requires choice.ChooseTurnLimit? || choice == ChooseInvalidResponse(StartFailed)
    requires ChargesFor(cfg, s, charged, choice)
    ensures Inv(cfg, Select(s.(runner := AfterLoop).Charge(charged), choice))
  {
    hide Inv;
    KeepSelect(cfg, s, charged, choice);
    KeepStandDown(cfg, Release(Select(s.Charge(charged), choice)));
    assert Select(s.(runner := AfterLoop).Charge(charged), choice)
        == Release(Select(s.Charge(charged), choice)).(runner := AfterLoop);
  }

  /** Budget facts that hold while nothing is selected. */
  lemma Unspent(cfg: Config, s: Session)
    requires Inv(cfg, s) && s.selection.None?
    ensures cfg.limits.Valid() && Consistent(cfg.limits, s.budget.counters)
    ensures !s.budget.latched ==> s.budget.counters.exhausted.None?
    ensures s.budget.latched ==> s.budget.counters.exhausted == Some(ProviderWork)
  {}

  lemma KeepStartProvider(cfg: Config, s: Session, result: StartResult, before: nat, during: nat)
    requires Inv(cfg, s) && StartProvider(cfg, s, result, before, during).Some?
    ensures Inv(cfg, StartProvider(cfg, s, result, before, during).value)
  {
    hide Inv;
    KeepTick(cfg, s, before);
    var t := s.(now := s.now + before);
    assert s.(now := s.now + before, runner := AfterLoop) == t.(runner := AfterLoop);
    if t.selection.Some? {
      KeepStandDown(cfg, t);
    } else {
      Unspent(cfg, t);
      var (charged, admitted) := AdmitModelTurn(cfg.limits, t.budget.counters);
      if t.Expired(cfg) {
        KeepExpireAside(cfg, t);
      } else if !admitted {
        KeepSelectAside(cfg, t, charged, ChooseTurnLimit);
      } else {
        KeepOpened(cfg, t, charged, result, during);
      }
    }
  }

  /** An admitted turn whose provider call has returned. */
  lemma KeepAdmitted(cfg: Config, t: Session, charged: Counters, started: bool, during: nat)
    requires Inv(cfg, t) && t.runner.StartingProvider? && t.lock.Free? && t.selection.None?
    requires !t.budget.latched && AdmitModelTurn(cfg.limits, t.budget.counters) == (charged, true)
    ensures Inv(cfg, Admitted(t, charged, started, during))
    ensures Consistent(cfg.limits, charged) && charged.exhausted.None?
  {
    hide InvLife, InvEvents;
  }

  function Admitted(t: Session, charged: Counters, started: bool, during: nat): Session {
    t.(budget := t.budget.(counters := charged), operation := t.operation.(started := started),
       now := t.now + during, runner := if started then LoopTop else StartingProvider)
  }

  lemma KeepOpened(cfg: Config, t: Session, charged: Counters, result: StartResult, during: nat)
    requires Inv(cfg, t) && t.runner.StartingProvider? && t.lock.Free? && t.selection.None?
    requires !t.budget.latched && AdmitModelTurn(cfg.limits, t.budget.counters) == (charged, true)
    ensures Inv(cfg, OpenProvider(cfg, t.(runner := AfterLoop).Charge(charged), result, during))
  {
    hide Inv;
    KeepAdmitted(cfg, t, charged, !result.StartRaised?, during);
    var begun := Admitted(t, charged, !result.StartRaised?, during);
    if begun.Expired(cfg) {
      KeepExpireAside(cfg, begun);
    } else if !result.Opened? {
      KeepSelectAside(cfg, begun, charged, ChooseInvalidResponse(StartFailed));
    }
  }

  lemma KeepBeginRead(cfg: Config, s: Session)
    requires Inv(cfg, s) && BeginRead(s).Some?
    ensures Inv(cfg, BeginRead(s).value)
  {
    if s.selection.Some? { KeepLoopExit(cfg, s); } else { KeepReading(cfg, s); }
  }

  lemma KeepLoopExit(cfg: Config, s: Session)
    requires Inv(cfg, s) && s.runner.LoopTop? && s.RunnerFree() && s.selection.Some?
    ensures Inv(cfg, s.(runner := AfterLoop))
  {
    hide InvLife, InvText, InvTape, InvBudget, InvCleanup, InvEvents;
  }

  lemma KeepReading(cfg: Config, s: Session)
    requires Inv(cfg, s) && s.runner.LoopTop? && s.RunnerFree() && s.selection.None?
    ensures Inv(cfg, s.(runner := Reading, operation := s.operation.(pendingRead := true)))
  {
    hide InvLife, InvText, InvTape, InvBudget, InvEvents;
  }

  lemma KeepReadEnds(cfg: Config, s: Session, next: RunnerPc, pending: bool, failed: bool)
    requires Inv(cfg, s) && s.runner.Reading?
    requires next.SelectingDeadline? || next == SelectingInvalid(StreamEnded)
             || (next.Observing? && next.observed.Valid())
    ensures Inv(cfg, s.(runner := next,
                        operation := s.operation.(pendingRead := pending, pendingFailed := failed)))
  {
    hide InvLife, InvText, InvTape, InvBudget, InvEvents;
  }

  lemma KeepFinishRead(cfg: Config, s: Session, result: ReadResult, reapFailed: bool)
    requires Inv(cfg, s) && FinishRead(cfg, s, result, reapFailed).Some?
    ensures Inv(cfg, FinishRead(cfg, s, result, reapFailed).value)
  {
    hide Inv;
    var next := FinishRead(cfg, s, result, reapFailed).value;
    KeepReadEnds(cfg, s, next.runner, next.operation.pendingRead, next.operation.pendingFailed);
  }

  lemma KeepSelectExpired(cfg: Config, s: Session)
    requires Inv(cfg, s) && SelectExpired(s).Some?
    ensures Inv(cfg, SelectExpired(s).value)
  {
    hide Inv;
    if s.selection.Some? { KeepStandDown(cfg, s); } else { KeepExpireAside(cfg, s); }
  }

  /** The runner takes the free lock to choose an outcome of its own. */
  lemma KeepBeginInvalid(cfg: Config, s: Session)
    requires Inv(cfg, s) && BeginInvalid(s).Some?
    ensures Inv(cfg, BeginInvalid(s).value)
  {
    hide Reports;
    KeepTapeFree(cfg, s, Runner, ChooseInvalidResponse(s.runner.reason));
    hide InvText, InvTape, InvBudget, InvCleanup;
  }

  lemma KeepBeginObservation(cfg: Config, s: Session)
    requires Inv(cfg, s) && BeginObservation(s).Some?
    ensures Inv(cfg, BeginObservation(s).value)
  {
    hide Reports;
    hide InvText, InvBudget, InvCleanup;
  }

  lemma KeepLeaveLoop(cfg: Config, s: Session)
    requires Inv(cfg, s) && LeaveLoop(s).Some?
    ensures Inv(cfg, LeaveLoop(s).value)
  {
    hide InvLife, InvText, InvTape, InvBudget, InvCleanup, InvEvents;
  }

  lemma KeepJoinFinalizer(cfg: Config, s: Session)
    requires Inv(cfg, s) && JoinFinalizer(s).Some?
    ensures Inv(cfg, JoinFinalizer(s).value)
  {
    hide InvLife, InvText, InvTape, InvBudget, InvCleanup, InvEvents;
  }

  /** Where a cancellation from outside interrupts the body of `run`. */
  predicate Interruptible(pc: RunnerPc) {
    || pc.StartingProvider? || pc.LoopTop? || pc.Reading? || pc.SelectingDeadline? || pc.AfterLoop?
    || pc.Joining?
  }

  lemma KeepInterrupted(cfg: Config, s: Session)
    requires Inv(cfg, s) && Interruptible(s.runner) && s.RunnerFree()
    ensures Inv(cfg, s.(start := s.start.(settled := true), runner := TearingDown))
  {
    hide Reports;
    hide InvLife, InvText, InvTape, InvBudget, InvCleanup, InvEvents;
  }

  lemma KeepRemembered(cfg: Config, s: Session, next: RunnerPc)
    requires Inv(cfg, s)
    requires (s.runner.Recovering? && next.Recovering?) || (s.runner.Recovered? && next.Recovered?)
    ensures Inv(cfg, s.(runner := next))
  {
    hide Reports;
    hide InvLife, InvText, InvTape, InvBudget, InvCleanup, InvEvents;
  }

  lemma KeepCancelRunner(cfg: Config, s: Session)
    requires Inv(cfg, s) && CancelRunner(s).Some?
    ensures Inv(cfg, CancelRunner(s).value)
  {
    hide Inv;
    match s.runner
    case Raised =>
    case TearingDown =>
    case Settling =>
    case Recovering(_) => KeepRemembered(cfg, s, Recovering(true));
    case Recovered(_) => KeepRemembered(cfg, s, Recovered(true));
    case _ => KeepInterrupted(cfg, s);
  }

  lemma KeepHandleRaised(cfg: Config, s: Session)
    requires Inv(cfg, s) && HandleRaised(s).Some?
    ensures Inv(cfg, HandleRaised(s).value)
  {
    hide Reports;
    hide InvLife, InvText, InvTape, InvBudget, InvCleanup, InvEvents;
  }

  lemma KeepRecovered(cfg: Config, s: Session, next: RunnerPc)
    requires Inv(cfg, s) && s.runner.Recovered? && s.RunnerFree()
    requires next.Abandoned? || next.Settling?
    ensures Inv(cfg, s.(runner := next))
  {
    hide Reports;
    hide InvLife, InvText, InvTape, InvBudget, InvCleanup, InvEvents;
  }

  lemma KeepResumeRecovered(cfg: Config, s: Session)
    requires Inv(cfg, s) && ResumeRecovered(s).Some?
    ensures Inv(cfg, ResumeRecovered(s).value)
  {
    hide Inv;
    KeepRecovered(cfg, s, if s.runner.cancelled then Abandoned else Settling);
  }

  /** A handler of `run` takes the free lock to select teardown. */
  lemma KeepRunnerTeardown(cfg: Config, s: Session, next: RunnerPc)
    requires Inv(cfg, s) && s.lock.Free?
    requires (s.runner.TearingDown? && next.Settling?) || (s.runner.Recovering? && next.Recovered?)
    ensures Inv(cfg, s.(runner := next, lock := Held(Runner, Choosing(ChooseTeardown))))
  {
    hide Reports, InvText, InvTape, InvBudget, InvCleanup;
    KeepTapeFree(cfg, s, Runner, ChooseTeardown);
  }

  /** Taking the free lock to choose an outcome does not concern the transcript. */
  lemma KeepTapeFree(cfg: Config, s: Session, owner: Owner, candidate: Choice)
    requires Inv(cfg, s) && s.lock.Free?
    ensures InvTape(cfg, s.recording.tape, s.life, s.stream.usageObserved,
                    s.ending.limitsObserved, s.budget.counters, Held(owner, Choosing(candidate)),
                    s.finalizer, s.start.succeeded)
  {
    hide InvStart, InvFinalizer, InvLife, InvText, InvPoint;
    hide InvBudget, InvCleanup, InvEvents, InvScan;
  }

  lemma KeepRequestTeardown(cfg: Config, s: Session)
    requires Inv(cfg, s) && RequestTeardown(s).Some?
    ensures Inv(cfg, RequestTeardown(s).value)
  {
    if s.selection.None? {
      KeepTapeFree(cfg, s, Caller, ChooseTeardown);
      hide Reports, InvText, InvTape, InvBudget, InvCleanup;
      assert Inv(cfg, RequestTeardown(s).value);
    }
  }

  lemma KeepEnterObservation(cfg: Config, s: Session)
    requires Inv(cfg, s) && EnterObservationStep(cfg, s).Some?
    ensures Inv(cfg, EnterObservationStep(cfg, s).value)
  {
    hide Inv;
    if s.selection.Some? {
      KeepRelease(cfg, s);
    } else if s.Expired(cfg) {
      KeepExpire(cfg, s);
    } else {
      KeepEntered(cfg, s);
    }
  }

  /** A holder that finds the outcome already selected lets go. */
  lemma KeepRelease(cfg: Config, s: Session)
    requires Inv(cfg, s) && s.lock.Held? && s.selection.Some?
    requires s.lock.at.Choosing? || s.lock.at.EnterObservation?
    ensures Inv(cfg, Release(s))
  {
    hide Reports;
    hide InvText, InvBudget, InvCleanup;
  }

  lemma KeepEntered(cfg: Config, s: Session)
    requires Inv(cfg, s) && s.lock.Held? && s.lock.at.EnterObservation? && s.selection.None?
    ensures Inv(cfg, Goto(s, DispatchObservation(s.lock.at.observed)))
  {
    hide Reports;
    hide InvText, InvBudget, InvCleanup;
  }

  /** What the invariant gives at the point of dispatch. */
  lemma AtDispatch(cfg: Config, s: Session)
    requires Inv(cfg, s) && s.lock.Held? && s.lock.at.DispatchObservation?
    ensures s.selection.None? && !s.life.status.Starting? && s.lock.at.observed.Valid()
    ensures s.budget.counters.modelTurnsStarted > 0
    ensures s.stream.acceptedBytes <= s.budget.counters.assistantOutputBytes
    ensures s.stream.completedText.Some? || s.stream.usageObserved ==> s.stream.scan.completed
    ensures s.stream.scan.ending.None?
  {}

  /** Once some other outcome is selected, what was examined no longer matters. */
  lemma KeepExamined(cfg: Config, s: Session, observed: P.ProviderEvent)
    requires Inv(cfg, s) && s.lock.Free? && s.selection.Some? && !s.life.status.Starting?
    requires !s.selection.value.ChooseCompleted?
    requires s.selection != Some(ChooseInvalidResponse(OwnGrammar))
    requires s.stream.scan.ending.None?
    requires observed.EndsStream() ==> EndsAs(observed, s.selection, s.lock)
    ensures Inv(cfg, s.Examine(observed))
  {
    hide InvLock, InvStart, InvFinalizer, InvLife, InvText, InvPoint;
    hide InvTape, InvBudget, InvCleanup, InvEvents;
  }

  lemma KeepExpireExamined(cfg: Config, s: Session)
    requires Inv(cfg, s) && s.lock.Held? && s.lock.at.DispatchObservation?
    ensures Inv(cfg, Release(Expire(s.Examine(s.lock.at.observed))))
  {
    hide Inv;
    AtDispatch(cfg, s);
    KeepExpire(cfg, s);
    KeepExamined(cfg, Release(Expire(s)), s.lock.at.observed);
    assert Release(Expire(s.Examine(s.lock.at.observed)))
        == Release(Expire(s)).Examine(s.lock.at.observed);
  }

  lemma KeepSelectExamined(cfg: Config, s: Session, charged: Counters, choice: Choice)
    requires Inv(cfg, s) && s.lock.Held? && s.lock.at.DispatchObservation?
    requires choice.Budget().Some? || choice.ChooseToolUnavailable?
    requires ChargesFor(cfg, s, charged, choice)
    requires s.lock.at.observed.EndsStream() ==> Answers(s.lock.at.observed, choice)
    ensures Inv(cfg, Release(Select(s.Examine(s.lock.at.observed).Charge(charged), choice)))
  {
    hide Inv;
    AtDispatch(cfg, s);
    KeepSelect(cfg, s, charged, choice);
    KeepExamined(cfg, Release(Select(s.Charge(charged), choice)), s.lock.at.observed);
    assert Release(Select(s.Examine(s.lock.at.observed).Charge(charged), choice))
        == Release(Select(s.Charge(charged), choice)).Examine(s.lock.at.observed);
  }

  lemma KeepReject(cfg: Config, s: Session)
    requires Inv(cfg, s) && s.lock.Held? && s.lock.at.DispatchObservation?
    requires !P.Observe(s.stream.scan, s.lock.at.observed).valid
    ensures Inv(cfg, Reject(s.Examine(s.lock.at.observed)))
  {
    hide Reports;
    hide InvText, InvBudget, InvCleanup;
  }

  /** The protocol-fit ceiling never fires: the configured budget is at most as large, and it is
      charged first. */
  lemma CeilingUnreachable(cfg: Config, s: Session, text: string)
    requires Inv(cfg, s) && s.selection.None?
    requires ReserveAssistantOutput(cfg.limits, s.budget.counters, Utf8.Length(text)).1
    ensures s.stream.acceptedBytes + Utf8.Length(text) <= MAX_PROVIDER_TURN_OUTPUT_BYTES
  {
    hide InvLock, InvStart, InvFinalizer, InvLife, InvPoint, InvTape, InvCleanup, InvEvents;
  }

  lemma KeepReserved(cfg: Config, s: Session, charged: Counters, text: string)
    requires Inv(cfg, s) && s.lock.Held? && s.lock.at == DispatchObservation(P.TextDelta(text))
    requires s.stream.completedText.None? && !s.stream.usageObserved && !s.budget.latched
    requires ReserveAssistantOutput(cfg.limits, s.budget.counters, Utf8.Length(text))
             == (charged, true)
    ensures Inv(cfg, Goto(s.Examine(P.TextDelta(text)).Charge(charged), EmitDelta(text)))
  {
    hide Reports;
    hide InvCleanup;
  }

  lemma KeepDispatchDelta(cfg: Config, s: Session)
    requires Inv(cfg, s) && DispatchStep(cfg, s).Some? && s.lock.at.observed.TextDelta?
    ensures Inv(cfg, DispatchStep(cfg, s).value)
  {
    hide Inv;
    AtDispatch(cfg, s);
    Unspent(cfg, s);
    var text := s.lock.at.observed.text;
    var (charged, reserved) :=
      ReserveAssistantOutput(cfg.limits, s.budget.counters, Utf8.Length(text));
    if s.stream.completedText.Some? || s.stream.usageObserved {
      KeepReject(cfg, s);
    } else if s.Expired(cfg) {
      KeepExpireExamined(cfg, s);
    } else if !reserved {
      KeepSelectExamined(cfg, s, charged, ChooseOutputLimit);
    } else {
      CeilingUnreachable(cfg, s, text);
      KeepReserved(cfg, s, charged, text);
    }
  }

  lemma KeepDispatchTool(cfg: Config, s: Session)
    requires Inv(cfg, s) && DispatchStep(cfg, s).Some? && s.lock.at.observed.ToolCallRequested?
    ensures Inv(cfg, DispatchStep(cfg, s).value)
  {
    hide Inv;
    AtDispatch(cfg, s);
    Unspent(cfg, s);
    var (charged, within) := ObserveToolCall(cfg.limits, s.budget.counters);
    if s.Expired(cfg) {
      KeepExpireExamined(cfg, s);
    } else {
      KeepSelectExamined(cfg, s, charged, if within then ChooseToolUnavailable else ChooseToolLimit);
    }
  }

  lemma KeepTextKept(cfg: Config, s: Session, text: string)
    requires Inv(cfg, s) && s.lock.Held? && s.lock.at == DispatchObservation(P.TextCompleted(text))
    requires s.stream.completedText.None? && !s.stream.usageObserved
    requires text == Join(s.stream.acceptedText)
    ensures var t := s.Examine(P.TextCompleted(text));
            Inv(cfg, Release(t.(stream := t.stream.(completedText := Some(text)))))
  {
    hide Reports, InvBudget, InvCleanup;
  }

  lemma KeepDispatchText(cfg: Config, s: Session)
    requires Inv(cfg, s) && DispatchStep(cfg, s).Some? && s.lock.at.observed.TextCompleted?
    ensures Inv(cfg, DispatchStep(cfg, s).value)
  {
    hide Inv;
    AtDispatch(cfg, s);
    if || s.stream.completedText.Some? || s.stream.usageObserved
       || s.lock.at.observed.text != Join(s.stream.acceptedText) {
      TextRejected(cfg, s);
      KeepReject(cfg, s);
    } else {
      KeepTextKept(cfg, s, s.lock.at.observed.text);
    }
  }

  /** What the session refuses is what breaks the grammar of the turn. */
  lemma TextRejected(cfg: Config, s: Session)
    requires Inv(cfg, s) && s.lock.Held? && s.lock.at.DispatchObservation?
    requires s.lock.at.observed.TextCompleted?
    requires || s.stream.completedText.Some? || s.stream.usageObserved
             || s.lock.at.observed.text != Join(s.stream.acceptedText)
    ensures !P.Observe(s.stream.scan, s.lock.at.observed).valid
  {
    hide InvStart, InvFinalizer, InvLife, InvTape, InvBudget, InvCleanup, InvEvents;
  }

  lemma CompletionRejected(cfg: Config, s: Session)
    requires Inv(cfg, s) && s.lock.Held? && s.lock.at.DispatchObservation?
    requires s.lock.at.observed.UsageReported? || s.lock.at.observed.Completed?
    requires || s.stream.completedText.None? || s.stream.acceptedText == []
             || (s.lock.at.observed.UsageReported? && s.stream.usageObserved)
    ensures !P.Observe(s.stream.scan, s.lock.at.observed).valid
  {
    hide InvStart, InvFinalizer, InvLife, InvTape, InvBudget, InvCleanup, InvEvents;
  }

  lemma KeepUsageKept(cfg: Config, s: Session, input: nat, output: nat)
    requires Inv(cfg, s) && s.lock.Held?
    requires s.lock.at == DispatchObservation(P.UsageReported(input, output))
    requires s.stream.completedText.Some? && s.stream.acceptedText != [] && !s.stream.usageObserved
    ensures Inv(cfg, Goto(s.Examine(P.UsageReported(input, output)),
                          NotifyUsage(Usage(cfg.sessionId, input, output))))
  {
    hide Reports, InvBudget, InvCleanup;
  }

  lemma KeepDispatchUsage(cfg: Config, s: Session)
    requires Inv(cfg, s) && DispatchStep(cfg, s).Some? && s.lock.at.observed.UsageReported?
    ensures Inv(cfg, DispatchStep(cfg, s).value)
  {
    hide Inv;
    AtDispatch(cfg, s);
    if s.stream.completedText.None? || s.stream.acceptedText == [] || s.stream.usageObserved {
      CompletionRejected(cfg, s);
      KeepReject(cfg, s);
    } else {
      KeepUsageKept(cfg, s, s.lock.at.observed.inputTokens, s.lock.at.observed.outputTokens);
    }
  }

  lemma KeepCompletedKept(cfg: Config, s: Session)
    requires Inv(cfg, s) && s.lock.Held? && s.lock.at == DispatchObservation(P.Completed)
    requires s.stream.completedText.Some? && s.stream.acceptedText != []
    ensures Inv(cfg, Goto(s.Examine(P.Completed), Choosing(ChooseCompleted)))
  {
    hide Reports, InvBudget, InvCleanup;
  }

  lemma KeepDispatchCompleted(cfg: Config, s: Session)
    requires Inv(cfg, s) && DispatchStep(cfg, s).Some? && s.lock.at.observed.Completed?
    ensures Inv(cfg, DispatchStep(cfg, s).value)
  {
    hide Inv;
    if s.stream.completedText.None? || s.stream.acceptedText == [] {
      CompletionRejected(cfg, s);
      KeepReject(cfg, s);
    } else {
      KeepCompletedKept(cfg, s);
    }
  }

  lemma KeepFailedKept(cfg: Config, s: Session, code: P.FailureCode, message: string)
    requires Inv(cfg, s) && s.lock.Held? && s.lock.at == DispatchObservation(P.Failed(code, message))
    ensures Inv(cfg, Goto(s.Examine(P.Failed(code, message)),
                          Choosing(ChooseProviderFailure(code, message))))
  {
    hide Reports, InvText, InvBudget, InvCleanup;
  }

  lemma KeepDispatchFailed(cfg: Config, s: Session)
    requires Inv(cfg, s) && DispatchStep(cfg, s).Some?
    requires s.lock.at.observed.Failed? || s.lock.at.observed.Foreign?
    ensures Inv(cfg, DispatchStep(cfg, s).value)
  {
    hide Inv;
    match s.lock.at.observed
    case Failed(code, message) => KeepFailedKept(cfg, s, code, message);
    case _ => KeepReject(cfg, s);
  }

  lemma KeepObservation(cfg: Config, s: Session)
    requires Inv(cfg, s) && DispatchStep(cfg, s).Some?
    ensures Inv(cfg, DispatchStep(cfg, s).value)
  {
    hide Inv;
    match s.lock.at.observed
    case TextDelta(_) => KeepDispatchDelta(cfg, s);
    case TextCompleted(_) => KeepDispatchText(cfg, s);
    case UsageReported(_, _) => KeepDispatchUsage(cfg, s);
    case Completed => KeepDispatchCompleted(cfg, s);
    case ToolCallRequested => KeepDispatchTool(cfg, s);
    case Failed(_, _) => KeepDispatchFailed(cfg, s);
    case Foreign => KeepDispatchFailed(cfg, s);
  }

  lemma KeepDeltaOut(cfg: Config, s: Session)
    requires Inv(cfg, s) && s.lock.Held? && s.lock.at.EmitDelta?
    ensures Inv(cfg, PublishDelta(cfg, s, true).value)
  {
    hide Reports;
    hide InvText, InvBudget, InvCleanup;
  }

  lemma KeepPublishDelta(cfg: Config, s: Session, written: bool)
    requires Inv(cfg, s) && PublishDelta(cfg, s, written).Some?
    ensures Inv(cfg, PublishDelta(cfg, s, written).value)
  {
    hide Inv;
    if written { KeepDeltaOut(cfg, s); } else { KeepRaised(cfg, s, true); }
  }

  lemma AdmitDeltaText(cfg: Config, s: Session)
    requires Inv(cfg, s) && s.lock.Held? && s.lock.at.AcceptDelta?
    ensures var text := s.lock.at.text;
            && InvText(s.life.assistantText + text, s.stream.acceptedText + [text],
                       s.stream.acceptedBytes + Utf8.Length(text), s.stream.completedText,
                       s.stream.usageObserved, s.budget.counters.assistantOutputBytes,
                       s.life.status)
            && text != "" && s.stream.completedText.None? && !s.stream.usageObserved
            && !s.life.status.Starting?
  {
    JoinSnoc(s.stream.acceptedText, s.lock.at.text);
    Utf8.LengthConcat(s.life.assistantText, s.lock.at.text);
    hide InvStart, InvFinalizer, InvTape, InvBudget, InvCleanup, InvScan;
  }

  /** The delta is legal and only adds its text and its number. */
  lemma DeltaReduces(cfg: Config, s: Session)
    requires Inv(cfg, s) && s.lock.Held? && s.lock.at.AcceptDelta?
    ensures Reduce(s.life, Wire(s.lock.at.event))
            == Accepted(s.life.(assistantText := s.life.assistantText + s.lock.at.text,
                                lastSequence := s.output.audience.count))
  {
    hide InvText, InvTape, InvBudget, InvCleanup, InvScan;
  }

  /** The attached transcript takes it, because no evidence was recorded yet. */
  lemma DeltaRecorded(cfg: Config, s: Session, next: State)
    requires Inv(cfg, s) && s.lock.Held? && s.lock.at.AcceptDelta?
    requires Reduce(s.life, Wire(s.lock.at.event)) == Accepted(next)
    requires s.lock.at.event.body.AssistantDelta?
    ensures s.recording.tape.Some?
    ensures Guard(cfg.sessionId, s.recording.tape.value, RecordUpdate(Wire(s.lock.at.event), next))
            == Some(s.recording.tape.value.(state := next))
  {
    hide Reduce, IsLoopLimitCode;
    hide InvStart, InvText, InvBudget, InvCleanup, InvEvents, InvScan;
  }

  function WithDelta(s: Session, next: State, recording: Recording, text: string): Session
    requires s.lock.Held?
  {
    s.(life := next, recording := recording, lock := Held(s.lock.owner, RecheckDeadline),
       stream := s.stream.(acceptedText := s.stream.acceptedText + [text],
                           acceptedBytes := s.stream.acceptedBytes + Utf8.Length(text)))
  }

  lemma KeepDeltaAccepted(cfg: Config, s: Session, next: State, recording: Recording)
    requires Inv(cfg, s) && s.lock.Held? && s.lock.at.AcceptDelta?
    requires next == s.life.(assistantText := s.life.assistantText + s.lock.at.text,
                             lastSequence := s.output.audience.count)
    requires WellFormed(next) && s.recording.tape.Some?
    requires recording.tape == Some(s.recording.tape.value.(state := next))
    ensures Inv(cfg, WithDelta(s, next, recording, s.lock.at.text))
  {
    AdmitDeltaText(cfg, s);
    hide WellFormed, Reports, InvText, InvBudget, InvCleanup;
  }

  lemma KeepAdmitDelta(cfg: Config, s: Session)
    requires Inv(cfg, s) && AdmitDelta(cfg, s).Some?
    ensures Inv(cfg, AdmitDelta(cfg, s).value)
  {
    hide Reduce, Guard, WellFormed, Inv;
    DeltaReduces(cfg, s);
    AcceptedDelta(cfg, s);
    var after := AdmitDelta(cfg, s).value;
    DeltaRecorded(cfg, s, after.life);
    KeepDeltaAccepted(cfg, s, after.life, after.recording);
  }

  lemma AcceptedDelta(cfg: Config, s: Session)
    requires Inv(cfg, s) && s.lock.Held? && s.lock.at.AcceptDelta?
    ensures s.lock.at.event.body.AssistantDelta?
    ensures Reduce(s.life, Wire(s.lock.at.event)).Accepted?
    ensures WellFormed(Reduce(s.life, Wire(s.lock.at.event)).state)
  {
    hide Reduce, WellFormed, InvText, InvTape, InvBudget, InvCleanup, InvScan, InvPoint;
    DeltaReduces(cfg, s);
    ReduceKeepsWellFormed(s.life, Wire(s.lock.at.event));
  }

  lemma KeepNotifyUsage(cfg: Config, s: Session)
    requires Inv(cfg, s) && NotifyUsageStep(cfg, s).Some?
    ensures Inv(cfg, NotifyUsageStep(cfg, s).value)
  {
    hide Reports;
    hide InvBudget, InvCleanup;
  }

  lemma KeepRecheckDeadline(cfg: Config, s: Session)
    requires Inv(cfg, s) && RecheckDeadlineStep(cfg, s).Some?
    ensures Inv(cfg, RecheckDeadlineStep(cfg, s).value)
  {
    assert s.selection.None?;
    if s.Expired(cfg) {
      hide Inv;
      KeepExpire(cfg, s);
    } else {
      hide InvText, InvBudget, InvCleanup;
      assert Inv(cfg, Release(s));
    }
  }

  lemma KeepChoose(cfg: Config, s: Session)
    requires Inv(cfg, s) && ChooseStep(cfg, s).Some?
    ensures Inv(cfg, ChooseStep(cfg, s).value)
  {
    if s.selection.Some? {
      KeepRelease(cfg, s);
    } else {
      assert s.lock.at.candidate.Budget().None?;
      hide Inv;
      Unspent(cfg, s);
      if s.Expired(cfg) {
        KeepExpire(cfg, s);
      } else {
        KeepSelect(cfg, s, s.budget.counters, s.lock.at.candidate);
        assert s.Charge(s.budget.counters) == s;
      }
    }
  }

  lemma KeepDeferCancellation(cfg: Config, s: Session, command: string)
    requires Inv(cfg, s) && s.lock.Free? && s.selection.None? && s.life.status.Starting?
    ensures Inv(cfg, RequestCancellation(cfg, s, command).value)
  {
    KeepTapeFree(cfg, s, Caller, ChooseUserCancel(command));
    hide Reports, InvText, InvTape, InvBudget, InvCleanup;
  }

  /** A cancellation of a running session is legal, and the attached transcript takes it. */
  lemma CancellationReduces(cfg: Config, s: Session, command: string)
    requires Inv(cfg, s) && s.lock.Free? && s.selection.None? && !s.life.status.Starting?
    ensures var u := CancelRequested(command, cfg.sessionId);
            var next := s.life.(status := Cancelling, cancelCommandId := Some(command));
            && Reduce(s.life, u) == Accepted(next) && WellFormed(next)
            && s.recording.tape.Some?
            && Guard(cfg.sessionId, s.recording.tape.value, RecordUpdate(u, next))
               == Some(s.recording.tape.value.(state := next))
  {
    hide InvText, InvBudget, InvCleanup, InvScan;
  }

  lemma KeepCancelling(cfg: Config, s: Session, command: string, recording: Recording)
    requires Inv(cfg, s) && s.lock.Free? && s.selection.None? && !s.life.status.Starting?
    requires WellFormed(s.life.(status := Cancelling, cancelCommandId := Some(command)))
    requires s.recording.tape.Some?
    requires recording.tape
             == Some(s.recording.tape.value.(state :=
                       s.life.(status := Cancelling, cancelCommandId := Some(command))))
    ensures Inv(cfg, s.(life := s.life.(status := Cancelling, cancelCommandId := Some(command)),
                        recording := recording,
                        lock := Held(Caller, Choosing(ChooseUserCancel(command)))))
  {
    hide Reports, WellFormed, InvBudget, InvCleanup;
  }

  lemma KeepReduceCancellation(cfg: Config, s: Session, command: string)
    requires Inv(cfg, s) && s.lock.Free? && s.selection.None? && !s.life.status.Starting?
    ensures Inv(cfg, RequestCancellation(cfg, s, command).value)
  {
    hide Reduce, Guard, WellFormed, Inv;
    CancellationReduces(cfg, s, command);
    KeepCancelling(cfg, s, command, RequestCancellation(cfg, s, command).value.recording);
  }

  lemma KeepRequestCancellation(cfg: Config, s: Session, command: string)
    requires Inv(cfg, s) && RequestCancellation(cfg, s, command).Some?
    ensures Inv(cfg, RequestCancellation(cfg, s, command).value)
  {
    hide Inv;
    if s.selection.Some? {
    } else if s.life.status.Starting? {
      KeepDeferCancellation(cfg, s, command);
    } else {
      KeepReduceCancellation(cfg, s, command);
    }
  }

  lemma KeepFinalizerStarts(cfg: Config, s: Session)
    requires Inv(cfg, s) && FinalizerStarts(s).Some?
    ensures Inv(cfg, FinalizerStarts(s).value)
  {
    hide InvStart, InvText, InvPoint, InvBudget, InvEvents, InvScan;
  }

  lemma KeepFinalizerCleansUp(cfg: Config, s: Session)
    requires Inv(cfg, s) && FinalizerCleansUp(s).Some?
    ensures Inv(cfg, FinalizerCleansUp(s).value)
  {
    hide InvStart, InvText, InvPoint, InvEvents, InvScan;
    KeepAwaitCleanup(cfg, s);
  }

  lemma KeepAwaitCleanup(cfg: Config, s: Session)
    requires Inv(cfg, s) && s.finalizer.Work? && s.selection.Some?
    ensures !EnsureCleanup(s, s.selection.value.Mode()).faulted
    ensures InvCleanup(EnsureCleanup(s, s.selection.value.Mode()).operation, s.selection,
                       s.budget.latched, AwaitCleanup, s.ending.terminalEmitted)
  {
    hide InvStart, InvLife, InvText, InvPoint, InvTape, InvEvents, InvScan;
  }

  lemma KeepReaped(cfg: Config, s: Session, reapFailed: bool)
    requires Inv(cfg, s) && s.finalizer.AwaitCleanup? && s.selection.Some?
    requires s.operation.started ==> s.operation.cleanup.Settled?
    ensures Inv(cfg, Reap(s, reapFailed))
  {
    hide InvStart, InvText, InvPoint, InvBudget, InvScan;
  }

  lemma KeepReported(cfg: Config, s: Session, written: bool)
    requires Inv(cfg, s) && s.selection.Some?
    requires s.finalizer.AwaitTerminal? || (s.finalizer.Ended? && s.selection.value.ChooseTeardown?)
    ensures Inv(cfg, ReportCleanupFailure(s, written))
  {
    hide InvStart, InvText, InvPoint, InvBudget, InvScan;
  }

  lemma KeepFinalizerJoins(cfg: Config, s: Session, reapFailed: bool, written: bool)
    requires Inv(cfg, s) && FinalizerJoinsCleanup(s, reapFailed, written).Some?
    ensures Inv(cfg, FinalizerJoinsCleanup(s, reapFailed, written).value)
  {
    hide Inv, ReportCleanupFailure;
    KeepReaped(cfg, s, reapFailed);
    KeepReported(cfg, Reap(s, reapFailed), written);
  }

  lemma KeepBeginTerminal(cfg: Config, s: Session)
    requires Inv(cfg, s) && BeginTerminal(s).Some?
    ensures Inv(cfg, BeginTerminal(s).value)
  {
    hide Reports;
    assert !s.ending.terminalEmitted;
    hide InvText, InvBudget;
  }

  /** A raised write ends the finalizer without a terminal. */
  lemma KeepAbandoned(cfg: Config, s: Session)
    requires Inv(cfg, s) && s.lock.Held? && (s.lock.at.EmitText? || s.lock.at.EmitTerminal?)
    ensures Inv(cfg, AbandonTerminal(Broken(s)))
  {
    hide Reports;
    hide InvText, InvBudget;
  }

  lemma KeepTextOut(cfg: Config, s: Session)
    requires Inv(cfg, s) && s.lock.Held? && s.lock.at.EmitText?
    ensures s.stream.completedText.Some?
    ensures Inv(cfg, PublishText(cfg, s, true).value)
  {
    hide Reports;
    assert s.stream.completedText == Some(s.life.assistantText);
    hide InvText, InvBudget;
  }

  lemma KeepPublishText(cfg: Config, s: Session, written: bool)
    requires Inv(cfg, s) && PublishText(cfg, s, written).Some?
    ensures Inv(cfg, PublishText(cfg, s, written).value)
  {
    hide Inv;
    KeepTextOut(cfg, s);
    if !written { KeepAbandoned(cfg, s); }
  }

  lemma KeepAdmitText(cfg: Config, s: Session)
    requires Inv(cfg, s) && AdmitText(cfg, s).Some?
    ensures Inv(cfg, AdmitText(cfg, s).value)
  {
    hide Reports;
    hide InvText, InvBudget, InvCleanup;
  }

  lemma KeepNotifyLimits(cfg: Config, s: Session)
    requires Inv(cfg, s) && NotifyLimitsStep(cfg, s).Some?
    ensures Inv(cfg, NotifyLimitsStep(cfg, s).value)
  {
    hide Reports;
    hide InvText, InvBudget, InvCleanup;
  }

  lemma KeepTerminalOut(cfg: Config, s: Session)
    requires Inv(cfg, s) && s.lock.Held? && s.lock.at.EmitTerminal?
    ensures s.selection.Some? && TerminalOf(cfg, s.selection.value).Some?
    ensures Inv(cfg, PublishTerminal(cfg, s, true).value)
  {
    hide Reports;
    hide InvText, InvBudget, InvCleanup;
  }

  lemma KeepPublishTerminal(cfg: Config, s: Session, written: bool)
    requires Inv(cfg, s) && PublishTerminal(cfg, s, written).Some?
    ensures Inv(cfg, PublishTerminal(cfg, s, written).value)
  {
    hide Inv;
    KeepTerminalOut(cfg, s);
    if !written { KeepAbandoned(cfg, s); }
  }

  /** The recorded evidence matches the failure code an outcome publishes: a budget's reserved code
      exactly when that budget is the exhausted one. */
  lemma TerminalMatchesBudget(cfg: Config, s: Session, event: Event)
    requires s.selection.Some? && TerminalOf(cfg, s.selection.value).Some?
    requires event.body == TerminalOf(cfg, s.selection.value).value.0
    requires s.budget.counters.exhausted == s.selection.value.Budget()
    ensures LimitsMatchTerminal(Observed(cfg.sessionId, cfg.limits, s.budget.counters), Wire(event))
  {
    hide IsLoopLimitCode;
    var choice := s.selection.value;
    match choice
    case ChooseProviderFailure(code, message) =>
      P.ProviderCodesAreNotReserved(code);
    case ChooseInvalidResponse(_) =>
      PlainCodesAreNotReserved();
    case ChooseToolUnavailable =>
      PlainCodesAreNotReserved();
    case _ =>
  }

  lemma PlainCodesAreNotReserved()
    ensures !IsLoopLimitCode(PROVIDER_INVALID_RESPONSE.code)
    ensures !IsLoopLimitCode(TOOL_UNAVAILABLE.code)
  {
    assert |PROVIDER_INVALID_RESPONSE.code| == 25 && PROVIDER_INVALID_RESPONSE.code[0] == 'p';
    assert MODEL_TURN_LIMIT_EXCEEDED_CODE[0] == 'm';
    assert |TOOL_UNAVAILABLE.code| == 16;
    assert |MODEL_TURN_LIMIT_EXCEEDED_CODE| == 25;
    assert |PROVIDER_WORK_DEADLINE_EXCEEDED_CODE| == 31;
    assert |ASSISTANT_OUTPUT_LIMIT_EXCEEDED_CODE| == 31;
    assert |TOOL_CALL_LIMIT_EXCEEDED_CODE| == 24;
  }

  /** The terminal event is legal, final, and leaves what the session remembers alone. */
  lemma TerminalReduces(cfg: Config, s: Session)
    requires Inv(cfg, s) && s.lock.Held? && s.lock.at.AcceptTerminal?
    ensures s.selection.Some? && TerminalOf(cfg, s.selection.value).Some?
    ensures s.lock.at.event.body == TerminalOf(cfg, s.selection.value).value.0
    ensures Reduce(s.life, Wire(s.lock.at.event)).Accepted?
    ensures var next := Reduce(s.life, Wire(s.lock.at.event)).state;
            && next.status.Terminal()
            && Reports(next, s.selection.value)
            && next.lastSequence == s.output.audience.count
            && next == s.life.(status := next.status, lastSequence := next.lastSequence,
                               sessionFailure := next.sessionFailure)
  {
    hide InvText, InvBudget, InvCleanup, InvScan;
  }

  /** The attached transcript accepts the terminal update after the evidence before it. */
  lemma TerminalRecorded(cfg: Config, s: Session)
    requires Inv(cfg, s) && s.lock.Held? && s.lock.at.AcceptTerminal?
    ensures s.recording.tape.Some?
    ensures Reduce(s.life, Wire(s.lock.at.event)).Accepted?
    ensures var next := Reduce(s.life, Wire(s.lock.at.event)).state;
            Guard(cfg.sessionId, s.recording.tape.value, RecordUpdate(Wire(s.lock.at.event), next))
            == Some(s.recording.tape.value.(state := next))
  {
    TerminalReduces(cfg, s);
    TerminalMatchesBudget(cfg, s, s.lock.at.event);
    hide Reduce, LimitsMatchTerminal, IsLoopLimitCode, TerminalOf;
    hide InvStart, InvText, InvPoint, InvCleanup, InvEvents, InvScan;
  }

  function EndedWith(s: Session, next: State, recording: Recording): Session {
    s.(life := next, recording := recording, lock := Free, finalizer := Ended,
       ending := s.ending.(terminalEmitted := true))
  }

  lemma KeepEnded(cfg: Config, s: Session, next: State, recording: Recording)
    requires Inv(cfg, s) && s.lock.Held? && s.lock.at.AcceptTerminal? && s.selection.Some?
    requires next.status.Terminal() && WellFormed(next)
    requires Reports(next, s.selection.value)
    requires next.lastSequence == s.output.audience.count
    requires next == s.life.(status := next.status, lastSequence := next.lastSequence,
                             sessionFailure := next.sessionFailure)
    requires s.recording.tape.Some?
    requires recording.tape == Some(s.recording.tape.value.(state := next))
    ensures Inv(cfg, EndedWith(s, next, recording))
  {
    hide WellFormed, InvBudget;
  }

  lemma KeepAdmitTerminal(cfg: Config, s: Session)
    requires Inv(cfg, s) && AdmitTerminal(cfg, s).Some?
    ensures Inv(cfg, AdmitTerminal(cfg, s).value)
  {
    TerminalReduces(cfg, s);
    TerminalRecorded(cfg, s);
    ReduceKeepsWellFormed(s.life, Wire(s.lock.at.event));
    hide Reduce, Guard, TerminalOf, WellFormed, Inv;
    var after := AdmitTerminal(cfg, s).value;
    KeepEnded(cfg, s, after.life, after.recording);
  }
}
