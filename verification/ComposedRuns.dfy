/** One provider session driving one adapter operation: `provider_session.py` over
    `openai_responses.py`.

    Every read of the session is a call on the operation's iterator, its cleanup task calls `cancel` or
    `wait_closed`, and behind the grace period `force_cancel_cleanup`; everything else of either side
    happens on its own, in any order. */
module ComposedRuns {
  import opened Prelude
  import opened AutomatonRuns
  import ResponsesAutomaton
  import opened OperationSafety
  import P = ProviderEvents
  import O = ResponsesOperation
  import OR = OperationRuns
  import M = SessionMachine
  import S = SessionSafety
  import R = SessionRuns
  import Progress = SessionProgress
  import L = LoopLimits
  import Lifecycle
  import Tape

  /** Both machines, the events that reads of the session brought, and the steps each machine took. */
  datatype World = World(
    session: M.Session,
    operation: O.Operation,
    arrived: seq<P.ProviderEvent>,
    sessionSteps: seq<M.Step>,
    operationSteps: seq<O.Step>)

  // ----- Moves -----

  datatype Move =
    | Alone(step: M.Step)
    | Inside(work: O.Step)
    | IssueRead
    | Arrive(reapFailed: bool)
    | StreamStops(reapFailed: bool)
    | CallCancel
    | CancelAnswers
    | WaitAnswers
    | BeginForce
    | EndForce

  /** Session steps in which the operation has no part. */
  predicate Solo(s: M.Session, step: M.Step) {
    && !step.DoCleanupFinishes? && !step.DoCleanupForced?
    && !(step.DoFinishRead? && (step.read.Arrived? || step.read.StreamOver?))
    && !(step.DoBeginRead? && s.selection.None?)
  }

  /** Operation steps in which the session has no part. */
  predicate Private(step: O.Step) {
    && !step.DoEnter? && !step.DoCancel? && !step.DoCancelReturns?
    && !step.DoForceBegins? && !step.DoForceEnds?
  }

  function BySession(cfg: M.Config, w: World, step: M.Step): Option<World> {
    match M.Take(cfg, w.session, step)
    case None => None
    case Some(s) => Some(w.(session := s, sessionSteps := w.sessionSteps + [step]))
  }

  function ByOperation(model: string, w: World, step: O.Step): (r: Option<World>)
    requires w.operation.automaton.Coherent()
    ensures r.Some? ==> r.value.operation.automaton.Coherent()
  {
    OR.TakeForward(model, w.operation, step);
    match O.Take(model, w.operation, step)
    case None => None
    case Some(o) => Some(w.(operation := o, operationSteps := w.operationSteps + [step]))
  }

  /** The operation moves first, then the session. */
  function Answered(model: string, cfg: M.Config, w: World, step: O.Step, forced: bool)
    : (r: Option<World>)
    requires w.operation.automaton.Coherent()
    ensures r.Some? ==> r.value.operation.automaton.Coherent()
  {
    match ByOperation(model, w, step)
    case None => None
    case Some(v) =>
      BySession(cfg, v, if forced then M.DoCleanupForced
                        else M.DoCleanupFinishes(v.operation.cleanupFailed))
  }

  function Make(model: string, cfg: M.Config, w: World, move: Move): (r: Option<World>)
    requires w.operation.automaton.Coherent()
    ensures r.Some? ==> r.value.operation.automaton.Coherent()
  {
    var cleanup, op := w.session.operation.cleanup, w.operation;
    match move
    case Alone(step) => if Solo(w.session, step) then BySession(cfg, w, step) else None
    case Inside(step) =>
      if w.session.operation.started && Private(step) then ByOperation(model, w, step) else None
    case IssueRead =>
      if w.session.selection.Some? then None
      else
        (match BySession(cfg, w, M.DoBeginRead)
         case None => None
         case Some(v) => ByOperation(model, v, O.DoEnter))
    case Arrive(reapFailed) =>
      if !(op.consumer.Outside? && |op.delivered| == |w.arrived| + 1) then None
      else
        BySession(cfg, w.(arrived := op.delivered),
                  M.DoFinishRead(M.Arrived(op.delivered[|op.delivered| - 1]), reapFailed))
    case StreamStops(reapFailed) =>
      if !op.consumer.Stopped? then None
      else BySession(cfg, w, M.DoFinishRead(M.StreamOver, reapFailed))
    case CallCancel =>
      if !(&& cleanup == M.InProgress(M.CleanupMode.Cancel) && op.forcing.None?
           && op.cancelsWaiting == 0 && !op.cancelReturned)
      then None
      else ByOperation(model, w, O.DoCancel)
    case CancelAnswers =>
      if !(cleanup == M.InProgress(M.CleanupMode.Cancel) && op.forcing.None?) then None
      else Answered(model, cfg, w, O.DoCancelReturns, false)
    case WaitAnswers =>
      if !(&& cleanup == M.InProgress(M.CleanupMode.WaitClosed) && op.forcing.None?
           && O.WaitClosed(op).Some?)
      then None
      else BySession(cfg, w, M.DoCleanupFinishes(!O.WaitClosed(op).value))
    case BeginForce =>
      if !cleanup.InProgress? then None else ByOperation(model, w, O.DoForceBegins)
    case EndForce => Answered(model, cfg, w, O.DoForceEnds, true)
  }

  /** Any interleaving of both. */
  function Joint(model: string, cfg: M.Config, seed: L.Counters, now: int, moves: seq<Move>)
    : (r: Option<World>)
    ensures r.Some? ==> r.value.operation.automaton.Coherent()
    decreases |moves|
  {
    if moves == [] then Some(World(M.Created(cfg, seed, now), O.CREATED, [], [], []))
    else
      match Joint(model, cfg, seed, now, moves[..|moves| - 1])
      case None => None
      case Some(w) => Make(model, cfg, w, moves[|moves| - 1])
  }

  // ----- Each side takes part in one of its own runs -----

  ghost predicate Projects(model: string, cfg: M.Config, start: M.Session, w: World) {
    && M.Schedule(cfg, start, w.sessionSteps) == Some(w.session)
    && OR.Schedule(model, w.operationSteps) == Some(w.operation)
  }

  lemma SessionProjects(model: string, cfg: M.Config, start: M.Session, w: World, step: M.Step)
    requires Projects(model, cfg, start, w) && BySession(cfg, w, step).Some?
    ensures Projects(model, cfg, start, BySession(cfg, w, step).value)
  {
    hide M.Take, OR.Schedule;
    assert (w.sessionSteps + [step])[..|w.sessionSteps|] == w.sessionSteps;
  }

  lemma OperationProjects(model: string, cfg: M.Config, start: M.Session, w: World, step: O.Step)
    requires w.operation.automaton.Coherent()
    requires Projects(model, cfg, start, w) && ByOperation(model, w, step).Some?
    ensures Projects(model, cfg, start, ByOperation(model, w, step).value)
  {
    hide O.Take, M.Schedule;
    assert (w.operationSteps + [step])[..|w.operationSteps|] == w.operationSteps;
  }

  lemma MoveProjects(model: string, cfg: M.Config, start: M.Session, w: World, move: Move)
    requires w.operation.automaton.Coherent()
    requires Projects(model, cfg, start, w) && Make(model, cfg, w, move).Some?
    ensures Projects(model, cfg, start, Make(model, cfg, w, move).value)
  {
    hide Projects, M.Take, ByOperation;
    var op := w.operation;
    match move
    case Alone(step) => SessionProjects(model, cfg, start, w, step);
    case Inside(step) => OperationProjects(model, cfg, start, w, step);
    case IssueRead =>
      SessionProjects(model, cfg, start, w, M.DoBeginRead);
      OperationProjects(model, cfg, start, BySession(cfg, w, M.DoBeginRead).value, O.DoEnter);
    case Arrive(reapFailed) =>
      ArrivedProjects(model, cfg, start, w, op.delivered);
      SessionProjects(model, cfg, start, w.(arrived := op.delivered),
                      M.DoFinishRead(M.Arrived(op.delivered[|op.delivered| - 1]), reapFailed));
    case StreamStops(reapFailed) =>
      SessionProjects(model, cfg, start, w, M.DoFinishRead(M.StreamOver, reapFailed));
    case CallCancel => OperationProjects(model, cfg, start, w, O.DoCancel);
    case CancelAnswers => AnswerProjects(model, cfg, start, w, O.DoCancelReturns, false);
    case WaitAnswers =>
      SessionProjects(model, cfg, start, w, M.DoCleanupFinishes(!O.WaitClosed(op).value));
    case BeginForce => OperationProjects(model, cfg, start, w, O.DoForceBegins);
    case EndForce => AnswerProjects(model, cfg, start, w, O.DoForceEnds, true);
  }

  lemma ArrivedProjects(
    model: string, cfg: M.Config, start: M.Session, w: World, arrived: seq<P.ProviderEvent>)
    ensures Projects(model, cfg, start, w.(arrived := arrived)) <==> Projects(model, cfg, start, w)
  {
    hide M.Schedule, OR.Schedule;
  }

  lemma AnswerProjects(
    model: string, cfg: M.Config, start: M.Session, w: World, step: O.Step, forced: bool)
    requires w.operation.automaton.Coherent()
    requires Projects(model, cfg, start, w) && Answered(model, cfg, w, step, forced).Some?
    ensures Projects(model, cfg, start, Answered(model, cfg, w, step, forced).value)
  {
    hide Projects, BySession, ByOperation;
    OperationProjects(model, cfg, start, w, step);
    var v := ByOperation(model, w, step).value;
    SessionProjects(model, cfg, start, v, if forced then M.DoCleanupForced
                                          else M.DoCleanupFinishes(v.operation.cleanupFailed));
  }

  lemma {:induction false} JointProjects(
    model: string, cfg: M.Config, seed: L.Counters, now: int, moves: seq<Move>)
    requires Joint(model, cfg, seed, now, moves).Some?
    ensures Projects(model, cfg, M.Created(cfg, seed, now), Joint(model, cfg, seed, now, moves).value)
    decreases |moves|
  {
    hide Make, Projects, M.Created, M.Take, O.Take;
    if moves == [] {
      NothingMoved(model, cfg, M.Created(cfg, seed, now));
    } else {
      var front := moves[..|moves| - 1];
      JointProjects(model, cfg, seed, now, front);
      MoveProjects(model, cfg, M.Created(cfg, seed, now),
                   Joint(model, cfg, seed, now, front).value, moves[|moves| - 1]);
    }
  }

  lemma NothingMoved(model: string, cfg: M.Config, start: M.Session)
    ensures Projects(model, cfg, start, World(start, O.CREATED, [], [], []))
  {
    hide M.Take, O.Take;
  }

  // ----- What the session saw of the reads -----

  /** The event a read brought that is not examined yet. */
  function InHand(s: M.Session): seq<P.ProviderEvent> {
    if s.runner.Observing? then [s.runner.observed]
    else if s.lock.Held? && (s.lock.at.EnterObservation? || s.lock.at.DispatchObservation?) then
      [s.lock.at.observed]
    else []
  }

  function Seen(s: M.Session): seq<P.ProviderEvent> { s.stream.delivered + InHand(s) }

  /** Nothing a read brought was dropped so far, and the next read may still be issued. */
  predicate Steady(s: M.Session) {
    || s.runner.NotRun? || s.runner.AnnouncingStart? || s.runner.StartingProvider? || s.runner.Reading?
    || ((s.runner.LoopTop? || s.runner.Observing?) && s.selection.None?)
  }

  /** A session step examines, keeps or drops what is at hand, and brings nothing new. */
  ghost predicate SeenKept(s: M.Session, t: M.Session) {
    Seen(t) <= Seen(s) && (Steady(t) ==> Steady(s) && Seen(t) == Seen(s))
  }

  ghost predicate SeenIf(s: M.Session, t: Option<M.Session>) { t.Some? ==> SeenKept(s, t.value) }

  /** What selecting, cleaning up, reducing and recording leave alone. */
  predicate SameReads(s: M.Session, t: M.Session) {
    && t.stream == s.stream && t.runner == s.runner && t.lock == s.lock
    && (s.selection.Some? ==> t.selection.Some?)
  }

  lemma SelectingKeepsReads()
    ensures forall s: M.Session, c: M.Choice :: SameReads(s, M.Select(s, c))
    ensures forall s: M.Session :: SameReads(s, M.Latch(s)) && SameReads(s, M.Expire(s))
    ensures forall s: M.Session :: M.Expire(s).selection.Some?
    ensures forall s: M.Session, c: M.Choice :: M.Select(s, c).selection.Some?
    ensures forall s: M.Session, mode: M.CleanupMode :: SameReads(s, M.EnsureCleanup(s, mode))
  {}

  lemma AcceptingKeepsReads(cfg: M.Config)
    ensures forall s: M.Session, u: Lifecycle.Update :: SameReads(s, M.AcceptUpdate(cfg, s, u))
    ensures forall s: M.Session, call: Tape.Call :: SameReads(s, M.Notify(cfg, s, call))
  {
    hide Lifecycle.Reduce, Tape.Guard;
  }

  lemma StartingSees(
    cfg: M.Config, s: M.Session, result: M.StartResult, before: nat, during: nat)
    requires s.lock.Free?
    ensures SeenIf(s, M.StartProvider(cfg, s, result, before, during))
  {
    hide M.Select, M.Expire;
    SelectingKeepsReads();
  }

  lemma LoopSees(cfg: M.Config, s: M.Session, read: M.ReadResult, reapFailed: bool)
    requires S.Inv(cfg, s)
    ensures SeenIf(s, M.BeginRead(s)) && SeenIf(s, M.SelectExpired(s)) && SeenIf(s, M.BeginInvalid(s))
    ensures SeenIf(s, M.BeginObservation(s))
    ensures !read.Arrived? ==> SeenIf(s, M.FinishRead(cfg, s, read, reapFailed))
  {
    hide S.Inv, M.Select, M.Expire;
    SelectingKeepsReads();
    Progress.RunnerFacts(cfg, s);
    ObserverIsRunner(cfg, s);
  }

  lemma ObserverIsRunner(cfg: M.Config, s: M.Session)
    requires S.Inv(cfg, s)
    ensures s.lock.Held? && S.InObservation(s.lock.at) ==> s.runner.LoopTop? && s.lock.owner.Runner?
    ensures s.lock.Held? && S.InStart(s.lock.at) ==> s.runner.StartingProvider?
  {
    hide S.InvStart, S.InvFinalizer, S.InvLife, S.InvText, S.InvPoint, S.InvTape, S.InvBudget;
    hide S.InvCleanup, S.InvEvents, S.InvScan;
  }

  lemma LeavingSees(cfg: M.Config, s: M.Session)
    requires S.Inv(cfg, s)
    ensures SeenIf(s, M.Run(s)) && SeenIf(s, M.BeginStarted(s)) && SeenIf(s, M.LeaveLoop(s))
    ensures SeenIf(s, M.JoinFinalizer(s)) && SeenIf(s, M.CancelRunner(s))
  {
    hide S.Inv;
    ObserverIsRunner(cfg, s);
  }

  lemma HandlersSee(s: M.Session)
    ensures SeenIf(s, M.HandleRaised(s)) && SeenIf(s, M.BeginRecovery(s))
    ensures SeenIf(s, M.ResumeRecovered(s)) && SeenIf(s, M.BeginRunnerTeardown(s))
  {}

  lemma RunnerSees(cfg: M.Config, s: M.Session, step: M.Step)
    requires S.Inv(cfg, s) && M.OfRunner(step) && !(step.DoFinishRead? && step.read.Arrived?)
    ensures SeenIf(s, M.TakeRunner(cfg, s, step))
  {
    hide S.Inv, SeenIf, M.Run, M.BeginStarted, M.BeginRead, M.FinishRead, M.SelectExpired;
    hide M.BeginInvalid, M.BeginObservation, M.LeaveLoop, M.JoinFinalizer, M.CancelRunner;
    hide M.HandleRaised, M.BeginRecovery, M.ResumeRecovered, M.BeginRunnerTeardown;
    var (read, reapFailed) :=
      if step.DoFinishRead? then (step.read, step.reapFailed) else (M.StreamOver, false);
    if step.DoStartProvider? {
      StartSees(cfg, s, step.result, step.before, step.during);
    } else {
      LoopSees(cfg, s, read, reapFailed);
      LeavingSees(cfg, s);
      HandlersSee(s);
    }
  }

  lemma StartSees(cfg: M.Config, s: M.Session, result: M.StartResult, before: nat, during: nat)
    ensures SeenIf(s, M.StartProvider(cfg, s, result, before, during))
  {
    hide M.OpenProvider, M.Expire, M.Select, SeenKept;
    if s.lock.Free? { StartingSees(cfg, s, result, before, during); }
  }

  lemma WritingSees(cfg: M.Config, s: M.Session, written: bool)
    requires S.Inv(cfg, s)
    ensures SeenIf(s, M.PublishStarted(cfg, s, written)) && SeenIf(s, M.PublishDelta(cfg, s, written))
    ensures SeenIf(s, M.PublishText(cfg, s, written)) && SeenIf(s, M.PublishTerminal(cfg, s, written))
  {
    hide S.Inv, M.Hear, M.TerminalOf;
    ObserverIsRunner(cfg, s);
  }

  lemma AdmittingSees(cfg: M.Config, s: M.Session)
    ensures SeenIf(s, M.AdmitStarted(cfg, s)) && SeenIf(s, M.AdmitDeferred(cfg, s))
    ensures SeenIf(s, M.AdmitDelta(cfg, s)) && SeenIf(s, M.AdmitText(cfg, s))
    ensures SeenIf(s, M.AdmitTerminal(cfg, s))
    ensures SeenIf(s, M.NotifyUsageStep(cfg, s)) && SeenIf(s, M.NotifyLimitsStep(cfg, s))
  {
    hide M.AcceptUpdate, M.Notify;
    AcceptingKeepsReads(cfg);
  }

  lemma DecidingSees(cfg: M.Config, s: M.Session)
    requires S.Inv(cfg, s)
    ensures SeenIf(s, M.EnterObservationStep(cfg, s)) && SeenIf(s, M.RecheckDeadlineStep(cfg, s))
    ensures SeenIf(s, M.ChooseStep(cfg, s))
  {
    hide S.Inv, M.Select, M.Expire;
    SelectingKeepsReads();
    ObserverIsRunner(cfg, s);
  }

  /** An examination moves the event at hand into what was examined. */
  lemma DispatchSees(cfg: M.Config, s: M.Session)
    requires S.Inv(cfg, s)
    ensures SeenIf(s, M.DispatchStep(cfg, s))
  {
    hide S.Inv, M.Dispatch;
    if M.DispatchStep(cfg, s).Some? {
      ObserverIsRunner(cfg, s);
      BranchSees(cfg, s.Examine(s.lock.at.observed), s.lock.at.observed);
      assert Seen(s) == s.stream.delivered + [s.lock.at.observed];
    }
  }

  lemma BranchSees(cfg: M.Config, s: M.Session, observed: P.ProviderEvent)
    requires s.lock.Held? && s.lock.at.DispatchObservation?
    ensures var t := M.Dispatch(cfg, s, observed);
            && t.stream.delivered == s.stream.delivered && t.runner == s.runner
            && (s.selection.Some? ==> t.selection.Some?)
            && !(t.lock.Held? && (t.lock.at.EnterObservation? || t.lock.at.DispatchObservation?))
  {
    hide M.Select, M.Expire;
    SelectingKeepsReads();
  }

  lemma HolderSees(cfg: M.Config, s: M.Session, step: M.Step)
    requires S.Inv(cfg, s) && M.OfHolder(step)
    ensures SeenIf(s, M.TakeHolder(cfg, s, step))
  {
    hide S.Inv, SeenIf, M.PublishStarted, M.PublishDelta, M.PublishText, M.PublishTerminal;
    hide M.AdmitStarted, M.AdmitDeferred, M.AdmitDelta, M.AdmitText, M.AdmitTerminal;
    hide M.NotifyUsageStep, M.NotifyLimitsStep, M.EnterObservationStep, M.RecheckDeadlineStep;
    hide M.ChooseStep, M.DispatchStep;
    WritingSees(cfg, s, true);
    WritingSees(cfg, s, false);
    AdmittingSees(cfg, s);
    DecidingSees(cfg, s);
    DispatchSees(cfg, s);
  }

  lemma OtherSees(cfg: M.Config, s: M.Session, step: M.Step)
    requires !M.OfRunner(step) && !M.OfHolder(step)
    ensures SeenIf(s, M.TakeOther(cfg, s, step))
  {
    hide M.Latch, M.EnsureCleanup, M.AcceptUpdate;
    SelectingKeepsReads();
    AcceptingKeepsReads(cfg);
  }

  lemma StepSees(cfg: M.Config, s: M.Session, step: M.Step)
    requires S.Inv(cfg, s) && M.Take(cfg, s, step).Some?
    requires !(step.DoFinishRead? && step.read.Arrived?)
    ensures SeenKept(s, M.Take(cfg, s, step).value)
  {
    hide S.Inv, SeenKept, M.TakeRunner, M.TakeHolder, M.TakeOther;
    if M.OfRunner(step) {
      RunnerSees(cfg, s, step);
    } else if M.OfHolder(step) {
      HolderSees(cfg, s, step);
    } else {
      OtherSees(cfg, s, step);
    }
  }

  /** A read that brings an event adds it to what was seen, unless it is dropped at once. */
  lemma ArrivalSees(cfg: M.Config, s: M.Session, event: P.ProviderEvent, reapFailed: bool)
    requires S.Inv(cfg, s)
    requires M.Take(cfg, s, M.DoFinishRead(M.Arrived(event), reapFailed)).Some?
    ensures var t := M.Take(cfg, s, M.DoFinishRead(M.Arrived(event), reapFailed)).value;
            && Steady(s) && Seen(s) == s.stream.delivered
            && Seen(t) <= Seen(s) + [event]
            && (Steady(t) ==> Seen(t) == Seen(s) + [event])
            && t.operation.cleanup == s.operation.cleanup
            && t.operation.cleanupCalls == s.operation.cleanupCalls
            && t.operation.started == s.operation.started
  {
    hide S.Inv;
    ObserverIsRunner(cfg, s);
  }

  // ----- What each side keeps about the cleanup -----

  /** A session step on its own may start the cleanup, and never touches a started one. */
  predicate SameCleanup(s: M.Session, t: M.Session) {
    var before, after := s.operation, t.operation;
    && (!before.cleanup.NotStarted? ==>
          after.cleanup == before.cleanup && after.cleanupCalls == before.cleanupCalls)
    && (before.cleanup.NotStarted? ==> !after.cleanup.Settled?)
  }

  predicate CleanupIf(s: M.Session, t: Option<M.Session>) { t.Some? ==> SameCleanup(s, t.value) }

  lemma SelectingStartsCleanup()
    ensures forall s: M.Session, c: M.Choice :: SameCleanup(s, M.Select(s, c))
    ensures forall s: M.Session :: SameCleanup(s, M.Latch(s)) && SameCleanup(s, M.Expire(s))
    ensures forall s: M.Session, mode: M.CleanupMode :: SameCleanup(s, M.EnsureCleanup(s, mode))
  {}

  lemma AcceptingKeepsCleanup(cfg: M.Config)
    ensures forall s: M.Session, u: Lifecycle.Update ::
              M.AcceptUpdate(cfg, s, u).operation == s.operation
    ensures forall s: M.Session, call: Tape.Call :: M.Notify(cfg, s, call).operation == s.operation
  {
    hide Lifecycle.Reduce, Tape.Guard;
  }

  lemma RunnerCleanup(cfg: M.Config, s: M.Session, step: M.Step)
    requires M.OfRunner(step)
    ensures CleanupIf(s, M.TakeRunner(cfg, s, step))
  {
    hide M.Select, M.Expire;
    SelectingStartsCleanup();
  }

  lemma DispatchCleanup(cfg: M.Config, s: M.Session)
    ensures CleanupIf(s, M.DispatchStep(cfg, s))
  {
    hide M.Select, M.Expire, P.Observe;
    SelectingStartsCleanup();
  }

  lemma WritingCleanup(cfg: M.Config, s: M.Session, written: bool)
    ensures CleanupIf(s, M.PublishStarted(cfg, s, written))
    ensures CleanupIf(s, M.PublishDelta(cfg, s, written))
    ensures CleanupIf(s, M.PublishText(cfg, s, written))
    ensures CleanupIf(s, M.PublishTerminal(cfg, s, written))
  {
    hide M.Hear, M.TerminalOf;
  }

  lemma AdmittingCleanup(cfg: M.Config, s: M.Session)
    ensures CleanupIf(s, M.AdmitStarted(cfg, s)) && CleanupIf(s, M.AdmitDeferred(cfg, s))
    ensures CleanupIf(s, M.AdmitDelta(cfg, s)) && CleanupIf(s, M.AdmitText(cfg, s))
    ensures CleanupIf(s, M.AdmitTerminal(cfg, s))
    ensures CleanupIf(s, M.NotifyUsageStep(cfg, s)) && CleanupIf(s, M.NotifyLimitsStep(cfg, s))
  {
    hide M.AcceptUpdate, M.Notify;
    AcceptingKeepsCleanup(cfg);
  }

  lemma DecidingCleanup(cfg: M.Config, s: M.Session)
    ensures CleanupIf(s, M.EnterObservationStep(cfg, s))
    ensures CleanupIf(s, M.RecheckDeadlineStep(cfg, s)) && CleanupIf(s, M.ChooseStep(cfg, s))
  {
    hide M.Select, M.Expire;
    SelectingStartsCleanup();
  }

  lemma HolderCleanup(cfg: M.Config, s: M.Session, step: M.Step)
    requires M.OfHolder(step)
    ensures CleanupIf(s, M.TakeHolder(cfg, s, step))
  {
    hide CleanupIf, M.PublishStarted, M.PublishDelta, M.PublishText, M.PublishTerminal;
    hide M.AdmitStarted, M.AdmitDeferred, M.AdmitDelta, M.AdmitText, M.AdmitTerminal;
    hide M.NotifyUsageStep, M.NotifyLimitsStep, M.EnterObservationStep, M.RecheckDeadlineStep;
    hide M.ChooseStep, M.DispatchStep;
    WritingCleanup(cfg, s, true);
    WritingCleanup(cfg, s, false);
    AdmittingCleanup(cfg, s);
    DecidingCleanup(cfg, s);
    DispatchCleanup(cfg, s);
  }

  lemma OtherCleanup(cfg: M.Config, s: M.Session, step: M.Step)
    requires !M.OfRunner(step) && !M.OfHolder(step)
    requires !step.DoCleanupFinishes? && !step.DoCleanupForced?
    ensures CleanupIf(s, M.TakeOther(cfg, s, step))
  {
    hide M.Latch, M.EnsureCleanup, M.AcceptUpdate;
    SelectingStartsCleanup();
    AcceptingKeepsCleanup(cfg);
  }

  lemma StepKeepsCleanup(cfg: M.Config, s: M.Session, step: M.Step)
    requires M.Take(cfg, s, step).Some? && !step.DoCleanupFinishes? && !step.DoCleanupForced?
    ensures SameCleanup(s, M.Take(cfg, s, step).value)
  {
    hide SameCleanup, M.TakeRunner, M.TakeHolder, M.TakeOther;
    if M.OfRunner(step) {
      RunnerCleanup(cfg, s, step);
    } else if M.OfHolder(step) {
      HolderCleanup(cfg, s, step);
    } else {
      OtherCleanup(cfg, s, step);
    }
  }

  /** How the session settles its cleanup. */
  lemma SettlingSteps(cfg: M.Config, s: M.Session, failed: bool)
    ensures M.Take(cfg, s, M.DoCleanupFinishes(failed)) == M.CleanupFinishes(s, failed)
    ensures M.Take(cfg, s, M.DoCleanupForced) == M.CleanupForced(s)
  {
    hide M.CleanupFinishes, M.CleanupForced;
  }

  /** Closed, and no cleanup under way. */
  predicate Quiet(o: O.Operation) { o.state.Closed? && !o.cleanup.Running? }

  predicate QuietIf(s: O.Operation, t: Option<O.Operation>) {
    Quiet(s) && t.Some? ==>
      Quiet(t.value) && t.value.cleanupFailed == s.cleanupFailed && t.value.forcing == s.forcing
  }

  predicate ForcingIf(s: O.Operation, t: Option<O.Operation>) {
    t.Some? ==> t.value.forcing == s.forcing
  }

  lemma ReadingQuiet(model: string, s: O.Operation, result: O.WorkResult, code: P.FailureCode)
    requires s.automaton.Coherent()
    ensures QuietIf(s, O.ResumeWork(model, s, result)) && QuietIf(s, O.ClientFails(model, s, code))
    ensures ForcingIf(s, O.ResumeWork(model, s, result)) && ForcingIf(s, O.ClientFails(model, s, code))
  {
    hide Batch, IsProgress;
  }

  lemma TopQuiet(s: O.Operation, aborted: bool)
    ensures QuietIf(s, O.Top(s, aborted)) && ForcingIf(s, O.Top(s, aborted))
  {
    hide ResponsesAutomaton.Automaton.Coherent;
    if s.consumer.AtTop? && s.state.TerminalPending? && s.queue != [] { TopPops(s, aborted); }
  }

  lemma HandingQuiet(s: O.Operation, aborted: bool)
    ensures QuietIf(s, O.HandProgress(s, aborted)) && ForcingIf(s, O.HandProgress(s, aborted))
  {
    hide ResponsesAutomaton.Automaton.Coherent;
  }

  lemma CleanupQuiet(s: O.Operation, flag: bool)
    ensures QuietIf(s, O.CleanupReaps(s, flag)) && ForcingIf(s, O.CleanupReaps(s, flag))
    ensures QuietIf(s, O.CleanupFinishes(s, flag)) && ForcingIf(s, O.CleanupFinishes(s, flag))
  {
    hide ResponsesAutomaton.Automaton.Coherent;
  }

  lemma WorkingQuiet(s: O.Operation)
    ensures QuietIf(s, O.BeginWork(s)) && ForcingIf(s, O.BeginWork(s))
    ensures QuietIf(s, O.WorkEnds(s)) && ForcingIf(s, O.WorkEnds(s))
    ensures QuietIf(s, O.ForceInterrupts(s)) && ForcingIf(s, O.ForceInterrupts(s))
    ensures QuietIf(s, O.ForceReaps(s)) && ForcingIf(s, O.ForceReaps(s))
  {
    hide ResponsesAutomaton.Automaton.Coherent;
  }

  lemma EndingQuiet(s: O.Operation)
    ensures QuietIf(s, O.FinishTerminal(s)) && ForcingIf(s, O.FinishTerminal(s))
    ensures QuietIf(s, O.JoinCleanup(s)) && ForcingIf(s, O.JoinCleanup(s))
    ensures QuietIf(s, O.Install(s)) && ForcingIf(s, O.Install(s))
  {
    hide ResponsesAutomaton.Automaton.Coherent;
  }

  lemma AbortingQuiet(s: O.Operation)
    ensures QuietIf(s, O.AbortConsumer(s)) && ForcingIf(s, O.AbortConsumer(s))
    ensures QuietIf(s, O.SelectConsumerCancellation(s))
    ensures ForcingIf(s, O.SelectConsumerCancellation(s))
  {
    hide ResponsesAutomaton.Automaton.Coherent;
  }

  /** A closed operation stays as it is, and only the session begins and ends a forced cleanup. */
  lemma PrivateQuiet(model: string, s: O.Operation, step: O.Step)
    requires s.automaton.Coherent() && Private(step)
    ensures QuietIf(s, O.Take(model, s, step)) && ForcingIf(s, O.Take(model, s, step))
  {
    hide QuietIf, ForcingIf, O.Top, O.BeginWork, O.WorkEnds, O.HandProgress, O.ResumeWork;
    hide O.ClientFails, O.FinishTerminal, O.JoinCleanup, O.Install, O.AbortConsumer;
    hide O.SelectConsumerCancellation, O.CleanupReaps, O.CleanupFinishes, O.ForceInterrupts;
    hide O.ForceReaps;
    match step
    case DoTop(aborted) => TopQuiet(s, aborted);
    case DoHandProgress(aborted) => HandingQuiet(s, aborted);
    case DoCleanupReaps(created) => CleanupQuiet(s, created);
    case DoCleanupFinishes(failed) => CleanupQuiet(s, failed);
    case DoResumeWork(result) => ReadingQuiet(model, s, result, P.Unknown);
    case DoClientFails(code) => ReadingQuiet(model, s, O.StreamCreated(true), code);
    case _ =>
      WorkingQuiet(s);
      EndingQuiet(s);
      AbortingQuiet(s);
  }

  // ----- The joint invariant -----

  /** The reads brought what the operation handed out, in order. */
  ghost predicate ReadsLinked(w: World) {
    && Seen(w.session) <= w.arrived
    && (Steady(w.session) ==> Seen(w.session) == w.arrived)
    && w.arrived <= w.operation.delivered
  }

  /** The operation is released when the session's cleanup is settled, and both agree on the verdict. */
  predicate CleanupLinked(w: World) {
    var s := w.session.operation;
    && (s.cleanup.Settled? ==> Quiet(w.operation))
    && (s.cleanup.Settled? && s.cleanupCalls == [M.Primary(s.cleanup.mode)] ==>
          s.cleanup.failed == w.operation.cleanupFailed)
    && (w.operation.forcing.Some? ==> s.cleanup.InProgress?)
  }

  lemma SessionLinks(cfg: M.Config, w: World, step: M.Step)
    requires S.Inv(cfg, w.session) && ReadsLinked(w) && CleanupLinked(w)
    requires BySession(cfg, w, step).Some?
    requires !step.DoCleanupFinishes? && !step.DoCleanupForced?
    requires !(step.DoFinishRead? && step.read.Arrived?)
    ensures ReadsLinked(BySession(cfg, w, step).value) && CleanupLinked(BySession(cfg, w, step).value)
  {
    hide S.Inv, M.Take, Seen, Steady, Quiet;
    StepSees(cfg, w.session, step);
    StepKeepsCleanup(cfg, w.session, step);
  }

  lemma PrivateLinks(model: string, w: World, step: O.Step)
    requires w.operation.automaton.Coherent() && ReadsLinked(w) && CleanupLinked(w)
    requires ByOperation(model, w, step).Some? && (Private(step) || step.DoEnter?)
    ensures ReadsLinked(ByOperation(model, w, step).value)
    ensures CleanupLinked(ByOperation(model, w, step).value)
  {
    hide O.Take, Seen, Steady, Quiet, Private;
    OR.TakeForward(model, w.operation, step);
    if step.DoEnter? { EnterQuiet(model, w.operation); } else { PrivateQuiet(model, w.operation, step); }
  }

  lemma EnterQuiet(model: string, s: O.Operation)
    requires s.automaton.Coherent()
    ensures QuietIf(s, O.Take(model, s, O.DoEnter)) && ForcingIf(s, O.Take(model, s, O.DoEnter))
  {}

  lemma ArriveLinks(cfg: M.Config, w: World, reapFailed: bool)
    requires S.Inv(cfg, w.session) && ReadsLinked(w) && CleanupLinked(w)
    requires |w.operation.delivered| == |w.arrived| + 1
    requires var all := w.operation.delivered;
             M.Take(cfg, w.session, M.DoFinishRead(M.Arrived(all[|all| - 1]), reapFailed)).Some?
    ensures var all := w.operation.delivered;
            var v := BySession(cfg, w.(arrived := all),
                               M.DoFinishRead(M.Arrived(all[|all| - 1]), reapFailed)).value;
            ReadsLinked(v) && CleanupLinked(v)
  {
    hide S.Inv, M.Take, Seen, Steady, Quiet;
    var all := w.operation.delivered;
    ArrivalSees(cfg, w.session, all[|all| - 1], reapFailed);
    assert all == w.arrived + [all[|all| - 1]];
  }

  /** What the operation's own steps for the session's cleanup leave behind. */
  lemma CancelLinks(model: string, w: World)
    requires w.operation.automaton.Coherent() && ReadsLinked(w) && CleanupLinked(w)
    requires w.session.operation.cleanup.InProgress? && w.operation.forcing.None?
    ensures ReadsLinked(ByOperation(model, w, O.DoCancel).value)
    ensures CleanupLinked(ByOperation(model, w, O.DoCancel).value)
  {
    hide Seen, Steady;
  }

  lemma ForceLinks(model: string, w: World)
    requires w.operation.automaton.Coherent() && ReadsLinked(w) && CleanupLinked(w)
    requires w.session.operation.cleanup.InProgress? && ByOperation(model, w, O.DoForceBegins).Some?
    ensures ReadsLinked(ByOperation(model, w, O.DoForceBegins).value)
    ensures CleanupLinked(ByOperation(model, w, O.DoForceBegins).value)
  {
    hide Seen, Steady;
  }

  /** A cleanup settled by an answer of the operation. */
  lemma AnswerLinks(cfg: M.Config, w: World, failed: bool)
    requires S.Inv(cfg, w.session) && ReadsLinked(w)
    requires Quiet(w.operation) && w.operation.forcing.None? && failed == w.operation.cleanupFailed
    requires BySession(cfg, w, M.DoCleanupFinishes(failed)).Some?
    ensures ReadsLinked(BySession(cfg, w, M.DoCleanupFinishes(failed)).value)
    ensures CleanupLinked(BySession(cfg, w, M.DoCleanupFinishes(failed)).value)
  {
    hide S.Inv, M.Take, Seen, Steady, Quiet;
    StepSees(cfg, w.session, M.DoCleanupFinishes(failed));
    SettlingSteps(cfg, w.session, failed);
  }

  /** A cleanup settled by force makes no claim about the verdict. */
  lemma ForcedLinks(cfg: M.Config, w: World)
    requires S.Inv(cfg, w.session) && ReadsLinked(w)
    requires Quiet(w.operation) && w.operation.forcing.None?
    requires BySession(cfg, w, M.DoCleanupForced).Some?
    ensures ReadsLinked(BySession(cfg, w, M.DoCleanupForced).value)
    ensures CleanupLinked(BySession(cfg, w, M.DoCleanupForced).value)
  {
    hide S.Inv, M.Take, Seen, Steady, Quiet;
    StepSees(cfg, w.session, M.DoCleanupForced);
    SettlingSteps(cfg, w.session, true);
    CallsInProgress(cfg, w.session);
  }

  lemma CallsInProgress(cfg: M.Config, s: M.Session)
    requires S.Inv(cfg, s)
    ensures s.operation.cleanup.InProgress? ==>
              s.operation.cleanupCalls == [M.Primary(s.operation.cleanup.mode)]
  {
    hide S.InvLock, S.InvStart, S.InvFinalizer, S.InvLife, S.InvText, S.InvPoint, S.InvTape;
    hide S.InvBudget, S.InvEvents, S.InvScan;
  }

  /** `cancel` returns only from a closed operation, and a forced cleanup ends in one. */
  lemma AnswersAreQuiet(model: string, o: O.Operation)
    requires o.automaton.Coherent() && OperationSafety.Inv(model, o)
    ensures O.CancelReturns(o).Some? ==>
              Quiet(O.CancelReturns(o).value) && O.CancelReturns(o).value.forcing == o.forcing
    ensures O.ForceEnds(o).Some? ==>
              Quiet(O.ForceEnds(o).value) && O.ForceEnds(o).value.forcing.None?
    ensures O.WaitClosed(o).Some? ==> Quiet(o) && O.WaitClosed(o).value == !o.cleanupFailed
  {
    hide OperationSafety.InvContent, OperationSafety.InvTerminal, OperationSafety.InvConsumer;
  }

  lemma AnsweringSteps(model: string, o: O.Operation)
    requires o.automaton.Coherent()
    ensures O.Take(model, o, O.DoCancelReturns) == O.CancelReturns(o)
    ensures O.Take(model, o, O.DoForceEnds) == O.ForceEnds(o)
  {
    hide O.CancelReturns, O.ForceEnds;
  }

  lemma AnsweredLinks(model: string, cfg: M.Config, w: World, forced: bool)
    requires w.operation.automaton.Coherent() && OperationSafety.Inv(model, w.operation)
    requires S.Inv(cfg, w.session) && ReadsLinked(w) && (!forced ==> w.operation.forcing.None?)
    requires Answered(model, cfg, w, if forced then O.DoForceEnds else O.DoCancelReturns, forced).Some?
    ensures var v := Answered(model, cfg, w, if forced then O.DoForceEnds else O.DoCancelReturns,
                              forced).value;
            ReadsLinked(v) && CleanupLinked(v)
  {
    hide S.Inv, OperationSafety.Inv, M.Take, O.Take, Seen, Steady, Quiet, CleanupLinked;
    hide O.CancelReturns, O.ForceEnds;
    var step := if forced then O.DoForceEnds else O.DoCancelReturns;
    OR.TakeForward(model, w.operation, step);
    AnsweringSteps(model, w.operation);
    AnswersAreQuiet(model, w.operation);
    var v := ByOperation(model, w, step).value;
    if forced { ForcedLinks(cfg, v); } else { AnswerLinks(cfg, v, v.operation.cleanupFailed); }
  }

  lemma MoveLinks(model: string, cfg: M.Config, w: World, move: Move)
    requires w.operation.automaton.Coherent() && OperationSafety.Inv(model, w.operation)
    requires S.Inv(cfg, w.session) && ReadsLinked(w) && CleanupLinked(w)
    requires Make(model, cfg, w, move).Some?
    ensures ReadsLinked(Make(model, cfg, w, move).value)
    ensures CleanupLinked(Make(model, cfg, w, move).value)
  {
    hide S.Inv, OperationSafety.Inv, M.Take, ByOperation, Answered, ReadsLinked, CleanupLinked;
    match move
    case Alone(step) => SessionLinks(cfg, w, step);
    case Inside(step) => PrivateLinks(model, w, step);
    case IssueRead =>
      SessionLinks(cfg, w, M.DoBeginRead);
      PrivateLinks(model, BySession(cfg, w, M.DoBeginRead).value, O.DoEnter);
    case Arrive(reapFailed) => ArriveLinks(cfg, w, reapFailed);
    case StreamStops(reapFailed) => SessionLinks(cfg, w, M.DoFinishRead(M.StreamOver, reapFailed));
    case CallCancel => CancelLinks(model, w);
    case CancelAnswers => AnsweredLinks(model, cfg, w, false);
    case WaitAnswers =>
      AnswersAreQuiet(model, w.operation);
      AnswerLinks(cfg, w, w.operation.cleanupFailed);
    case BeginForce => ForceLinks(model, w);
    case EndForce => AnsweredLinks(model, cfg, w, true);
  }

  ghost predicate Reached(
    model: string, cfg: M.Config, seed: L.Counters, now: int, moves: seq<Move>, w: World)
  {
    S.Wellformed(cfg, seed) && Joint(model, cfg, seed, now, moves) == Some(w)
  }

  /** Each side is in a state of one of its own runs. */
  lemma ReachedBoth(
    model: string, cfg: M.Config, seed: L.Counters, now: int, moves: seq<Move>, w: World)
    requires Reached(model, cfg, seed, now, moves, w)
    ensures R.Reachable(cfg, seed, now, w.sessionSteps, w.session)
    ensures OR.Schedule(model, w.operationSteps) == Some(w.operation)
    ensures S.Inv(cfg, w.session) && OperationSafety.Inv(model, w.operation)
  {
    hide S.Inv, OperationSafety.Inv, M.Take, O.Take, Joint, M.Schedule, OR.Schedule, M.Created;
    JointProjects(model, cfg, seed, now, moves);
    R.ReachableInv(cfg, seed, now, w.sessionSteps, w.session);
    OR.ScheduledInv(model, w.operationSteps);
  }

  lemma {:induction false} Linked(
    model: string, cfg: M.Config, seed: L.Counters, now: int, moves: seq<Move>, w: World)
    requires Reached(model, cfg, seed, now, moves, w)
    ensures ReadsLinked(w) && CleanupLinked(w)
    decreases |moves|
  {
    hide S.Inv, OperationSafety.Inv, Make, ReadsLinked, CleanupLinked, M.Take, O.Take, M.Created;
    hide R.Reachable, OR.Schedule;
    if moves == [] {
      NothingRead(cfg, seed, now);
    } else {
      var front := moves[..|moves| - 1];
      var before := Joint(model, cfg, seed, now, front).value;
      Linked(model, cfg, seed, now, front, before);
      ReachedBoth(model, cfg, seed, now, front, before);
      MoveLinks(model, cfg, before, moves[|moves| - 1]);
    }
  }

  lemma NothingRead(cfg: M.Config, seed: L.Counters, now: int)
    ensures var w := World(M.Created(cfg, seed, now), O.CREATED, [], [], []);
            ReadsLinked(w) && CleanupLinked(w)
  {}

  // ----- Main results -----

  /** Composition without any assumption on what was read.  In every interleaving the session has examined
      a prefix of what the adapter handed out and never rejects it; and a handed-out success completes the
      session with exactly the streamed text, unless the deadline wins. */
  lemma AdapterNeverRejected(
    model: string, cfg: M.Config, seed: L.Counters, now: int, moves: seq<Move>, w: World)
    requires Reached(model, cfg, seed, now, moves, w)
    ensures w.session.stream.delivered <= w.operation.delivered
    ensures w.session.selection != Some(M.ChooseInvalidResponse(M.OwnGrammar))
    ensures HasCompleted(w.session.stream.delivered) ==>
              || w.session.selection == Some(M.ChooseDeadline)
              || w.session.selection == Some(M.ChooseCompleted)
              || (w.session.selection.None? && w.session.lock.Held?
                  && w.session.lock.at == M.Choosing(M.ChooseCompleted))
    ensures w.session.selection == Some(M.ChooseCompleted) ==>
              w.session.stream.completedText == Some(P.DeltaText(w.session.stream.delivered))
  {
    hide Reached, S.Inv, OperationSafety.Inv, R.Reachable, OR.Schedule, HasCompleted, P.DeltaText;
    Linked(model, cfg, seed, now, moves, w);
    ReachedBoth(model, cfg, seed, now, moves, w);
    assert w.session.stream.delivered <= Seen(w.session);
    OR.AdapterSatisfiesSession(model, w.operationSteps, cfg, seed, now, w.sessionSteps, w.session);
  }

  /** No session terminal goes out while the provider operation is open: it is closed, its own cleanup is
      not under way, and nobody is forcing it. */
  lemma ReleasedBeforeTerminal(
    model: string, cfg: M.Config, seed: L.Counters, now: int, moves: seq<Move>, w: World)
    requires Reached(model, cfg, seed, now, moves, w)
    ensures R.TerminalOut(w.session) && w.session.operation.started ==>
              Quiet(w.operation) && w.operation.forcing.None?
  {
    hide Reached, S.Inv, OperationSafety.Inv, R.Reachable, OR.Schedule, Quiet, ReadsLinked, R.TerminalOut;
    Linked(model, cfg, seed, now, moves, w);
    ReachedBoth(model, cfg, seed, now, moves, w);
    R.CleanupOnceAndBeforeTerminal(cfg, seed, now, w.sessionSteps, w.session);
  }

  /** Unless it was forced, the session reports an unconfirmed cleanup exactly when the operation could not
      confirm its release; and a completed session never does. */
  lemma VerdictIsTheOperations(
    model: string, cfg: M.Config, seed: L.Counters, now: int, moves: seq<Move>, w: World)
    requires Reached(model, cfg, seed, now, moves, w)
    requires w.session.operation.cleanup.Settled?
    requires w.session.operation.cleanupCalls == [M.Primary(w.session.operation.cleanup.mode)]
    ensures w.session.operation.cleanup.failed == w.operation.cleanupFailed
    ensures w.session.selection == Some(M.ChooseCompleted) ==> !w.session.operation.cleanup.failed
  {
    hide Reached, S.Inv, OperationSafety.Inv, R.Reachable, OR.Schedule, Quiet, ReadsLinked;
    Linked(model, cfg, seed, now, moves, w);
    ReachedBoth(model, cfg, seed, now, moves, w);
    if w.session.selection == Some(M.ChooseCompleted) {
      EndingArrived(model, cfg, seed, now, moves, w);
      OR.TerminalsFollowCleanup(model, w.operationSteps);
    }
  }

  /** An outcome that waits for the operation is one whose ending the operation has handed out. */
  lemma EndingArrived(
    model: string, cfg: M.Config, seed: L.Counters, now: int, moves: seq<Move>, w: World)
    requires Reached(model, cfg, seed, now, moves, w)
    requires w.session.selection.Some? && w.session.selection.value.Mode().WaitClosed?
    ensures !NoEnding(w.operation.delivered)
    ensures w.session.selection.value.ChooseCompleted? ==> HasCompleted(w.operation.delivered)
  {
    hide Reached, S.Inv, OperationSafety.Inv, R.Reachable, OR.Schedule, P.TurnGrammar, P.EndSeen;
    hide S.EndsAs, R.OpenBefore;
    AdapterNeverRejected(model, cfg, seed, now, moves, w);
    ReachedBoth(model, cfg, seed, now, moves, w);
    R.ProviderGrammarDecides(cfg, seed, now, w.sessionSteps, w.session);
    var seen := w.session.stream.delivered;
    var last := seen[|seen| - 1];
    assert w.operation.delivered[|seen| - 1] == last;
    assert last.EndsStream();
  }

  /** `wait_closed` never makes the session wait: whenever the session waits for it, the operation has
      already closed and cleaned up. */
  lemma WaitNeverBlocks(
    model: string, cfg: M.Config, seed: L.Counters, now: int, moves: seq<Move>, w: World)
    requires Reached(model, cfg, seed, now, moves, w)
    requires w.session.operation.cleanup == M.InProgress(M.CleanupMode.WaitClosed)
    ensures O.WaitClosed(w.operation).Some?
  {
    hide Reached, S.Inv, OperationSafety.Inv, R.Reachable, OR.Schedule;
    ReachedBoth(model, cfg, seed, now, moves, w);
    WaitingOutcome(cfg, w.session);
    EndingArrived(model, cfg, seed, now, moves, w);
    OR.TerminalsFollowCleanup(model, w.operationSteps);
  }

  lemma WaitingOutcome(cfg: M.Config, s: M.Session)
    requires S.Inv(cfg, s) && s.operation.cleanup == M.InProgress(M.CleanupMode.WaitClosed)
    ensures s.selection.Some? && s.selection.value.Mode().WaitClosed?
  {
    hide S.InvLock, S.InvStart, S.InvFinalizer, S.InvLife, S.InvText, S.InvPoint, S.InvTape;
    hide S.InvBudget, S.InvEvents, S.InvScan;
  }
}
