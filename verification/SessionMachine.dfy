/** The concurrent machine behind one provider-backed session: `provider_session.py`.

    Every function below is one uninterrupted stretch of code between two awaits.  The decision lock
    is explicit: `lock` names its holder and the point the holder has reached, so clock ticks, the
    deadline watcher, provider cleanup and other tasks interleave inside a publication.  The
    deadline-state lock guards sections without an await; only the watcher is ever observed holding
    it, between acquiring it and latching. */
module SessionMachine {
  import opened Prelude
  import opened Lifecycle
  import opened LoopLimits
  import opened Tape
  import P = ProviderEvents
  import Utf8

  const MAX_PROVIDER_TURN_OUTPUT_BYTES := 8192

  const PROVIDER_INVALID_RESPONSE :=
    Failure("provider_invalid_response", "The provider returned an invalid response.")
  const TOOL_UNAVAILABLE :=
    Failure("tool_unavailable", "Provider-requested tools are not available.")
  const MODEL_TURN_LIMIT_EXCEEDED :=
    Failure(MODEL_TURN_LIMIT_EXCEEDED_CODE, "The model-turn limit was reached.")
  const PROVIDER_WORK_DEADLINE_EXCEEDED :=
    Failure(PROVIDER_WORK_DEADLINE_EXCEEDED_CODE, "Provider work exceeded its time limit.")
  const ASSISTANT_OUTPUT_LIMIT_EXCEEDED :=
    Failure(ASSISTANT_OUTPUT_LIMIT_EXCEEDED_CODE, "Assistant output exceeded its byte limit.")
  const TOOL_CALL_LIMIT_EXCEEDED :=
    Failure(TOOL_CALL_LIMIT_EXCEEDED_CODE, "The provider tool-call limit was reached.")

  datatype Config = Config(
    sessionId: string,
    startCommand: string,
    task: string,
    limits: Limits,
    deadline: int)

  // ----- The wire grammar of one session -----

  datatype Phase = Silent | Streaming | TextDone | Over

  /** What a reader of the protocol stream knows after some events. */
  datatype Audience = Audience(count: nat, text: string, phase: Phase, valid: bool)

  const SILENT := Audience(0, "", Silent, true)

  /** Started, deltas, then exactly one of completion (text, then end), failure or cancellation;
      numbered 1, 2, 3, ...; nothing after the end. */
  predicate Expected(cfg: Config, a: Audience, e: Event) {
    && e.sessionId == cfg.sessionId
    && e.sequence == a.count + 1
    && e.correlationId.Some?
    && (!e.body.SessionCancelled? ==> e.correlationId == Some(cfg.startCommand))
    && match e.body {
         case SessionStarted => a.phase.Silent?
         case AssistantDelta(text) => a.phase.Streaming? && text != ""
         case AssistantCompleted(text) => a.phase.Streaming? && text == a.text && text != ""
         case SessionCompleted => a.phase.TextDone?
         case SessionCancelled => a.phase.Streaming?
         case SessionFailed(_, _) => a.phase.Streaming?
       }
  }

  function Hear(cfg: Config, a: Audience, e: Event): Audience {
    Audience(
      a.count + 1,
      a.text + (if e.body.AssistantDelta? then e.body.text else ""),
      if e.body.EndsSession() then Over
      else if e.body.AssistantCompleted? then TextDone else Streaming,
      a.valid && Expected(cfg, a, e))
  }

  function HearAll(cfg: Config, events: seq<Event>): Audience {
    if events == [] then SILENT
    else Hear(cfg, HearAll(cfg, events[..|events| - 1]), events[|events| - 1])
  }

  /** The published events form a prefix of a legal session. */
  predicate SessionGrammar(cfg: Config, events: seq<Event>) { HearAll(cfg, events).valid }

  datatype CleanupMode = WaitClosed | Cancel

  /** Why the session itself rejected the provider turn. */
  datatype Reason = OwnGrammar | StreamEnded | StartFailed

  /** A selected outcome; kind, cleanup mode, failure and correlation are functions of it. */
  datatype Choice =
    | ChooseCompleted
    | ChooseProviderFailure(code: P.FailureCode, message: string)
    | ChooseInvalidResponse(reason: Reason)
    | ChooseDeadline
    | ChooseTurnLimit
    | ChooseOutputLimit
    | ChooseToolLimit
    | ChooseToolUnavailable
    | ChooseUserCancel(command: string)
    | ChooseTeardown
  {
    function Mode(): CleanupMode {
      if ChooseCompleted? || ChooseProviderFailure? then WaitClosed else Cancel
    }

    function TheFailure(): Option<Failure> {
      match this
      case ChooseProviderFailure(code, message) =>
        Some(Failure(P.SessionFailureCode(code), message))
      case ChooseInvalidResponse(_) => Some(PROVIDER_INVALID_RESPONSE)
      case ChooseDeadline => Some(PROVIDER_WORK_DEADLINE_EXCEEDED)
      case ChooseTurnLimit => Some(MODEL_TURN_LIMIT_EXCEEDED)
      case ChooseOutputLimit => Some(ASSISTANT_OUTPUT_LIMIT_EXCEEDED)
      case ChooseToolLimit => Some(TOOL_CALL_LIMIT_EXCEEDED)
      case ChooseToolUnavailable => Some(TOOL_UNAVAILABLE)
      case _ => None
    }

    /** The budget whose exhaustion this outcome reports. */
    function Budget(): Option<Exhaustion> {
      match this
      case ChooseDeadline => Some(ProviderWork)
      case ChooseTurnLimit => Some(ModelTurns)
      case ChooseOutputLimit => Some(AssistantOutput)
      case ChooseToolLimit => Some(ToolCalls)
      case _ => None
    }
  }

  datatype Cleanup = NotStarted | InProgress(mode: CleanupMode) | Settled(mode: CleanupMode, failed: bool)

  /** A call made on the provider operation to release it. */
  datatype CleanupCall = Primary(mode: CleanupMode) | Force

  datatype Owner = Runner | Caller | Finalizer

  /** How far the holder of the decision lock has come. */
  datatype Point =
    | EmitStarted
    | AcceptStarted(event: Event)
    | AcceptDeferred
    | EnterObservation(observed: P.ProviderEvent)
    | DispatchObservation(observed: P.ProviderEvent)
    | EmitDelta(text: string)
    | AcceptDelta(event: Event, text: string)
    | NotifyUsage(usage: Usage)
    | RecheckDeadline
    | Choosing(candidate: Choice)
    | EmitText
    | AcceptText(event: Event)
    | NotifyLimits
    | EmitTerminal
    | AcceptTerminal(event: Event)

  datatype DecisionLock = Free | Held(owner: Owner, at: Point)

  datatype Watcher = Absent | Waiting | HoldsGuard | Stopped

  datatype RunnerPc =
    | NotRun
    | AnnouncingStart
    | StartingProvider
    | LoopTop
    | Reading
    | Observing(observed: P.ProviderEvent)
    | SelectingDeadline
    | SelectingInvalid(reason: Reason)
    | AfterLoop
    | Raised
    | Recovering(cancelled: bool)
    | Recovered(cancelled: bool)
    | TearingDown
    | Joining
    | Settling
    | Returned
    | Abandoned

  datatype FinalizerPc = NoFinalizer | AwaitStart | Work | AwaitCleanup | AwaitTerminal | InTerminal | Ended

  /** What went out on the protocol stream, what a reader makes of it, and whether a write failed. */
  datatype Output = Output(published: seq<Event>, audience: Audience, broken: bool)

  /** The calls made on the attached transcript, and what it has accepted. */
  datatype Recording = Recording(calls: seq<Call>, tape: Option<Tape>)

  /** The provider stream as admitted, and everything examined so far. */
  datatype Stream = Stream(
    acceptedText: seq<string>,
    acceptedBytes: nat,
    completedText: Option<string>,
    usageObserved: bool,
    delivered: seq<P.ProviderEvent>,
    scan: P.Scan,
    deltaWriteFailed: bool)

  datatype Start = Start(deferred: Option<string>, settled: bool, succeeded: bool)

  datatype Budget = Budget(latched: bool, counters: Counters)

  /** The provider operation, its one cleanup task and the read in flight. */
  datatype Operation = Operation(
    started: bool,
    cleanup: Cleanup,
    cleanupCalls: seq<CleanupCall>,
    pendingRead: bool,
    pendingFailed: bool)

  datatype Ending = Ending(limitsObserved: bool, terminalEmitted: bool, diagnosticEmitted: bool)

  datatype Session = Session(
    life: State,
    output: Output,
    recording: Recording,
    stream: Stream,
    start: Start,
    selection: Option<Choice>,
    budget: Budget,
    operation: Operation,
    ending: Ending,
    lock: DecisionLock,
    watcher: Watcher,
    runner: RunnerPc,
    finalizer: FinalizerPc,
    now: int,
    faulted: bool)
  {
    /** The deadline is latched or has arrived by the clock. */
    predicate Expired(cfg: Config) { budget.latched || now >= cfg.deadline }

    predicate GuardFree() { !watcher.HoldsGuard? }

    predicate RunnerFree() { !(lock.Held? && lock.owner.Runner?) }

    /** `run` is over. */
    predicate Gone() { runner.Returned? || runner.Abandoned? }

    function Charge(charged: Counters): Session { this.(budget := budget.(counters := charged)) }

    function Examine(observed: P.ProviderEvent): Session {
      this.(stream := stream.(delivered := stream.delivered + [observed],
                              scan := P.Observe(stream.scan, observed)))
    }
  }

  /** A constructed session with its observers attached: the submission is already recorded. */
  function Created(cfg: Config, seed: Counters, now: int): Session {
    var life := INITIAL.(status := Lifecycle.Starting, startCommandId := Some(cfg.startCommand),
                         task := Some(cfg.task));
    var submitted := RecordUpdate(TaskSubmitted(cfg.startCommand, cfg.task), life);
    Session(
      life,
      Output([], SILENT, false),
      Recording([submitted], Guard(cfg.sessionId, BLANK, submitted)),
      Stream([], 0, None, false, [], P.UNSEEN, false),
      Start(None, false, false),
      None,
      Budget(false, seed),
      Operation(false, NotStarted, [], false, false),
      Ending(false, false, false),
      Free, Absent, NotRun, NoFinalizer,
      now,
      false)
  }

  // ----- Shared sections -----

  /** Tell the attached transcript. */
  function Notify(cfg: Config, s: Session, call: Call): Session {
    s.(recording := Recording(
         s.recording.calls + [call],
         if s.recording.tape.None? then None
         else Guard(cfg.sessionId, s.recording.tape.value, call)))
  }

  /** Write one event on the protocol stream. */
  function Publish(cfg: Config, s: Session, event: Event): Session {
    s.(output := Output(s.output.published + [event], Hear(cfg, s.output.audience, event),
                        s.output.broken))
  }

  /** Reduce one update and tell the lifecycle observer; a rejection is an internal error. */
  function AcceptUpdate(cfg: Config, s: Session, u: Update): Session {
    match Reduce(s.life, u)
    case Accepted(next) => Notify(cfg, s.(life := next), RecordUpdate(u, next))
    case Rejected(_, _) => s.(faulted := true)
  }

  function NextEvent(cfg: Config, s: Session, body: Body, correlation: string): Event {
    Event(body, cfg.sessionId, |s.output.published| + 1, Some(correlation))
  }

  /** The one cleanup task: created on first need, never in a second mode. */
  function EnsureCleanup(s: Session, mode: CleanupMode): Session {
    if !s.operation.started then s
    else if s.operation.cleanup.NotStarted? then
      s.(operation := s.operation.(cleanup := InProgress(mode),
                                   cleanupCalls := s.operation.cleanupCalls + [Primary(mode)]))
    else if s.operation.cleanup.mode != mode then s.(faulted := true)
    else s
  }

  function Latch(s: Session): Session {
    EnsureCleanup(
      if s.budget.latched then s
      else s.(budget := Budget(true, MarkProviderWorkExhausted(s.budget.counters))),
      Cancel)
  }

  function Select(s: Session, choice: Choice): Session {
    if s.selection.Some? then s
    else s.(selection := Some(choice),
            finalizer := if choice.ChooseTeardown? then Work else AwaitStart)
  }

  /** Select the deadline failure: latch first, so cleanup has begun. */
  function Expire(s: Session): Session { Select(Latch(s), ChooseDeadline) }

  /** Deadline precedence: an expired deadline replaces any candidate. */
  function SelectCandidate(cfg: Config, s: Session, candidate: Choice): Session {
    if s.selection.Some? then s
    else if s.Expired(cfg) then Expire(s)
    else Select(s, candidate)
  }

  function SelectDeadlineIfDue(cfg: Config, s: Session): Session {
    if s.selection.None? && s.Expired(cfg) then Expire(s) else s
  }

  function Release(s: Session): Session { s.(lock := Free) }

  /** The protocol sink refused a line. */
  function Broken(s: Session): Session { s.(output := s.output.(broken := true)) }

  function Goto(s: Session, at: Point): Session
    requires s.lock.Held?
  {
    s.(lock := Held(s.lock.owner, at))
  }

  // ----- Clock, watcher and cleanup tasks -----

  function Tick(s: Session, elapsed: nat): Option<Session> { Some(s.(now := s.now + elapsed)) }

  function WatcherAcquire(cfg: Config, s: Session): Option<Session> {
    if s.watcher.Waiting? && s.now >= cfg.deadline then Some(s.(watcher := HoldsGuard)) else None
  }

  function WatcherLatch(s: Session): Option<Session> {
    if !s.watcher.HoldsGuard? then None
    else
      var done := s.(watcher := Stopped);
      Some(if s.selection.Some? then done else Latch(done))
  }

  function CleanupFinishes(s: Session, failed: bool): Option<Session> {
    if !s.operation.cleanup.InProgress? then None
    else Some(s.(operation := s.operation.(cleanup := Settled(s.operation.cleanup.mode, failed))))
  }

  /** The grace period ran out: the primary await is cancelled and the operation is forced. */
  function CleanupForced(s: Session): Option<Session> {
    if !s.operation.cleanup.InProgress? then None
    else
      Some(s.(operation := s.operation.(cleanup := Settled(s.operation.cleanup.mode, true),
                                        cleanupCalls := s.operation.cleanupCalls + [Force])))
  }

  // ----- The runner -----

  function Run(s: Session): Option<Session> {
    if !s.runner.NotRun? then None
    else Some(s.(runner := AnnouncingStart,
                 watcher := if s.selection.None? then Waiting else Absent))
  }

  function BeginStarted(s: Session): Option<Session> {
    if !(s.runner.AnnouncingStart? && s.lock.Free?) then None
    else Some(s.(runner := StartingProvider, lock := Held(Runner, EmitStarted)))
  }

  /** `written` says whether the protocol sink accepted the line. */
  function PublishStarted(cfg: Config, s: Session, written: bool): Option<Session> {
    if s.lock != Held(Runner, EmitStarted) then None
    else if !written then Some(Broken(Release(s)).(runner := Raised))
    else
      var event := NextEvent(cfg, s, SessionStarted, cfg.startCommand);
      Some(Publish(cfg, Goto(s, AcceptStarted(event)), event))
  }

  function SettleStart(s: Session): Session { Release(s).(start := Start(None, true, true)) }

  function AdmitStarted(cfg: Config, s: Session): Option<Session> {
    if !(s.lock.Held? && s.lock.at.AcceptStarted?) then None
    else
      var t := AcceptUpdate(cfg, s, Wire(s.lock.at.event));
      Some(if s.start.deferred.Some? then Goto(t, AcceptDeferred) else SettleStart(t))
  }

  function AdmitDeferred(cfg: Config, s: Session): Option<Session> {
    if !(s.lock.Held? && s.lock.at.AcceptDeferred? && s.start.deferred.Some?) then None
    else
      Some(SettleStart(AcceptUpdate(cfg, s, CancelRequested(s.start.deferred.value, cfg.sessionId))))
  }

  datatype StartResult = StartRaised | EventsRaised | Opened

  /** Admission, charge and the synchronous provider start; `before` and `during` are the time that
      passes before the first and during the provider call. */
  function StartProvider(cfg: Config, s: Session, result: StartResult, before: nat, during: nat)
    : Option<Session>
  {
    if !(s.runner.StartingProvider? && s.lock.Free? && s.GuardFree()) then None
    else
      var t := s.(now := s.now + before, runner := AfterLoop);
      if t.selection.Some? then Some(t)
      else if t.Expired(cfg) then Some(Expire(t))
      else
        var (charged, admitted) := AdmitModelTurn(cfg.limits, t.budget.counters);
        Some(if !admitted then Select(t.Charge(charged), ChooseTurnLimit)
             else OpenProvider(cfg, t.Charge(charged), result, during))
  }

  function OpenProvider(cfg: Config, s: Session, result: StartResult, during: nat): Session {
    var t := s.(operation := s.operation.(started := !result.StartRaised?), now := s.now + during);
    if t.Expired(cfg) then Expire(t)
    else if !result.Opened? then Select(t, ChooseInvalidResponse(StartFailed))
    else t.(runner := LoopTop)
  }

  function BeginRead(s: Session): Option<Session> {
    if !(s.runner.LoopTop? && s.RunnerFree()) then None
    else if s.selection.Some? then Some(s.(runner := AfterLoop))
    else Some(s.(runner := Reading, operation := s.operation.(pendingRead := true)))
  }

  /** How the wait for the read or the watcher ended: the read brought a value, or its end or an
      error; or the watcher is done and the read is not; or the wait itself was cancelled. */
  datatype ReadResult = Arrived(observed: P.ProviderEvent) | StreamOver | Unfinished | WaitBroken

  function FinishRead(cfg: Config, s: Session, result: ReadResult, reapFailed: bool): Option<Session> {
    if || !s.runner.Reading?
       || (result.Arrived? && !result.observed.Valid())
       || (result.Unfinished? && !s.watcher.Stopped?)
    then None
    else if result.WaitBroken? then Some(s.(runner := SelectingInvalid(StreamEnded)))
    else if s.Expired(cfg) then
      Some(s.(operation := s.operation.(pendingRead := false,
                                        pendingFailed := s.operation.pendingFailed || reapFailed),
              runner := SelectingDeadline))
    else
      Some(s.(operation := s.operation.(pendingRead := s.operation.pendingRead && result.Unfinished?),
              runner := if result.Arrived? then Observing(result.observed)
                        else SelectingInvalid(StreamEnded)))
  }

  function SelectExpired(s: Session): Option<Session> {
    if !(s.runner.SelectingDeadline? && s.lock.Free? && s.GuardFree()) then None
    else
      var t := s.(runner := AfterLoop);
      Some(if s.selection.Some? then t else Expire(t))
  }

  function BeginInvalid(s: Session): Option<Session> {
    if !(s.runner.SelectingInvalid? && s.lock.Free?) then None
    else
      Some(s.(lock := Held(Runner, Choosing(ChooseInvalidResponse(s.runner.reason))),
              runner := AfterLoop))
  }

  function BeginObservation(s: Session): Option<Session> {
    if !(s.runner.Observing? && s.lock.Free?) then None
    else Some(s.(lock := Held(Runner, EnterObservation(s.runner.observed)), runner := LoopTop))
  }

  function LeaveLoop(s: Session): Option<Session> {
    if !(s.runner.AfterLoop? && s.RunnerFree()) then None
    else Some(s.(runner := if s.selection.None? then SelectingInvalid(StreamEnded) else Joining))
  }

  function JoinFinalizer(s: Session): Option<Session> {
    if && (s.runner.Joining? || s.runner.Settling?)
       && s.RunnerFree() && (s.finalizer.Ended? || s.finalizer.NoFinalizer?)
    then Some(s.(runner := Returned))
    else None
  }

  /** The task that owns `run` is cancelled from outside.  Between its transactions it goes on to tear
      the session down; a transaction that is under way comes first.  The handler of a raised write
      remembers the cancellation, and the joins of both handlers absorb it. */
  function CancelRunner(s: Session): Option<Session> {
    match s.runner
    case NotRun => None
    case AnnouncingStart => None
    case Observing(_) => None
    case SelectingInvalid(_) => None
    case Returned => None
    case Abandoned => None
    case Raised => Some(s)
    case TearingDown => Some(s)
    case Settling => Some(s)
    case Recovering(_) => Some(s.(runner := Recovering(true)))
    case Recovered(_) => Some(s.(runner := Recovered(true)))
    case _ =>
      if !s.RunnerFree() then None
      else Some(s.(start := s.start.(settled := true), runner := TearingDown))
  }

  /** `run` catches an exception: no terminal is owed if the start was never published. */
  function HandleRaised(s: Session): Option<Session> {
    if !(s.runner.Raised? && s.RunnerFree()) then None
    else Some(s.(start := s.start.(settled := true),
                 runner := if s.selection.None? then Recovering(false) else Settling))
  }

  /** The handler of a raised write selects teardown as a transaction of its own. */
  function BeginRecovery(s: Session): Option<Session> {
    if !(s.runner.Recovering? && s.lock.Free?) then None
    else Some(s.(runner := Recovered(s.runner.cancelled),
                 lock := Held(Runner, Choosing(ChooseTeardown))))
  }

  /** Behind that transaction a remembered cancellation leaves the handler before it joins. */
  function ResumeRecovered(s: Session): Option<Session> {
    if !(s.runner.Recovered? && s.RunnerFree()) then None
    else Some(s.(runner := if s.runner.cancelled then Abandoned else Settling))
  }

  function BeginRunnerTeardown(s: Session): Option<Session> {
    if !(s.runner.TearingDown? && s.lock.Free?) then None
    else Some(s.(runner := Settling, lock := Held(Runner, Choosing(ChooseTeardown))))
  }

  // ----- Observations, under the decision lock -----

  function EnterObservationStep(cfg: Config, s: Session): Option<Session> {
    if !(s.lock.Held? && s.lock.at.EnterObservation? && s.GuardFree()) then None
    else if s.selection.Some? then Some(Release(s))
    else if s.Expired(cfg) then Some(Release(Expire(s)))
    else Some(Goto(s, DispatchObservation(s.lock.at.observed)))
  }

  function Reject(s: Session): Session
    requires s.lock.Held?
  {
    Goto(s, Choosing(ChooseInvalidResponse(OwnGrammar)))
  }

  function DispatchDelta(cfg: Config, s: Session, text: string): Session
    requires s.lock.Held?
  {
    if s.stream.completedText.Some? || s.stream.usageObserved then Reject(s)
    else if s.selection.Some? then Release(s)
    else if s.Expired(cfg) then Release(Expire(s))
    else
      var (charged, reserved) :=
        ReserveAssistantOutput(cfg.limits, s.budget.counters, Utf8.Length(text));
      if !reserved then Release(Select(s.Charge(charged), ChooseOutputLimit))
      else if s.stream.acceptedBytes + Utf8.Length(text) > MAX_PROVIDER_TURN_OUTPUT_BYTES then
        Reject(s.Charge(charged))
      else Goto(s.Charge(charged), EmitDelta(text))
  }

  function DispatchToolCall(cfg: Config, s: Session): Session
    requires s.lock.Held?
  {
    if s.selection.Some? then Release(s)
    else if s.Expired(cfg) then Release(Expire(s))
    else
      var (charged, within) := ObserveToolCall(cfg.limits, s.budget.counters);
      Release(Select(s.Charge(charged), if within then ChooseToolUnavailable else ChooseToolLimit))
  }

  function DispatchText(s: Session, text: string): Session
    requires s.lock.Held?
  {
    if || s.stream.completedText.Some? || s.stream.usageObserved
       || text != Join(s.stream.acceptedText)
    then Reject(s)
    else Release(s.(stream := s.stream.(completedText := Some(text))))
  }

  function DispatchUsage(cfg: Config, s: Session, input: nat, output: nat): Session
    requires s.lock.Held?
  {
    if || s.stream.completedText.None? || s.stream.acceptedText == [] || s.stream.usageObserved
       || input > MAX_MODEL_USAGE_TOKENS || output > MAX_MODEL_USAGE_TOKENS
    then Reject(s)
    else Goto(s, NotifyUsage(Usage(cfg.sessionId, input, output)))
  }

  function DispatchCompleted(s: Session): Session
    requires s.lock.Held?
  {
    if s.stream.completedText.None? || s.stream.acceptedText == [] then Reject(s)
    else Goto(s, Choosing(ChooseCompleted))
  }

  function Dispatch(cfg: Config, s: Session, observed: P.ProviderEvent): Session
    requires s.lock.Held?
  {
    match observed
    case TextDelta(text) => DispatchDelta(cfg, s, text)
    case TextCompleted(text) => DispatchText(s, text)
    case UsageReported(input, output) => DispatchUsage(cfg, s, input, output)
    case Completed => DispatchCompleted(s)
    case Failed(code, message) => Goto(s, Choosing(ChooseProviderFailure(code, message)))
    case ToolCallRequested => DispatchToolCall(cfg, s)
    case Foreign => Reject(s)
  }

  function DispatchStep(cfg: Config, s: Session): Option<Session> {
    if !(s.lock.Held? && s.lock.at.DispatchObservation? && s.GuardFree()) then None
    else Some(Dispatch(cfg, s.Examine(s.lock.at.observed), s.lock.at.observed))
  }

  function PublishDelta(cfg: Config, s: Session, written: bool): Option<Session> {
    if !(s.lock.Held? && s.lock.at.EmitDelta?) then None
    else if !written then
      Some(Broken(Release(s)).(runner := Raised, stream := s.stream.(deltaWriteFailed := true)))
    else
      var text := s.lock.at.text;
      var event := NextEvent(cfg, s, AssistantDelta(text), cfg.startCommand);
      Some(Publish(cfg, Goto(s, AcceptDelta(event, text)), event))
  }

  function AdmitDelta(cfg: Config, s: Session): Option<Session> {
    if !(s.lock.Held? && s.lock.at.AcceptDelta?) then None
    else
      var text := s.lock.at.text;
      Some(Goto(AcceptUpdate(cfg, s, Wire(s.lock.at.event)), RecheckDeadline)
           .(stream := s.stream.(acceptedText := s.stream.acceptedText + [text],
                                 acceptedBytes := s.stream.acceptedBytes + Utf8.Length(text))))
  }

  function NotifyUsageStep(cfg: Config, s: Session): Option<Session> {
    if !(s.lock.Held? && s.lock.at.NotifyUsage?) then None
    else
      Some(Goto(Notify(cfg, s, RecordUsage(s.lock.at.usage)), RecheckDeadline)
           .(stream := s.stream.(usageObserved := true)))
  }

  function RecheckDeadlineStep(cfg: Config, s: Session): Option<Session> {
    if !(s.lock.Held? && s.lock.at.RecheckDeadline? && s.GuardFree()) then None
    else Some(Release(SelectDeadlineIfDue(cfg, s)))
  }

  function ChooseStep(cfg: Config, s: Session): Option<Session> {
    if !(s.lock.Held? && s.lock.at.Choosing? && s.GuardFree()) then None
    else Some(Release(SelectCandidate(cfg, s, s.lock.at.candidate)))
  }

  // ----- Requests from other tasks -----

  function RequestCancellation(cfg: Config, s: Session, command: string): Option<Session> {
    if !s.lock.Free? then None
    else if s.selection.Some? then Some(s)
    else
      var held := s.(lock := Held(Caller, Choosing(ChooseUserCancel(command))));
      Some(if s.life.status.Starting? then held.(start := s.start.(deferred := Some(command)))
           else AcceptUpdate(cfg, held, CancelRequested(command, cfg.sessionId)))
  }

  function RequestTeardown(s: Session): Option<Session> {
    if !s.lock.Free? then None
    else if s.selection.Some? then Some(s)
    else Some(s.(lock := Held(Caller, Choosing(ChooseTeardown))))
  }

  // ----- The finalizer -----

  function FinalizerStarts(s: Session): Option<Session> {
    if !(s.finalizer.AwaitStart? && s.start.settled) then None
    else if !s.start.succeeded then Some(s.(watcher := Stopped, finalizer := Ended))
    else Some(s.(finalizer := Work))
  }

  function FinalizerCleansUp(s: Session): Option<Session> {
    if !(s.finalizer.Work? && s.selection.Some?) then None
    else Some(EnsureCleanup(s.(watcher := Stopped, finalizer := AwaitCleanup),
                            s.selection.value.Mode()))
  }

  /** The pending read is cancelled and reaped; teardown ends there. */
  function Reap(s: Session, reapFailed: bool): Session
    requires s.selection.Some?
  {
    s.(operation := s.operation.(pendingRead := false,
                                 pendingFailed := s.operation.pendingFailed
                                                  || (s.operation.pendingRead && reapFailed)),
       finalizer := if s.selection.value.ChooseTeardown? then Ended else AwaitTerminal)
  }

  /** The diagnostic goes out once; a sink that refuses it ends the finalizer. */
  function ReportCleanupFailure(s: Session, written: bool): Session {
    if s.ending.diagnosticEmitted then s
    else
      var reported := s.(ending := s.ending.(diagnosticEmitted := true));
      if written then reported else Broken(reported.(finalizer := Ended))
  }

  predicate Unconfirmed(s: Session) {
    s.operation.pendingFailed || (s.operation.cleanup.Settled? && s.operation.cleanup.failed)
  }

  /** Joins the cleanup task, reaps the pending read and reports an unconfirmed cleanup once. */
  function FinalizerJoinsCleanup(s: Session, reapFailed: bool, written: bool): Option<Session> {
    if !(&& s.finalizer.AwaitCleanup? && s.selection.Some?
         && (s.operation.started ==> s.operation.cleanup.Settled?))
    then None
    else
      var reaped := Reap(s, reapFailed);
      Some(if Unconfirmed(reaped) then ReportCleanupFailure(reaped, written) else reaped)
  }

  function BeginTerminal(s: Session): Option<Session> {
    if !(s.finalizer.AwaitTerminal? && s.lock.Free? && s.selection.Some?) then None
    else if s.ending.terminalEmitted then Some(s.(finalizer := Ended))
    else
      Some(s.(finalizer := InTerminal,
              lock := Held(Finalizer,
                           if s.selection.value.ChooseCompleted? then EmitText else NotifyLimits)))
  }

  function AbandonTerminal(s: Session): Session { Release(s).(finalizer := Ended) }

  function PublishText(cfg: Config, s: Session, written: bool): Option<Session> {
    if !(s.lock.Held? && s.lock.at.EmitText?) then None
    else if s.stream.completedText.None? then Some(AbandonTerminal(s).(faulted := true))
    else if !written then Some(AbandonTerminal(Broken(s)))
    else
      var event :=
        NextEvent(cfg, s, AssistantCompleted(s.stream.completedText.value), cfg.startCommand);
      Some(Publish(cfg, Goto(s, AcceptText(event)), event))
  }

  function AdmitText(cfg: Config, s: Session): Option<Session> {
    if !(s.lock.Held? && s.lock.at.AcceptText?) then None
    else Some(Goto(AcceptUpdate(cfg, s, Wire(s.lock.at.event)), NotifyLimits))
  }

  function NotifyLimitsStep(cfg: Config, s: Session): Option<Session> {
    if !(s.lock.Held? && s.lock.at.NotifyLimits?) then None
    else
      var t := Goto(s, EmitTerminal);
      if s.ending.limitsObserved then Some(t)
      else Some(Notify(cfg, t.(ending := s.ending.(limitsObserved := true)),
                       RecordLimits(Observed(cfg.sessionId, cfg.limits, s.budget.counters))))
  }

  /** The terminal event body and correlation an outcome publishes; teardown publishes none. */
  function TerminalOf(cfg: Config, choice: Choice): Option<(Body, string)> {
    if choice.ChooseCompleted? then Some((SessionCompleted, cfg.startCommand))
    else if choice.ChooseUserCancel? then Some((SessionCancelled, choice.command))
    else
      match choice.TheFailure()
      case Some(failure) => Some((SessionFailed(failure.code, failure.message), cfg.startCommand))
      case None => None
  }

  function PublishTerminal(cfg: Config, s: Session, written: bool): Option<Session> {
    if !(s.lock.Held? && s.lock.at.EmitTerminal? && s.selection.Some?) then None
    else
      match TerminalOf(cfg, s.selection.value)
      case None => Some(AbandonTerminal(s).(faulted := true))
      case Some(terminal) =>
        if !written then Some(AbandonTerminal(Broken(s)))
        else
          var event := NextEvent(cfg, s, terminal.0, terminal.1);
          Some(Publish(cfg, Goto(s, AcceptTerminal(event)), event))
  }

  function AdmitTerminal(cfg: Config, s: Session): Option<Session> {
    if !(s.lock.Held? && s.lock.at.AcceptTerminal?) then None
    else
      Some(AbandonTerminal(AcceptUpdate(cfg, s, Wire(s.lock.at.event)))
           .(ending := s.ending.(terminalEmitted := true)))
  }

  // ----- Runs -----

  datatype Step =
    | DoTick(elapsed: nat)
    | DoWatcherAcquire
    | DoWatcherLatch
    | DoCleanupFinishes(failed: bool)
    | DoCleanupForced
    | DoRun
    | DoBeginStarted
    | DoPublishStarted(written: bool)
    | DoAdmitStarted
    | DoAdmitDeferred
    | DoStartProvider(result: StartResult, before: nat, during: nat)
    | DoBeginRead
    | DoFinishRead(read: ReadResult, reapFailed: bool)
    | DoSelectExpired
    | DoBeginInvalid
    | DoBeginObservation
    | DoLeaveLoop
    | DoJoinFinalizer
    | DoCancelRunner
    | DoHandleRaised
    | DoBeginRecovery
    | DoResumeRecovered
    | DoBeginRunnerTeardown
    | DoEnterObservation
    | DoDispatch
    | DoPublishDelta(written: bool)
    | DoAdmitDelta
    | DoNotifyUsage
    | DoRecheckDeadline
    | DoChoose
    | DoRequestCancellation(command: string)
    | DoRequestTeardown
    | DoFinalizerStarts
    | DoFinalizerCleansUp
    | DoFinalizerJoinsCleanup(reapFailed: bool, written: bool)
    | DoBeginTerminal
    | DoPublishText(written: bool)
    | DoAdmitText
    | DoNotifyLimits
    | DoPublishTerminal(written: bool)
    | DoAdmitTerminal

  /** Steps of the task that owns `run`, outside its transactions. */
  predicate OfRunner(step: Step) {
    || step.DoRun? || step.DoBeginStarted? || step.DoStartProvider? || step.DoBeginRead?
    || step.DoFinishRead? || step.DoSelectExpired? || step.DoBeginInvalid? || step.DoBeginObservation?
    || step.DoLeaveLoop? || step.DoJoinFinalizer? || step.DoCancelRunner? || step.DoHandleRaised?
    || step.DoBeginRecovery? || step.DoResumeRecovered? || step.DoBeginRunnerTeardown?
  }

  function TakeRunner(cfg: Config, s: Session, step: Step): Option<Session>
    requires OfRunner(step)
  {
    match step
    case DoRun => Run(s)
    case DoBeginStarted => BeginStarted(s)
    case DoStartProvider(result, before, during) => StartProvider(cfg, s, result, before, during)
    case DoBeginRead => BeginRead(s)
    case DoFinishRead(read, reapFailed) => FinishRead(cfg, s, read, reapFailed)
    case DoSelectExpired => SelectExpired(s)
    case DoBeginInvalid => BeginInvalid(s)
    case DoBeginObservation => BeginObservation(s)
    case DoLeaveLoop => LeaveLoop(s)
    case DoJoinFinalizer => JoinFinalizer(s)
    case DoCancelRunner => CancelRunner(s)
    case DoHandleRaised => HandleRaised(s)
    case DoBeginRecovery => BeginRecovery(s)
    case DoResumeRecovered => ResumeRecovered(s)
    case DoBeginRunnerTeardown => BeginRunnerTeardown(s)
  }

  /** Steps of whoever holds the decision lock. */
  predicate OfHolder(step: Step) {
    || step.DoPublishStarted? || step.DoAdmitStarted? || step.DoAdmitDeferred?
    || step.DoEnterObservation? || step.DoDispatch? || step.DoPublishDelta? || step.DoAdmitDelta?
    || step.DoNotifyUsage? || step.DoRecheckDeadline? || step.DoChoose? || step.DoPublishText?
    || step.DoAdmitText? || step.DoNotifyLimits? || step.DoPublishTerminal? || step.DoAdmitTerminal?
  }

  function TakeHolder(cfg: Config, s: Session, step: Step): Option<Session>
    requires OfHolder(step)
  {
    match step
    case DoPublishStarted(written) => PublishStarted(cfg, s, written)
    case DoAdmitStarted => AdmitStarted(cfg, s)
    case DoAdmitDeferred => AdmitDeferred(cfg, s)
    case DoEnterObservation => EnterObservationStep(cfg, s)
    case DoDispatch => DispatchStep(cfg, s)
    case DoPublishDelta(written) => PublishDelta(cfg, s, written)
    case DoAdmitDelta => AdmitDelta(cfg, s)
    case DoNotifyUsage => NotifyUsageStep(cfg, s)
    case DoRecheckDeadline => RecheckDeadlineStep(cfg, s)
    case DoChoose => ChooseStep(cfg, s)
    case DoPublishText(written) => PublishText(cfg, s, written)
    case DoAdmitText => AdmitText(cfg, s)
    case DoNotifyLimits => NotifyLimitsStep(cfg, s)
    case DoPublishTerminal(written) => PublishTerminal(cfg, s, written)
    case DoAdmitTerminal => AdmitTerminal(cfg, s)
  }

  /** The clock, the watcher, the cleanup task, requests and the finalizer. */
  function TakeOther(cfg: Config, s: Session, step: Step): Option<Session>
    requires !OfRunner(step) && !OfHolder(step)
  {
    match step
    case DoTick(elapsed) => Tick(s, elapsed)
    case DoWatcherAcquire => WatcherAcquire(cfg, s)
    case DoWatcherLatch => WatcherLatch(s)
    case DoCleanupFinishes(failed) => CleanupFinishes(s, failed)
    case DoCleanupForced => CleanupForced(s)
    case DoRequestCancellation(command) => RequestCancellation(cfg, s, command)
    case DoRequestTeardown => RequestTeardown(s)
    case DoFinalizerStarts => FinalizerStarts(s)
    case DoFinalizerCleansUp => FinalizerCleansUp(s)
    case DoFinalizerJoinsCleanup(reapFailed, written) =>
      FinalizerJoinsCleanup(s, reapFailed, written)
    case DoBeginTerminal => BeginTerminal(s)
  }

  /** The state after one step, or nothing when no task is ready to take it. */
  function Take(cfg: Config, s: Session, step: Step): Option<Session> {
    if OfRunner(step) then TakeRunner(cfg, s, step)
    else if OfHolder(step) then TakeHolder(cfg, s, step)
    else TakeOther(cfg, s, step)
  }

  /** A schedule: any interleaving of ready steps from a freshly created session. */
  function Schedule(cfg: Config, start: Session, steps: seq<Step>): Option<Session> {
    if steps == [] then Some(start)
    else
      match Schedule(cfg, start, steps[..|steps| - 1])
      case None => None
      case Some(s) => Take(cfg, s, steps[|steps| - 1])
  }
}
