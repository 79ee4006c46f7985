/** The TypeScript lifecycle reducer, `session-lifecycle.ts`, against the Python one. */
module LifecycleTs {
  import opened Prelude
  import opened Lifecycle

  datatype InputType =
    | TypeTask
    | TypeCancel
    | TypeApprovalRequested
    | TypeApprovalResolved
    | TypeStarted
    | TypeDelta
    | TypeAssistantCompleted
    | TypeCompleted
    | TypeCancelled
    | TypeFailed

  function TypeOf(input: Update): InputType {
    match input
    case TaskSubmitted(_, _) => TypeTask
    case CancelRequested(_, _) => TypeCancel
    case ApprovalRequested(_) => TypeApprovalRequested
    case ApprovalResolved(_) => TypeApprovalResolved
    case Wire(event) =>
      match event.body
      case SessionStarted => TypeStarted
      case AssistantDelta(_) => TypeDelta
      case AssistantCompleted(_) => TypeAssistantCompleted
      case SessionCompleted => TypeCompleted
      case SessionCancelled => TypeCancelled
      case SessionFailed(_, _) => TypeFailed
  }

  /** `isLegalTransition`. */
  predicate IsLegalTransition(status: Status, kind: InputType) {
    match kind
    case TypeTask => status.Idle?
    case TypeStarted => status.Starting?
    case TypeDelta => status.Running? || status.Cancelling?
    case TypeAssistantCompleted => status.Running? || status.Cancelling?
    case TypeCompleted => status.Running? || status.Cancelling?
    case TypeApprovalRequested => status.Running?
    case TypeApprovalResolved => status.AwaitingApproval?
    case TypeCancel => status.Running? || status.AwaitingApproval?
    case TypeCancelled => status.Cancelling?
    case TypeFailed => status.Running? || status.AwaitingApproval? || status.Cancelling?
  }

  /** `event.correlation_id !== expected`: an absent id is `undefined`, an unset expectation is
      `null`, and the two are different. */
  predicate Differs(correlationId: Option<string>, expected: Option<string>) {
    correlationId.None? || correlationId != expected
  }

  function Expected(state: State, event: Event): Option<string> {
    if event.body.SessionCancelled? then state.cancelCommandId else state.startCommandId
  }

  /** `reduceSessionEvent`. */
  function ReduceEventTs(state: State, event: Event): Reduction {
    if Differs(event.correlationId, Expected(state, event)) then Rejected(state, CorrelationMismatch)
    else if event.body.SessionStarted? then
      match SequenceFailure(state, event.sequence) {
        case Some(code) => Rejected(state, code)
        case None =>
          Accepted(state.(status := Running, sessionId := Some(event.sessionId),
                          lastSequence := event.sequence))
      }
    else if state.sessionId != Some(event.sessionId) then Rejected(state, SessionMismatch)
    else
      match SequenceFailure(state, event.sequence)
      case Some(code) => Rejected(state, code)
      case None =>
        var counted := state.(lastSequence := event.sequence);
        match event.body
        case AssistantDelta(text) =>
          if state.assistantCompleted then Rejected(state, AssistantAfterCompletion)
          else Accepted(counted.(assistantText := state.assistantText + text))
        case AssistantCompleted(text) =>
          if state.assistantCompleted then Rejected(state, AssistantAlreadyCompleted)
          else if text != state.assistantText then Rejected(state, AssistantCompletionMismatch)
          else Accepted(counted.(assistantCompleted := true))
        case SessionCompleted =>
          if !state.assistantCompleted then Rejected(state, SessionCompletionBeforeAssistant)
          else Accepted(counted.(status := Completed))
        case SessionCancelled => Accepted(counted.(status := Cancelled))
        case SessionFailed(code, message) =>
          Accepted(counted.(status := Failed, sessionFailure := Some(Failure(code, message))))
        case SessionStarted => Rejected(state, IllegalTransition)
  }

  /** `reduceSessionLifecycle`. */
  function ReduceTs(state: State, input: Update): Reduction {
    if state.status.Terminal() then Rejected(state, TerminalStateAbsorbing)
    else if !IsLegalTransition(state.status, TypeOf(input)) then Rejected(state, IllegalTransition)
    else
      match input
      case TaskSubmitted(commandId, task) =>
        Accepted(INITIAL.(status := Starting, startCommandId := Some(commandId), task := Some(task)))
      case CancelRequested(commandId, sessionId) =>
        if Some(sessionId) != state.sessionId then Rejected(state, SessionMismatch)
        else Accepted(state.(status := Cancelling, cancelCommandId := Some(commandId)))
      case ApprovalRequested(sessionId) =>
        if Some(sessionId) != state.sessionId then Rejected(state, SessionMismatch)
        else Accepted(state.(status := AwaitingApproval))
      case ApprovalResolved(sessionId) =>
        if Some(sessionId) != state.sessionId then Rejected(state, SessionMismatch)
        else Accepted(state.(status := Running))
      case Wire(event) => ReduceEventTs(state, event)
  }

  /** The one way the two reducers part: a legal event without correlation meets a state that expects
      none. */
  predicate PartsWays(state: State, input: Update) {
    && !state.status.Terminal()
    && input.Wire?
    && LegalStatus(state.status, input.event.body)
    && input.event.correlationId.None?
    && Expected(state, input.event).None?
  }

  /** On arbitrary states the reducers agree exactly when they do not part in that way. */
  lemma ParityExactly(state: State, input: Update)
    ensures ReduceTs(state, input) == Reduce(state, input) <==> !PartsWays(state, input)
  {}

  /** A state no run reaches, on which the reducers part: Python completes the session and TypeScript
      refuses the event. */
  lemma ReducersPart()
    ensures var state := INITIAL.(status := Running, sessionId := Some("s"), assistantCompleted := true);
            var input := Wire(Event(SessionCompleted, "s", 1, None));
            && Reduce(state, input) == Accepted(state.(status := Completed, lastSequence := 1))
            && ReduceTs(state, input) == Rejected(state, CorrelationMismatch)
  {
    var state := INITIAL.(status := Running, sessionId := Some("s"), assistantCompleted := true);
    ParityExactly(state, Wire(Event(SessionCompleted, "s", 1, None)));
  }

  /** Every state a run can reach expects an identity where one is due, so the reducers agree. */
  lemma ParityOnWellFormed(state: State, input: Update)
    requires WellFormed(state)
    ensures ReduceTs(state, input) == Reduce(state, input)
  {
    ParityExactly(state, input);
  }

  function ReplayTs(state: State, inputs: seq<Update>): Reduction
    decreases |inputs|
  {
    if inputs == [] then Accepted(state)
    else
      match ReduceTs(state, inputs[0])
      case Accepted(next) => ReplayTs(next, inputs[1..])
      case Rejected(_, _) => ReduceTs(state, inputs[0])
  }

  /** The loop of `replaySessionLifecycle`. */
  method ReplaySessionLifecycle(inputs: seq<Update>, initialState: State) returns (r: Reduction)
    ensures r == ReplayTs(initialState, inputs)
  {
    hide ReduceTs;
    var state := initialState;
    for i := 0 to |inputs|
      invariant ReplayTs(initialState, inputs) == ReplayTs(state, inputs[i..])
    {
      assert inputs[i..][0] == inputs[i] && inputs[i..][1..] == inputs[i + 1..];
      var result := ReduceTs(state, inputs[i]);
      if result.Rejected? { return result; }
      state := result.state;
    }
    r := Accepted(state);
  }

  /** Parity over whole runs: from the same well-formed state, both replays give the same state or the
      same first rejection. */
  lemma {:induction false} ReplayParity(state: State, inputs: seq<Update>)
    requires WellFormed(state)
    ensures ReplayTs(state, inputs) == Replay(state, inputs)
    decreases |inputs|
  {
    hide ReduceTs, Reduce;
    if inputs != [] {
      ParityOnWellFormed(state, inputs[0]);
      ReduceKeepsWellFormed(state, inputs[0]);
      if Reduce(state, inputs[0]).Accepted? {
        ReplayParity(Reduce(state, inputs[0]).state, inputs[1..]);
      }
    }
  }
}
