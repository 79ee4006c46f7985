/** The pure lifecycle reducer of one session: `session_state.py`. */
module Lifecycle {
  import opened Prelude

  datatype Status =
    Idle | Starting | Running | AwaitingApproval | Cancelling | Completed | Cancelled | Failed
  {
    predicate Terminal() { Completed? || Cancelled? || Failed? }
  }

  datatype Failure = Failure(code: string, message: string)

  datatype State = State(
    status: Status,
    startCommandId: Option<string>,
    task: Option<string>,
    sessionId: Option<string>,
    cancelCommandId: Option<string>,
    lastSequence: nat,
    assistantText: string,
    assistantCompleted: bool,
    sessionFailure: Option<Failure>)

  const INITIAL := State(Idle, None, None, None, None, 0, "", false, None)

  datatype Body =
    | SessionStarted
    | AssistantDelta(text: string)
    | AssistantCompleted(text: string)
    | SessionCompleted
    | SessionCancelled
    | SessionFailed(code: string, message: string)
  {
    predicate EndsSession() { SessionCompleted? || SessionCancelled? || SessionFailed? }
  }

  /** A validated wire event; validation makes every sequence positive. */
  datatype Event = Event(
    body: Body, sessionId: string, sequence: nat, correlationId: Option<string>)

  datatype Update =
    | TaskSubmitted(commandId: string, task: string)
    | CancelRequested(commandId: string, sessionId: string)
    | ApprovalRequested(sessionId: string)
    | ApprovalResolved(sessionId: string)
    | Wire(event: Event)
  {
    predicate IsDelta() { Wire? && event.body.AssistantDelta? }

    predicate EndsSession() { Wire? && event.body.EndsSession() }

    predicate IsStarted() { Wire? && event.body.SessionStarted? }
  }

  datatype RejectionCode =
    | IllegalTransition
    | TerminalStateAbsorbing
    | CorrelationMismatch
    | SessionMismatch
    | SequenceGap
    | SequenceRegression
    | AssistantAfterCompletion
    | AssistantAlreadyCompleted
    | AssistantCompletionMismatch
    | SessionCompletionBeforeAssistant

  /** A rejection keeps the exact prior state; its prior status and event type are `state.status`
      and the rejected update, so only the code adds information. */
  datatype Reduction = Accepted(state: State) | Rejected(state: State, code: RejectionCode)

  predicate LegalStatus(status: Status, body: Body) {
    match body
    case SessionStarted => status.Starting?
    case AssistantDelta(_) => status.Running? || status.Cancelling?
    case AssistantCompleted(_) => status.Running? || status.Cancelling?
    case SessionCompleted => status.Running? || status.Cancelling?
    case SessionCancelled => status.Cancelling?
    case SessionFailed(_, _) => status.Running? || status.AwaitingApproval? || status.Cancelling?
  }

  function SequenceFailure(state: State, sequence: nat): Option<RejectionCode> {
    if sequence < state.lastSequence + 1 then Some(SequenceRegression)
    else if sequence > state.lastSequence + 1 then Some(SequenceGap)
    else None
  }

  function ReduceEvent(state: State, event: Event): Reduction {
    if !LegalStatus(state.status, event.body) then Rejected(state, IllegalTransition)
    else if event.correlationId
            != (if event.body.SessionCancelled? then state.cancelCommandId else state.startCommandId)
    then Rejected(state, CorrelationMismatch)
    else if event.body.SessionStarted? then
      match SequenceFailure(state, event.sequence) {
        case Some(code) => Rejected(state, code)
        case None =>
          Accepted(state.(status := Running, sessionId := Some(event.sessionId),
                          lastSequence := event.sequence))
      }
    else if Some(event.sessionId) != state.sessionId then Rejected(state, SessionMismatch)
    else
      match SequenceFailure(state, event.sequence)
      case Some(code) => Rejected(state, code)
      case None =>
        match event.body
        case AssistantDelta(text) =>
          if state.assistantCompleted then Rejected(state, AssistantAfterCompletion)
          else Accepted(state.(lastSequence := event.sequence,
                               assistantText := state.assistantText + text))
        case AssistantCompleted(text) =>
          if state.assistantCompleted then Rejected(state, AssistantAlreadyCompleted)
          else if text != state.assistantText then Rejected(state, AssistantCompletionMismatch)
          else Accepted(state.(lastSequence := event.sequence, assistantCompleted := true))
        case SessionCompleted =>
          if !state.assistantCompleted then Rejected(state, SessionCompletionBeforeAssistant)
          else Accepted(state.(status := Completed, lastSequence := event.sequence))
        case SessionCancelled =>
          Accepted(state.(status := Cancelled, lastSequence := event.sequence))
        case SessionFailed(code, message) =>
          Accepted(state.(status := Failed, lastSequence := event.sequence,
                          sessionFailure := Some(Failure(code, message))))
        case SessionStarted => Rejected(state, IllegalTransition)
  }

  function Reduce(state: State, update: Update): Reduction {
    if state.status.Terminal() then Rejected(state, TerminalStateAbsorbing)
    else
      match update
      case TaskSubmitted(commandId, task) =>
        if !state.status.Idle? then Rejected(state, IllegalTransition)
        else Accepted(INITIAL.(status := Starting, startCommandId := Some(commandId),
                               task := Some(task)))
      case CancelRequested(commandId, sessionId) =>
        if !state.status.Running? && !state.status.AwaitingApproval? then
          Rejected(state, IllegalTransition)
        else if Some(sessionId) != state.sessionId then Rejected(state, SessionMismatch)
        else Accepted(state.(status := Cancelling, cancelCommandId := Some(commandId)))
      case ApprovalRequested(sessionId) =>
        if !state.status.Running? then Rejected(state, IllegalTransition)
        else if Some(sessionId) != state.sessionId then Rejected(state, SessionMismatch)
        else Accepted(state.(status := AwaitingApproval))
      case ApprovalResolved(sessionId) =>
        if !state.status.AwaitingApproval? then Rejected(state, IllegalTransition)
        else if Some(sessionId) != state.sessionId then Rejected(state, SessionMismatch)
        else Accepted(state.(status := Running))
      case Wire(event) => ReduceEvent(state, event)
  }

  /** Replays updates in order and stops at the first rejection. */
  function Replay(state: State, updates: seq<Update>): Reduction
    decreases |updates|
  {
    if updates == [] then Accepted(state)
    else
      match Reduce(state, updates[0])
      case Accepted(next) => Replay(next, updates[1..])
      case Rejected(_, _) => Reduce(state, updates[0])
  }

  /** The loop of `replay_session_updates`. */
  method ReplaySessionUpdates(updates: seq<Update>, initialState: State) returns (r: Reduction)
    ensures r == Replay(initialState, updates)
  {
    var state := initialState;
    var i := 0;
    while i < |updates|
      invariant 0 <= i <= |updates|
      invariant Replay(initialState, updates) == Replay(state, updates[i..])
    {
      var result := Reduce(state, updates[i]);
      assert updates[i..][0] == updates[i] && updates[i..][1..] == updates[i + 1..];
      if result.Rejected? { return result; }
      state := result.state;
      i := i + 1;
    }
    r := Accepted(state);
  }

  lemma {:induction false} ReplayConcat(state: State, a: seq<Update>, b: seq<Update>)
    ensures Replay(state, a + b)
            == if Replay(state, a).Accepted? then Replay(Replay(state, a).state, b)
               else Replay(state, a)
    decreases |a|
  {
    if a == [] {
      assert a + b == b;
    } else {
      assert (a + b)[0] == a[0] && (a + b)[1..] == a[1..] + b;
      var step := Reduce(state, a[0]);
      if step.Accepted? { ReplayConcat(step.state, a[1..], b); }
    }
  }

  lemma ReplaySnoc(state: State, updates: seq<Update>, last: Update)
    ensures Replay(state, updates + [last])
            == if Replay(state, updates).Accepted? then Reduce(Replay(state, updates).state, last)
               else Replay(state, updates)
  {
    ReplayConcat(state, updates, [last]);
    if Replay(state, updates).Accepted? {
      var s := Replay(state, updates).state;
      assert [last][0] == last && [last][1..] == [];
      if Reduce(s, last).Accepted? { assert Replay(Reduce(s, last).state, []) == Reduce(s, last); }
    }
  }

  // ----- The state as a function of the history -----

  function CountWire(history: seq<Update>): nat {
    if history == [] then 0
    else CountWire(history[..|history| - 1]) + if history[|history| - 1].Wire? then 1 else 0
  }

  function DeltaText(history: seq<Update>): string {
    if history == [] then ""
    else
      var last := history[|history| - 1];
      DeltaText(history[..|history| - 1]) + if last.IsDelta() then last.event.body.text else ""
  }

  /** The most recent update that satisfies `p`. */
  function Latest(history: seq<Update>, p: Update -> bool): (r: Option<Update>)
    ensures r.Some? ==> p(r.value)
  {
    if history == [] then None
    else if p(history[|history| - 1]) then Some(history[|history| - 1])
    else Latest(history[..|history| - 1], p)
  }

  function IsCancel(): Update -> bool { (u: Update) => u.CancelRequested? }

  function IsTask(): Update -> bool { (u: Update) => u.TaskSubmitted? }

  function IsEnd(): Update -> bool { (u: Update) => u.EndsSession() }

  function IsStart(): Update -> bool { (u: Update) => u.IsStarted() }

  function IsApproval(): Update -> bool {
    (u: Update) => u.ApprovalRequested? || u.ApprovalResolved?
  }

  function IsAssistantEnd(): Update -> bool {
    (u: Update) => u.Wire? && u.event.body.AssistantCompleted?
  }

  /** The status a history of accepted updates amounts to, most decisive fact first. */
  function HistoryStatus(history: seq<Update>): Status {
    match Latest(history, IsEnd())
    case Some(end) =>
      if end.event.body.SessionCompleted? then Completed
      else if end.event.body.SessionCancelled? then Cancelled
      else Failed
    case None =>
      if Latest(history, IsCancel()).Some? then Cancelling
      else if Latest(history, IsApproval()).Some?
              && Latest(history, IsApproval()).value.ApprovalRequested? then AwaitingApproval
      else if Latest(history, IsStart()).Some? then Running
      else if Latest(history, IsTask()).Some? then Starting
      else Idle
  }

  /** What every field of the state must be, read off the history alone. */
  ghost predicate ReadsHistory(state: State, history: seq<Update>) {
    var task := Latest(history, IsTask());
    var started := Latest(history, IsStart());
    var cancel := Latest(history, IsCancel());
    var end := Latest(history, IsEnd());
    && state.status == HistoryStatus(history)
    && state.startCommandId
       == (if task.Some? then Some(task.value.commandId) else None)
    && state.task
       == (if task.Some? then Some(task.value.task) else None)
    && state.sessionId
       == (if started.Some? then Some(started.value.event.sessionId) else None)
    && state.cancelCommandId
       == (if cancel.Some? then Some(cancel.value.commandId) else None)
    && state.lastSequence == CountWire(history)
    && state.assistantText == DeltaText(history)
    && state.assistantCompleted == Latest(history, IsAssistantEnd()).Some?
    && state.sessionFailure
       == (if end.Some? && end.value.event.body.SessionFailed?
           then Some(Failure(end.value.event.body.code, end.value.event.body.message)) else None)
  }

  /** Which fields each status fills: true of every state the reducer can reach. */
  predicate WellFormed(state: State) {
    && (state.status.Idle? ==> state == INITIAL)
    && (!state.status.Idle? ==> state.startCommandId.Some? && state.task.Some?)
    && (state.status.Starting? ==>
          state == INITIAL.(status := Starting, startCommandId := state.startCommandId,
                            task := state.task))
    && (!state.status.Idle? && !state.status.Starting? ==>
          state.sessionId.Some? && state.lastSequence >= 1)
    && (state.status.Running? || state.status.AwaitingApproval? ==> state.cancelCommandId.None?)
    && (state.status.Cancelling? || state.status.Cancelled? ==> state.cancelCommandId.Some?)
    && (state.status.Completed? ==> state.assistantCompleted)
    && (state.sessionFailure.Some? <==> state.status.Failed?)
  }

  lemma ReduceKeepsWellFormed(state: State, update: Update)
    requires WellFormed(state)
    ensures WellFormed(Reduce(state, update).state)
  {}

  lemma LatestSnoc(history: seq<Update>, last: Update, p: Update -> bool)
    ensures Latest(history + [last], p) == if p(last) then Some(last) else Latest(history, p)
  {
    assert (history + [last])[..|history|] == history;
  }

  lemma CountsSnoc(history: seq<Update>, last: Update)
    ensures CountWire(history + [last]) == CountWire(history) + if last.Wire? then 1 else 0
    ensures DeltaText(history + [last])
            == DeltaText(history) + if last.IsDelta() then last.event.body.text else ""
  {
    assert (history + [last])[..|history|] == history;
  }

  /** One accepted update keeps the state equal to the projection of the history. */
  lemma HistoryStep(state: State, history: seq<Update>, u: Update)
    requires ReadsHistory(state, history) && WellFormed(state)
    requires Reduce(state, u).Accepted?
    ensures ReadsHistory(Reduce(state, u).state, history + [u])
  {
    hide Latest, CountWire, DeltaText;
    CountsSnoc(history, u);
    LatestSnoc(history, u, IsTask());
    LatestSnoc(history, u, IsStart());
    LatestSnoc(history, u, IsCancel());
    LatestSnoc(history, u, IsEnd());
    LatestSnoc(history, u, IsApproval());
    LatestSnoc(history, u, IsAssistantEnd());
  }

  /** Run invariant: after any accepted run the state is exactly the projection of the updates. */
  lemma {:induction false} RunInvariant(updates: seq<Update>)
    requires Replay(INITIAL, updates).Accepted?
    ensures ReadsHistory(Replay(INITIAL, updates).state, updates)
    ensures WellFormed(Replay(INITIAL, updates).state)
  {
    if updates != [] {
      var front, last := updates[..|updates| - 1], updates[|updates| - 1];
      assert updates == front + [last];
      ReplaySnoc(INITIAL, front, last);
      RunInvariant(front);
      HistoryStep(Replay(INITIAL, front).state, front, last);
      ReduceKeepsWellFormed(Replay(INITIAL, front).state, last);
    }
  }

  /** A terminal state absorbs: every continuation is rejected and leaves the state as it was. */
  lemma TerminalsAbsorb(updates: seq<Update>, more: seq<Update>)
    requires Replay(INITIAL, updates).Accepted? && Replay(INITIAL, updates).state.status.Terminal()
    requires more != []
    ensures Replay(INITIAL, updates + more)
            == Rejected(Replay(INITIAL, updates).state, TerminalStateAbsorbing)
  {
    ReplayConcat(INITIAL, updates, more);
  }

  // ----- What a history admits next -----

  /** Started, not cancelled and not ended. */
  predicate Underway(history: seq<Update>) {
    HistoryStatus(history).Running? || HistoryStatus(history).AwaitingApproval?
  }

  /** Text may flow: started, not ended and not waiting for an approval. */
  predicate Flowing(history: seq<Update>) {
    HistoryStatus(history).Running? || HistoryStatus(history).Cancelling?
  }

  /** The update names the session that was started. */
  predicate OfSession(history: seq<Update>, sessionId: string) {
    var started := Latest(history, IsStart());
    started.Some? && started.value.event.sessionId == sessionId
  }

  /** The event answers the command it must answer: the cancellation if it reports one, the task
      otherwise. */
  predicate AnswersCommand(history: seq<Update>, e: Event) {
    var task, cancel := Latest(history, IsTask()), Latest(history, IsCancel());
    if e.body.SessionCancelled? then
      cancel.Some? && e.correlationId == Some(cancel.value.commandId)
    else task.Some? && e.correlationId == Some(task.value.commandId)
  }

  /** Whether an update may come next, read off the history alone. */
  predicate Admits(history: seq<Update>, u: Update) {
    match u
    case TaskSubmitted(_, _) => HistoryStatus(history).Idle?
    case CancelRequested(_, sessionId) => Underway(history) && OfSession(history, sessionId)
    case ApprovalRequested(sessionId) =>
      HistoryStatus(history).Running? && OfSession(history, sessionId)
    case ApprovalResolved(sessionId) =>
      HistoryStatus(history).AwaitingApproval? && OfSession(history, sessionId)
    case Wire(e) =>
      && AnswersCommand(history, e)
      && e.sequence == CountWire(history) + 1
      && (e.body.SessionStarted? || OfSession(history, e.sessionId))
      && var confirmed := Latest(history, IsAssistantEnd()).Some?;
         match e.body {
           case SessionStarted => HistoryStatus(history).Starting?
           case AssistantDelta(_) => Flowing(history) && !confirmed
           case AssistantCompleted(text) =>
             Flowing(history) && !confirmed && text == DeltaText(history)
           case SessionCompleted => Flowing(history) && confirmed
           case SessionCancelled => HistoryStatus(history).Cancelling?
           case SessionFailed(_, _) => Underway(history) || HistoryStatus(history).Cancelling?
         }
  }

  /** Acceptance is a property of the history. */
  lemma AcceptedExactly(history: seq<Update>, u: Update)
    requires Replay(INITIAL, history).Accepted?
    ensures Replay(INITIAL, history + [u]).Accepted? <==> Admits(history, u)
  {
    hide Replay, HistoryStatus, CountWire, DeltaText, Latest;
    RunInvariant(history);
    ReplaySnoc(INITIAL, history, u);
  }

  /** What each refusal of a wire event means, behind an accepted history; a number that was already
      used and a number that skips ahead are told apart. */
  lemma RefusalsMean(history: seq<Update>, e: Event)
    requires Replay(INITIAL, history).Accepted? && Replay(INITIAL, history + [Wire(e)]).Rejected?
    ensures match Replay(INITIAL, history + [Wire(e)]).code {
              case TerminalStateAbsorbing => HistoryStatus(history).Terminal()
              case IllegalTransition =>
                if e.body.SessionStarted? then !HistoryStatus(history).Starting?
                else if e.body.SessionCancelled? then !HistoryStatus(history).Cancelling?
                else if e.body.SessionFailed? then
                  !Underway(history) && !HistoryStatus(history).Cancelling?
                else !Flowing(history)
              case CorrelationMismatch => !AnswersCommand(history, e)
              case SessionMismatch => !e.body.SessionStarted? && !OfSession(history, e.sessionId)
              case SequenceRegression => e.sequence <= CountWire(history)
              case SequenceGap => e.sequence > CountWire(history) + 1
              case AssistantAfterCompletion =>
                e.body.AssistantDelta? && Latest(history, IsAssistantEnd()).Some?
              case AssistantAlreadyCompleted =>
                e.body.AssistantCompleted? && Latest(history, IsAssistantEnd()).Some?
              case AssistantCompletionMismatch =>
                e.body.AssistantCompleted? && e.body.text != DeltaText(history)
              case SessionCompletionBeforeAssistant =>
                e.body.SessionCompleted? && Latest(history, IsAssistantEnd()).None?
            }
  {
    hide Replay, HistoryStatus, CountWire, DeltaText, Latest;
    RunInvariant(history);
    ReplaySnoc(INITIAL, history, Wire(e));
  }
}
