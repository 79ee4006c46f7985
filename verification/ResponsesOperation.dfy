/** One adapter operation under its consumer, its cancellers and its cleanup:
    `OpenAIResponsesOperation` of `openai_responses.py`.

    No section under the state lock awaits, so each is one step; every await separates two steps. */
module ResponsesOperation {
  import opened Prelude
  import opened ResponsesAutomaton
  import opened AutomatonRuns
  import P = ProviderEvents

  datatype OperationState = Active | ResourcesClosing | TerminalPending | Closed

  function Rank(state: OperationState): nat {
    match state
    case Active => 0
    case ResourcesClosing => 1
    case TerminalPending => 2
    case Closed => 3
  }

  /** The one shared cleanup task; `Interrupted` means a forced cleanup cancelled it. */
  datatype CleanupTask = Unneeded | Running | Done(failed: bool) | Interrupted

  /** The SDK work the operation owns: still running, or over and waiting for its reader. */
  datatype OwnedWork = NoWork | Pending | Settled(cancelled: bool)

  /** Where the task that consumes the iterator stands. */
  datatype Consumer =
    | Outside
    | AtTop
    | AtRead
    | AwaitingWork
    | HasProgress(event: P.ProviderEvent)
    | HasTerminal(batch: seq<P.ProviderEvent>)
    | JoiningCleanup
    | Installing
    | Aborting
    | Stopped

  datatype Operation = Operation(
    state: OperationState,
    queue: seq<P.ProviderEvent>,
    cancelSelected: bool,
    cleanupFailed: bool,
    cleanup: CleanupTask,
    owned: OwnedWork,
    clientOpen: bool,
    streamOpen: bool,
    automaton: Automaton,
    consumer: Consumer,
    cancelsWaiting: nat,
    cancelReturned: bool,
    forcing: Option<bool>,
    inputs: seq<Read>,
    delivered: seq<P.ProviderEvent>)

  const CREATED :=
    Operation(Active, [], false, false, Unneeded, NoWork, false, false, FRESH, Outside, 0, false, None,
              [], [])

  predicate CleanupSettled(cleanup: CleanupTask) { cleanup.Done? || cleanup.Interrupted? }

  function EnsureCleanup(s: Operation): Operation {
    if s.cleanup.Unneeded? then s.(cleanup := Running) else s
  }

  function Close(s: Operation): Operation { s.(queue := [], state := Closed) }

  // ----- The consumer -----

  function Enter(s: Operation): Option<Operation> {
    if s.consumer.Outside? || s.consumer.Stopped? then Some(s.(consumer := AtTop)) else None
  }

  /** An event leaves the operation.  A consumer found cancelled at this point loses it. */
  function Hand(s: Operation, event: P.ProviderEvent, aborted: bool): Operation {
    if aborted then s.(consumer := Aborting)
    else s.(delivered := s.delivered + [event], consumer := Outside)
  }

  /** `_next_event`: the section at the head of the loop. */
  function Top(s: Operation, aborted: bool): Option<Operation> {
    if !s.consumer.AtTop? then None
    else
      match s.state
      case Closed => Some(s.(consumer := Stopped))
      case TerminalPending =>
        if s.queue == [] then Some(s.(consumer := Stopped))
        else
          var rest := s.queue[1..];
          Some(Hand(s.(queue := rest, state := if rest == [] then Closed else TerminalPending),
                    s.queue[0], aborted))
      case ResourcesClosing =>
        Some(s.(consumer := if s.cleanup.Unneeded? then AtRead else JoiningCleanup))
      case Active => Some(s.(consumer := AtRead))
  }

  /** `_run_owned`: claim the next piece of SDK work. */
  function BeginWork(s: Operation): Option<Operation> {
    if !(s.consumer.AtRead? && s.owned.NoWork?) then None
    else if !s.state.Active? then Some(s.(clientOpen := true, consumer := Stopped))
    else Some(s.(clientOpen := true, owned := Pending, consumer := AwaitingWork))
  }

  /** The client could not be built: no SDK work is claimed. */
  function ClientFails(model: string, s: Operation, code: P.FailureCode): Option<Operation>
    requires s.automaton.Coherent()
  {
    if !(s.consumer.AtRead? && s.owned.NoWork? && !s.clientOpen) then None
    else Some(Mapped(model, s, Broke(code)))
  }

  /** The SDK work ends on its own. */
  function WorkEnds(s: Operation): Option<Operation> {
    if s.owned.Pending? then Some(s.(owned := Settled(false))) else None
  }

  /** What the reader finds: a created stream, a stream or client that could not be obtained, an
      observation, the end of the stream or an error, or its own cancellation. */
  datatype WorkResult = StreamCreated(claimed: bool) | Obtained(read: Read)

  /** Feeds one read to the automaton and remembers what it produced. */
  function Mapped(model: string, s: Operation, read: Read): Operation
    requires s.automaton.Coherent()
  {
    var (after, batch) := Batch(model, s.automaton, read);
    s.(automaton := after,
       inputs := s.inputs + [read],
       consumer := if batch == [] then AtRead
                   else if IsProgress(batch) then HasProgress(batch[0])
                   else HasTerminal(batch))
  }

  /** The reader resumes after its work and maps what it found. */
  function ResumeWork(model: string, s: Operation, result: WorkResult): Option<Operation>
    requires s.automaton.Coherent()
  {
    if !(s.consumer.AwaitingWork? && s.owned.Settled?) then None
    else
      var t := s.(owned := NoWork);
      if s.owned.cancelled && (s.cancelSelected || !s.state.Active?) then
        Some(t.(consumer := Stopped))
      else
        match if s.owned.cancelled then Obtained(Broke(P.Unknown)) else result
        case StreamCreated(claimed) =>
          if s.streamOpen then None
          else
            var u := t.(streamOpen := true);
            Some(if claimed then u.(consumer := AtRead)
                 else Mapped(model, u, Broke(P.InvalidResponse)))
        case Obtained(read) =>
          if read.Observed? && !s.streamOpen then None else Some(Mapped(model, t, read))
  }

  /** `_next_event`: a progress observation is handed out only while active. */
  function HandProgress(s: Operation, aborted: bool): Option<Operation> {
    if !s.consumer.HasProgress? then None
    else if !s.state.Active? then Some(s.(consumer := Stopped))
    else Some(Hand(s, s.consumer.event, aborted))
  }

  /** `_finish_terminal`. */
  function FinishTerminal(s: Operation): Option<Operation> {
    if !s.consumer.HasTerminal? then None
    else if !s.state.Active? then Some(s.(consumer := AtTop))
    else
      Some(EnsureCleanup(s.(queue := s.consumer.batch, state := ResourcesClosing,
                            consumer := JoiningCleanup)))
  }

  function JoinCleanup(s: Operation): Option<Operation> {
    if s.consumer.JoiningCleanup? && CleanupSettled(s.cleanup) then Some(s.(consumer := Installing))
    else None
  }

  /** `_install_terminal_after_cleanup`. */
  function Install(s: Operation): Option<Operation> {
    if !s.consumer.Installing? then None
    else
      var t := s.(consumer := AtTop);
      if !s.state.ResourcesClosing? then Some(t)
      else if s.cancelSelected then Some(Close(t))
      else if s.cleanupFailed && (exists e :: e in s.queue && e.Completed?) then
        Some(t.(queue := [Failure(P.Unknown)], state := TerminalPending))
      else
        Some(t.(queue := if s.queue == [] then [Failure(P.Unknown)] else s.queue,
                state := TerminalPending))
  }

  /** The consuming task is cancelled while it awaits; awaited SDK work is cancelled with it. */
  function AbortConsumer(s: Operation): Option<Operation> {
    if s.consumer.AwaitingWork? then Some(s.(owned := NoWork, consumer := Aborting))
    else if s.consumer.JoiningCleanup? || s.consumer.AtTop? then Some(s.(consumer := Aborting))
    else None
  }

  /** `_select_consumer_cancellation`. */
  function SelectConsumerCancellation(s: Operation): Option<Operation> {
    if !s.consumer.Aborting? then None
    else
      var t := s.(consumer := Stopped);
      Some(if s.state.Closed? then t else EnsureCleanup(Close(t).(cancelSelected := true)))
  }

  // ----- Cancellers -----

  /** `cancel`, up to joining the cleanup. */
  function Cancel(s: Operation): Operation {
    var t := s.(cancelsWaiting := s.cancelsWaiting + 1);
    if s.state.Closed? then t
    else
      EnsureCleanup(t.(cancelSelected := true, queue := [],
                       state := if s.state.TerminalPending? then Closed else ResourcesClosing))
  }

  function SettleCancelled(s: Operation): Operation {
    if s.cancelSelected && !s.state.Closed? then Close(s) else s
  }

  /** `cancel`, after joining the cleanup: it returns, or raises when cleanup failed. */
  function CancelReturns(s: Operation): Option<Operation> {
    if s.cancelsWaiting == 0 || s.cleanup.Running? then None
    else
      Some(SettleCancelled(s).(cancelsWaiting := s.cancelsWaiting - 1, cancelReturned := true))
  }

  // ----- Cleanup -----

  /** `_cleanup_resources` cancels the owned work and waits for it. */
  function CleanupReaps(s: Operation, created: bool): Option<Operation> {
    if !(s.cleanup.Running? && s.owned.Pending?) then None
    else Some(s.(owned := Settled(true), streamOpen := s.streamOpen || created))
  }

  /** `_cleanup_resources`: both closes were attempted. */
  function CleanupFinishes(s: Operation, failed: bool): Option<Operation> {
    if !s.cleanup.Running? || s.owned.Pending? then None
    else
      var t := s.(cleanupFailed := s.cleanupFailed || failed, cleanup := Done(failed));
      Some(if s.cancelSelected && s.state.ResourcesClosing? then Close(t) else t)
  }

  /** `force_cancel_cleanup`, first section. */
  function ForceBegins(s: Operation): Option<Operation> {
    if s.forcing.Some? then None
    else
      var confirmed :=
        match s.cleanup
        case Unneeded => s.owned.NoWork? && !s.clientOpen && !s.streamOpen
        case Done(failed) => !failed
        case _ => false;
      var unconfirmed := s.cleanupFailed || !confirmed;
      Some(Close(s).(cleanupFailed := unconfirmed, cancelSelected := true, forcing := Some(unconfirmed)))
  }

  /** The forced path cancels the cleanup task. */
  function ForceInterrupts(s: Operation): Option<Operation> {
    if s.forcing.Some? && s.cleanup.Running? then Some(s.(cleanup := Interrupted)) else None
  }

  /** The forced path cancels the owned work. */
  function ForceReaps(s: Operation): Option<Operation> {
    if s.forcing.Some? && s.owned.Pending? then Some(s.(owned := Settled(true))) else None
  }

  /** `force_cancel_cleanup`, last section. */
  function ForceEnds(s: Operation): Option<Operation> {
    if s.forcing.None? || s.cleanup.Running? || s.owned.Pending? then None
    else
      Some(Close(s).(cleanupFailed := s.cleanupFailed || s.forcing.value, forcing := None))
  }

  /** `wait_closed`: not yet, a normal return, or the cleanup error. */
  function WaitClosed(s: Operation): Option<bool> {
    if !s.state.Closed? || s.cleanup.Running? then None else Some(!s.cleanupFailed)
  }

  // ----- Runs -----

  datatype Step =
    | DoEnter
    | DoTop(aborted: bool)
    | DoBeginWork
    | DoClientFails(code: P.FailureCode)
    | DoWorkEnds
    | DoResumeWork(result: WorkResult)
    | DoHandProgress(aborted: bool)
    | DoFinishTerminal
    | DoJoinCleanup
    | DoInstall
    | DoAbortConsumer
    | DoSelectConsumerCancellation
    | DoCancel
    | DoCancelReturns
    | DoCleanupReaps(created: bool)
    | DoCleanupFinishes(failed: bool)
    | DoForceBegins
    | DoForceInterrupts
    | DoForceReaps
    | DoForceEnds

  function Take(model: string, s: Operation, step: Step): Option<Operation>
    requires s.automaton.Coherent()
  {
    match step
    case DoEnter => Enter(s)
    case DoTop(aborted) => Top(s, aborted)
    case DoBeginWork => BeginWork(s)
    case DoClientFails(code) => ClientFails(model, s, code)
    case DoWorkEnds => WorkEnds(s)
    case DoResumeWork(result) => ResumeWork(model, s, result)
    case DoHandProgress(aborted) => HandProgress(s, aborted)
    case DoFinishTerminal => FinishTerminal(s)
    case DoJoinCleanup => JoinCleanup(s)
    case DoInstall => Install(s)
    case DoAbortConsumer => AbortConsumer(s)
    case DoSelectConsumerCancellation => SelectConsumerCancellation(s)
    case DoCancel => Some(Cancel(s))
    case DoCancelReturns => CancelReturns(s)
    case DoCleanupReaps(created) => CleanupReaps(s, created)
    case DoCleanupFinishes(failed) => CleanupFinishes(s, failed)
    case DoForceBegins => ForceBegins(s)
    case DoForceInterrupts => ForceInterrupts(s)
    case DoForceReaps => ForceReaps(s)
    case DoForceEnds => ForceEnds(s)
  }
}
