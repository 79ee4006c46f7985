/** The TUI's conversation projection, `session-state.ts`, and the supervisor that feeds it,
    `runtime-supervisor.ts`. */
module Conversation {
  import opened Prelude
  import opened Lifecycle
  import opened LifecycleTs

  /** One submitted task as the user sees it. */
  datatype Turn = Turn(
    commandId: string,
    task: string,
    sessionId: Option<string>,
    status: Status,
    assistantText: string,
    lastSequence: nat,
    assistantCompleted: bool,
    cancelCommandId: Option<string>,
    sessionFailure: Option<Failure>)

  datatype InvariantFailure =
    InvariantFailure(code: RejectionCode, priorStatus: Status, eventType: InputType)

  datatype ShownStatus = Shown(status: Status) | ProtocolFailed

  datatype SessionState = SessionState(
    status: ShownStatus,
    turns: seq<Turn>,
    lifecycle: State,
    protocolFailure: Option<InvariantFailure>)

  const INITIAL_SESSION := SessionState(Shown(Idle), [], INITIAL, None)

  /** `projectTurn`: nothing where the source throws. */
  function ProjectTurn(state: State): Option<Turn> {
    if state.status.Idle? || state.startCommandId.None? || state.task.None? then None
    else
      Some(Turn(state.startCommandId.value, state.task.value, state.sessionId, state.status,
                state.assistantText, state.lastSequence, state.assistantCompleted,
                state.cancelCommandId, state.sessionFailure))
  }

  function FailProjection(state: SessionState, failure: InvariantFailure): SessionState {
    state.(status := ProtocolFailed, protocolFailure := Some(failure))
  }

  /** `reduceSessionState`: nothing where the source throws. */
  function ReduceSession(state: SessionState, input: Update): Option<SessionState> {
    if state.status.ProtocolFailed? then Some(state)
    else
      var lifecycle :=
        if input.TaskSubmitted? && state.lifecycle.status.Terminal() then INITIAL else state.lifecycle;
      match ReduceTs(lifecycle, input)
      case Rejected(prior, code) =>
        Some(FailProjection(state, InvariantFailure(code, prior.status, TypeOf(input))))
      case Accepted(next) =>
        if input.TaskSubmitted? then
          var turn := ProjectTurn(next);
          if turn.None? then None
          else Some(SessionState(Shown(next.status), state.turns + [turn.value], next, None))
        else if state.turns == [] then
          Some(FailProjection(state, InvariantFailure(IllegalTransition, state.lifecycle.status,
                                                      TypeOf(input))))
        else
          var turn := ProjectTurn(next);
          if turn.None? then None
          else
            Some(SessionState(Shown(next.status), state.turns[..|state.turns| - 1] + [turn.value], next,
                              None))
  }

  /** The projection is a faithful picture: its last turn is the lifecycle, and every earlier turn has
      ended. */
  predicate Faithful(s: SessionState) {
    && WellFormed(s.lifecycle)
    && s.status == Shown(s.lifecycle.status)
    && s.protocolFailure.None?
    && (s.turns == [] <==> s.lifecycle.status.Idle?)
    && (s.turns != [] ==> ProjectTurn(s.lifecycle) == Some(s.turns[|s.turns| - 1]))
    && (forall i :: 0 <= i < |s.turns| - 1 ==> s.turns[i].status.Terminal())
  }

  /** The lifecycle an input meets: a new task after an ended session starts over. */
  function Meets(lifecycle: State, input: Update): State {
    if input.TaskSubmitted? && lifecycle.status.Terminal() then INITIAL else lifecycle
  }

  /** An accepted update keeps the picture faithful, never throws, never meets the empty-turns guard,
      and leaves all earlier turns as they were. */
  lemma ReduceKeepsFaithful(s: SessionState, input: Update)
    requires Faithful(s) && ReduceTs(Meets(s.lifecycle, input), input).Accepted?
    ensures ReduceSession(s, input).Some?
    ensures var next := ReduceSession(s, input).value;
            && Faithful(next)
            && next.lifecycle == ReduceTs(Meets(s.lifecycle, input), input).state
            && (if input.TaskSubmitted? then
                  |next.turns| == |s.turns| + 1 && next.turns[..|s.turns|] == s.turns
                else
                  && s.turns != []
                  && |next.turns| == |s.turns|
                  && next.turns[..|s.turns| - 1] == s.turns[..|s.turns| - 1])
  {
    var met := Meets(s.lifecycle, input);
    ParityOnWellFormed(met, input);
    ReduceKeepsWellFormed(met, input);
    AcceptedIsSubmitted(met, input);
    hide ReduceTs, Reduce, WellFormed;
  }

  /** What an accepted input says about the lifecycle before and after it. */
  lemma AcceptedIsSubmitted(state: State, input: Update)
    requires WellFormed(state) && Reduce(state, input).Accepted?
    ensures input.TaskSubmitted? <==> state.status.Idle?
    ensures ProjectTurn(Reduce(state, input).state).Some?
    ensures !Reduce(state, input).state.status.Idle?
  {}

  /** Any projection, faithful or not, keeps its turns and lifecycle when it refuses an update. */
  lemma RefusalKeepsTurns(s: SessionState, input: Update)
    requires ReduceTs(Meets(s.lifecycle, input), input).Rejected?
    ensures ReduceSession(s, input).Some?
    ensures var next := ReduceSession(s, input).value;
            next.status.ProtocolFailed? && next.turns == s.turns && next.lifecycle == s.lifecycle
    ensures !s.status.ProtocolFailed? ==>
              var refused := ReduceTs(Meets(s.lifecycle, input), input);
              ReduceSession(s, input).value.protocolFailure
              == Some(InvariantFailure(refused.code, refused.state.status, TypeOf(input)))
  {
    hide ReduceTs;
  }

  /** A failed projection shows nothing that comes later. */
  lemma FailureAbsorbs(s: SessionState, input: Update)
    requires s.status.ProtocolFailed?
    ensures ReduceSession(s, input) == Some(s)
  {}

  // ----- What the turns show -----

  /** The published updates, cut in front of every submitted task. */
  function Segments(updates: seq<Update>): seq<seq<Update>> {
    if updates == [] then []
    else
      var front, last := Segments(updates[..|updates| - 1]), updates[|updates| - 1];
      if last.TaskSubmitted? || front == [] then front + [[last]]
      else front[..|front| - 1] + [front[|front| - 1] + [last]]
  }

  /** A task, and behind it no other. */
  predicate BeginsWithTask(updates: seq<Update>) {
    && updates != [] && updates[0].TaskSubmitted?
    && forall i :: 0 < i < |updates| ==> !updates[i].TaskSubmitted?
  }

  /** A turn shows its own updates: the task it begins with as the task, the joined deltas as the
      assistant's answer, and the facts of the latest start, cancellation and ending. */
  ghost predicate Shows(turn: Turn, updates: seq<Update>) {
    var started, cancel, end :=
      Latest(updates, IsStart()), Latest(updates, IsCancel()), Latest(updates, IsEnd());
    && BeginsWithTask(updates)
    && updates[0] == TaskSubmitted(turn.commandId, turn.task)
    && turn.status == HistoryStatus(updates)
    && turn.assistantText == DeltaText(updates)
    && turn.lastSequence == CountWire(updates)
    && turn.assistantCompleted == Latest(updates, IsAssistantEnd()).Some?
    && turn.sessionId
       == (if started.Some? then Some(started.value.event.sessionId) else None)
    && turn.cancelCommandId == (if cancel.Some? then Some(cancel.value.commandId) else None)
    && turn.sessionFailure
       == (if end.Some? && end.value.event.body.SessionFailed?
           then Some(Failure(end.value.event.body.code, end.value.event.body.message)) else None)
  }

  /** Every turn shows its segment of the published updates, and the lifecycle is the run of the last. */
  ghost predicate Pictures(s: SessionState, published: seq<Update>) {
    var segments := Segments(published);
    && |s.turns| == |segments|
    && (forall i :: 0 <= i < |segments| ==> Shows(s.turns[i], segments[i]))
    && (segments == [] ==> s.lifecycle == INITIAL)
    && (segments != [] ==>
          Replay(INITIAL, segments[|segments| - 1]) == Accepted(s.lifecycle))
  }

  lemma {:induction false} TaskIsFirst(updates: seq<Update>)
    requires BeginsWithTask(updates)
    ensures Latest(updates, IsTask()) == Some(updates[0])
  {
    if |updates| > 1 {
      TaskIsFirst(updates[..|updates| - 1]);
    }
  }

  /** The turn projected from an accepted run shows the run. */
  lemma RunShows(updates: seq<Update>)
    requires Replay(INITIAL, updates).Accepted? && BeginsWithTask(updates)
    requires ProjectTurn(Replay(INITIAL, updates).state).Some?
    ensures Shows(ProjectTurn(Replay(INITIAL, updates).state).value, updates)
  {
    hide Replay, WellFormed, Latest, HistoryStatus, CountWire, DeltaText;
    RunInvariant(updates);
    TaskIsFirst(updates);
  }

  lemma SegmentsSnoc(published: seq<Update>, input: Update)
    ensures var segments := Segments(published);
            Segments(published + [input])
            == if input.TaskSubmitted? || segments == [] then segments + [[input]]
               else segments[..|segments| - 1] + [segments[|segments| - 1] + [input]]
  {
    assert (published + [input])[..|published|] == published;
  }

  lemma TaskGoesOn(updates: seq<Update>, input: Update)
    ensures input.TaskSubmitted? ==> BeginsWithTask([input])
    ensures BeginsWithTask(updates) && !input.TaskSubmitted? ==> BeginsWithTask(updates + [input])
  {}

  /** The run of the newest turn after one more accepted update. */
  lemma NewestRun(s: SessionState, published: seq<Update>, input: Update)
    requires Faithful(s) && Pictures(s, published)
    requires Reduce(Meets(s.lifecycle, input), input).Accepted?
    ensures var segments := Segments(published + [input]);
            && segments != []
            && Replay(INITIAL, segments[|segments| - 1])
               == Reduce(Meets(s.lifecycle, input), input)
            && BeginsWithTask(segments[|segments| - 1])
  {
    hide Shows, Reduce, WellFormed, Replay, BeginsWithTask, Segments;
    var segments := Segments(published);
    SegmentsSnoc(published, input);
    AcceptedIsSubmitted(Meets(s.lifecycle, input), input);
    TaskGoesOn([], input);
    if input.TaskSubmitted? {
      ReplaySnoc(INITIAL, [], input);
      NothingReplayed();
      assert [] + [input] == [input];
    } else {
      var newest := segments[|segments| - 1];
      ReplaySnoc(INITIAL, newest, input);
      ShowsBegins(s.turns[|s.turns| - 1], newest);
      TaskGoesOn(newest, input);
    }
  }

  lemma NothingReplayed()
    ensures Replay(INITIAL, []) == Accepted(INITIAL)
  {}

  lemma ShowsBegins(turn: Turn, updates: seq<Update>)
    requires Shows(turn, updates)
    ensures BeginsWithTask(updates)
  {}

  /** An accepted update keeps every turn a picture of its own part of the published updates. */
  lemma ReduceKeepsPictures(s: SessionState, published: seq<Update>, input: Update)
    requires Faithful(s) && Pictures(s, published)
    requires ReduceTs(Meets(s.lifecycle, input), input).Accepted?
    ensures ReduceSession(s, input).Some?
    ensures Pictures(ReduceSession(s, input).value, published + [input])
  {
    hide Shows, ReduceTs, Reduce, WellFormed, Replay;
    ReduceKeepsFaithful(s, input);
    var met := Meets(s.lifecycle, input);
    ParityAccepts(s, input);
    NewestRun(s, published, input);
    SegmentsSnoc(published, input);
    var segments := Segments(published + [input]);
    var next := ReduceSession(s, input).value;
    AcceptedIsSubmitted(met, input);
    RunShows(segments[|segments| - 1]);
    forall i | 0 <= i < |segments| ensures Shows(next.turns[i], segments[i]) {
      if i < |segments| - 1 {
        assert next.turns[i] == s.turns[i] && segments[i] == Segments(published)[i];
      }
    }
  }

  lemma ParityAccepts(s: SessionState, input: Update)
    requires Faithful(s)
    ensures WellFormed(Meets(s.lifecycle, input))
    ensures ReduceTs(Meets(s.lifecycle, input), input) == Reduce(Meets(s.lifecycle, input), input)
  {
    ParityOnWellFormed(Meets(s.lifecycle, input), input);
    hide ReduceTs, Reduce;
  }

  lemma NothingPictured()
    ensures Faithful(INITIAL_SESSION) && Pictures(INITIAL_SESSION, [])
  {}

  // ----- The objects -----

  /** A projection subscribed to the supervisor's updates. */
  class ConversationProjection {
    var state: SessionState

    constructor ()
      ensures state == INITIAL_SESSION
    {
      state := INITIAL_SESSION;
    }

    method Receive(update: Update)
      requires ReduceSession(state, update).Some?
      modifies this
      ensures Some(state) == ReduceSession(old(state), update)
    {
      state := ReduceSession(state, update).value;
    }
  }

  datatype RuntimeStatus = Launching | Ready | RuntimeProtocolFailed | Stopping

  /** The whitespace that `trim` removes. */
  predicate IsBlank(task: string) {
    forall c :: c in task ==>
      var n := c as int;
      9 <= n <= 13 || n == 0x20 || n == 0xA0 || n == 0x1680 || 0x2000 <= n <= 0x200A
      || n == 0x2028 || n == 0x2029 || n == 0x202F || n == 0x205F || n == 0x3000 || n == 0xFEFF
  }

  datatype Submission = Submitted(commandId: string) | EmptyTask | NotReady | Busy | NotEncodable
                      | InvalidState

  /** `PythonRuntimeSupervisor`, as far as sessions are concerned. */
  class Supervisor {
    const projection: ConversationProjection
    var status: RuntimeStatus
    var stopRequested: bool
    var failureShutdownRequested: bool
    var sessionValidationState: State

    ghost var published: seq<Update>

    /** The validation state and the projection never part, and the turns show what was published. */
    ghost predicate Valid()
      reads this, projection
    {
      && Faithful(projection.state)
      && Pictures(projection.state, published)
      && projection.state.lifecycle == sessionValidationState
    }

    constructor ()
      ensures Valid() && published == [] && fresh(projection) && sessionValidationState == INITIAL
    {
      projection := new ConversationProjection();
      status, stopRequested, failureShutdownRequested := Launching, false, false;
      sessionValidationState, published := INITIAL, [];
      NothingPictured();
    }

    /** `#publishSessionUpdate`, after the update entered the validation state. */
    method Publish(update: Update)
      requires Faithful(projection.state) && Pictures(projection.state, published)
      requires ReduceTs(Meets(projection.state.lifecycle, update), update)
               == Accepted(sessionValidationState)
      modifies this`published, projection
      ensures Valid() && published == old(published) + [update]
      ensures Some(projection.state) == ReduceSession(old(projection.state), update)
    {
      hide ReduceTs, ReduceSession, Faithful, Pictures;
      ReduceKeepsFaithful(projection.state, update);
      ReduceKeepsPictures(projection.state, published, update);
      published := published + [update];
      projection.Receive(update);
    }

    method TransitionToProtocolFailure()
      requires Valid()
      modifies this`status, this`failureShutdownRequested
      ensures Valid()
      ensures old(stopRequested || failureShutdownRequested) ==> status == old(status)
      ensures !old(stopRequested || failureShutdownRequested) ==>
                status == RuntimeProtocolFailed && failureShutdownRequested
    {
      if stopRequested || failureShutdownRequested { return; }
      status := RuntimeProtocolFailed;
      failureShutdownRequested := true;
    }

    /** `submitTask`: the update is published exactly when the task is accepted, and the local state is
        then never what refuses it. */
    method SubmitTask(task: string, commandId: string, encodable: bool) returns (r: Submission)
      requires Valid()
      modifies this, projection
      ensures Valid() && !r.InvalidState?
      ensures r == if IsBlank(task) then EmptyTask
                   else if !old(status).Ready? then NotReady
                   else if !old(sessionValidationState).status.Idle?
                           && !old(sessionValidationState).status.Terminal() then Busy
                   else if !encodable then NotEncodable
                   else Submitted(commandId)
      ensures published
              == old(published) + if r.Submitted? then [TaskSubmitted(commandId, task)] else []
      ensures !r.Submitted? ==>
                projection.state == old(projection.state)
                && sessionValidationState == old(sessionValidationState)
    {
      hide Faithful, Pictures;
      if IsBlank(task) { return EmptyTask; }
      if !status.Ready? { return NotReady; }
      if !sessionValidationState.status.Idle? && !sessionValidationState.status.Terminal() {
        return Busy;
      }
      if !encodable { return NotEncodable; }
      var update := TaskSubmitted(commandId, task);
      var validationState :=
        if sessionValidationState.status.Terminal() then INITIAL else sessionValidationState;
      var result := ReduceTs(validationState, update);
      if result.Rejected? { return InvalidState; }
      sessionValidationState := result.state;
      Publish(update);
      r := Submitted(commandId);
    }

    /** `cancelSession`: true exactly when one cancellation update was published. */
    method CancelSession(commandId: string, encodable: bool) returns (accepted: bool)
      requires Valid()
      modifies this, projection
      ensures Valid()
      ensures accepted <==>
                && old(status).Ready? && encodable
                && (old(sessionValidationState).status.Running?
                    || old(sessionValidationState).status.AwaitingApproval?)
      ensures published
              == old(published)
                 + if accepted
                   then [CancelRequested(commandId, old(sessionValidationState).sessionId.value)]
                   else []
      ensures accepted ==> sessionValidationState.status.Cancelling?
    {
      hide ReduceSession, Pictures;
      if !status.Ready? || !(sessionValidationState.status.Running?
                             || sessionValidationState.status.AwaitingApproval?) {
        return false;
      }
      if sessionValidationState.sessionId.None? { return false; }
      if !encodable {
        TransitionToProtocolFailure();
        return false;
      }
      var update := CancelRequested(commandId, sessionValidationState.sessionId.value);
      var result := ReduceTs(sessionValidationState, update);
      if result.Rejected? {
        // The source fails the runtime here; no valid state gets this far.
        assert false;
      }
      sessionValidationState := result.state;
      Publish(update);
      accepted := true;
    }

    /** `#acceptSessionEvent`: an accepted event is published, a refused one fails the runtime and
        leaves the session as it was. */
    method AcceptSessionEvent(event: Event)
      requires Valid()
      modifies this, projection
      ensures Valid()
      ensures ReduceTs(old(sessionValidationState), Wire(event)).Accepted? ==>
                && published == old(published) + [Wire(event)]
                && sessionValidationState == ReduceTs(old(sessionValidationState), Wire(event)).state
                && status == old(status)
      ensures ReduceTs(old(sessionValidationState), Wire(event)).Rejected? ==>
                && published == old(published)
                && sessionValidationState == old(sessionValidationState)
                && projection.state == old(projection.state)
                && (!old(stopRequested || failureShutdownRequested) ==> status == RuntimeProtocolFailed)
    {
      hide ReduceTs, ReduceSession, Faithful, Pictures;
      var result := ReduceTs(sessionValidationState, Wire(event));
      if result.Rejected? {
        TransitionToProtocolFailure();
        return;
      }
      sessionValidationState := result.state;
      Publish(Wire(event));
    }
  }
}
