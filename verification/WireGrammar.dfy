/** The order of one session's protocol events, stated event by event, and what the pure reducer
    makes of every such stream. */
module WireGrammar {
  import opened Prelude
  import opened Lifecycle
  import opened SessionMachine

  /** The deltas among the events, concatenated. */
  function Spoken(events: seq<Event>): string {
    if events == [] then ""
    else
      var last := events[|events| - 1];
      Spoken(events[..|events| - 1]) + if last.body.AssistantDelta? then last.body.text else ""
  }

  predicate EndsWithText(events: seq<Event>) {
    events != [] && events[|events| - 1].body.AssistantCompleted?
  }

  ghost predicate EndSent(events: seq<Event>) {
    exists i :: 0 <= i < |events| && events[i].body.EndsSession()
  }

  /** Whether `e` may follow `history`: the start comes first and once; deltas are non-empty; the
      completed text is what the deltas said and only the session's completion follows it; failure
      and cancellation interrupt the deltas; nothing follows an ending; numbers count from 1. */
  ghost predicate MayBeNext(cfg: Config, history: seq<Event>, e: Event) {
    && e.sessionId == cfg.sessionId
    && e.sequence == |history| + 1
    && e.correlationId.Some?
    && (!e.body.SessionCancelled? ==> e.correlationId == Some(cfg.startCommand))
    && !EndSent(history)
    && (e.body.SessionStarted? <==> history == [])
    && (e.body.SessionCompleted? <==> EndsWithText(history))
    && (e.body.AssistantDelta? ==> e.body.text != "")
    && (e.body.AssistantCompleted? ==> e.body.text == Spoken(history) && e.body.text != "")
  }

  ghost predicate LegalSession(cfg: Config, events: seq<Event>) {
    forall i :: 0 <= i < |events| ==> MayBeNext(cfg, events[..i], events[i])
  }

  lemma LegalSnoc(cfg: Config, front: seq<Event>, last: Event)
    ensures LegalSession(cfg, front + [last])
            <==> LegalSession(cfg, front) && MayBeNext(cfg, front, last)
  {
    hide MayBeNext;
    var events := front + [last];
    assert events[..|front|] == front && events[|front|] == last;
    assert forall i :: 0 <= i < |front| ==> front[..i] == events[..i] && front[i] == events[i];
  }

  /** What the audience remembers of a legal stream. */
  ghost predicate Follows(a: Audience, events: seq<Event>) {
    && a.count == |events|
    && a.text == Spoken(events)
    && (a.valid ==>
          && (a.phase.Silent? <==> events == [])
          && (a.phase.Over? <==> EndSent(events))
          && (a.phase.TextDone? <==> EndsWithText(events)))
  }

  lemma HearFollows(cfg: Config, a: Audience, front: seq<Event>, last: Event)
    requires Follows(a, front)
    ensures Follows(Hear(cfg, a, last), front + [last])
    ensures Hear(cfg, a, last).valid <==> a.valid && MayBeNext(cfg, front, last)
  {
    var events := front + [last];
    assert events[..|front|] == front && events[|front|] == last;
    if last.body.EndsSession() {
      assert events[|front|].body.EndsSession();
    } else if EndSent(events) {
      var i :| 0 <= i < |events| && events[i].body.EndsSession();
      assert front[i].body.EndsSession();
    }
    if i :| 0 <= i < |front| && front[i].body.EndsSession() {
      assert events[i].body.EndsSession();
    }
  }

  /** The machine's audience monitor accepts exactly the legal streams. */
  lemma {:induction false} HearDecides(cfg: Config, events: seq<Event>)
    ensures SessionGrammar(cfg, events) <==> LegalSession(cfg, events)
    ensures Follows(HearAll(cfg, events), events)
  {
    if events != [] {
      var front, last := events[..|events| - 1], events[|events| - 1];
      HearDecides(cfg, front);
      HearFollows(cfg, HearAll(cfg, front), front, last);
      LegalSnoc(cfg, front, last);
      assert events == front + [last];
      hide Follows, MayBeNext, Hear, LegalSession;
    }
  }

  /** The events among the updates. */
  function Wires(updates: seq<Update>): seq<Event> {
    if updates == [] then []
    else
      var last := updates[|updates| - 1];
      Wires(updates[..|updates| - 1]) + if last.Wire? then [last.event] else []
  }

  // ----- A reader that submitted the task and may have asked to cancel -----

  /** The reader's own updates around the events it reads: the submission first, and its
      cancellation request right after the `at`-th event. */
  function ReaderUpdates(cfg: Config, events: seq<Event>, at: nat, command: string): seq<Update> {
    if events == [] then [TaskSubmitted(cfg.startCommand, cfg.task)]
    else
      ReaderUpdates(cfg, events[..|events| - 1], at, command)
      + [Wire(events[|events| - 1])]
      + if |events| == at then [CancelRequested(command, cfg.sessionId)] else []
  }

  /** A cancellation terminal, if any, answers the reader's request, which came while the session
      was running. */
  ghost predicate CancelAnswered(events: seq<Event>, at: nat, command: string) {
    && (at <= |events| ==> at > 0 && !EndSent(events[..at]))
    && forall i :: 0 <= i < |events| && events[i].body.SessionCancelled? ==>
                     at <= i && events[i].correlationId == Some(command)
  }

  /** The reader's state after a legal stream. */
  ghost predicate ReaderState(
    cfg: Config, state: State, events: seq<Event>, at: nat, command: string)
  {
    && state.startCommandId == Some(cfg.startCommand)
    && state.lastSequence == |events|
    && state.assistantText == Spoken(events)
    && (if events == [] then state.status.Starting? && !state.assistantCompleted
        else
          var last := events[|events| - 1].body;
          && state.sessionId == Some(cfg.sessionId)
          && (state.status.Terminal() <==> EndSent(events))
          && (!EndSent(events) ==>
                state.status == if at <= |events| then Cancelling else Running)
          && (state.status.Cancelling? ==> state.cancelCommandId == Some(command))
          && (!EndSent(events) ==> state.assistantCompleted == EndsWithText(events)))
  }

  lemma EndSentSnoc(front: seq<Event>, last: Event)
    ensures EndSent(front + [last]) <==> EndSent(front) || last.body.EndsSession()
  {
    var events := front + [last];
    assert events[..|front|] == front && events[|front|] == last;
    if i :| 0 <= i < |front| && front[i].body.EndsSession() {
      assert events[i].body.EndsSession();
    }
    if last.body.EndsSession() { assert events[|front|].body.EndsSession(); }
  }

  lemma ReaderStep(
    cfg: Config, state: State, front: seq<Event>, last: Event, at: nat, command: string)
    requires ReaderState(cfg, state, front, at, command) && MayBeNext(cfg, front, last)
    requires last.body.SessionCancelled? ==> at <= |front| && last.correlationId == Some(command)
    requires at > 0 && (at == |front| + 1 ==> !last.body.EndsSession())
    ensures Reduce(state, Wire(last)).Accepted?
    ensures var heard := Reduce(state, Wire(last)).state;
            if at == |front| + 1 then
              var cancel := CancelRequested(command, cfg.sessionId);
              && Reduce(heard, cancel).Accepted?
              && ReaderState(cfg, Reduce(heard, cancel).state, front + [last], at, command)
            else ReaderState(cfg, heard, front + [last], at, command)
  {
    var events := front + [last];
    assert events[..|front|] == front && events[|front|] == last;
    EndSentSnoc(front, last);
    hide EndSent;
  }

  /** A reader accepts every legal stream, wherever its own cancellation falls. */
  lemma {:induction false} ReaderAccepts(
    cfg: Config, events: seq<Event>, at: nat, command: string)
    requires LegalSession(cfg, events) && at > 0 && CancelAnswered(events, at, command)
    ensures Replay(INITIAL, ReaderUpdates(cfg, events, at, command)).Accepted?
    ensures ReaderState(cfg, Replay(INITIAL, ReaderUpdates(cfg, events, at, command)).state, events,
                        at, command)
    decreases |events|
  {
    if events == [] {
      var first := TaskSubmitted(cfg.startCommand, cfg.task);
      ReplaySnoc(INITIAL, [], first);
      assert [] + [first] == ReaderUpdates(cfg, events, at, command);
      assert Replay(INITIAL, []) == Accepted(INITIAL);
    } else {
      var front, last := events[..|events| - 1], events[|events| - 1];
      assert events == front + [last];
      CancelAnsweredFront(front, last, at, command);
      LegalSnoc(cfg, front, last);
      ReaderAccepts(cfg, front, at, command);
      var before := ReaderUpdates(cfg, front, at, command);
      ReplaySnoc(INITIAL, before, Wire(last));
      if at == |events| {
        ReplaySnoc(INITIAL, before + [Wire(last)], CancelRequested(command, cfg.sessionId));
      } else {
        assert before + [Wire(last)] + [] == before + [Wire(last)];
      }
      ReaderStep(cfg, Replay(INITIAL, before).state, front, last, at, command);
    }
  }

  lemma CancelAnsweredFront(front: seq<Event>, last: Event, at: nat, command: string)
    requires CancelAnswered(front + [last], at, command) && at > 0
    ensures CancelAnswered(front, at, command)
    ensures last.body.SessionCancelled? ==> at <= |front| && last.correlationId == Some(command)
    ensures at == |front| + 1 ==> !last.body.EndsSession()
  {
    var events := front + [last];
    assert events[|front|] == last;
    forall i | 0 <= i < |front| && front[i].body.SessionCancelled?
      ensures at <= i && front[i].correlationId == Some(command)
    {
      assert events[i] == front[i];
    }
    if at <= |front| {
      assert events[..at] == front[..at];
    } else if at == |events| {
      assert events[..at] == events;
      EndSentSnoc(front, last);
    }
  }
}
