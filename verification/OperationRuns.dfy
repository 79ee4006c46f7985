/** Results about whole runs of an adapter operation, and about a session fed by one. */
module OperationRuns {
  import opened Prelude
  import opened ResponsesAutomaton
  import opened AutomatonRuns
  import opened ResponsesOperation
  import opened OperationSafety
  import P = ProviderEvents
  import M = SessionMachine
  import R = SessionRuns
  import LoopLimits

  lemma KeepTake(model: string, s: Operation, step: Step)
    requires s.automaton.Coherent() && Inv(model, s) && Take(model, s, step).Some?
    ensures Inv(model, Take(model, s, step).value)
  {
    hide Inv;
    match step
    case DoEnter => KeepWaiting(model, s);
    case DoTop(aborted) => KeepTop(model, s, aborted);
    case DoBeginWork => KeepWaiting(model, s);
    case DoClientFails(code) => KeepMapped(model, s, Broke(code));
    case DoWorkEnds => KeepWaiting(model, s);
    case DoResumeWork(result) => KeepResumeWork(model, s, result);
    case DoHandProgress(aborted) => KeepHandProgress(model, s, aborted);
    case DoFinishTerminal => KeepFinishTerminal(model, s);
    case DoJoinCleanup => KeepWaiting(model, s);
    case DoInstall => KeepInstall(model, s);
    case DoAbortConsumer => KeepAbort(model, s);
    case DoSelectConsumerCancellation => KeepConsumerCancelled(model, s);
    case DoCancel => KeepCancel(model, s);
    case DoCancelReturns => KeepCancel(model, s);
    case DoCleanupReaps(created) => KeepCleanup(model, s, created);
    case DoCleanupFinishes(failed) => KeepCleanup(model, s, failed);
    case DoForceBegins => KeepForce(model, s);
    case DoForceInterrupts => KeepForce(model, s);
    case DoForceReaps => KeepForce(model, s);
    case DoForceEnds => KeepForce(model, s);
  }

  /** One step never goes back: not in state, in what was handed out, or in a returned cancel. */
  predicate Forward(s: Operation, t: Operation) {
    && Rank(s.state) <= Rank(t.state)
    && s.delivered <= t.delivered
    && (s.cancelReturned ==> t.cancelReturned)
    && (s.automaton.Coherent() ==> t.automaton.Coherent())
    && (t.delivered != s.delivered ==> s.state.Active? || s.state.TerminalPending?)
  }

  predicate ForwardIf(s: Operation, t: Option<Operation>) { t.Some? ==> Forward(s, t.value) }

  lemma ClaimingForward(s: Operation)
    ensures ForwardIf(s, Enter(s)) && ForwardIf(s, BeginWork(s)) && ForwardIf(s, WorkEnds(s))
  {}

  lemma TopForward(s: Operation, aborted: bool)
    ensures ForwardIf(s, Top(s, aborted))
  {
    hide Automaton.Coherent;
    if s.consumer.AtTop? && s.state.TerminalPending? && s.queue != [] {
      var rest := s.queue[1..];
      var popped := s.(queue := rest, state := if rest == [] then Closed else TerminalPending);
      assert Rank(popped.state) >= Rank(s.state);
      assert Top(s, aborted) == Some(Hand(popped, s.queue[0], aborted));
    }
  }

  lemma HandingForward(s: Operation, aborted: bool)
    ensures ForwardIf(s, HandProgress(s, aborted))
  {}

  lemma ReadingForward(model: string, s: Operation, result: WorkResult, code: P.FailureCode)
    requires s.automaton.Coherent()
    ensures ForwardIf(s, ResumeWork(model, s, result)) && ForwardIf(s, ClientFails(model, s, code))
  {
    hide Batch, IsProgress;
  }

  lemma EndingForward(s: Operation)
    ensures ForwardIf(s, FinishTerminal(s)) && ForwardIf(s, JoinCleanup(s))
  {}

  lemma InstallForward(s: Operation)
    ensures ForwardIf(s, Install(s))
  {}

  lemma AbortForward(s: Operation)
    ensures ForwardIf(s, AbortConsumer(s)) && ForwardIf(s, SelectConsumerCancellation(s))
  {
    hide Automaton.Coherent;
  }

  lemma CancelForward(s: Operation)
    ensures Forward(s, Cancel(s)) && ForwardIf(s, CancelReturns(s))
  {}

  lemma CleanupForward(s: Operation, flag: bool)
    ensures ForwardIf(s, CleanupReaps(s, flag)) && ForwardIf(s, CleanupFinishes(s, flag))
  {}

  lemma ForceForward(s: Operation)
    ensures ForwardIf(s, ForceBegins(s)) && ForwardIf(s, ForceInterrupts(s))
    ensures ForwardIf(s, ForceReaps(s)) && ForwardIf(s, ForceEnds(s))
  {}

  lemma TakeForward(model: string, s: Operation, step: Step)
    requires s.automaton.Coherent()
    ensures ForwardIf(s, Take(model, s, step))
  {
    hide Forward, Enter, Top, BeginWork, WorkEnds, HandProgress, ResumeWork, ClientFails;
    hide FinishTerminal, JoinCleanup, Install, AbortConsumer, SelectConsumerCancellation, Cancel;
    hide CancelReturns, CleanupReaps, CleanupFinishes, ForceBegins, ForceInterrupts, ForceReaps;
    hide ForceEnds;
    match step
    case DoTop(aborted) => TopForward(s, aborted);
    case DoHandProgress(aborted) => HandingForward(s, aborted);
    case DoResumeWork(result) => ReadingForward(model, s, result, P.Unknown);
    case DoClientFails(code) => ReadingForward(model, s, StreamCreated(true), code);
    case DoCleanupReaps(created) => CleanupForward(s, created);
    case DoCleanupFinishes(failed) => CleanupForward(s, failed);
    case _ =>
      ClaimingForward(s);
      EndingForward(s);
      InstallForward(s);
      AbortForward(s);
      CancelForward(s);
      ForceForward(s);
  }

  /** Any interleaving of the operation's tasks. */
  function Schedule(model: string, steps: seq<Step>): (r: Option<Operation>)
    ensures r.Some? ==> r.value.automaton.Coherent()
    decreases |steps|
  {
    if steps == [] then Some(CREATED)
    else
      match Schedule(model, steps[..|steps| - 1])
      case None => None
      case Some(s) =>
        var step := steps[|steps| - 1];
        TakeForward(model, s, step);
        Take(model, s, step)
  }

  lemma {:induction false} ScheduledInv(model: string, steps: seq<Step>)
    requires Schedule(model, steps).Some?
    ensures Inv(model, Schedule(model, steps).value)
    decreases |steps|
  {
    hide Inv, Take;
    if steps == [] {
      CreatedInv(model);
    } else {
      ScheduledInv(model, steps[..|steps| - 1]);
      KeepTake(model, Schedule(model, steps[..|steps| - 1]).value, steps[|steps| - 1]);
    }
  }

  // ----- Main results -----

  /** The state only moves forward, and what was handed out stays handed out. */
  lemma {:induction false} OnlyForward(model: string, steps: seq<Step>, more: seq<Step>)
    requires Schedule(model, steps + more).Some?
    ensures Schedule(model, steps).Some?
    ensures var s, t := Schedule(model, steps).value, Schedule(model, steps + more).value;
            && Rank(s.state) <= Rank(t.state)
            && s.delivered <= t.delivered
            && (s.cancelReturned ==> t.cancelReturned)
    decreases |more|
  {
    hide Take;
    if more == [] {
      assert steps + more == steps;
    } else {
      var front, last := more[..|more| - 1], more[|more| - 1];
      assert (steps + more)[..|steps + more| - 1] == steps + front;
      OnlyForward(model, steps, front);
      TakeForward(model, Schedule(model, steps + front).value, last);
    }
  }

  /** Once any `cancel` has returned, no further event is handed out. */
  lemma {:induction false} NothingAfterCancelReturns(
    model: string, steps: seq<Step>, more: seq<Step>)
    requires Schedule(model, steps + more).Some?
    requires Schedule(model, steps).Some? && Schedule(model, steps).value.cancelReturned
    ensures Schedule(model, steps + more).value.delivered == Schedule(model, steps).value.delivered
    decreases |more|
  {
    hide Take;
    if more == [] {
      assert steps + more == steps;
    } else {
      var front, last := more[..|more| - 1], more[|more| - 1];
      assert (steps + more)[..|steps + more| - 1] == steps + front;
      OnlyForward(model, steps, front);
      NothingAfterCancelReturns(model, steps, front);
      ClosedHandsOutNothing(model, steps + front, last);
    }
  }

  lemma ClosedHandsOutNothing(model: string, steps: seq<Step>, step: Step)
    requires Schedule(model, steps).Some? && Schedule(model, steps).value.cancelReturned
    ensures var s := Schedule(model, steps).value;
            Take(model, s, step).Some? ==> Take(model, s, step).value.delivered == s.delivered
  {
    hide Take, InvContent, InvTerminal, InvState, InvConsumer;
    ScheduledInv(model, steps);
    TakeForward(model, Schedule(model, steps).value, step);
  }

  /** A pending terminal is never cancelled or missing, and comes after a finished cleanup.  Whoever
      has received an ending finds `wait_closed` through at once, and through normally after success:
      success leaves the operation only when the cleanup confirmed the release. */
  lemma TerminalsFollowCleanup(model: string, steps: seq<Step>)
    requires Schedule(model, steps).Some?
    ensures var s := Schedule(model, steps).value;
            && (s.state.TerminalPending? ==>
                  s.queue != [] && !s.cancelSelected && s.cleanup.Done?)
            && (s.state.ResourcesClosing? && !s.cancelSelected ==> s.queue != [])
            && (!NoEnding(s.delivered) ==> s.cleanup.Done? && WaitClosed(s).Some?)
            && (HasCompleted(s.delivered) ==> s.cleanup == Done(false) && WaitClosed(s) == Some(true))
  {
    hide Schedule, Drive;
    ScheduledInv(model, steps);
    var s := Schedule(model, steps).value;
    if HasCompleted(s.delivered) { CompletionEnds(s.delivered); }
  }

  lemma CompletionEnds(events: seq<P.ProviderEvent>)
    requires HasCompleted(events)
    ensures !NoEnding(events)
  {
    var i :| 0 <= i < |events| && events[i].Completed?;
    assert events[i].EndsStream();
  }

  /** A normal return of `wait_closed` means that no later event exists, and that the cleanup ran to its end
      without failure or, where none was needed, no SDK work and no stream is open; an interrupted cleanup
      never counts. */
  lemma WaitClosedIsFinal(model: string, steps: seq<Step>)
    requires Schedule(model, steps).Some?
    ensures var s := Schedule(model, steps).value;
            WaitClosed(s) == Some(true) ==>
              && s.queue == []
              && (s.cleanup == Done(false)
                  || (s.cleanup.Unneeded? && s.owned.NoWork? && !s.streamOpen))
  {
    ScheduledInv(model, steps);
    hide InvContent, InvTerminal;
  }

  /** The resources are released, and nobody who forces the cleanup has seen them otherwise. */
  predicate Confirmed(s: Operation) {
    s.cleanup == Done(false) && !s.cleanupFailed && s.forcing != Some(true)
  }

  predicate ConfirmedIf(s: Operation, t: Option<Operation>) {
    Confirmed(s) && t.Some? ==> Confirmed(t.value)
  }

  lemma ReadingConfirmed(model: string, s: Operation, result: WorkResult, code: P.FailureCode)
    requires s.automaton.Coherent()
    ensures ConfirmedIf(s, ResumeWork(model, s, result)) && ConfirmedIf(s, ClientFails(model, s, code))
  {
    hide Batch, IsProgress;
  }

  lemma ClaimingConfirmed(s: Operation, aborted: bool)
    ensures ConfirmedIf(s, Enter(s)) && ConfirmedIf(s, BeginWork(s)) && ConfirmedIf(s, WorkEnds(s))
    ensures ConfirmedIf(s, HandProgress(s, aborted)) && ConfirmedIf(s, JoinCleanup(s))
  {
    hide Automaton.Coherent;
  }

  lemma HeadConfirmed(s: Operation, aborted: bool)
    ensures ConfirmedIf(s, Top(s, aborted))
  {
    hide Automaton.Coherent;
  }

  lemma EndingConfirmed(s: Operation)
    ensures ConfirmedIf(s, FinishTerminal(s)) && ConfirmedIf(s, Install(s))
    ensures ConfirmedIf(s, AbortConsumer(s)) && ConfirmedIf(s, SelectConsumerCancellation(s))
  {
    hide Automaton.Coherent;
  }

  lemma CleaningConfirmed(s: Operation, flag: bool)
    ensures ConfirmedIf(s, Some(Cancel(s))) && ConfirmedIf(s, CancelReturns(s))
    ensures ConfirmedIf(s, CleanupReaps(s, flag)) && ConfirmedIf(s, CleanupFinishes(s, flag))
    ensures ConfirmedIf(s, ForceBegins(s)) && ConfirmedIf(s, ForceInterrupts(s))
    ensures ConfirmedIf(s, ForceReaps(s)) && ConfirmedIf(s, ForceEnds(s))
  {
    hide Automaton.Coherent;
  }

  lemma TakeConfirmed(model: string, s: Operation, step: Step)
    requires s.automaton.Coherent()
    ensures ConfirmedIf(s, Take(model, s, step))
  {
    hide ConfirmedIf, Enter, Top, BeginWork, WorkEnds, HandProgress, ResumeWork, ClientFails;
    hide FinishTerminal, JoinCleanup, Install, AbortConsumer, SelectConsumerCancellation, Cancel;
    hide CancelReturns, CleanupReaps, CleanupFinishes, ForceBegins, ForceInterrupts, ForceReaps;
    hide ForceEnds;
    ClaimingConfirmed(s, true);
    ClaimingConfirmed(s, false);
    HeadConfirmed(s, true);
    HeadConfirmed(s, false);
    EndingConfirmed(s);
    CleaningConfirmed(s, true);
    CleaningConfirmed(s, false);
    match step
    case DoResumeWork(result) => ReadingConfirmed(model, s, result, P.Unknown);
    case DoClientFails(code) => ReadingConfirmed(model, s, StreamCreated(true), code);
    case _ =>
  }

  /** Once the cleanup has confirmed the release, nothing takes that back: neither a cancel nor a forced
      cleanup that comes later. */
  lemma {:induction false} ReleaseStaysConfirmed(model: string, steps: seq<Step>, more: seq<Step>)
    requires Schedule(model, steps + more).Some? && Schedule(model, steps).Some?
    requires var s := Schedule(model, steps).value; s.cleanup == Done(false) && !s.cleanupFailed
    ensures var t := Schedule(model, steps + more).value;
            t.cleanup == Done(false) && !t.cleanupFailed
    ensures Confirmed(Schedule(model, steps + more).value)
    decreases |more|
  {
    hide Take, Inv;
    if more == [] {
      assert steps + more == steps;
      ScheduledInv(model, steps);
      ForcingSeen(model, Schedule(model, steps).value);
    } else {
      var front, last := more[..|more| - 1], more[|more| - 1];
      assert (steps + more)[..|steps + more| - 1] == steps + front;
      ReleaseStaysConfirmed(model, steps, front);
      TakeConfirmed(model, Schedule(model, steps + front).value, last);
    }
  }

  lemma ForcingSeen(model: string, s: Operation)
    requires Inv(model, s)
    ensures s.forcing == Some(true) ==> s.cleanupFailed
  {
    hide InvContent, InvTerminal, InvConsumer;
  }

  /** Whatever the consumer received is a grammatical turn. */
  lemma DeliveredIsGrammatical(model: string, steps: seq<Step>)
    requires Schedule(model, steps).Some?
    ensures P.TurnGrammar(Schedule(model, steps).value.delivered)
  {
    hide Schedule, Drive, P.TurnGrammar;
    var s := Schedule(model, steps).value;
    ScheduledInv(model, steps);
    EmittedTurnIsGrammatical(model, s.inputs);
    BackedIsGrammatical(s.delivered, Drive(model, s.inputs).emitted);
  }

  lemma BackedIsGrammatical(delivered: seq<P.ProviderEvent>, emitted: seq<P.ProviderEvent>)
    requires Backed(delivered, emitted) && P.TurnGrammar(emitted)
    ensures P.TurnGrammar(delivered)
  {
    hide P.TurnGrammar, NoEnding;
    if delivered <= emitted {
      P.GrammarPrefix(emitted, |delivered|);
      assert emitted[..|delivered|] == delivered;
    } else {
      var front := delivered[..|delivered| - 1];
      P.GrammarPrefix(emitted, |front|);
      assert emitted[..|front|] == front;
      P.GrammarSnoc(front, Failure(P.Unknown));
      assert delivered == front + [Failure(P.Unknown)];
    }
  }

  /** Composition.  A session that examines what an adapter operation handed out never rejects it;
      when the operation handed out success, the session completes with exactly the streamed text,
      unless its deadline wins. */
  lemma AdapterSatisfiesSession(
    model: string, operation: seq<Step>,
    cfg: M.Config, seed: LoopLimits.Counters, now: int, steps: seq<M.Step>, s: M.Session)
    requires Schedule(model, operation).Some?
    requires R.Reachable(cfg, seed, now, steps, s)
    requires s.stream.delivered <= Schedule(model, operation).value.delivered
    ensures s.selection != Some(M.ChooseInvalidResponse(M.OwnGrammar))
    ensures HasCompleted(s.stream.delivered) ==>
              || s.selection == Some(M.ChooseDeadline)
              || s.selection == Some(M.ChooseCompleted)
              || (s.selection.None? && s.lock.Held? && s.lock.at == M.Choosing(M.ChooseCompleted))
    ensures s.selection == Some(M.ChooseCompleted) ==>
              s.stream.completedText == Some(P.DeltaText(s.stream.delivered))
  {
    hide R.Reachable, Schedule, P.TurnGrammar;
    var all := Schedule(model, operation).value.delivered;
    DeliveredIsGrammatical(model, operation);
    P.GrammarPrefix(all, |s.stream.delivered|);
    assert all[..|s.stream.delivered|] == s.stream.delivered;
    R.ProviderGrammarDecides(cfg, seed, now, steps, s);
    if i :| 0 <= i < |s.stream.delivered| && s.stream.delivered[i].Completed? {
      assert s.stream.delivered[i].EndsStream();
      assert i == |s.stream.delivered| - 1;
    }
  }
}
