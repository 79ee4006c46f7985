/** The operation object of `openai_responses.py`, updated in place.  Each method is one section of
    the source and carries out one step of the operation machine. */
module AdapterOperations {
  import opened Prelude
  import opened ResponsesAutomaton
  import opened AutomatonRuns
  import opened ResponsesOperation
  import opened OperationSafety
  import P = ProviderEvents

  class AdapterOperation {
    const automaton: StreamAutomaton

    var state: OperationState
    var terminalQueue: seq<P.ProviderEvent>
    var cancelSelected: bool
    var cleanupFailed: bool
    var cleanupTask: CleanupTask
    var ownedTask: OwnedWork
    var clientOpen: bool
    var streamOpen: bool
    var consumer: Consumer
    var cancelsWaiting: nat
    ghost var cancelReturned: bool
    var forcing: Option<bool>
    ghost var inputs: seq<Read>
    ghost var delivered: seq<P.ProviderEvent>

    ghost function View(): Operation
      reads this, automaton
    {
      Operation(state, terminalQueue, cancelSelected, cleanupFailed, cleanupTask, ownedTask,
                clientOpen, streamOpen, automaton.View(), consumer, cancelsWaiting, cancelReturned,
                forcing, inputs, delivered)
    }

    ghost predicate Valid()
      reads this, automaton
    {
      automaton.View().Coherent() && Inv(automaton.model, View())
    }

    constructor (model: string)
      ensures Valid() && View() == CREATED && automaton.model == model && fresh(automaton)
    {
      automaton := new StreamAutomaton(model);
      state, terminalQueue, cancelSelected, cleanupFailed := Active, [], false, false;
      cleanupTask, ownedTask, clientOpen, streamOpen := Unneeded, NoWork, false, false;
      consumer, cancelsWaiting, cancelReturned, forcing := Outside, 0, false, None;
      inputs, delivered := [], [];
      new;
      CreatedInv(model);
    }

    /** `_ensure_cleanup_locked`. */
    method EnsureCleanupTask()
      modifies this
      ensures View() == EnsureCleanup(old(View()))
    {
      if cleanupTask.Unneeded? { cleanupTask := Running; }
    }

    method CloseLocked()
      modifies this
      ensures View() == Close(old(View()))
    {
      terminalQueue := [];
      state := Closed;
    }

    /** The iterator returns an event, unless its caller turns out to be cancelled. */
    method HandOut(event: P.ProviderEvent, aborted: bool)
      modifies this
      ensures View() == Hand(old(View()), event, aborted)
    {
      if aborted {
        consumer := Aborting;
      } else {
        delivered := delivered + [event];
        consumer := Outside;
      }
    }

    /** `_next_event`, the section at the head of its loop. */
    method NextEvent(aborted: bool) returns (event: Option<P.ProviderEvent>)
      requires Valid() && Top(View(), aborted).Some?
      modifies this
      ensures Valid() && View() == Top(old(View()), aborted).value
      ensures event.Some? ==> delivered == old(delivered) + [event.value]
      ensures event.None? ==> delivered == old(delivered)
    {
      hide Inv;
      KeepTop(automaton.model, View(), aborted);
      event := None;
      if state.Closed? || (state.TerminalPending? && terminalQueue == []) {
        consumer := Stopped;
      } else if state.TerminalPending? {
        var next := terminalQueue[0];
        terminalQueue := terminalQueue[1..];
        if terminalQueue == [] { state := Closed; }
        HandOut(next, aborted);
        if !aborted { event := Some(next); }
      } else if state.ResourcesClosing? && !cleanupTask.Unneeded? {
        consumer := JoiningCleanup;
      } else {
        consumer := AtRead;
      }
    }

    /** `_run_owned`, before its await. */
    method RunOwned()
      requires Valid() && BeginWork(View()).Some?
      modifies this
      ensures Valid() && View() == BeginWork(old(View())).value
    {
      hide Inv;
      KeepWaiting(automaton.model, View());
      clientOpen := true;
      if !state.Active? {
        consumer := Stopped;
      } else {
        ownedTask := Pending;
        consumer := AwaitingWork;
      }
    }

    /** `_read_sdk_observation`: one observation, or the failure an exception maps to. */
    method MapRead(read: Read)
      requires automaton.View().Coherent()
      modifies this, automaton
      ensures View() == Mapped(automaton.model, old(View()), read)
      ensures automaton.View().Coherent()
    {
      hide Accept;
      AutomatonStays(read);
      inputs := inputs + [read];
      var batch: seq<P.ProviderEvent>;
      match read {
        case Broke(code) =>
          batch := [Failure(code)];
        case Observed(event) =>
          var mapped := automaton.AcceptEvent(event);
          batch := if mapped.Ok? then mapped.value else [Failure(P.InvalidResponse)];
      }
      consumer :=
        if batch == [] then AtRead
        else if IsProgress(batch) then HasProgress(batch[0])
        else HasTerminal(batch);
    }

    lemma AutomatonStays(read: Read)
      requires automaton.View().Coherent()
      ensures read.Observed? ==>
                Accept(automaton.model, automaton.View(), read.event).after.Coherent()
    {
      if read.Observed? { AcceptCoherent(automaton.model, automaton.View(), read.event); }
    }

    /** `_read_sdk_observation`: the owned work is over. */
    method ResumeOwned(result: WorkResult)
      requires Valid() && ResumeWork(automaton.model, View(), result).Some?
      modifies this, automaton
      ensures Valid() && View() == ResumeWork(automaton.model, old(View()), result).value
    {
      hide Inv, Mapped;
      KeepResumeWork(automaton.model, View(), result);
      var cancelled := ownedTask.cancelled;
      ownedTask := NoWork;
      if cancelled && (cancelSelected || !state.Active?) {
        consumer := Stopped;
        return;
      }
      match if cancelled then Obtained(Broke(P.Unknown)) else result
      case StreamCreated(claimed) =>
        streamOpen := true;
        if claimed { consumer := AtRead; } else { MapRead(Broke(P.InvalidResponse)); }
      case Obtained(read) =>
        MapRead(read);
    }

    /** `_next_event`, handing out a progress observation. */
    method NextProgress(aborted: bool)
      requires Valid() && HandProgress(View(), aborted).Some?
      modifies this
      ensures Valid() && View() == HandProgress(old(View()), aborted).value
    {
      hide Inv;
      KeepHandProgress(automaton.model, View(), aborted);
      if !state.Active? { consumer := Stopped; } else { HandOut(consumer.event, aborted); }
    }

    /** `_finish_terminal`, up to joining the cleanup. */
    method FinishTerminalBatch()
      requires Valid() && FinishTerminal(View()).Some?
      modifies this
      ensures Valid() && View() == FinishTerminal(old(View())).value
    {
      hide Inv;
      KeepFinishTerminal(automaton.model, View());
      if !state.Active? {
        consumer := AtTop;
        return;
      }
      terminalQueue := consumer.batch;
      state := ResourcesClosing;
      consumer := JoiningCleanup;
      EnsureCleanupTask();
    }

    /** `_install_terminal_after_cleanup`. */
    method InstallTerminal()
      requires Valid() && Install(View()).Some?
      modifies this
      ensures Valid() && View() == Install(old(View())).value
    {
      hide Inv;
      KeepInstall(automaton.model, View());
      consumer := AtTop;
      if !state.ResourcesClosing? { return; }
      if cancelSelected {
        CloseLocked();
        return;
      }
      if cleanupFailed && (exists e :: e in terminalQueue && e.Completed?) {
        terminalQueue := [Failure(P.Unknown)];
      }
      if terminalQueue == [] { terminalQueue := [Failure(P.Unknown)]; }
      state := TerminalPending;
    }

    /** `_select_consumer_cancellation`. */
    method CancelConsumer()
      requires Valid() && SelectConsumerCancellation(View()).Some?
      modifies this
      ensures Valid() && View() == SelectConsumerCancellation(old(View())).value
    {
      hide Inv;
      KeepConsumerCancelled(automaton.model, View());
      consumer := Stopped;
      if state.Closed? { return; }
      cancelSelected := true;
      CloseLocked();
      EnsureCleanupTask();
    }

    /** `cancel`, up to joining the cleanup; tells whether this call selected cancellation. */
    method CancelOperation() returns (selected: bool)
      requires Valid()
      modifies this
      ensures Valid() && View() == Cancel(old(View()))
      ensures selected <==> !old(state).Closed? && !old(cancelSelected)
    {
      hide Inv;
      KeepCancel(automaton.model, View());
      selected := false;
      cancelsWaiting := cancelsWaiting + 1;
      if !state.Closed? {
        selected := !cancelSelected;
        cancelSelected := true;
        terminalQueue := [];
        state := if state.TerminalPending? then Closed else ResourcesClosing;
        EnsureCleanupTask();
      }
    }

    /** `cancel`, after joining the cleanup; tells whether the release was confirmed. */
    method CancelJoined() returns (confirmed: bool)
      requires Valid() && CancelReturns(View()).Some?
      modifies this
      ensures Valid() && View() == CancelReturns(old(View())).value
      ensures confirmed == !cleanupFailed
    {
      hide Inv;
      KeepCancel(automaton.model, View());
      if cancelSelected && !state.Closed? { CloseLocked(); }
      cancelsWaiting := cancelsWaiting - 1;
      cancelReturned := true;
      confirmed := !cleanupFailed;
    }

    /** `_cleanup_resources`, last section. */
    method FinishCleanup(failed: bool)
      requires Valid() && CleanupFinishes(View(), failed).Some?
      modifies this
      ensures Valid() && View() == CleanupFinishes(old(View()), failed).value
    {
      hide Inv;
      KeepCleanup(automaton.model, View(), failed);
      cleanupFailed := cleanupFailed || failed;
      cleanupTask := Done(failed);
      if cancelSelected && state.ResourcesClosing? { CloseLocked(); }
    }

    /** `force_cancel_cleanup`, first section. */
    method BeginForce()
      requires Valid() && ForceBegins(View()).Some?
      modifies this
      ensures Valid() && View() == ForceBegins(old(View())).value
    {
      hide Inv;
      KeepForce(automaton.model, View());
      var confirmed :=
        cleanupTask.Unneeded? && ownedTask.NoWork? && !clientOpen && !streamOpen;
      if cleanupTask.Done? { confirmed := !cleanupTask.failed; }
      cleanupFailed := cleanupFailed || !confirmed;
      forcing := Some(cleanupFailed);
      cancelSelected := true;
      CloseLocked();
    }

    /** `force_cancel_cleanup`, last section. */
    method EndForce()
      requires Valid() && ForceEnds(View()).Some?
      modifies this
      ensures Valid() && View() == ForceEnds(old(View())).value
    {
      hide Inv;
      KeepForce(automaton.model, View());
      cleanupFailed := cleanupFailed || forcing.value;
      forcing := None;
      CloseLocked();
    }
  }
}
