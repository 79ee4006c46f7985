/** What every interleaving of an adapter operation keeps. */
module OperationSafety {
  import opened Prelude
  import opened ResponsesAutomaton
  import opened AutomatonRuns
  import opened ResponsesOperation
  import P = ProviderEvents

  // ----- The invariant -----

  ghost predicate HasCompleted(events: seq<P.ProviderEvent>) {
    exists i :: 0 <= i < |events| && events[i].Completed?
  }

  /** State, queue and cleanup. */
  ghost predicate InvState(
    state: OperationState, queue: seq<P.ProviderEvent>, cancelSelected: bool, cleanupFailed: bool,
    cleanup: CleanupTask, forcing: Option<bool>)
  {
    && (state.Active? ==> queue == [] && !cancelSelected && cleanup.Unneeded? && !cleanupFailed)
    && (state.ResourcesClosing? ==> !cleanup.Unneeded? && (!cancelSelected ==> queue != []))
    && (state.TerminalPending? ==>
          && queue != [] && !cancelSelected && cleanup.Done?
          && (cleanupFailed ==> !HasCompleted(queue)))
    && (state.Closed? || cancelSelected ==> queue == [])
    && (cleanup.Interrupted? || forcing.Some? ==> state.Closed?)
    && (cleanup.Done? && cleanup.failed ==> cleanupFailed)
    && (cleanup.Interrupted? || (forcing.Some? && cleanup.Running?) ==> cleanupFailed)
    && (forcing == Some(true) ==> cleanupFailed)
  }

  /** Cancellers. */
  predicate InvCancel(state: OperationState, cancelSelected: bool, waiting: nat, returned: bool) {
    && (waiting > 0 ==> cancelSelected || state.Closed?)
    && (returned ==> state.Closed?)
  }

  /** The consumer's position. */
  predicate InvConsumer(
    consumer: Consumer, state: OperationState, owned: OwnedWork, cleanup: CleanupTask)
  {
    && (consumer.AwaitingWork? <==> !owned.NoWork?)
    && (owned.Settled? && owned.cancelled ==> !state.Active?)
    && (consumer.JoiningCleanup? || consumer.Installing? ==>
          !state.Active? && !state.TerminalPending? && !cleanup.Unneeded?)
    && (consumer.Installing? ==> CleanupSettled(cleanup))
    && (consumer.Stopped? ==> !state.Active?)
    && (state.TerminalPending? ==>
          consumer.Outside? || consumer.AtTop? || consumer.Aborting? || consumer.Stopped?)
  }

  predicate Reading(consumer: Consumer) {
    consumer.Outside? || consumer.AtTop? || consumer.AtRead? || consumer.AwaitingWork?
  }

  /** What reached the consumer: a prefix of what the automaton emitted, except that a last failure
      may stand in for the rest. */
  ghost predicate Backed(delivered: seq<P.ProviderEvent>, emitted: seq<P.ProviderEvent>) {
    || delivered <= emitted
    || (&& delivered != []
        && delivered[..|delivered| - 1] <= emitted
        && NoEnding(delivered[..|delivered| - 1])
        && delivered[|delivered| - 1] == Failure(P.Unknown))
  }

  ghost predicate InvContent(
    d: Driven, delivered: seq<P.ProviderEvent>, consumer: Consumer, state: OperationState,
    queue: seq<P.ProviderEvent>)
  {
    && Backed(delivered, d.emitted)
    && (state.Active? || state.ResourcesClosing? || queue != [] ==>
          delivered <= d.emitted && NoEnding(delivered))
    && (consumer.AtRead? || consumer.AwaitingWork? ==> !d.over)
    && (state.Active? && Reading(consumer) ==> !d.over && delivered == d.emitted)
    && (consumer.HasProgress? ==>
          && (consumer.event.TextDelta? || consumer.event.TextCompleted?)
          && (state.Active? ==> !d.over && delivered + [consumer.event] == d.emitted))
    && (consumer.HasTerminal? ==>
          && IsTerminalBatch(consumer.batch)
          && (state.Active? ==> d.over && delivered + consumer.batch == d.emitted))
    && (state.ResourcesClosing? && queue != [] ==>
          d.over && delivered + queue == d.emitted && IsTerminalBatch(queue))
    && (state.TerminalPending? && !consumer.Aborting? ==>
          || (delivered + queue == d.emitted && IsTerminalBatch(queue))
          || queue == [Failure(P.Unknown)])
  }

  /** Terminals reach the consumer only behind a settled cleanup, success only behind a clean one. */
  ghost predicate InvTerminal(
    delivered: seq<P.ProviderEvent>, cleanup: CleanupTask, cleanupFailed: bool,
    forcing: Option<bool>)
  {
    && (!NoEnding(delivered) ==> cleanup.Done?)
    && (HasCompleted(delivered) ==>
          !cleanupFailed && cleanup == Done(false) && forcing != Some(true))
  }

  /** An operation that closed without any cleanup owns no SDK work and no stream. */
  predicate InvRelease(
    state: OperationState, cleanup: CleanupTask, cleanupFailed: bool, owned: OwnedWork,
    streamOpen: bool)
  {
    state.Closed? && cleanup.Unneeded? && !cleanupFailed ==> owned.NoWork? && !streamOpen
  }

  ghost predicate Inv(model: string, s: Operation) {
    var d := Drive(model, s.inputs);
    && d.automaton == s.automaton
    && InvState(s.state, s.queue, s.cancelSelected, s.cleanupFailed, s.cleanup, s.forcing)
    && InvCancel(s.state, s.cancelSelected, s.cancelsWaiting, s.cancelReturned)
    && InvConsumer(s.consumer, s.state, s.owned, s.cleanup)
    && InvContent(d, s.delivered, s.consumer, s.state, s.queue)
    && InvTerminal(s.delivered, s.cleanup, s.cleanupFailed, s.forcing)
    && InvRelease(s.state, s.cleanup, s.cleanupFailed, s.owned, s.streamOpen)
  }

  lemma CreatedInv(model: string)
    ensures Inv(model, CREATED)
  {}

  // ----- Steps that hand nothing out -----

  lemma KeepWaiting(model: string, s: Operation)
    requires Inv(model, s)
    ensures Enter(s).Some? ==> Inv(model, Enter(s).value)
    ensures BeginWork(s).Some? ==> Inv(model, BeginWork(s).value)
    ensures WorkEnds(s).Some? ==> Inv(model, WorkEnds(s).value)
    ensures JoinCleanup(s).Some? ==> Inv(model, JoinCleanup(s).value)
  {
    hide Drive, Backed, NoEnding, HasCompleted, IsTerminalBatch, IsProgress;
  }

  lemma KeepCancel(model: string, s: Operation)
    requires Inv(model, s)
    ensures Inv(model, Cancel(s))
    ensures CancelReturns(s).Some? ==> Inv(model, CancelReturns(s).value)
  {
    hide Drive, Backed, NoEnding, HasCompleted, IsTerminalBatch, IsProgress;
  }

  lemma KeepAbort(model: string, s: Operation)
    requires Inv(model, s) && AbortConsumer(s).Some?
    ensures Inv(model, AbortConsumer(s).value)
  {
    hide Drive, Backed, NoEnding, HasCompleted, IsTerminalBatch, IsProgress;
  }

  lemma KeepConsumerStopped(model: string, s: Operation)
    requires Inv(model, s) && s.consumer.Aborting? && s.state.Closed?
    ensures Inv(model, s.(consumer := Stopped))
  {
    hide Drive, Backed, NoEnding, HasCompleted, IsTerminalBatch, IsProgress;
  }

  lemma KeepConsumerCloses(model: string, s: Operation)
    requires Inv(model, s) && s.consumer.Aborting? && !s.state.Closed?
    ensures Inv(model, SelectConsumerCancellation(s).value)
  {
    hide Drive, Backed, NoEnding, HasCompleted, IsTerminalBatch, IsProgress;
  }

  lemma KeepConsumerCancelled(model: string, s: Operation)
    requires Inv(model, s) && SelectConsumerCancellation(s).Some?
    ensures Inv(model, SelectConsumerCancellation(s).value)
  {
    hide Inv;
    if s.state.Closed? { KeepConsumerStopped(model, s); } else { KeepConsumerCloses(model, s); }
  }

  lemma KeepCleanup(model: string, s: Operation, flag: bool)
    requires Inv(model, s)
    ensures CleanupReaps(s, flag).Some? ==> Inv(model, CleanupReaps(s, flag).value)
    ensures CleanupFinishes(s, flag).Some? ==> Inv(model, CleanupFinishes(s, flag).value)
  {
    hide Drive, Backed, NoEnding, HasCompleted, IsTerminalBatch, IsProgress;
  }

  lemma KeepForce(model: string, s: Operation)
    requires Inv(model, s)
    ensures ForceBegins(s).Some? ==> Inv(model, ForceBegins(s).value)
    ensures ForceInterrupts(s).Some? ==> Inv(model, ForceInterrupts(s).value)
    ensures ForceReaps(s).Some? ==> Inv(model, ForceReaps(s).value)
    ensures ForceEnds(s).Some? ==> Inv(model, ForceEnds(s).value)
  {
    hide Drive, Backed, NoEnding, HasCompleted, IsTerminalBatch, IsProgress;
  }

  lemma KeepFinishTerminal(model: string, s: Operation)
    requires Inv(model, s) && FinishTerminal(s).Some?
    ensures Inv(model, FinishTerminal(s).value)
  {
    hide Drive, Backed, NoEnding, HasCompleted, IsProgress;
  }

  lemma KeepInstall(model: string, s: Operation)
    requires Inv(model, s) && Install(s).Some?
    ensures Inv(model, Install(s).value)
  {
    hide Drive, Backed, NoEnding, IsProgress;
    if s.state.ResourcesClosing? && !s.cancelSelected && HasCompleted(s.queue) {
      var i :| 0 <= i < |s.queue| && s.queue[i].Completed?;
      assert s.queue[i] in s.queue;
    }
  }

  // ----- Reading and handing out -----

  function Mapping(batch: seq<P.ProviderEvent>): Consumer {
    if batch == [] then AtRead
    else if IsProgress(batch) then HasProgress(batch[0])
    else HasTerminal(batch)
  }

  lemma MappedContent(
    d: Driven, after: Automaton, batch: seq<P.ProviderEvent>, delivered: seq<P.ProviderEvent>,
    state: OperationState, queue: seq<P.ProviderEvent>)
    requires InvContent(d, delivered, AtRead, state, queue) && queue == []
    requires !state.TerminalPending?
    requires IsProgress(batch) || IsTerminalBatch(batch)
    ensures InvContent(Driven(after, d.emitted + batch, !IsProgress(batch)), delivered,
                       Mapping(batch), state, queue)
  {
    hide Backed, NoEnding, IsTerminalBatch;
    BackedExtends(delivered, d.emitted, batch);
    if batch == [] {
      assert d.emitted + batch == d.emitted;
    } else if IsProgress(batch) {
      assert batch == [batch[0]];
    }
  }

  lemma BatchKinds(model: string, inputs: seq<Read>, read: Read)
    requires !Drive(model, inputs).over
    ensures var batch := Batch(model, Drive(model, inputs).automaton, read).1;
            IsProgress(batch) || IsTerminalBatch(batch)
  {
    hide Batch, Agrees;
    DriveSound(model, inputs);
    BatchContinues(model, Drive(model, inputs).automaton, read,
                   P.ScanAll(Drive(model, inputs).emitted));
  }

  /** Reading one more observation: the automaton and its log move together. */
  lemma KeepMapped(model: string, s: Operation, read: Read)
    requires Inv(model, s) && s.consumer.AtRead? && s.owned.NoWork?
    ensures Inv(model, Mapped(model, s, read))
  {
    hide Batch, Drive, InvContent, InvTerminal, IsProgress, IsTerminalBatch;
    ReadingOpen(Drive(model, s.inputs), s);
    var (after, batch) := Batch(model, s.automaton, read);
    DriveSnoc(model, s.inputs, read);
    BatchKinds(model, s.inputs, read);
    MappedContent(Drive(model, s.inputs), after, batch, s.delivered, s.state, s.queue);
  }

  lemma ReadingOpen(d: Driven, s: Operation)
    requires InvContent(d, s.delivered, s.consumer, s.state, s.queue) && s.consumer.AtRead?
    requires InvState(s.state, s.queue, s.cancelSelected, s.cleanupFailed, s.cleanup, s.forcing)
    requires InvConsumer(s.consumer, s.state, s.owned, s.cleanup)
    ensures !d.over && s.queue == [] && !s.state.TerminalPending?
  {}

  lemma BackedExtends(
    delivered: seq<P.ProviderEvent>, emitted: seq<P.ProviderEvent>, batch: seq<P.ProviderEvent>)
    requires Backed(delivered, emitted)
    ensures Backed(delivered, emitted + batch)
    ensures delivered <= emitted ==> delivered <= emitted + batch
  {}

  lemma DriveSnoc(model: string, inputs: seq<Read>, last: Read)
    requires !Drive(model, inputs).over
    ensures var before := Drive(model, inputs);
            var (after, batch) := Batch(model, before.automaton, last);
            Drive(model, inputs + [last]) == Driven(after, before.emitted + batch, !IsProgress(batch))
  {
    hide Batch;
    assert (inputs + [last])[..|inputs|] == inputs;
  }

  /** The reader resumed: its work is reaped. */
  lemma KeepReaped(model: string, s: Operation, stream: bool)
    requires Inv(model, s) && s.consumer.AwaitingWork?
    ensures Inv(model, s.(owned := NoWork, consumer := AtRead, streamOpen := stream))
  {
    hide Drive, Backed, NoEnding, HasCompleted, IsTerminalBatch, IsProgress;
  }

  lemma KeepReaderStopped(model: string, s: Operation)
    requires Inv(model, s) && s.consumer.AwaitingWork? && s.owned.Settled? && s.owned.cancelled
    ensures Inv(model, s.(owned := NoWork, consumer := Stopped))
  {
    hide Drive, Backed, NoEnding, HasCompleted, IsTerminalBatch, IsProgress;
  }

  lemma InvCoherent(model: string, s: Operation)
    requires Inv(model, s)
    ensures s.automaton.Coherent()
  {}

  /** Mapping a read sets the position of the reader and does not look at it. */
  lemma MappedIgnoresConsumer(model: string, s: Operation, t: Operation, read: Read)
    requires s.automaton.Coherent() && t == s.(consumer := AtRead)
    ensures Mapped(model, s, read) == Mapped(model, t, read)
  {
    hide Batch, IsProgress;
  }

  lemma KeepResumeWork(model: string, s: Operation, result: WorkResult)
    requires Inv(model, s) && ResumeWork(model, s, result).Some?
    ensures Inv(model, ResumeWork(model, s, result).value)
  {
    hide Inv, Mapped;
    InvCoherent(model, s);
    if s.owned.cancelled { KeepReaderStopped(model, s); }
    KeepReaped(model, s, s.streamOpen);
    KeepReaped(model, s, true);
    var r := s.(owned := NoWork, consumer := AtRead);
    match if s.owned.cancelled then Obtained(Broke(P.Unknown)) else result {
      case StreamCreated(claimed) =>
        MappedIgnoresConsumer(model, s.(owned := NoWork, streamOpen := true),
                              r.(streamOpen := true), Broke(P.InvalidResponse));
        KeepMapped(model, r.(streamOpen := true), Broke(P.InvalidResponse));
      case Obtained(read) =>
        MappedIgnoresConsumer(model, s.(owned := NoWork), r, read);
        KeepMapped(model, r, read);
    }
  }

  lemma KeepProgressLost(model: string, s: Operation)
    requires Inv(model, s) && s.consumer.HasProgress?
    ensures Inv(model, s.(consumer := Aborting))
    ensures !s.state.Active? ==> Inv(model, s.(consumer := Stopped))
  {
    hide Drive, Backed, NoEnding, HasCompleted, IsTerminalBatch, IsProgress;
  }

  lemma KeepProgressHanded(model: string, s: Operation)
    requires Inv(model, s) && s.consumer.HasProgress? && s.state.Active?
    ensures Inv(model, s.(delivered := s.delivered + [s.consumer.event], consumer := Outside))
  {
    hide Drive, Backed, NoEnding, HasCompleted, IsTerminalBatch, IsProgress;
    EndingSnoc(s.delivered, s.consumer.event);
    CompletedSnoc(s.delivered, s.consumer.event);
    ProgressBacked(Drive(model, s.inputs).emitted, s.delivered + [s.consumer.event]);
  }

  lemma ProgressBacked(emitted: seq<P.ProviderEvent>, delivered: seq<P.ProviderEvent>)
    requires delivered <= emitted
    ensures Backed(delivered, emitted)
  {}

  lemma KeepHandProgress(model: string, s: Operation, aborted: bool)
    requires Inv(model, s) && HandProgress(s, aborted).Some?
    ensures Inv(model, HandProgress(s, aborted).value)
  {
    hide Inv;
    KeepProgressLost(model, s);
    if s.state.Active? && !aborted { KeepProgressHanded(model, s); }
  }

  lemma KeepTop(model: string, s: Operation, aborted: bool)
    requires Inv(model, s) && Top(s, aborted).Some?
    ensures Inv(model, Top(s, aborted).value)
  {
    hide Drive, IsProgress;
    if s.state.TerminalPending? && s.queue != [] {
      KeepPop(model, s, aborted);
    }
  }

  /** What taking the head of a pending queue leaves behind, before it is handed out. */
  function Popped(s: Operation): Operation
    requires s.queue != []
  {
    var rest := s.queue[1..];
    s.(queue := rest, state := if rest == [] then Closed else TerminalPending)
  }

  lemma TopPops(s: Operation, aborted: bool)
    requires s.consumer.AtTop? && s.state.TerminalPending? && s.queue != []
    ensures Top(s, aborted) == Some(Hand(Popped(s), s.queue[0], aborted))
  {
    hide Automaton.Coherent;
  }

  lemma KeepLost(model: string, s: Operation)
    requires Inv(model, s) && s.consumer.AtTop? && s.state.TerminalPending? && s.queue != []
    ensures Inv(model, Hand(Popped(s), s.queue[0], true))
  {
    hide Drive, Backed, NoEnding, HasCompleted, IsTerminalBatch;
    PopContent(Drive(model, s.inputs), s.delivered, s.queue);
    if HasCompleted(s.queue[1..]) { CompletedTail(s.queue); }
  }

  lemma KeepHanded(model: string, s: Operation)
    requires Inv(model, s) && s.consumer.AtTop? && s.state.TerminalPending? && s.queue != []
    ensures Inv(model, Hand(Popped(s), s.queue[0], false))
  {
    hide Drive, Backed, NoEnding, HasCompleted, IsTerminalBatch;
    PopContent(Drive(model, s.inputs), s.delivered, s.queue);
    CompletedSnoc(s.delivered, s.queue[0]);
    EndingSnoc(s.delivered, s.queue[0]);
    if s.queue[0].Completed? { CompletedHead(s.queue); }
    if HasCompleted(s.queue[1..]) { CompletedTail(s.queue); }
  }

  lemma KeepPop(model: string, s: Operation, aborted: bool)
    requires Inv(model, s) && s.consumer.AtTop? && s.state.TerminalPending? && s.queue != []
    ensures Inv(model, Top(s, aborted).value)
  {
    hide Inv, Top, Hand, Popped;
    TopPops(s, aborted);
    if aborted { KeepLost(model, s); } else { KeepHanded(model, s); }
  }

  /** Taking the head of a terminal queue keeps what was delivered backed by what was emitted. */
  lemma PopContent(d: Driven, delivered: seq<P.ProviderEvent>, queue: seq<P.ProviderEvent>)
    requires InvContent(d, delivered, AtTop, TerminalPending, queue) && queue != []
    ensures Backed(delivered + [queue[0]], d.emitted)
    ensures queue[1..] != [] ==>
              && delivered + [queue[0]] <= d.emitted && NoEnding(delivered + [queue[0]])
              && (delivered + [queue[0]]) + queue[1..] == d.emitted && IsTerminalBatch(queue[1..])
  {
    var event, rest := queue[0], queue[1..];
    assert queue == [event] + rest;
    var after := delivered + [event];
    assert after + rest == delivered + queue;
    assert after[..|after| - 1] == delivered && after[|after| - 1] == event;
    EndingSnoc(delivered, event);
  }

  lemma CompletedSnoc(events: seq<P.ProviderEvent>, last: P.ProviderEvent)
    ensures HasCompleted(events + [last]) <==> HasCompleted(events) || last.Completed?
  {
    var now := events + [last];
    assert now[|events|] == last;
    if i :| 0 <= i < |events| && events[i].Completed? { assert now[i].Completed?; }
  }

  lemma EndingSnoc(events: seq<P.ProviderEvent>, last: P.ProviderEvent)
    ensures NoEnding(events + [last]) <==> NoEnding(events) && !last.EndsStream()
  {
    var now := events + [last];
    assert now[|events|] == last;
    assert forall i :: 0 <= i < |events| ==> now[i] == events[i];
  }

  lemma CompletedHead(events: seq<P.ProviderEvent>)
    requires events != [] && events[0].Completed?
    ensures HasCompleted(events)
  {}

  lemma CompletedTail(events: seq<P.ProviderEvent>)
    requires events != [] && HasCompleted(events[1..])
    ensures HasCompleted(events)
  {
    var i :| 0 <= i < |events[1..]| && events[1..][i].Completed?;
    assert events[i + 1].Completed?;
  }
}
