/** The one shape of SDK stream that the adapter's automaton lets succeed. */
module AutomatonShape {
  import opened Prelude
  import opened ResponsesAutomaton
  import opened AutomatonRuns
  import P = ProviderEvents

  function Repeat(kind: string, n: nat): seq<string> {
    if n == 0 then [] else Repeat(kind, n - 1) + [kind]
  }

  /** Creation, an optional queued notice, and progress. */
  function Head(queued: bool): seq<string> {
    ["response.created"] + (if queued then ["response.queued"] else []) + ["response.in_progress"]
  }

  /** An optional reasoning item, then the message item and its one part. */
  function Item(queued: bool, reasoning: bool): seq<string> {
    Head(queued)
    + (if reasoning then ["response.output_item.added", "response.output_item.done"] else [])
    + ["response.output_item.added"]
  }

  function Deltas(queued: bool, reasoning: bool, n: nat): seq<string> {
    Item(queued, reasoning) + ["response.content_part.added"] + Repeat("response.output_text.delta", n)
  }

  /** The kinds of a successful stream with `n` deltas. */
  function Shape(queued: bool, reasoning: bool, n: nat): seq<string> {
    Deltas(queued, reasoning, n)
    + ["response.output_text.done"] + ["response.content_part.done"] + ["response.output_item.done"]
    + ["response.completed"]
  }

  /** The kinds that lead to a stage. */
  predicate Reached(stage: Stage, queued: bool, reasoning: bool, n: nat, kinds: seq<string>) {
    match stage
    case Created => kinds == []
    case QueuedOrInProgress => kinds == ["response.created"]
    case InProgress => kinds == ["response.created"] + ["response.queued"]
    case OutputItemAdded => kinds == Head(queued)
    case ReasoningItemDone => kinds == Head(queued) + ["response.output_item.added"]
    case MessageItemAdded =>
      kinds == Head(queued) + ["response.output_item.added"] + ["response.output_item.done"]
    case ContentPartAdded => kinds == Item(queued, reasoning)
    case Delta => kinds == Item(queued, reasoning) + ["response.content_part.added"]
    case DeltaOrDone => n > 0 && kinds == Deltas(queued, reasoning, n)
    case ContentPartDone =>
      n > 0 && kinds == Deltas(queued, reasoning, n) + ["response.output_text.done"]
    case OutputItemDone =>
      && n > 0
      && kinds == Deltas(queued, reasoning, n)
                  + ["response.output_text.done"] + ["response.content_part.done"]
    case AwaitCompleted =>
      && n > 0
      && kinds == Deltas(queued, reasoning, n)
                  + ["response.output_text.done"] + ["response.content_part.done"]
                  + ["response.output_item.done"]
    case Terminal => true
  }

  predicate BeforeItem(stage: Stage) {
    stage.Created? || stage.QueuedOrInProgress? || stage.InProgress? || stage.OutputItemAdded?
  }

  /** The kinds read so far lead to the automaton's stage, with the facts its fields record. */
  predicate Path(a: Automaton, queued: bool, kinds: seq<string>) {
    && Reached(a.stage, queued, a.reasoningItemId.Some?, |a.textFragments|, kinds)
    && (BeforeItem(a.stage) ==> a.reasoningItemId.None?)
    && (a.stage.ReasoningItemDone? || a.stage.MessageItemAdded? ==> a.reasoningItemId.Some?)
    && (BeforeText(a.stage) ==> a.textFragments == [])
  }

  function ReadKind(read: Read): string {
    if read.Observed? && KindOf(read.event).Ok? then KindOf(read.event).value else ""
  }

  function Kinds(inputs: seq<Read>): seq<string> {
    if inputs == [] then [] else Kinds(inputs[..|inputs| - 1]) + [ReadKind(inputs[|inputs| - 1])]
  }

  /** Whether a structural observation shows that the response was queued first. */
  function NowQueued(a: Automaton, queued: bool, kind: string): bool {
    if kind == "response.in_progress" then a.stage.InProgress? else queued
  }

  predicate Steps(a: Automaton, queued: bool, kinds: seq<string>, kind: string, o: Outcome) {
    o.mapped.Ok? ==> Path(o.after, NowQueued(a, queued, kind), kinds + [kind])
  }

  lemma ResponsePath(a: Automaton, event: Value, queued: bool, kinds: seq<string>)
    requires Path(a, queued, kinds)
    ensures Steps(a, queued, kinds, "response.created", Settle(a, OnCreated(a, event)))
    ensures Steps(a, queued, kinds, "response.queued", Settle(a, OnQueued(a, event)))
    ensures Steps(a, queued, kinds, "response.in_progress", Settle(a, OnInProgress(a, event)))
  {
    hide RequireResponseIdentity;
  }

  lemma ItemPath(a: Automaton, event: Value, queued: bool, kinds: seq<string>)
    requires Path(a, queued, kinds)
    ensures Steps(a, queued, kinds, "response.output_item.added", OnItemAdded(a, event))
  {
    hide ValidateMessage, ValidateReasoningItem, RequireIndex, Head;
  }

  lemma ItemDonePath(a: Automaton, event: Value, queued: bool, kinds: seq<string>)
    requires Path(a, queued, kinds)
    ensures Steps(a, queued, kinds, "response.output_item.done", Settle(a, OnItemDone(a, event)))
  {
    hide ValidateFinalMessage, ValidateReasoningItem, RequireIndex, Head;
  }

  lemma PartPath(a: Automaton, event: Value, queued: bool, kinds: seq<string>)
    requires Path(a, queued, kinds)
    ensures Steps(a, queued, kinds, "response.content_part.added", Settle(a, OnPartAdded(a, event)))
    ensures Steps(a, queued, kinds, "response.content_part.done", Settle(a, OnPartDone(a, event)))
  {
    hide RequireItemCoordinates, ValidateOutputText, Head, Item;
  }

  lemma TextPath(a: Automaton, event: Value, queued: bool, kinds: seq<string>)
    requires Path(a, queued, kinds)
    ensures Steps(a, queued, kinds, "response.output_text.delta", Settle(a, OnTextDelta(a, event)))
    ensures Steps(a, queued, kinds, "response.output_text.done", Settle(a, OnTextDone(a, event)))
  {
    hide RequireItemCoordinates, RequireAbsentOrEmptyList, TerminalSafeText, Head, Item;
    var delta, n := "response.output_text.delta", |a.textFragments|;
    var base := Item(queued, a.reasoningItemId.Some?) + ["response.content_part.added"];
    assert base + Repeat(delta, n) + [delta] == base + Repeat(delta, n + 1);
    assert base + Repeat(delta, 0) == base;
  }

  lemma HandlePath(model: string, a: Automaton, event: Value, kind: string, queued: bool,
                   kinds: seq<string>)
    requires a.Coherent() && Path(a, queued, kinds) && kind != "response.completed"
    ensures Steps(a, queued, kinds, kind, Handle(model, a, event, kind))
  {
    ResponsePath(a, event, queued, kinds);
    ItemPath(a, event, queued, kinds);
    ItemDonePath(a, event, queued, kinds);
    PartPath(a, event, queued, kinds);
    TextPath(a, event, queued, kinds);
    hide Path, Settle, OnCreated, OnQueued, OnInProgress, OnItemAdded, OnPartAdded, OnPartDone;
    hide OnItemDone, OnTextDelta, OnTextDone, OnCompleted, NowQueued;
  }

  // ----- Whole streams -----

  function WasQueued(model: string, inputs: seq<Read>): bool {
    if inputs == [] then false
    else
      var front, last := inputs[..|inputs| - 1], inputs[|inputs| - 1];
      NowQueued(Drive(model, front).automaton, WasQueued(model, front), ReadKind(last))
  }

  /** The sequence number an observation carries. */
  function Number(read: Read): Checked<nat> {
    if read.Observed? then
      var field :- Field(read.event, "sequence_number");
      SafeInteger(field)
    else Invalid
  }

  /** Consecutive sequence numbers, starting anywhere. */
  ghost predicate Consecutive(inputs: seq<Read>) {
    inputs != [] ==>
      && Number(inputs[0]).Ok?
      && forall i :: 0 <= i < |inputs| ==> Number(inputs[i]) == Ok(Number(inputs[0]).value + i)
  }

  ghost predicate Numbered(a: Automaton, inputs: seq<Read>) {
    && Consecutive(inputs)
    && a.nextSequence
       == (if inputs == [] then None else Some(Number(inputs[0]).value + |inputs|))
  }

  /** An accepted observation that leaves the stream open extends the path and the numbering. */
  lemma AcceptPath(model: string, a: Automaton, event: Value, queued: bool, kinds: seq<string>)
    requires a.Coherent() && Path(a, queued, kinds) && !a.stage.Terminal?
    requires Accept(model, a, event).mapped.Ok? && IsProgress(Accept(model, a, event).mapped.value)
    ensures KindOf(event).Ok? && Number(Observed(event)).Ok?
    ensures KindOf(event).value != "response.completed"
    ensures a.nextSequence.None? || a.nextSequence == Some(Number(Observed(event)).value)
    ensures Path(Accept(model, a, event).after, NowQueued(a, queued, KindOf(event).value),
                 kinds + [KindOf(event).value])
    ensures Accept(model, a, event).after.nextSequence == Some(Number(Observed(event)).value + 1)
  {
    hide Handle, OnResponseTerminal, Reached;
    var kind := KindOf(event).value;
    var b := AcceptSequence(a, Field(event, "sequence_number").value).value;
    assert Path(b, queued, kinds);
    if kind == "response.failed" || kind == "response.incomplete" {
      TerminalNotProgress(b, event, kind);
    } else {
      assert kind != "error";
      HandleProgress(model, b, event, kind);
      HandlePath(model, b, event, kind, queued, kinds);
    }
  }

  lemma TerminalNotProgress(a: Automaton, event: Value, kind: string)
    requires OnResponseTerminal(a, event, kind).mapped.Ok?
    ensures !IsProgress(OnResponseTerminal(a, event, kind).mapped.value)
  {
    hide CheckResponseTerminal, FailedCode;
  }

  /** An accepted observation that leaves the stream open, and the numbering to the caller. */
  predicate Goes(a: Automaton, r: Checked<(Automaton, seq<P.ProviderEvent>)>) {
    r.Ok? ==> IsProgress(r.value.1) && r.value.0.nextSequence == a.nextSequence
  }

  lemma OpeningGoes(a: Automaton, event: Value)
    ensures Goes(a, OnCreated(a, event)) && Goes(a, OnQueued(a, event))
    ensures Goes(a, OnInProgress(a, event))
  {
    hide RequireResponseIdentity;
  }

  lemma PartsGo(a: Automaton, event: Value)
    requires a.Coherent()
    ensures Goes(a, OnPartAdded(a, event)) && Goes(a, OnPartDone(a, event))
    ensures Goes(a, OnItemDone(a, event))
  {
    hide RequireItemCoordinates, RequireIndex, ValidateOutputText, ValidateFinalMessage;
    hide ValidateReasoningItem;
  }

  lemma TextGoes(a: Automaton, event: Value)
    ensures Goes(a, OnTextDelta(a, event)) && Goes(a, OnTextDone(a, event))
  {
    hide RequireItemCoordinates, RequireAbsentOrEmptyList, TerminalSafeText;
  }

  lemma ItemGoes(a: Automaton, event: Value)
    ensures var o := OnItemAdded(a, event);
            && (o.mapped.Ok? ==> IsProgress(o.mapped.value))
            && o.after.nextSequence == a.nextSequence
  {
    hide RequireIndex, ValidateMessage, ValidateReasoningItem;
  }

  lemma CompletedEnds(model: string, a: Automaton, event: Value)
    requires a.Coherent() && OnCompleted(model, a, event).Ok?
    ensures var (after, batch) := OnCompleted(model, a, event).value;
            && !IsProgress(batch) && batch[|batch| - 1] == P.Completed
            && after.nextSequence == a.nextSequence && a.stage.AwaitCompleted?
  {
    hide RequireResponseIdentity, ValidateFinalMessage, ValidateReasoningItem, ReportedUsage;
    hide ValidateReasoningConfiguration;
  }

  /** Exactly the completion ends a stream that goes through its handlers. */
  lemma HandleProgress(model: string, a: Automaton, event: Value, kind: string)
    requires a.Coherent() && Handle(model, a, event, kind).mapped.Ok?
    ensures var o := Handle(model, a, event, kind);
            && o.after.nextSequence == a.nextSequence
            && (kind == "response.completed" ==>
                  && !IsProgress(o.mapped.value)
                  && o.mapped.value[|o.mapped.value| - 1] == P.Completed
                  && a.stage.AwaitCompleted?)
            && (kind != "response.completed" ==> IsProgress(o.mapped.value))
  {
    hide OnCreated, OnQueued, OnInProgress, OnItemAdded, OnPartAdded, OnPartDone, OnItemDone;
    hide OnTextDelta, OnTextDone, OnCompleted, IsProgress;
    OpeningGoes(a, event);
    PartsGo(a, event);
    TextGoes(a, event);
    ItemGoes(a, event);
    if kind == "response.completed" { CompletedEnds(model, a, event); }
  }

  /** While a stream stays open, its kinds lead to the automaton's stage and its numbers are
      consecutive. */
  lemma {:induction false} OpenStreams(model: string, inputs: seq<Read>)
    requires !Drive(model, inputs).over
    ensures var a := Drive(model, inputs).automaton;
            && Path(a, WasQueued(model, inputs), Kinds(inputs))
            && Numbered(a, inputs)
            && !a.stage.Terminal?
    decreases |inputs|
  {
    hide Path, Numbered, Batch, NowQueued, Agrees, AllValid;
    if inputs == [] {
      NothingRead();
    } else {
      var front, last := inputs[..|inputs| - 1], inputs[|inputs| - 1];
      var before := Drive(model, front);
      OpenStreams(model, front);
      OpenStep(model, before.automaton, front, last, WasQueued(model, front));
      assert inputs == front + [last];
      OpenStage(model, inputs);
    }
  }

  lemma NothingRead()
    ensures Path(FRESH, false, []) && Numbered(FRESH, [])
  {}

  lemma OpenStage(model: string, inputs: seq<Read>)
    requires !Drive(model, inputs).over
    ensures !Drive(model, inputs).automaton.stage.Terminal?
  {
    DriveSound(model, inputs);
    hide Drive;
  }

  lemma OpenStep(model: string, a: Automaton, front: seq<Read>, last: Read, queued: bool)
    requires a.Coherent() && Path(a, queued, Kinds(front)) && Numbered(a, front)
    requires !a.stage.Terminal? && IsProgress(Batch(model, a, last).1)
    ensures last.Observed?
    ensures Path(Batch(model, a, last).0, NowQueued(a, queued, ReadKind(last)), Kinds(front + [last]))
    ensures Numbered(Batch(model, a, last).0, front + [last])
  {
    hide Path, NowQueued, Accept, KindOf, Number, Consecutive;
    AcceptPath(model, a, last.event, queued, Kinds(front));
    var now := front + [last];
    assert now[..|front|] == front && now[0] == if front == [] then last else front[0];
    ConsecutiveSnoc(a, front, last);
  }

  /** Success comes only from the completion observation, in the stage that awaits it. */
  lemma SuccessSource(model: string, a: Automaton, read: Read)
    requires a.Coherent() && !a.stage.Terminal?
    requires !IsProgress(Batch(model, a, read).1)
    requires Batch(model, a, read).1[|Batch(model, a, read).1| - 1].Completed?
    ensures a.stage.AwaitCompleted? && ReadKind(read) == "response.completed"
    ensures Number(read).Ok?
    ensures a.nextSequence.None? || a.nextSequence == Some(Number(read).value)
  {
    hide Handle, OnResponseTerminal;
    var event := read.event;
    var kind := KindOf(event).value;
    var b := AcceptSequence(a, Field(event, "sequence_number").value).value;
    if kind == "response.failed" || kind == "response.incomplete" {
      TerminalFails(b, event, kind);
    } else {
      HandleProgress(model, b, event, kind);
    }
  }

  lemma TerminalFails(a: Automaton, event: Value, kind: string)
    requires OnResponseTerminal(a, event, kind).mapped.Ok?
    ensures |OnResponseTerminal(a, event, kind).mapped.value| == 1
    ensures OnResponseTerminal(a, event, kind).mapped.value[0].Failed?
  {
    hide CheckResponseTerminal, FailedCode;
  }

  /** The read that ended the stream, and the stream before it. */
  predicate EndsExactly(model: string, inputs: seq<Read>) {
    inputs != [] && !Drive(model, inputs[..|inputs| - 1]).over && Drive(model, inputs).over
  }

  lemma LastOfBatch(model: string, inputs: seq<Read>)
    requires EndsExactly(model, inputs)
    ensures var a := Drive(model, inputs[..|inputs| - 1]).automaton;
            var batch := Batch(model, a, inputs[|inputs| - 1]).1;
            var emitted := Drive(model, inputs).emitted;
            && !IsProgress(batch) && emitted != []
            && emitted[|emitted| - 1] == batch[|batch| - 1]
  {
    hide Batch;
  }

  /** The completion closes the one supported shape. */
  lemma CompletedShape(
    a: Automaton, queued: bool, inputs: seq<Read>, front: seq<Read>, last: Read)
    requires inputs != [] && front == inputs[..|inputs| - 1] && last == inputs[|inputs| - 1]
    requires Path(a, queued, Kinds(front)) && a.stage.AwaitCompleted?
    requires ReadKind(last) == "response.completed"
    ensures |a.textFragments| > 0
    ensures Kinds(inputs) == Shape(queued, a.reasoningItemId.Some?, |a.textFragments|)
  {
    hide ReadKind, Item, Head;
  }

  /** A stream that succeeds has exactly the one supported shape, consecutive numbers, at least one
      delta, and reports as its text what the deltas said. */
  lemma SuccessfulStreams(model: string, inputs: seq<Read>)
    requires EndsExactly(model, inputs)
    requires var emitted := Drive(model, inputs).emitted; emitted != [] && emitted[|emitted| - 1].Completed?
    ensures var a := Drive(model, inputs[..|inputs| - 1]).automaton;
            && |a.textFragments| > 0
            && Kinds(inputs)
               == Shape(WasQueued(model, inputs[..|inputs| - 1]), a.reasoningItemId.Some?,
                        |a.textFragments|)
            && P.DeltaText(Drive(model, inputs).emitted) == a.Text()
    ensures Consecutive(inputs)
  {
    hide Batch, Drive, Path, Numbered, Shape, Kinds, Consecutive, WasQueued, ReadKind, Number;
    hide P.DeltaText;
    var front, last := inputs[..|inputs| - 1], inputs[|inputs| - 1];
    var a := Drive(model, front).automaton;
    LastOfBatch(model, inputs);
    OpenStreams(model, front);
    SuccessSource(model, a, last);
    CompletedText(model, inputs);
    CompletedShape(a, WasQueued(model, front), inputs, front, last);
    NumberedSnoc(a, front, last);
    assert inputs == front + [last];
  }

  lemma NumberedSnoc(a: Automaton, front: seq<Read>, last: Read)
    requires Numbered(a, front) && Number(last).Ok?
    requires a.nextSequence.None? || a.nextSequence == Some(Number(last).value)
    ensures Consecutive(front + [last])
  {
    hide Number;
    ConsecutiveSnoc(a, front, last);
  }

  lemma ConsecutiveSnoc(a: Automaton, front: seq<Read>, last: Read)
    requires Numbered(a, front) && Number(last).Ok?
    requires a.nextSequence.None? || a.nextSequence == Some(Number(last).value)
    ensures Consecutive(front + [last])
  {
    hide Number;
    var now := front + [last];
    assert now[0] == if front == [] then last else front[0];
  }

  lemma CompletedText(model: string, inputs: seq<Read>)
    requires EndsExactly(model, inputs)
    ensures P.DeltaText(Drive(model, inputs).emitted)
            == Drive(model, inputs[..|inputs| - 1]).automaton.Text()
  {
    hide Batch, P.Observe;
    var front, last := inputs[..|inputs| - 1], inputs[|inputs| - 1];
    var before := Drive(model, front);
    var batch := Batch(model, before.automaton, last).1;
    DriveSound(model, front);
    BatchContinues(model, before.automaton, last, P.ScanAll(before.emitted));
    TerminalBatchText(before.automaton, batch, P.ScanAll(before.emitted));
    ScanBatch(before.emitted, batch);
    P.ScanDecides(Drive(model, inputs).emitted);
  }

  lemma TerminalBatchText(a: Automaton, batch: seq<P.ProviderEvent>, scan: P.Scan)
    requires Agrees(a, scan) && IsTerminalBatch(batch)
    ensures ObserveAll(scan, batch).text == a.Text()
  {
    if |batch| == 2 { assert batch[..1] == [batch[0]]; ObserveOne(scan, batch[0]); }
    else { assert batch == [batch[0]]; ObserveOne(scan, batch[0]); }
  }
}
