/** What the adapter's automaton guarantees over whole SDK streams. */
module AutomatonRuns {
  import opened Prelude
  import opened ResponsesAutomaton
  import P = ProviderEvents

  /** One read of the SDK stream: an observation, or the failure its end or error maps to. */
  datatype Read = Observed(event: Value) | Broke(code: P.FailureCode)

  /** Everything emitted so far, and whether a terminal batch ended the stream. */
  datatype Driven = Driven(automaton: Automaton, emitted: seq<P.ProviderEvent>, over: bool)

  predicate IsProgress(batch: seq<P.ProviderEvent>) {
    batch == [] || (|batch| == 1 && (batch[0].TextDelta? || batch[0].TextCompleted?))
  }

  function Batch(model: string, a: Automaton, read: Read): (r: (Automaton, seq<P.ProviderEvent>))
    requires a.Coherent()
    ensures r.0.Coherent()
  {
    match read
    case Broke(code) => (a, [Failure(code)])
    case Observed(event) =>
      AcceptCoherent(model, a, event);
      var outcome := Accept(model, a, event);
      (outcome.after, if outcome.mapped.Ok? then outcome.mapped.value else [Failure(P.InvalidResponse)])
  }

  /** Feeds reads to the automaton until a terminal batch. */
  function Drive(model: string, inputs: seq<Read>): (d: Driven)
    ensures d.automaton.Coherent()
    decreases |inputs|
  {
    if inputs == [] then Driven(FRESH, [], false)
    else
      var before := Drive(model, inputs[..|inputs| - 1]);
      if before.over then before
      else
        var (after, batch) := Batch(model, before.automaton, inputs[|inputs| - 1]);
        Driven(after, before.emitted + batch, !IsProgress(batch))
  }

  lemma AcceptCoherent(model: string, a: Automaton, event: Value)
    requires a.Coherent()
    ensures Accept(model, a, event).after.Coherent()
  {
    hide Handle, CheckResponseTerminal, FailedCode;
    match KindOf(event)
    case Invalid =>
    case Ok(kind) =>
      match Field(event, "sequence_number")
      case Invalid =>
      case Ok(number) =>
        match AcceptSequence(a, number)
        case Invalid =>
        case Ok(b) =>
          HandleCoherent(model, b, event, kind);
  }

  lemma StagesCoherent(a: Automaton, event: Value)
    requires a.Coherent()
    ensures Settle(a, OnCreated(a, event)).after.Coherent()
    ensures Settle(a, OnQueued(a, event)).after.Coherent()
    ensures Settle(a, OnInProgress(a, event)).after.Coherent()
    ensures Settle(a, OnPartAdded(a, event)).after.Coherent()
    ensures Settle(a, OnPartDone(a, event)).after.Coherent()
    ensures Settle(a, OnTextDelta(a, event)).after.Coherent()
    ensures Settle(a, OnTextDone(a, event)).after.Coherent()
  {
    hide RequireItemCoordinates, RequireResponseIdentity, ValidateOutputText, TerminalSafeText;
    hide RequireAbsentOrEmptyList, Join;
  }

  lemma ItemsCoherent(model: string, a: Automaton, event: Value)
    requires a.Coherent()
    ensures OnItemAdded(a, event).after.Coherent()
    ensures Settle(a, OnItemDone(a, event)).after.Coherent()
    ensures Settle(a, OnCompleted(model, a, event)).after.Coherent()
  {
    hide RequireIndex, RequireResponseIdentity, ValidateMessage, ValidateFinalMessage, Join;
    hide ValidateReasoningItem, ValidateReasoningConfiguration, ReportedUsage, RequiredList;
  }

  lemma HandleCoherent(model: string, a: Automaton, event: Value, kind: string)
    requires a.Coherent()
    ensures Handle(model, a, event, kind).after.Coherent()
  {
    hide OnCreated, OnQueued, OnInProgress, OnItemAdded, OnPartAdded, OnPartDone;
    hide OnItemDone, OnTextDelta, OnTextDone, OnCompleted, Settle;
    StagesCoherent(a, event);
    ItemsCoherent(model, a, event);
  }

  // ----- The emitted events satisfy the turn grammar -----

  predicate BeforeText(stage: Stage) {
    || stage.Created? || stage.QueuedOrInProgress? || stage.InProgress? || stage.OutputItemAdded?
    || stage.ReasoningItemDone? || stage.MessageItemAdded? || stage.ContentPartAdded?
    || stage.Delta?
  }

  /** What the automaton's stage says about the events emitted so far. */
  predicate Agrees(a: Automaton, scan: P.Scan) {
    && scan.valid && scan.ending.None? && !scan.usage
    && scan.text == a.Text()
    && !a.stage.Terminal?
    && (BeforeText(a.stage) ==> a.textFragments == [] && !scan.completed)
    && (a.stage.DeltaOrDone? ==> scan.text != "" && !scan.completed)
    && (!BeforeText(a.stage) && !a.stage.DeltaOrDone? ==> scan.text != "" && scan.completed)
  }

  function ObserveAll(scan: P.Scan, batch: seq<P.ProviderEvent>): P.Scan {
    if batch == [] then scan
    else P.Observe(ObserveAll(scan, batch[..|batch| - 1]), batch[|batch| - 1])
  }

  predicate AllValid(events: seq<P.ProviderEvent>) {
    forall i :: 0 <= i < |events| ==> events[i].Valid()
  }

  /** A terminal batch: nothing but possibly one usage value before success or one failure. */
  predicate IsTerminalBatch(batch: seq<P.ProviderEvent>) {
    || (|batch| == 1 && (batch[0].Completed? || batch[0].Failed?))
    || (|batch| == 2 && batch[0].UsageReported? && batch[1].Completed?)
  }

  predicate Continues(after: Automaton, batch: seq<P.ProviderEvent>, scan: P.Scan) {
    && AllValid(batch)
    && ObserveAll(scan, batch).valid
    && if IsProgress(batch) then Agrees(after, ObserveAll(scan, batch)) else IsTerminalBatch(batch)
  }

  lemma ObserveOne(scan: P.Scan, e: P.ProviderEvent)
    ensures ObserveAll(scan, [e]) == P.Observe(scan, e)
  {
    assert [e][..0] == [];
  }

  lemma FailureContinues(a: Automaton, scan: P.Scan, code: P.FailureCode)
    requires scan.valid
    ensures Continues(a, [Failure(code)], scan)
  {
    ObserveOne(scan, Failure(code));
  }

  lemma DeltaContinues(a: Automaton, event: Value, scan: P.Scan)
    requires Agrees(a, scan) && OnTextDelta(a, event).Ok?
    ensures Continues(OnTextDelta(a, event).value.0, OnTextDelta(a, event).value.1, scan)
  {
    hide RequireItemCoordinates, RequireAbsentOrEmptyList, TerminalSafe, Join;
    var (after, batch) := OnTextDelta(a, event).value;
    var text := batch[0].text;
    assert batch == [P.TextDelta(text)] && text != "";
    assert after == a.(textFragments := a.textFragments + [text], stage := DeltaOrDone);
    JoinSnoc(a.textFragments, text);
    ObserveOne(scan, P.TextDelta(text));
    hide OnTextDelta, ObserveAll;
  }

  lemma DoneContinues(a: Automaton, event: Value, scan: P.Scan)
    requires Agrees(a, scan) && OnTextDone(a, event).Ok?
    ensures Continues(OnTextDone(a, event).value.0, OnTextDone(a, event).value.1, scan)
  {
    hide RequireItemCoordinates, RequireAbsentOrEmptyList, TerminalSafe, Join;
    ObserveOne(scan, OnTextDone(a, event).value.1[0]);
  }

  lemma CompletedBatch(model: string, a: Automaton, event: Value)
    requires a.Coherent() && OnCompleted(model, a, event).Ok?
    ensures var batch := OnCompleted(model, a, event).value.1;
            IsTerminalBatch(batch) && AllValid(batch) && a.stage.AwaitCompleted?
            && batch[|batch| - 1] == P.Completed
  {
    hide RequireResponseIdentity, ValidateReasoningConfiguration, ValidateFinalMessage;
    hide ValidateReasoningItem;
    var response := Field(event, "response").value;
    var usage := ReportedUsage(OptionalField(response, "usage")).value;
    assert OnCompleted(model, a, event).value.1 == usage + [P.Completed];
  }

  lemma TerminalObserved(a: Automaton, batch: seq<P.ProviderEvent>, scan: P.Scan)
    requires Agrees(a, scan) && a.stage.AwaitCompleted?
    requires IsTerminalBatch(batch) && batch[|batch| - 1] == P.Completed
    ensures ObserveAll(scan, batch).valid && !IsProgress(batch)
  {
    if |batch| == 1 {
      assert batch == [batch[0]];
      ObserveOne(scan, batch[0]);
    } else {
      assert batch[..1] == [batch[0]];
      ObserveOne(scan, batch[0]);
    }
  }

  lemma CompletedContinues(model: string, a: Automaton, event: Value, scan: P.Scan)
    requires Agrees(a, scan) && a.Coherent() && OnCompleted(model, a, event).Ok?
    ensures Continues(OnCompleted(model, a, event).value.0, OnCompleted(model, a, event).value.1, scan)
  {
    hide OnCompleted, ObserveAll, AllValid, IsTerminalBatch, Agrees;
    CompletedBatch(model, a, event);
    TerminalObserved(a, OnCompleted(model, a, event).value.1, scan);
  }

  // The structural observations change the stage and emit nothing.

  lemma CreatedContinues(a: Automaton, event: Value, scan: P.Scan)
    requires Agrees(a, scan) && a.Coherent() && OnCreated(a, event).Ok?
    ensures Continues(OnCreated(a, event).value.0, OnCreated(a, event).value.1, scan)
  {
    hide RequireItemCoordinates, RequireResponseIdentity, RequireIndex, ValidateOutputText, ValidateMessage;
    hide ValidateFinalMessage, ValidateReasoningItem;
  }

  lemma QueuedContinues(a: Automaton, event: Value, scan: P.Scan)
    requires Agrees(a, scan) && a.Coherent() && OnQueued(a, event).Ok?
    ensures Continues(OnQueued(a, event).value.0, OnQueued(a, event).value.1, scan)
  {
    hide RequireItemCoordinates, RequireResponseIdentity, RequireIndex, ValidateOutputText, ValidateMessage;
    hide ValidateFinalMessage, ValidateReasoningItem;
  }

  lemma ProgressContinues(a: Automaton, event: Value, scan: P.Scan)
    requires Agrees(a, scan) && a.Coherent() && OnInProgress(a, event).Ok?
    ensures Continues(OnInProgress(a, event).value.0, OnInProgress(a, event).value.1, scan)
  {
    hide RequireItemCoordinates, RequireResponseIdentity, RequireIndex, ValidateOutputText, ValidateMessage;
    hide ValidateFinalMessage, ValidateReasoningItem;
  }

  lemma ItemContinues(a: Automaton, event: Value, scan: P.Scan)
    requires Agrees(a, scan) && a.Coherent() && OnItemAdded(a, event).mapped.Ok?
    ensures Continues(OnItemAdded(a, event).after, OnItemAdded(a, event).mapped.value, scan)
  {
    hide RequireItemCoordinates, RequireResponseIdentity, RequireIndex, ValidateOutputText, ValidateMessage;
    hide ValidateFinalMessage, ValidateReasoningItem;
  }

  lemma PartContinues(a: Automaton, event: Value, scan: P.Scan)
    requires Agrees(a, scan) && a.Coherent() && OnPartAdded(a, event).Ok?
    ensures Continues(OnPartAdded(a, event).value.0, OnPartAdded(a, event).value.1, scan)
  {
    hide RequireItemCoordinates, RequireResponseIdentity, RequireIndex, ValidateOutputText, ValidateMessage;
    hide ValidateFinalMessage, ValidateReasoningItem;
  }

  lemma PartDoneContinues(a: Automaton, event: Value, scan: P.Scan)
    requires Agrees(a, scan) && a.Coherent() && OnPartDone(a, event).Ok?
    ensures Continues(OnPartDone(a, event).value.0, OnPartDone(a, event).value.1, scan)
  {
    hide RequireItemCoordinates, RequireResponseIdentity, RequireIndex, ValidateOutputText, ValidateMessage;
    hide ValidateFinalMessage, ValidateReasoningItem;
  }

  lemma ItemDoneContinues(a: Automaton, event: Value, scan: P.Scan)
    requires Agrees(a, scan) && a.Coherent() && OnItemDone(a, event).Ok?
    ensures Continues(OnItemDone(a, event).value.0, OnItemDone(a, event).value.1, scan)
  {
    hide RequireItemCoordinates, RequireResponseIdentity, RequireIndex, ValidateOutputText, ValidateMessage;
    hide ValidateFinalMessage, ValidateReasoningItem;
  }

  lemma HandleContinues(model: string, a: Automaton, event: Value, kind: string, scan: P.Scan)
    requires Agrees(a, scan) && a.Coherent() && Handle(model, a, event, kind).mapped.Ok?
    ensures var o := Handle(model, a, event, kind); Continues(o.after, o.mapped.value, scan)
  {
    hide Continues, Agrees, OnCreated, OnQueued, OnInProgress, OnItemAdded, OnPartAdded, OnPartDone;
    hide OnItemDone, OnTextDelta, OnTextDone, OnCompleted;
    if OnCreated(a, event).Ok? { CreatedContinues(a, event, scan); }
    if OnQueued(a, event).Ok? { QueuedContinues(a, event, scan); }
    if OnInProgress(a, event).Ok? { ProgressContinues(a, event, scan); }
    if OnItemAdded(a, event).mapped.Ok? { ItemContinues(a, event, scan); }
    if OnPartAdded(a, event).Ok? { PartContinues(a, event, scan); }
    if OnPartDone(a, event).Ok? { PartDoneContinues(a, event, scan); }
    if OnItemDone(a, event).Ok? { ItemDoneContinues(a, event, scan); }
    if OnTextDelta(a, event).Ok? { DeltaContinues(a, event, scan); }
    if OnTextDone(a, event).Ok? { DoneContinues(a, event, scan); }
    if kind == "response.completed" && OnCompleted(model, a, event).Ok? {
      CompletedContinues(model, a, event, scan);
    }
  }

  lemma TerminalContinues(a: Automaton, event: Value, kind: string, scan: P.Scan)
    requires scan.valid && OnResponseTerminal(a, event, kind).mapped.Ok?
    ensures var o := OnResponseTerminal(a, event, kind); Continues(o.after, o.mapped.value, scan)
  {
    hide Continues, CheckResponseTerminal, FailedCode;
    var o := OnResponseTerminal(a, event, kind);
    match o.mapped.value[0]
    case Failed(code, _) => FailureContinues(o.after, scan, code);
  }

  lemma AcceptContinues(model: string, a: Automaton, event: Value, scan: P.Scan)
    requires Agrees(a, scan) && a.Coherent() && Accept(model, a, event).mapped.Ok?
    ensures var o := Accept(model, a, event); Continues(o.after, o.mapped.value, scan)
  {
    hide Continues, Handle, OnResponseTerminal;
    var kind := KindOf(event).value;
    var b := AcceptSequence(a, Field(event, "sequence_number").value).value;
    assert Agrees(b, scan);
    if kind == "error" {
      FailureContinues(b.(stage := Terminal), scan, P.Unknown);
    } else if kind == "response.failed" || kind == "response.incomplete" {
      TerminalContinues(b, event, kind, scan);
    } else {
      HandleContinues(model, b, event, kind, scan);
    }
  }

  lemma BatchContinues(model: string, a: Automaton, read: Read, scan: P.Scan)
    requires Agrees(a, scan) && a.Coherent()
    ensures var (after, batch) := Batch(model, a, read); Continues(after, batch, scan)
  {
    hide Continues, Accept, Agrees;
    assert scan.valid by { AgreesValid(a, scan); }
    match read
    case Broke(code) => FailureContinues(a, scan, code);
    case Observed(event) =>
      if Accept(model, a, event).mapped.Ok? {
        AcceptContinues(model, a, event, scan);
      } else {
        FailureContinues(Accept(model, a, event).after, scan, P.InvalidResponse);
      }
  }

  lemma AgreesValid(a: Automaton, scan: P.Scan)
    requires Agrees(a, scan)
    ensures scan.valid
  {}

  lemma {:induction false} ScanBatch(events: seq<P.ProviderEvent>, batch: seq<P.ProviderEvent>)
    ensures P.ScanAll(events + batch) == ObserveAll(P.ScanAll(events), batch)
    decreases |batch|
  {
    if batch == [] {
      assert events + batch == events;
    } else {
      var front, last := batch[..|batch| - 1], batch[|batch| - 1];
      ScanBatch(events, front);
      P.ScanSnoc(events + front, last);
      assert events + batch == (events + front) + [last];
    }
  }

  /** Where a driven stream stands. */
  predicate Sound(d: Driven) {
    && AllValid(d.emitted)
    && P.ScanAll(d.emitted).valid
    && if d.over then d.emitted != [] && Ends(d.emitted)
       else Agrees(d.automaton, P.ScanAll(d.emitted)) && NoEnding(d.emitted)
  }

  predicate NoEnding(events: seq<P.ProviderEvent>) {
    forall i :: 0 <= i < |events| ==> !events[i].EndsStream()
  }

  /** The last event, and only the last, ends the stream with success or failure. */
  predicate Ends(events: seq<P.ProviderEvent>)
    requires events != []
  {
    var last := events[|events| - 1];
    (last.Completed? || last.Failed?) && NoEnding(events[..|events| - 1])
  }

  lemma BatchSound(before: Driven, after: Automaton, batch: seq<P.ProviderEvent>)
    requires Sound(before) && !before.over
    requires Continues(after, batch, P.ScanAll(before.emitted))
    ensures Sound(Driven(after, before.emitted + batch, !IsProgress(batch)))
  {
    hide Agrees;
    ScanBatch(before.emitted, batch);
    var emitted := before.emitted + batch;
    if !IsProgress(batch) {
      assert emitted[|emitted| - 1] == batch[|batch| - 1];
      if |batch| == 2 {
        assert emitted[..|emitted| - 1] == before.emitted + [batch[0]];
      } else {
        assert emitted[..|emitted| - 1] == before.emitted;
      }
    }
  }

  lemma {:induction false} DriveSound(model: string, inputs: seq<Read>)
    ensures Sound(Drive(model, inputs))
    decreases |inputs|
  {
    if inputs == [] {
    } else {
      var before := Drive(model, inputs[..|inputs| - 1]);
      DriveSound(model, inputs[..|inputs| - 1]);
      if !before.over {
        var read := inputs[|inputs| - 1];
        var (after, batch) := Batch(model, before.automaton, read);
        BatchContinues(model, before.automaton, read, P.ScanAll(before.emitted));
        BatchSound(before, after, batch);
        hide Sound, Batch, Continues;
      }
    }
  }

  /** For every stream of SDK observations, failures and endings: the provider events produced are
      valid values in a grammatical turn, and exactly the last event of a finished stream ends it. */
  lemma EmittedTurnIsGrammatical(model: string, inputs: seq<Read>)
    ensures var d := Drive(model, inputs);
            && P.TurnGrammar(d.emitted)
            && AllValid(d.emitted)
            && if d.over then d.emitted != [] && Ends(d.emitted) else NoEnding(d.emitted)
  {
    DriveSound(model, inputs);
    P.ScanDecides(Drive(model, inputs).emitted);
  }
}
