/** The automaton of `openai_responses.py` gives exactly the verdicts of the stream rules. */
module AutomatonVerdicts {
  import opened Prelude
  import opened ResponsesAutomaton
  import opened AutomatonRuns
  import opened StreamRules
  import P = ProviderEvents

  // ----- The checks of the automaton are these -----

  lemma FieldsMean(v: Value, name: string, x: Value)
    ensures Field(v, name) == Ok(x) <==> Has(v, name, x)
    ensures Field(v, name).Ok? ==> Part(v, name) == Field(v, name).value
    ensures Field(v, name).Invalid? ==> Part(v, name) == Opaque
    ensures OptionalField(v, name).Null? <==> Lacks(v, name)
    ensures !x.Null? ==> (OptionalField(v, name) == x <==> Has(v, name, x))
    ensures !Lacks(v, name) ==> OptionalField(v, name) == Part(v, name)
  {}

  lemma TextMeans(v: Value, text: string)
    ensures ValidateOutputText(v, text).Ok? <==> IsText(v, text)
  {}

  lemma MessageMeans(v: Value, parts: nat, completed: bool)
    ensures var status := if completed then "completed" else "in_progress";
            && (ValidateMessage(v, parts, completed).Ok? <==> IsMessage(v, parts, status))
            && (IsMessage(v, parts, status) ==>
                  Some(ValidateMessage(v, parts, completed).value) == Name(v, "id"))
  {}

  lemma FinalMessageMeans(v: Value, text: string)
    ensures ValidateFinalMessage(v, text).Ok? <==> Says(v, text)
    ensures Says(v, text) ==> Some(ValidateFinalMessage(v, text).value) == Name(v, "id")
  {
    hide ValidateOutputText, IsText, ValidateMessage, IsMessage;
    MessageMeans(v, 1, true);
    MessageContent(v, 1, true);
    if IsMessage(v, 1, "completed") { TextMeans(Part(v, "content").items[0], text); }
  }

  lemma MessageContent(v: Value, parts: nat, completed: bool)
    ensures ValidateMessage(v, parts, completed).Ok? ==>
              && Field(v, "content") == Ok(Part(v, "content"))
              && Part(v, "content").List? && |Part(v, "content").items| == parts
    ensures IsMessage(v, 1, "completed") ==>
              Part(v, "content").List? && |Part(v, "content").items| == 1
  {}

  lemma ReasoningMeans(v: Value, completed: bool)
    ensures var status := if completed then "completed" else "in_progress";
            && (ValidateReasoningItem(v, completed).Ok? <==> IsReasoning(v, status))
            && (IsReasoning(v, status) ==>
                  Some(ValidateReasoningItem(v, completed).value) == Name(v, "id"))
  {}

  lemma ConfigurationMeans(v: Value)
    ensures ValidateReasoningConfiguration(v).Ok? <==> IsConfiguration(v)
  {}

  lemma UsageMeans(v: Value)
    ensures !v.Null? ==> (ReportedUsage(v).Ok? <==> IsUsage(v))
    ensures !v.Null? && IsUsage(v) ==>
              ReportedUsage(v).value
              == [P.UsageReported(Count(v, "input_tokens").value, Count(v, "output_tokens").value)]
  {}

  lemma PrintableMeans(text: string)
    ensures TerminalSafe(text) <==> Printable(text)
  {}

  // ----- The automaton knows what was heard -----

  function StageAfter(heard: seq<Value>): Stage {
    if heard == [] then Created
    else
      match Latest(heard)
      case ResponseCreated => QueuedOrInProgress
      case ResponseQueued => InProgress
      case ResponseInProgress => OutputItemAdded
      case ItemAdded => if ItemId(heard, "message").Some? then ContentPartAdded else ReasoningItemDone
      case PartAdded => Delta
      case TextDelta => DeltaOrDone
      case TextDone => ContentPartDone
      case PartDone => OutputItemDone
      case ItemDone => if ItemId(heard, "message").Some? then AwaitCompleted else MessageItemAdded
      case _ => Terminal
  }

  /** The automaton's fields are what the stream said. */
  predicate Knows(a: Automaton, heard: seq<Value>) {
    && a.stage == StageAfter(heard) && !a.stage.Terminal?
    && a.responseId == ResponseId(heard)
    && (heard != [] ==> a.responseId.Some?)
    && a.reasoningItemId == ItemId(heard, "reasoning")
    && a.itemId == ItemId(heard, "message")
    && (a.itemId.Some? ==> a.messageOutputIndex == MessageIndex(heard))
    && (a.stage.ReasoningItemDone? || a.stage.MessageItemAdded? ==> a.reasoningItemId.Some?)
    && (a.stage.Created? || a.stage.QueuedOrInProgress? || a.stage.InProgress? || a.stage.OutputItemAdded?
        ==> a.reasoningItemId.None? && a.itemId.None?)
    && (a.stage.Delta? || a.stage.DeltaOrDone? || a.stage.ContentPartDone? || a.stage.OutputItemDone?
        ==> a.itemId.Some?)
    && a.Text() == Said(heard)
  }

  function LastNumber(heard: seq<Value>): Option<nat> {
    if heard == [] then None else Count(heard[|heard| - 1], "sequence_number")
  }

  predicate Counts(a: Automaton, heard: seq<Value>) {
    if heard == [] then a.nextSequence.None?
    else LastNumber(heard).Some? && a.nextSequence == Some(LastNumber(heard).value + 1)
  }

  function ItemNow(heard: seq<Value>, event: Value, kind: string): Option<string> {
    if EventKind(event).ItemAdded? && Has(Part(event, "item"), "type", Str(kind)) then
      Name(Part(event, "item"), "id")
    else ItemId(heard, kind)
  }

  /** What one more observation adds to what was heard. */
  lemma HeardSnoc(heard: seq<Value>, event: Value)
    ensures var now := heard + [event];
            && Latest(now) == EventKind(event)
            && (heard != [] ==> ResponseId(now) == ResponseId(heard))
            && (heard == [] ==> ResponseId(now) == Name(Part(event, "response"), "id"))
            && ItemId(now, "reasoning") == ItemNow(heard, event, "reasoning")
            && ItemId(now, "message") == ItemNow(heard, event, "message")
            && Said(now)
               == Said(heard)
                  + (if EventKind(event).TextDelta? && Part(event, "delta").Str?
                     then Part(event, "delta").text else "")
            && LastNumber(now) == Count(event, "sequence_number")
  {
    assert (heard + [event])[..|heard|] == heard;
  }

  /** A check passes exactly when the observation is in order, and then tells what it should and
      knows one observation more. */
  predicate Judges(
    a: Automaton, heard: seq<Value>, event: Value, legal: bool,
    checked: Checked<(Automaton, seq<P.ProviderEvent>)>)
  {
    && (checked.Ok? <==> legal)
    && (legal ==> Knows(checked.value.0, heard + [event]) && checked.value.1 == TellsOf(event)
                  && checked.value.0.nextSequence == a.nextSequence)
  }

  lemma IdentityMeans(a: Automaton, heard: seq<Value>, event: Value)
    requires Knows(a, heard)
    ensures Field(event, "response").Ok?
            && RequireResponseIdentity(a, Field(event, "response").value).Ok?
            <==> OfResponse(heard, event)
  {}

  lemma CoordinatesMean(a: Automaton, heard: seq<Value>, event: Value)
    requires Knows(a, heard) && a.itemId.Some?
    ensures RequireItemCoordinates(a, event).Ok? <==> OfMessage(heard, event)
  {
    FieldsMean(event, "item_id", Str(a.itemId.value));
    FieldsMean(event, "output_index", Int(a.messageOutputIndex));
    FieldsMean(event, "content_index", Int(0));
    hide Said, StageAfter, Join;
    NamesAreNotEmpty(heard, "message");
  }

  lemma {:induction false} NamesAreNotEmpty(heard: seq<Value>, kind: string)
    ensures ItemId(heard, kind).Some? ==> ItemId(heard, kind).value != ""
    decreases |heard|
  {
    if heard != [] { NamesAreNotEmpty(heard[..|heard| - 1], kind); }
  }

  lemma CreatedJudged(a: Automaton, heard: seq<Value>, event: Value)
    requires Knows(a, heard) && EventKind(event).ResponseCreated?
    ensures Judges(a, heard, event, heard == [] && Name(Part(event, "response"), "id").Some?,
                   OnCreated(a, event))
  {
    HeardSnoc(heard, event);
    hide Said, ItemId, EventKind, Join;
  }

  lemma QueuedJudged(a: Automaton, heard: seq<Value>, event: Value)
    requires Knows(a, heard) && EventKind(event).ResponseQueued?
    ensures Judges(a, heard, event, Latest(heard).ResponseCreated? && OfResponse(heard, event),
                   OnQueued(a, event))
  {
    HeardSnoc(heard, event);
    IdentityMeans(a, heard, event);
    hide Said, ItemId, OfResponse, RequireResponseIdentity, Join, EventKind;
  }

  lemma InProgressJudged(a: Automaton, heard: seq<Value>, event: Value)
    requires Knows(a, heard) && EventKind(event).ResponseInProgress?
    ensures Judges(a, heard, event,
                   (Latest(heard).ResponseCreated? || Latest(heard).ResponseQueued?)
                   && OfResponse(heard, event),
                   OnInProgress(a, event))
  {
    HeardSnoc(heard, event);
    IdentityMeans(a, heard, event);
    hide Said, ItemId, OfResponse, RequireResponseIdentity, Join, EventKind;
  }

  /** The same for the added item, whose handler moves the message index before its last check. */
  lemma ReasoningAddedJudged(a: Automaton, heard: seq<Value>, event: Value)
    requires Knows(a, heard) && EventKind(event).ItemAdded? && a.stage.OutputItemAdded?
    requires Has(Part(event, "item"), "type", Str("reasoning"))
    ensures Judges(a, heard, event,
                   Has(event, "output_index", Int(0)) && IsReasoning(Part(event, "item"), "in_progress"),
                   OnReasoningAdded(a, event, Part(event, "item")))
  {
    HeardSnoc(heard, event);
    FieldsMean(event, "output_index", Int(0));
    ReasoningMeans(Part(event, "item"), false);
    hide Said, ItemId, EventKind, Join, ValidateReasoningItem, IsReasoning;
    assert !Has(Part(event, "item"), "type", Str("message"));
    ReasoningHasName(Part(event, "item"), "in_progress");
  }

  lemma ReasoningHasName(v: Value, status: string)
    ensures IsReasoning(v, status) ==> Name(v, "id").Some?
  {}

  /** An added message is known by its id and its place. */
  lemma MessageGoesIn(a: Automaton, heard: seq<Value>, event: Value, id: string)
    requires Knows(a, heard) && EventKind(event).ItemAdded? && heard != []
    requires Has(Part(event, "item"), "type", Str("message"))
    requires !Has(Part(event, "item"), "type", Str("reasoning"))
    requires Name(Part(event, "item"), "id") == Some(id)
    ensures Knows(a.(messageOutputIndex := MessageIndex(heard), itemId := Some(id),
                     stage := ContentPartAdded),
                  heard + [event])
  {
    HeardSnoc(heard, event);
    hide Said, ItemId, EventKind, Join, Has;
  }

  lemma MessageAddedJudged(a: Automaton, heard: seq<Value>, event: Value)
    requires Knows(a, heard) && EventKind(event).ItemAdded?
    requires a.stage.OutputItemAdded? || a.stage.MessageItemAdded?
    ensures var b := a.(messageOutputIndex := MessageIndex(heard));
            Judges(a, heard, event,
                   Has(event, "output_index", Int(MessageIndex(heard)))
                   && IsMessage(Part(event, "item"), 0, "in_progress"),
                   OnMessageAdded(b, event, Part(event, "item")))
  {
    var item := Part(event, "item");
    FieldsMean(event, "output_index", Int(MessageIndex(heard)));
    MessageMeans(item, 0, false);
    MessageHasName(item, 0, "in_progress");
    SilentKinds(event);
    SomethingHeard(a, heard);
    if IsMessage(item, 0, "in_progress") {
      MessageGoesIn(a, heard, event, Name(item, "id").value);
    }
    hide Knows, Said, ItemId, EventKind, Join, ValidateMessage, IsMessage, TellsOf, MessageIndex, Has;
    hide Part, Name;
  }

  lemma SomethingHeard(a: Automaton, heard: seq<Value>)
    requires Knows(a, heard) && (a.stage.OutputItemAdded? || a.stage.MessageItemAdded?)
    ensures heard != []
  {}

  lemma MessageHasName(v: Value, parts: nat, status: string)
    ensures IsMessage(v, parts, status) ==>
              && Name(v, "id").Some? && Has(v, "type", Str("message"))
              && !Has(v, "type", Str("reasoning"))
  {}

  lemma ItemAddedJudged(a: Automaton, heard: seq<Value>, event: Value)
    requires Knows(a, heard) && EventKind(event).ItemAdded?
    ensures var o := OnItemAdded(a, event);
            && (o.mapped.Ok? <==> AddsItem(heard, event))
            && (AddsItem(heard, event) ==>
                  Knows(o.after, heard + [event]) && o.mapped.value == TellsOf(event)
                  && o.after.nextSequence == a.nextSequence)
  {
    hide Said, ItemId, EventKind, Join, ValidateMessage, IsMessage, ValidateReasoningItem, IsReasoning;
    hide OnReasoningAdded, OnMessageAdded;
    var item := Part(event, "item");
    FieldsMean(event, "item", item);
    FieldsMean(item, "type", Str("reasoning"));
    StageIsLatest(a, heard);
    OpaqueItem(event);
    if a.stage.OutputItemAdded? && Has(item, "type", Str("reasoning")) {
      ReasoningAddedJudged(a, heard, event);
    } else if a.stage.OutputItemAdded? || a.stage.MessageItemAdded? {
      MessageAddedJudged(a, heard, event);
    }
    hide Knows, TellsOf;
  }

  lemma OpaqueItem(event: Value)
    ensures Field(event, "item").Invalid? ==>
              && !IsMessage(Part(event, "item"), 0, "in_progress")
              && !IsReasoning(Part(event, "item"), "in_progress")
              && !Has(Part(event, "item"), "type", Str("reasoning"))
  {}

  /** The stage and the latest observation say the same. */
  lemma StageIsLatest(a: Automaton, heard: seq<Value>)
    requires Knows(a, heard)
    ensures a.stage.OutputItemAdded? <==> Latest(heard).ResponseInProgress?
    ensures a.stage.MessageItemAdded?
            <==> Latest(heard).ItemDone? && ItemId(heard, "message").None?
    ensures a.stage.AwaitCompleted? <==> Latest(heard).ItemDone? && ItemId(heard, "message").Some?
    ensures a.stage.ReasoningItemDone?
            <==> Latest(heard).ItemAdded? && ItemId(heard, "message").None?
    ensures a.stage.ContentPartAdded?
            <==> Latest(heard).ItemAdded? && ItemId(heard, "message").Some?
    ensures a.stage.Delta? <==> Latest(heard).PartAdded?
    ensures a.stage.DeltaOrDone? <==> Latest(heard).TextDelta?
    ensures a.stage.ContentPartDone? <==> Latest(heard).TextDone?
    ensures a.stage.OutputItemDone? <==> Latest(heard).PartDone?
    ensures a.reasoningItemId == ItemId(heard, "reasoning") && a.itemId == ItemId(heard, "message")
    ensures (if a.reasoningItemId.Some? then 1 else 0) == MessageIndex(heard)
    ensures a.Text() == Said(heard)
  {
    hide Said, ItemId, EventKind, Join;
  }

  lemma PartAddedJudged(a: Automaton, heard: seq<Value>, event: Value)
    requires Knows(a, heard) && EventKind(event).PartAdded?
    ensures Judges(a, heard, event,
                   Latest(heard).ItemAdded? && OfMessage(heard, event)
                   && IsText(Part(event, "part"), ""),
                   OnPartAdded(a, event))
  {
    PartMeans(a, heard, event, "");
    StageIsLatest(a, heard);
    StageFollows(heard, event);
    if a.itemId.Some? && heard != [] { MessageGoesOn(a, heard, event, Delta); }
    MessageIsKnown(heard, event);
    SilentKinds(event);
    hide StageAfter, Knows, Latest, ItemId, EventKind, OfMessage, IsText, ValidateOutputText;
    hide RequireItemCoordinates, TellsOf;
  }

  lemma PartDoneJudged(a: Automaton, heard: seq<Value>, event: Value)
    requires Knows(a, heard) && EventKind(event).PartDone?
    ensures Judges(a, heard, event,
                   Latest(heard).TextDone? && OfMessage(heard, event)
                   && IsText(Part(event, "part"), Said(heard)),
                   OnPartDone(a, event))
  {
    PartMeans(a, heard, event, Said(heard));
    StageIsLatest(a, heard);
    StageFollows(heard, event);
    if a.itemId.Some? && heard != [] { MessageGoesOn(a, heard, event, OutputItemDone); }
    MessageIsKnown(heard, event);
    SilentKinds(event);
    hide StageAfter, Knows, Latest, ItemId, EventKind, OfMessage, IsText, ValidateOutputText;
    hide RequireItemCoordinates, TellsOf, Said, Join;
  }

  /** The checks of a part that belongs to the message. */
  lemma PartMeans(a: Automaton, heard: seq<Value>, event: Value, text: string)
    requires Knows(a, heard)
    ensures a.itemId.Some? ==>
              (RequireItemCoordinates(a, event).Ok? <==> OfMessage(heard, event))
    ensures OfMessage(heard, event) ==> a.itemId.Some?
    ensures Field(event, "part").Ok? && ValidateOutputText(Field(event, "part").value, text).Ok?
            <==> IsText(Part(event, "part"), text)
  {
    if a.itemId.Some? { CoordinatesMean(a, heard, event); }
    FieldsMean(event, "part", Part(event, "part"));
    TextMeans(Part(event, "part"), text);
    hide ValidateOutputText, RequireItemCoordinates, Said, ItemId, EventKind, Join;
  }

  lemma TextDeltaJudged(a: Automaton, heard: seq<Value>, event: Value)
    requires Knows(a, heard) && EventKind(event).TextDelta?
    ensures Judges(a, heard, event, AddsText(heard, event), OnTextDelta(a, event))
  {
    StageIsLatest(a, heard);
    LogprobsMean(event);
    DeltaMeans(event);
    MessageIsKnown(heard, event);
    if a.itemId.Some? { CoordinatesMean(a, heard, event); }
    if a.itemId.Some? && Name(event, "delta").Some? {
      TextGoesOn(a, heard, event, Name(event, "delta").value);
    }
    hide Knows, Latest, Said, ItemId, EventKind, Join, OfMessage, RequireItemCoordinates;
    hide RequireAbsentOrEmptyList, TerminalSafeText, Printable, LacksItems;
  }

  /** A delta in order adds its text. */
  lemma TextGoesOn(a: Automaton, heard: seq<Value>, event: Value, delta: string)
    requires Knows(a, heard) && heard != [] && a.itemId.Some?
    requires EventKind(event).TextDelta? && Part(event, "delta") == Str(delta)
    ensures Knows(a.(textFragments := a.textFragments + [delta], stage := DeltaOrDone), heard + [event])
  {
    HeardSnoc(heard, event);
    JoinSnoc(a.textFragments, delta);
    hide Said, ItemId, EventKind, Join;
  }

  lemma MessageIsKnown(heard: seq<Value>, event: Value)
    ensures OfMessage(heard, event) ==> ItemId(heard, "message").Some? && heard != []
  {}

  /** Inside the message, one more observation moves the stage alone. */
  lemma MessageGoesOn(a: Automaton, heard: seq<Value>, event: Value, stage: Stage)
    requires Knows(a, heard) && heard != [] && a.itemId.Some?
    requires !EventKind(event).ItemAdded? && !EventKind(event).TextDelta?
    requires stage == StageAfter(heard + [event])
    requires stage.Delta? || stage.ContentPartDone? || stage.OutputItemDone? || stage.AwaitCompleted?
    ensures Knows(a.(stage := stage), heard + [event])
  {
    HeardSnoc(heard, event);
    hide Said, ItemId, EventKind, Join;
  }

  lemma SilentKinds(event: Value)
    ensures !EventKind(event).TextDelta? && !EventKind(event).TextDone? ==> TellsOf(event) == []
  {}

  lemma LogprobsMean(event: Value)
    ensures RequireAbsentOrEmptyList(OptionalField(event, "logprobs")).Ok?
            <==> LacksItems(event, "logprobs")
  {}

  lemma DeltaMeans(event: Value)
    ensures var delta := Name(event, "delta");
            && (Field(event, "delta").Ok? && TerminalSafeText(Field(event, "delta").value, false).Ok?
                <==> delta.Some? && Printable(delta.value))
            && (delta.Some? && Printable(delta.value) ==>
                  && TerminalSafeText(Field(event, "delta").value, false).value == delta.value
                  && Part(event, "delta") == Str(delta.value))
  {
    if Name(event, "delta").Some? { PrintableMeans(Name(event, "delta").value); }
    hide TerminalSafe, Printable;
  }

  lemma DoneMeans(event: Value, text: string)
    ensures Field(event, "text").Ok? && TerminalSafeText(Field(event, "text").value, true) == Ok(text)
            <==> Has(event, "text", Str(text)) && Printable(text)
    ensures Has(event, "text", Str(text)) ==> Part(event, "text") == Str(text)
  {
    PrintableMeans(text);
    hide TerminalSafe, Printable;
  }

  /** The stage behind one more observation of a finished part. */
  lemma StageFollows(heard: seq<Value>, event: Value)
    ensures var stage := StageAfter(heard + [event]);
            && (EventKind(event).TextDone? ==> stage == ContentPartDone)
            && (EventKind(event).PartAdded? ==> stage == Delta)
            && (EventKind(event).PartDone? ==> stage == OutputItemDone)
            && (EventKind(event).ItemDone? ==>
                  stage == if ItemId(heard, "message").Some? then AwaitCompleted else MessageItemAdded)
  {
    HeardSnoc(heard, event);
    hide Said, ItemId, EventKind;
  }

  lemma TextDoneJudged(a: Automaton, heard: seq<Value>, event: Value)
    requires Knows(a, heard) && EventKind(event).TextDone?
    ensures Judges(a, heard, event, FinishesText(heard, event), OnTextDone(a, event))
  {
    StageIsLatest(a, heard);
    LogprobsMean(event);
    DoneMeans(event, Said(heard));
    MessageIsKnown(heard, event);
    StageFollows(heard, event);
    DoneTells(event);
    if a.itemId.Some? {
      CoordinatesMean(a, heard, event);
      if heard != [] { MessageGoesOn(a, heard, event, ContentPartDone); }
    }
    hide Knows, Latest, Said, ItemId, EventKind, Join, OfMessage, RequireItemCoordinates, StageAfter;
    hide RequireAbsentOrEmptyList, TerminalSafeText, Printable, LacksItems, Has, Part, TellsOf;
  }

  lemma DoneTells(event: Value)
    ensures EventKind(event).TextDone? && Part(event, "text").Str? ==>
              TellsOf(event) == [P.TextCompleted(Part(event, "text").text)]
  {
    hide EventKind, Part;
  }

  /** A finished reasoning item moves the stage alone. */
  lemma ReasoningGoesOn(a: Automaton, heard: seq<Value>, event: Value)
    requires Knows(a, heard) && EventKind(event).ItemDone? && a.stage.ReasoningItemDone?
    ensures Knows(a.(stage := MessageItemAdded), heard + [event])
  {
    HeardSnoc(heard, event);
    hide Said, ItemId, EventKind, Join;
  }

  lemma ReasoningDoneJudged(a: Automaton, heard: seq<Value>, event: Value)
    requires Knows(a, heard) && EventKind(event).ItemDone? && a.stage.ReasoningItemDone?
    ensures Judges(a, heard, event, FinishesItem(heard, event), OnItemDone(a, event))
  {
    StageIsLatest(a, heard);
    ReasoningGoesOn(a, heard, event);
    SilentKinds(event);
    var item := Part(event, "item");
    FieldsMean(event, "item", item);
    FieldsMean(event, "output_index", Int(0));
    ReasoningMeans(item, true);
    OpaqueIsNothing(Said(heard));
    hide Knows, Latest, Said, ItemId, EventKind, Join, ValidateReasoningItem, IsReasoning;
    hide ValidateFinalMessage, Says, TellsOf, Name;
  }

  lemma OpaqueIsNothing(text: string)
    ensures !IsReasoning(Opaque, "completed") && !Says(Opaque, text)
  {}

  lemma MessageDoneJudged(a: Automaton, heard: seq<Value>, event: Value)
    requires Knows(a, heard) && EventKind(event).ItemDone? && !a.stage.ReasoningItemDone?
    ensures Judges(a, heard, event, FinishesItem(heard, event), OnItemDone(a, event))
  {
    StageIsLatest(a, heard);
    var item := Part(event, "item");
    FieldsMean(event, "item", item);
    FieldsMean(event, "output_index", Int(MessageIndex(heard)));
    IndexIsKnown(a, heard);
    FinalMessageMeans(item, Said(heard));
    OpaqueIsNothing(Said(heard));
    SilentKinds(event);
    StageFollows(heard, event);
    if a.stage.OutputItemDone? { MessageGoesOn(a, heard, event, AwaitCompleted); }
    hide Knows, Latest, Said, ItemId, EventKind, Join, ValidateReasoningItem, IsReasoning;
    hide ValidateFinalMessage, Says, TellsOf, StageAfter, Name, MessageIndex;
  }

  lemma IndexIsKnown(a: Automaton, heard: seq<Value>)
    requires Knows(a, heard)
    ensures a.itemId.Some? ==> a.messageOutputIndex == MessageIndex(heard)
    ensures a.stage.OutputItemDone? ==> a.itemId.Some? && heard != []
  {}

  lemma ItemDoneJudged(a: Automaton, heard: seq<Value>, event: Value)
    requires Knows(a, heard) && EventKind(event).ItemDone?
    ensures Judges(a, heard, event, FinishesItem(heard, event), OnItemDone(a, event))
  {
    hide Knows, Judges, FinishesItem, OnItemDone;
    if a.stage.ReasoningItemDone? {
      ReasoningDoneJudged(a, heard, event);
    } else {
      MessageDoneJudged(a, heard, event);
    }
  }

  /** The checks of a completed response up to its output. */
  predicate HeaderOk(model: string, response: Value) {
    && Has(response, "status", Str("completed")) && Has(response, "model", Str(model))
    && Lacks(response, "error") && Lacks(response, "incomplete_details")
    && IsConfiguration(Part(response, "reasoning"))
  }

  lemma HeaderMeans(model: string, response: Value)
    ensures HeaderOk(model, response)
            <==> && Field(response, "status") == Ok(Str("completed"))
                 && Field(response, "model") == Ok(Str(model))
                 && OptionalField(response, "error").Null?
                 && OptionalField(response, "incomplete_details").Null?
                 && ValidateReasoningConfiguration(OptionalField(response, "reasoning")).Ok?
  {
    FieldsMean(response, "status", Str("completed"));
    FieldsMean(response, "model", Str(model));
    FieldsMean(response, "error", Null);
    FieldsMean(response, "incomplete_details", Null);
    FieldsMean(response, "reasoning", Null);
    ConfigurationMeans(OptionalField(response, "reasoning"));
    NoConfiguration();
    hide IsConfiguration, ValidateReasoningConfiguration;
  }

  lemma NoConfiguration()
    ensures !IsConfiguration(Null) && !IsConfiguration(Opaque)
  {}

  /** The checks of the final output. */
  predicate OutputOk(a: Automaton, output: seq<Value>)
    requires a.Coherent()
  {
    && |output| == (if a.reasoningItemId.Some? then 2 else 1)
    && (a.reasoningItemId.Some? ==>
          && ValidateReasoningItem(output[0], true).Ok?
          && Some(ValidateReasoningItem(output[0], true).value) == a.reasoningItemId)
    && ValidateFinalMessage(output[a.messageOutputIndex], a.Text()).Ok?
    && Some(ValidateFinalMessage(output[a.messageOutputIndex], a.Text()).value) == a.itemId
  }

  lemma OutputMeans(a: Automaton, heard: seq<Value>, output: Value)
    requires Knows(a, heard) && a.Coherent() && a.itemId.Some?
    ensures output.List? && OutputOk(a, output.items) <==> RepeatsOutput(heard, output)
  {
    StageIsLatest(a, heard);
    if output.List? && |output.items| == MessageIndex(heard) + 1 {
      ReasoningMeans(output.items[0], true);
      FinalMessageMeans(output.items[MessageIndex(heard)], Said(heard));
    }
    hide Said, ItemId, EventKind, Join, ValidateReasoningItem, IsReasoning, ValidateFinalMessage, Says;
    hide StageAfter;
  }

  /** The completion's checks, one after another. */
  lemma CompletionChecks(model: string, a: Automaton, event: Value)
    requires a.Coherent()
    ensures var response := Field(event, "response");
            OnCompleted(model, a, event).Ok?
            <==> && a.stage.AwaitCompleted?
                 && response.Ok? && RequireResponseIdentity(a, response.value).Ok?
                 && Field(response.value, "status") == Ok(Str("completed"))
                 && Field(response.value, "model") == Ok(Str(model))
                 && OptionalField(response.value, "error").Null?
                 && OptionalField(response.value, "incomplete_details").Null?
                 && ValidateReasoningConfiguration(OptionalField(response.value, "reasoning")).Ok?
                 && Field(response.value, "output").Ok? && Field(response.value, "output").value.List?
                 && OutputOk(a, Field(response.value, "output").value.items)
                 && ReportedUsage(OptionalField(response.value, "usage")).Ok?
    ensures OnCompleted(model, a, event).Ok? ==>
              OnCompleted(model, a, event).value.1
              == ReportedUsage(OptionalField(Field(event, "response").value, "usage")).value
                 + [P.Completed]
  {
    hide RequireResponseIdentity, ValidateReasoningConfiguration, ValidateReasoningItem;
    hide ValidateFinalMessage, ReportedUsage, Field, OptionalField;
  }

  lemma UsageFieldMeans(response: Value)
    ensures ReportedUsage(OptionalField(response, "usage")).Ok?
            <==> Lacks(response, "usage") || IsUsage(Part(response, "usage"))
    ensures ReportedUsage(OptionalField(response, "usage")).Ok? ==>
              ReportedUsage(OptionalField(response, "usage")).value
              == (var usage := Part(response, "usage");
                  var input, output := Count(usage, "input_tokens"), Count(usage, "output_tokens");
                  if input.Some? && output.Some? then [P.UsageReported(input.value, output.value)]
                  else [])
  {
    FieldsMean(response, "usage", Null);
    UsageMeans(Part(response, "usage"));
    UsageCounts(Part(response, "usage"));
    if Lacks(response, "usage") { NoUsage(response); }
    hide ReportedUsage, IsUsage;
  }

  lemma UsageCounts(usage: Value)
    ensures IsUsage(usage) ==>
              Count(usage, "input_tokens").Some? && Count(usage, "output_tokens").Some?
  {}

  lemma NoUsage(response: Value)
    requires Lacks(response, "usage")
    ensures OptionalField(response, "usage").Null?
    ensures ReportedUsage(Null) == Ok([])
    ensures Count(Part(response, "usage"), "input_tokens").None?
  {}

  lemma CompletedJudged(model: string, a: Automaton, heard: seq<Value>, event: Value)
    requires Knows(a, heard) && a.Coherent() && EventKind(event).ResponseCompleted?
    requires InSequence(heard, event)
    ensures OnCompleted(model, a, event).Ok? <==> MayComplete(model, heard, event)
    ensures OnCompleted(model, a, event).Ok? ==>
              OnCompleted(model, a, event).value.1 == UsageOf(event) + [P.Completed]
  {
    var response := Part(event, "response");
    StageIsLatest(a, heard);
    IdentityMeans(a, heard, event);
    CompletionChecks(model, a, event);
    FieldsMean(event, "response", response);
    HeaderMeans(model, response);
    FieldsMean(response, "output", Part(response, "output"));
    OpaqueOutput(heard);
    if a.itemId.Some? { OutputMeans(a, heard, Part(response, "output")); }
    UsageFieldMeans(response);
    hide Said, ItemId, EventKind, Join, OnCompleted, Field, OptionalField, OutputOk, RepeatsOutput;
    hide ValidateReasoningConfiguration, IsConfiguration, ReportedUsage, IsUsage, Knows, InSequence;
    hide RequireResponseIdentity, OfResponse, Part, Has, Lacks, Count;
  }

  lemma OpaqueOutput(heard: seq<Value>)
    ensures !RepeatsOutput(heard, Opaque)
  {}

  // ----- One observation -----

  /** The handler of each kind. */
  lemma HandleByKind(model: string, a: Automaton, event: Value, name: string)
    requires a.Coherent()
    ensures var o := Handle(model, a, event, name);
            match KindNamed(name)
            case ResponseCreated => o == Settle(a, OnCreated(a, event))
            case ResponseQueued => o == Settle(a, OnQueued(a, event))
            case ResponseInProgress => o == Settle(a, OnInProgress(a, event))
            case ItemAdded => o == OnItemAdded(a, event)
            case PartAdded => o == Settle(a, OnPartAdded(a, event))
            case TextDelta => o == Settle(a, OnTextDelta(a, event))
            case TextDone => o == Settle(a, OnTextDone(a, event))
            case PartDone => o == Settle(a, OnPartDone(a, event))
            case ItemDone => o == Settle(a, OnItemDone(a, event))
            case ResponseCompleted => o == Settle(a, OnCompleted(model, a, event))
            case Unheard => o == Refuse(a)
            case _ => true
  {
    hide OnCreated, OnQueued, OnInProgress, OnItemAdded, OnPartAdded, OnPartDone;
    hide OnItemDone, OnTextDelta, OnTextDone, OnCompleted, Settle;
  }

  /** The same, for the event that carries the name. */
  lemma HandleEvent(model: string, a: Automaton, event: Value)
    requires a.Coherent() && Name(event, "type").Some?
    ensures var o := Handle(model, a, event, Name(event, "type").value);
            match EventKind(event)
            case ResponseCreated => o == Settle(a, OnCreated(a, event))
            case ResponseQueued => o == Settle(a, OnQueued(a, event))
            case ResponseInProgress => o == Settle(a, OnInProgress(a, event))
            case ItemAdded => o == OnItemAdded(a, event)
            case PartAdded => o == Settle(a, OnPartAdded(a, event))
            case TextDelta => o == Settle(a, OnTextDelta(a, event))
            case TextDone => o == Settle(a, OnTextDone(a, event))
            case PartDone => o == Settle(a, OnPartDone(a, event))
            case ItemDone => o == Settle(a, OnItemDone(a, event))
            case ResponseCompleted => o == Settle(a, OnCompleted(model, a, event))
            case Unheard => o == Refuse(a)
            case _ => true
  {
    hide Handle, KindNamed, OnCreated, OnQueued, OnInProgress, OnItemAdded, OnPartAdded, OnPartDone;
    hide OnItemDone, OnTextDelta, OnTextDone, OnCompleted, Settle;
    HandleByKind(model, a, event, Name(event, "type").value);
  }

  /** What one more observation makes of the automaton and tells. */
  predicate Verdicts(model: string, heard: seq<Value>, event: Value, next: Option<int>, o: Outcome) {
    if MayContinue(heard, event) then
      && o.mapped == Ok(TellsOf(event))
      && Knows(o.after, heard + [event]) && o.after.nextSequence == next
    else if MayComplete(model, heard, event) then o.mapped == Ok(UsageOf(event) + [P.Completed])
    else
      || o.mapped == Ok([EndingOf(heard, event)])
      || (o.mapped.Invalid?
          && EndingOf(heard, event)
             == P.Failed(P.InvalidResponse, "OpenAI returned an invalid response."))
  }

  lemma FinishedKinds(heard: seq<Value>, event: Value)
    ensures var kind := EventKind(event);
            !kind.StreamError? && !kind.ResponseFailed? && !kind.ResponseIncomplete? ==>
              EndingOf(heard, event)
              == P.Failed(P.InvalidResponse, "OpenAI returned an invalid response.")
  {}

  lemma SettledIs(a: Automaton, heard: seq<Value>, event: Value, legal: bool,
                  checked: Checked<(Automaton, seq<P.ProviderEvent>)>)
    requires Judges(a, heard, event, legal, checked)
    ensures var o := Settle(a, checked);
            if legal then
              o.mapped == Ok(TellsOf(event)) && Knows(o.after, heard + [event])
              && o.after.nextSequence == a.nextSequence
            else o.mapped.Invalid?
  {
    hide Knows, TellsOf;
  }

  lemma OpeningJudged(model: string, a: Automaton, heard: seq<Value>, event: Value)
    requires Knows(a, heard) && a.Coherent() && InSequence(heard, event)
    requires var kind := EventKind(event);
             kind.ResponseCreated? || kind.ResponseQueued? || kind.ResponseInProgress?
    requires Name(event, "type").Some?
    ensures Verdicts(model, heard, event, a.nextSequence,
                     Handle(model, a, event, Name(event, "type").value))
  {
    HandleEvent(model, a, event);
    FinishedKinds(heard, event);
    hide Knows, InSequence, OfResponse, Handle, EndingOf, KindNamed, EventKind, TellsOf;
    hide OnCreated, OnQueued, OnInProgress, Judges, Settle;
    match EventKind(event)
    case ResponseCreated =>
      CreatedJudged(a, heard, event);
      SettledIs(a, heard, event, heard == [] && Name(Part(event, "response"), "id").Some?,
                OnCreated(a, event));
    case ResponseQueued =>
      QueuedJudged(a, heard, event);
      SettledIs(a, heard, event, Latest(heard).ResponseCreated? && OfResponse(heard, event),
                OnQueued(a, event));
    case ResponseInProgress =>
      InProgressJudged(a, heard, event);
      SettledIs(a, heard, event,
                (Latest(heard).ResponseCreated? || Latest(heard).ResponseQueued?)
                && OfResponse(heard, event),
                OnInProgress(a, event));
  }

  lemma ItemsJudged(model: string, a: Automaton, heard: seq<Value>, event: Value)
    requires Knows(a, heard) && a.Coherent() && InSequence(heard, event)
    requires EventKind(event).ItemAdded? || EventKind(event).ItemDone?
    requires Name(event, "type").Some?
    ensures Verdicts(model, heard, event, a.nextSequence,
                     Handle(model, a, event, Name(event, "type").value))
  {
    HandleEvent(model, a, event);
    FinishedKinds(heard, event);
    hide Knows, InSequence, Handle, EndingOf, KindNamed, EventKind, TellsOf, AddsItem, FinishesItem;
    hide OnItemAdded, OnItemDone, Judges, Settle;
    if EventKind(event).ItemAdded? {
      ItemAddedJudged(a, heard, event);
    } else {
      ItemDoneJudged(a, heard, event);
      SettledIs(a, heard, event, FinishesItem(heard, event), OnItemDone(a, event));
    }
  }

  lemma PartsJudged(model: string, a: Automaton, heard: seq<Value>, event: Value)
    requires Knows(a, heard) && a.Coherent() && InSequence(heard, event)
    requires EventKind(event).PartAdded? || EventKind(event).PartDone?
    requires Name(event, "type").Some?
    ensures Verdicts(model, heard, event, a.nextSequence,
                     Handle(model, a, event, Name(event, "type").value))
  {
    HandleEvent(model, a, event);
    FinishedKinds(heard, event);
    hide Knows, InSequence, Handle, EndingOf, KindNamed, EventKind, TellsOf, OfMessage, IsText, Said;
    hide OnPartAdded, OnPartDone, Judges, Settle;
    if EventKind(event).PartAdded? {
      PartAddedJudged(a, heard, event);
      SettledIs(a, heard, event,
                Latest(heard).ItemAdded? && OfMessage(heard, event)
                && IsText(Part(event, "part"), ""),
                OnPartAdded(a, event));
    } else {
      PartDoneJudged(a, heard, event);
      SettledIs(a, heard, event,
                Latest(heard).TextDone? && OfMessage(heard, event)
                && IsText(Part(event, "part"), Said(heard)),
                OnPartDone(a, event));
    }
  }

  lemma TextsJudged(model: string, a: Automaton, heard: seq<Value>, event: Value)
    requires Knows(a, heard) && a.Coherent() && InSequence(heard, event)
    requires EventKind(event).TextDelta? || EventKind(event).TextDone?
    requires Name(event, "type").Some?
    ensures Verdicts(model, heard, event, a.nextSequence,
                     Handle(model, a, event, Name(event, "type").value))
  {
    HandleEvent(model, a, event);
    FinishedKinds(heard, event);
    hide Knows, InSequence, Handle, EndingOf, KindNamed, EventKind, TellsOf, AddsText, FinishesText;
    hide OnTextDelta, OnTextDone, Judges, Settle;
    if EventKind(event).TextDelta? {
      TextDeltaJudged(a, heard, event);
      SettledIs(a, heard, event, AddsText(heard, event), OnTextDelta(a, event));
    } else {
      TextDoneJudged(a, heard, event);
      SettledIs(a, heard, event, FinishesText(heard, event), OnTextDone(a, event));
    }
  }

  lemma RestJudged(model: string, a: Automaton, heard: seq<Value>, event: Value)
    requires Knows(a, heard) && a.Coherent() && InSequence(heard, event)
    requires Name(event, "type").Some?
    requires EventKind(event).ResponseCompleted? || EventKind(event).Unheard?
    ensures Verdicts(model, heard, event, a.nextSequence,
                     Handle(model, a, event, Name(event, "type").value))
  {
    HandleEvent(model, a, event);
    FinishedKinds(heard, event);
    if EventKind(event).ResponseCompleted? { CompletedJudged(model, a, heard, event); }
    CompletesOnly(model, heard, event);
    hide Knows, InSequence, Handle, EndingOf, KindNamed, EventKind, TellsOf, OnCompleted, MayComplete;
  }

  lemma CompletesOnly(model: string, heard: seq<Value>, event: Value)
    ensures MayComplete(model, heard, event) ==> EventKind(event).ResponseCompleted?
  {}

  lemma HandleJudged(model: string, a: Automaton, heard: seq<Value>, event: Value)
    requires Knows(a, heard) && a.Coherent() && InSequence(heard, event)
    requires Name(event, "type").Some?
    requires var kind := EventKind(event);
             !kind.StreamError? && !kind.ResponseFailed? && !kind.ResponseIncomplete?
    ensures Verdicts(model, heard, event, a.nextSequence,
                     Handle(model, a, event, Name(event, "type").value))
  {
    hide Knows, InSequence, Handle, Verdicts, KindNamed, EventKind;
    match EventKind(event)
    case ResponseCreated => OpeningJudged(model, a, heard, event);
    case ResponseQueued => OpeningJudged(model, a, heard, event);
    case ResponseInProgress => OpeningJudged(model, a, heard, event);
    case ItemAdded => ItemsJudged(model, a, heard, event);
    case ItemDone => ItemsJudged(model, a, heard, event);
    case PartAdded => PartsJudged(model, a, heard, event);
    case PartDone => PartsJudged(model, a, heard, event);
    case TextDelta => TextsJudged(model, a, heard, event);
    case TextDone => TextsJudged(model, a, heard, event);
    case ResponseCompleted => RestJudged(model, a, heard, event);
    case Unheard => RestJudged(model, a, heard, event);
  }

  /** The provider's own endings. */
  lemma EndingJudged(model: string, a: Automaton, heard: seq<Value>, event: Value)
    requires Knows(a, heard) && InSequence(heard, event)
    requires EventKind(event).ResponseFailed? || EventKind(event).ResponseIncomplete?
    requires Name(event, "type").Some?
    ensures Verdicts(model, heard, event, a.nextSequence,
                     OnResponseTerminal(a, event, Name(event, "type").value))
  {
    var status := if EventKind(event).ResponseFailed? then "failed" else "incomplete";
    StatusMeans(a, heard, event, status);
    EndingKinds(event);
    NamedKinds(event);
    EndsNothing(model, heard, event);
    CodeMeans(Part(event, "response"));
    hide Knows, InSequence, KindNamed, EventKind, TellsOf, MayComplete, CheckResponseTerminal;
    hide EndsResponse, MayContinue, FailedCode, Part, Has, Lacks, Name;
  }

  lemma EndsNothing(model: string, heard: seq<Value>, event: Value)
    requires EventKind(event).ResponseFailed? || EventKind(event).ResponseIncomplete?
             || EventKind(event).StreamError?
    ensures !MayContinue(heard, event) && !MayComplete(model, heard, event)
  {
    hide EventKind;
  }

  lemma EndingKinds(event: Value)
    ensures EventKind(event).ResponseFailed? ==>
              Name(event, "type") == Some("response.failed")
    ensures EventKind(event).ResponseIncomplete? ==>
              Name(event, "type") == Some("response.incomplete")
    ensures EventKind(event).StreamError? ==> Name(event, "type") == Some("error")
  {}

  lemma StatusMeans(a: Automaton, heard: seq<Value>, event: Value, status: string)
    requires Knows(a, heard) && InSequence(heard, event)
    ensures CheckResponseTerminal(a, event, status).Ok? <==> EndsResponse(heard, event, status)
    ensures CheckResponseTerminal(a, event, status).Ok? ==>
              CheckResponseTerminal(a, event, status).value == Part(event, "response")
  {
    IdentityMeans(a, heard, event);
    FieldsMean(event, "response", Part(event, "response"));
    FieldsMean(Part(event, "response"), "status", Str(status));
    IdentityStarted(a, heard, event);
    hide Knows, InSequence, OfResponse, RequireResponseIdentity;
  }

  lemma IdentityStarted(a: Automaton, heard: seq<Value>, event: Value)
    requires Knows(a, heard)
    ensures OfResponse(heard, event) ==> a.responseId.Some? && !a.stage.Created?
  {
    hide Said, ItemId, EventKind, Join;
  }

  lemma CodeMeans(response: Value)
    ensures var error := Part(response, "error");
            && (FailedCode(response).Ok?
                <==> response.Obj? && "error" in response.fields
                     && (Lacks(error, "code") || Part(error, "code").Str?))
            && (FailedCode(response).Ok? ==>
                  FailedCode(response).value
                  == if Has(error, "code", Str("server_error")) then P.Unavailable
                     else if Has(error, "code", Str("rate_limit_exceeded")) then P.RateLimited
                     else P.Unknown)
  {
    var error := Part(response, "error");
    FieldsMean(error, "code", Str("server_error"));
    FieldsMean(error, "code", Str("rate_limit_exceeded"));
  }

  lemma SequenceMeans(a: Automaton, heard: seq<Value>, event: Value)
    requires Counts(a, heard)
    ensures var field := Field(event, "sequence_number");
            && (field.Ok? && AcceptSequence(a, field.value).Ok? <==> InSequence(heard, event))
            && (InSequence(heard, event) ==>
                  AcceptSequence(a, field.value).value
                  == a.(nextSequence := Some(Count(event, "sequence_number").value + 1)))
  {}

  lemma KindMeans(event: Value)
    ensures KindOf(event).Ok? <==> Name(event, "type").Some?
    ensures KindOf(event).Ok? ==> KindOf(event).value == Name(event, "type").value
  {}

  lemma OutOfSequence(model: string, heard: seq<Value>, event: Value)
    requires !InSequence(heard, event) || EventKind(event).Unheard?
    ensures !MayContinue(heard, event) && !MayComplete(model, heard, event)
    ensures EndingOf(heard, event)
            == P.Failed(P.InvalidResponse, "OpenAI returned an invalid response.")
  {
    hide EventKind, InSequence;
  }

  lemma Nameless(event: Value)
    ensures Name(event, "type").None? ==> EventKind(event).Unheard?
  {
    hide KindNamed;
  }

  lemma KnowsBut(a: Automaton, heard: seq<Value>, next: Option<int>)
    requires Knows(a, heard)
    ensures Knows(a.(nextSequence := next), heard)
  {
    hide Said, ItemId, EventKind, Join;
  }

  lemma AcceptJudged(model: string, a: Automaton, heard: seq<Value>, event: Value)
    requires Knows(a, heard) && Counts(a, heard) && a.Coherent()
    ensures var n := Count(event, "sequence_number");
            Verdicts(model, heard, event, if n.Some? then Some(n.value + 1) else None,
                     Accept(model, a, event))
  {
    KindMeans(event);
    Nameless(event);
    SequenceMeans(a, heard, event);
    StageIsOpen(a, heard);
    if Name(event, "type").None? || !InSequence(heard, event) {
      OutOfSequence(model, heard, event);
      RefusedVerdict(model, a, heard, event);
    } else {
      var b := a.(nextSequence := Some(Count(event, "sequence_number").value + 1));
      KnowsBut(a, heard, b.nextSequence);
      InSequenceJudged(model, b, heard, event);
    }
    hide Verdicts, Knows, InSequence, MayContinue, EndingOf, Counts, Handle, OnResponseTerminal, EventKind;
  }

  lemma RefusedVerdict(model: string, a: Automaton, heard: seq<Value>, event: Value)
    requires !MayContinue(heard, event) && !MayComplete(model, heard, event)
    requires EndingOf(heard, event)
             == P.Failed(P.InvalidResponse, "OpenAI returned an invalid response.")
    ensures forall next, b :: Verdicts(model, heard, event, next, Refuse(b))
  {
    hide MayContinue, MayComplete, EndingOf, Knows;
  }

  /** Behind the number check. */
  lemma InSequenceJudged(model: string, b: Automaton, heard: seq<Value>, event: Value)
    requires Knows(b, heard) && b.Coherent() && InSequence(heard, event)
    requires Name(event, "type").Some?
    ensures var kind := Name(event, "type").value;
            Verdicts(model, heard, event, b.nextSequence,
                     if kind == "error" then Outcome(b.(stage := Terminal), Ok([Failure(P.Unknown)]))
                     else if kind == "response.failed" || kind == "response.incomplete" then
                       OnResponseTerminal(b, event, kind)
                     else Handle(model, b, event, kind))
  {
    hide Knows, InSequence, MayContinue, Handle, OnResponseTerminal;
    NamedKinds(event);
    if EventKind(event).StreamError? {
      EndsNothing(model, heard, event);
    } else if EventKind(event).ResponseFailed? || EventKind(event).ResponseIncomplete? {
      EndingJudged(model, b, heard, event);
    } else {
      HandleJudged(model, b, heard, event);
    }
    hide EventKind, MayComplete;
  }

  lemma NamedKinds(event: Value)
    requires Name(event, "type").Some?
    ensures Name(event, "type").value == "error" <==> EventKind(event).StreamError?
    ensures Name(event, "type").value == "response.failed" <==> EventKind(event).ResponseFailed?
    ensures Name(event, "type").value == "response.incomplete" <==> EventKind(event).ResponseIncomplete?
  {}

  lemma StageIsOpen(a: Automaton, heard: seq<Value>)
    requires Knows(a, heard)
    ensures !a.stage.Terminal?
  {}

  // ----- Whole streams -----

  /** The observations among the reads. */
  function Heard(inputs: seq<Read>): seq<Value> {
    if inputs == [] then []
    else
      var last := inputs[|inputs| - 1];
      Heard(inputs[..|inputs| - 1]) + if last.Observed? then [last.event] else []
  }

  /** One read is worth its verdict. */
  lemma BatchIsVerdict(model: string, a: Automaton, heard: seq<Value>, read: Read)
    requires Knows(a, heard) && Counts(a, heard) && a.Coherent()
    ensures var (after, batch) := Batch(model, a, read);
            && batch == Verdict(model, heard, read)
            && (IsProgress(batch) <==> read.Observed? && MayContinue(heard, read.event))
            && (IsProgress(batch) ==>
                  Knows(after, heard + [read.event]) && Counts(after, heard + [read.event]))
  {
    hide Knows, Counts, MayContinue, MayComplete, Accept, InSequence;
    match read
    case Broke(code) =>
    case Observed(event) =>
      AcceptJudged(model, a, heard, event);
      OneEnding(heard, event);
      TellsProgress(event);
      UsageIsShort(event);
      if MayContinue(heard, event) {
        Numbered(heard, event);
        CountsNow(Accept(model, a, event).after, heard, event);
      }
      hide EndingOf, TellsOf, UsageOf;
  }

  lemma OneEnding(heard: seq<Value>, event: Value)
    ensures EndingOf(heard, event).Failed?
  {
    hide InSequence, EndsResponse, EventKind;
  }

  lemma TellsProgress(event: Value)
    ensures IsProgress(TellsOf(event))
  {
    hide EventKind;
  }

  lemma UsageIsShort(event: Value)
    ensures |UsageOf(event)| <= 1 && (UsageOf(event) + [P.Completed])[|UsageOf(event)|] == P.Completed
  {}

  lemma Numbered(heard: seq<Value>, event: Value)
    requires MayContinue(heard, event)
    ensures Count(event, "sequence_number").Some?
  {
    hide EventKind, Count;
  }

  lemma CountsNow(after: Automaton, heard: seq<Value>, event: Value)
    requires Count(event, "sequence_number").Some?
    requires after.nextSequence == Some(Count(event, "sequence_number").value + 1)
    ensures Counts(after, heard + [event])
  {
    hide Count;
  }

  lemma NothingHeard()
    ensures Knows(FRESH, []) && Counts(FRESH, [])
  {}

  lemma {:induction false} OpenStreamsKnow(model: string, inputs: seq<Read>)
    requires !Drive(model, inputs).over
    ensures var a := Drive(model, inputs).automaton;
            Knows(a, Heard(inputs)) && Counts(a, Heard(inputs))
    ensures |Heard(inputs)| == |inputs|
    ensures forall i :: 0 <= i < |inputs| ==> inputs[i] == Observed(Heard(inputs)[i])
    ensures forall i :: 0 <= i < |inputs| ==> MayContinue(Heard(inputs)[..i], Heard(inputs)[i])
    decreases |inputs|
  {
    hide Knows, Counts, MayContinue, Batch, Verdict;
    if inputs == [] {
      NothingHeard();
    } else {
      var front, last := inputs[..|inputs| - 1], inputs[|inputs| - 1];
      OpenStreamsKnow(model, front);
      BatchIsVerdict(model, Drive(model, front).automaton, Heard(front), last);
      assert Heard(inputs) == Heard(front) + [last.event];
      forall i | 0 <= i < |inputs|
        ensures inputs[i] == Observed(Heard(inputs)[i])
                && MayContinue(Heard(inputs)[..i], Heard(inputs)[i])
      {
        if i < |front| {
          assert inputs[i] == front[i] && Heard(inputs)[..i] == Heard(front)[..i];
        } else {
          assert Heard(inputs)[..i] == Heard(front);
        }
      }
    }
  }

  /** The verdict on every read of an open stream is what the adapter emits, and the stream goes on
      exactly behind an observation that may continue it. */
  lemma ReadsAreJudged(model: string, front: seq<Read>, read: Read)
    requires !Drive(model, front).over
    ensures Drive(model, front + [read]).emitted
            == Drive(model, front).emitted + Verdict(model, Heard(front), read)
    ensures Drive(model, front + [read]).over
            <==> !(read.Observed? && MayContinue(Heard(front), read.event))
  {
    hide Batch, Verdict, Knows, Counts, MayContinue, IsProgress;
    OpenStreamsKnow(model, front);
    BatchIsVerdict(model, Drive(model, front).automaton, Heard(front), read);
    assert (front + [read])[..|front|] == front;
  }

  /** A stream of observations each in order behind the ones before it, and a completion that repeats
      the whole. */
  predicate Conforming(model: string, inputs: seq<Read>) {
    && inputs != []
    && (forall i :: 0 <= i < |inputs| ==> inputs[i].Observed?)
    && var heard := Heard(inputs);
       && |heard| == |inputs|
       && (forall i :: 0 <= i < |heard| - 1 ==> MayContinue(heard[..i], heard[i]))
       && MayComplete(model, heard[..|heard| - 1], heard[|heard| - 1])
  }

  predicate SucceedsAtLast(model: string, inputs: seq<Read>) {
    && inputs != [] && !Drive(model, inputs[..|inputs| - 1]).over
    && var emitted := Drive(model, inputs).emitted;
       emitted != [] && emitted[|emitted| - 1].Completed?
  }

  lemma {:induction false} ConformingStaysOpen(model: string, inputs: seq<Read>)
    requires forall i :: 0 <= i < |inputs| ==> inputs[i].Observed?
    requires |Heard(inputs)| == |inputs|
    requires forall i :: 0 <= i < |inputs| ==> MayContinue(Heard(inputs)[..i], Heard(inputs)[i])
    ensures !Drive(model, inputs).over
    decreases |inputs|
  {
    hide MayContinue, Verdict, Batch, IsProgress;
    if inputs != [] {
      var front, last := inputs[..|inputs| - 1], inputs[|inputs| - 1];
      assert Heard(inputs) == Heard(front) + [last.event];
      forall i | 0 <= i < |front| ensures MayContinue(Heard(front)[..i], Heard(front)[i]) {
        assert Heard(inputs)[..i] == Heard(front)[..i] && Heard(inputs)[i] == Heard(front)[i];
      }
      ConformingStaysOpen(model, front);
      ReadsAreJudged(model, front, last);
      assert Heard(inputs)[..|front|] == Heard(front);
      assert front + [last] == inputs;
    }
  }

  lemma CompletesAlone(model: string, heard: seq<Value>, read: Read)
    ensures var verdict := Verdict(model, heard, read);
            && verdict != [] ==>
              (verdict[|verdict| - 1].Completed?
               <==> read.Observed? && !MayContinue(heard, read.event)
                    && MayComplete(model, heard, read.event))
  {
    hide MayContinue, MayComplete;
    if read.Observed? {
      OneEnding(heard, read.event);
      UsageIsShort(read.event);
      TellsNoEnd(read.event);
    }
    hide EndingOf, UsageOf, TellsOf;
  }

  lemma TellsNoEnd(event: Value)
    ensures forall i :: 0 <= i < |TellsOf(event)| ==> !TellsOf(event)[i].Completed?
  {
    hide EventKind;
  }

  lemma CompletionEnds(model: string, heard: seq<Value>, event: Value)
    requires MayComplete(model, heard, event)
    ensures !MayContinue(heard, event)
  {
    hide EventKind;
  }

  lemma SomethingCame(before: seq<P.ProviderEvent>, verdict: seq<P.ProviderEvent>)
    requires NoEnding(before) && before + verdict != []
    requires (before + verdict)[|before + verdict| - 1].Completed?
    ensures verdict != []
  {
    var now := before + verdict;
    assert forall i :: 0 <= i < |before| ==> !now[i].EndsStream();
    assert |now| - 1 >= |before|;
  }

  lemma SuccessConforms(model: string, inputs: seq<Read>)
    requires SucceedsAtLast(model, inputs)
    ensures Conforming(model, inputs)
    ensures Drive(model, inputs).emitted
            == Drive(model, inputs[..|inputs| - 1]).emitted
               + UsageOf(inputs[|inputs| - 1].event) + [P.Completed]
  {
    hide MayContinue, MayComplete, Verdict, Drive, IsProgress, UsageOf, Knows, Counts;
    var front, last := inputs[..|inputs| - 1], inputs[|inputs| - 1];
    assert front + [last] == inputs;
    ReadsAreJudged(model, front, last);
    OpenStreamsKnow(model, front);
    OpenHasNoEnd(model, front);
    var before, verdict := Drive(model, front).emitted, Verdict(model, Heard(front), last);
    SomethingCame(before, verdict);
    assert (before + verdict)[|before + verdict| - 1] == verdict[|verdict| - 1];
    CompletesAlone(model, Heard(front), last);
    VerdictIsCompletion(model, Heard(front), last);
    assert before + (UsageOf(last.event) + [P.Completed])
        == before + UsageOf(last.event) + [P.Completed];
    var heard := Heard(inputs);
    assert heard == Heard(front) + [last.event];
    assert heard[..|front|] == Heard(front);
    forall i | 0 <= i < |front| ensures MayContinue(heard[..i], heard[i]) {
      assert heard[..i] == Heard(front)[..i] && heard[i] == Heard(front)[i];
    }
  }

  lemma ConformingSucceeds(model: string, inputs: seq<Read>)
    requires Conforming(model, inputs)
    ensures SucceedsAtLast(model, inputs)
  {
    hide MayContinue, MayComplete, Verdict, Drive, IsProgress, UsageOf, Knows, Counts;
    var front, last := inputs[..|inputs| - 1], inputs[|inputs| - 1];
    assert front + [last] == inputs;
    var heard := Heard(inputs);
    assert heard == Heard(front) + [last.event];
    assert heard[..|heard| - 1] == Heard(front);
    forall i | 0 <= i < |front| ensures MayContinue(Heard(front)[..i], Heard(front)[i]) {
      assert heard[..i] == Heard(front)[..i] && heard[i] == Heard(front)[i];
    }
    ConformingStaysOpen(model, front);
    CompletionEnds(model, Heard(front), last.event);
    ReadsAreJudged(model, front, last);
    VerdictIsCompletion(model, Heard(front), last);
  }

  /** Success comes to exactly the streams that conform, with the usage the completion carries. */
  lemma StreamsSucceedExactly(model: string, inputs: seq<Read>)
    ensures SucceedsAtLast(model, inputs) <==> Conforming(model, inputs)
    ensures SucceedsAtLast(model, inputs) ==>
              Drive(model, inputs).emitted
              == Drive(model, inputs[..|inputs| - 1]).emitted
                 + UsageOf(inputs[|inputs| - 1].event) + [P.Completed]
  {
    hide SucceedsAtLast, Conforming;
    if SucceedsAtLast(model, inputs) { SuccessConforms(model, inputs); }
    if Conforming(model, inputs) { ConformingSucceeds(model, inputs); }
    SuccessIsObserved(model, inputs);
  }

  lemma SuccessIsObserved(model: string, inputs: seq<Read>)
    ensures SucceedsAtLast(model, inputs) ==> inputs != []
    ensures Conforming(model, inputs) ==> inputs != [] && inputs[|inputs| - 1].Observed?
  {}

  lemma OpenHasNoEnd(model: string, inputs: seq<Read>)
    requires !Drive(model, inputs).over
    ensures NoEnding(Drive(model, inputs).emitted)
  {
    EmittedTurnIsGrammatical(model, inputs);
  }

  lemma VerdictIsCompletion(model: string, heard: seq<Value>, read: Read)
    ensures read.Observed? && !MayContinue(heard, read.event) && MayComplete(model, heard, read.event)
            ==> Verdict(model, heard, read) == UsageOf(read.event) + [P.Completed]
  {
    hide MayContinue, MayComplete, UsageOf;
  }

  /** The failure endings, each with its code and message: a reported failure of this response by its
      error code, an incomplete response, an error event, a broken read; every other read that neither
      continues nor completes the stream is an invalid response. */
  lemma FailuresSayWhy(model: string, front: seq<Read>, read: Read)
    requires !Drive(model, front).over
    ensures var heard, before, now := Heard(front), Drive(model, front).emitted,
                                      Drive(model, front + [read]).emitted;
            && (read.Broke? ==> now == before + [BreakOf(read.code)])
            && (read.Observed? ==>
                  var event := read.event;
                  var response := Part(event, "response");
                  var kind, error := Name(event, "type"), Part(response, "error");
                  && (kind == Some("error") && InSequence(heard, event) ==>
                        now == before + [P.Failed(P.Unknown, "OpenAI request failed.")])
                  && (kind == Some("response.incomplete") && EndsResponse(heard, event, "incomplete") ==>
                        now == before + [P.Failed(P.RequestRejected, "OpenAI rejected the request.")])
                  && (kind == Some("response.failed") && EndsResponse(heard, event, "failed") ==>
                        && (Has(error, "code", Str("server_error")) ==>
                              now == before + [P.Failed(P.Unavailable,
                                "OpenAI is temporarily unavailable. Try again later.")])
                        && (Has(error, "code", Str("rate_limit_exceeded")) ==>
                              now == before + [P.Failed(P.RateLimited,
                                "OpenAI rate limit was reached. Try again later.")])))
  {
    hide Verdict, MayContinue, MayComplete, Batch, EndsResponse, InSequence;
    ReadsAreJudged(model, front, read);
    if read.Observed? {
      EndingVerdicts(model, Heard(front), read.event);
    } else {
      BrokenVerdict(model, Heard(front), read.code);
    }
  }

  lemma BrokenVerdict(model: string, heard: seq<Value>, code: P.FailureCode)
    ensures Verdict(model, heard, Broke(code)) == [BreakOf(code)]
  {}

  lemma EndingVerdicts(model: string, heard: seq<Value>, event: Value)
    ensures var response := Part(event, "response");
            var kind, error := Name(event, "type"), Part(response, "error");
            var verdict := Verdict(model, heard, Observed(event));
            && (kind == Some("error") && InSequence(heard, event) ==>
                  verdict == [P.Failed(P.Unknown, "OpenAI request failed.")])
            && (kind == Some("response.incomplete") && EndsResponse(heard, event, "incomplete") ==>
                  verdict == [P.Failed(P.RequestRejected, "OpenAI rejected the request.")])
            && (kind == Some("response.failed") && EndsResponse(heard, event, "failed") ==>
                  && (Has(error, "code", Str("server_error")) ==>
                        verdict == [P.Failed(P.Unavailable,
                          "OpenAI is temporarily unavailable. Try again later.")])
                  && (Has(error, "code", Str("rate_limit_exceeded")) ==>
                        verdict == [P.Failed(P.RateLimited,
                          "OpenAI rate limit was reached. Try again later.")]))
  {
    hide MayContinue, MayComplete, EndsResponse, InSequence, EventKind;
    if Name(event, "type").Some? { NamedKinds(event); }
    if EventKind(event).StreamError? || EventKind(event).ResponseFailed?
       || EventKind(event).ResponseIncomplete? {
      EndsNothing(model, heard, event);
    }
  }

  /** A completion that carries these counts. */
  predicate CompletesWith(read: Read, input: nat, output: nat) {
    && read.Observed? && EventKind(read.event).ResponseCompleted?
    && var usage := Part(Part(read.event, "response"), "usage");
       Count(usage, "input_tokens") == Some(input) && Count(usage, "output_tokens") == Some(output)
  }

  predicate CompletionRead(inputs: seq<Read>, input: nat, output: nat) {
    exists i :: 0 <= i < |inputs| && CompletesWith(inputs[i], input, output)
  }

  /** Usage values are the counts of a completion, input as input and output as output. */
  lemma {:induction false} UsageSource(model: string, inputs: seq<Read>, input: nat, output: nat)
    requires P.UsageReported(input, output) in Drive(model, inputs).emitted
    ensures CompletionRead(inputs, input, output)
    decreases |inputs|
  {
    hide Batch, Verdict, MayContinue, MayComplete, CompletesWith;
    var front, last := inputs[..|inputs| - 1], inputs[|inputs| - 1];
    assert front + [last] == inputs;
    if P.UsageReported(input, output) in Drive(model, front).emitted {
      UsageSource(model, front, input, output);
      var i :| 0 <= i < |front| && CompletesWith(front[i], input, output);
      assert inputs[i] == front[i];
    } else {
      ReadsAreJudged(model, front, last);
      VerdictUsage(model, Heard(front), last, input, output);
      assert inputs[|inputs| - 1] == last;
    }
  }

  lemma VerdictUsage(model: string, heard: seq<Value>, read: Read, input: nat, output: nat)
    requires P.UsageReported(input, output) in Verdict(model, heard, read)
    ensures CompletesWith(read, input, output)
  {
    hide MayContinue, MayComplete, EndingOf, TellsOf, UsageOf;
    if read.Observed? {
      OneEnding(heard, read.event);
      TellsNoUsage(read.event);
      CompletesOnly(model, heard, read.event);
      UsageIs(read.event, input, output);
    }
  }

  lemma TellsNoUsage(event: Value)
    ensures forall i :: 0 <= i < |TellsOf(event)| ==> !TellsOf(event)[i].UsageReported?
  {
    hide EventKind;
  }

  lemma UsageIs(event: Value, input: nat, output: nat)
    ensures P.UsageReported(input, output) in UsageOf(event) + [P.Completed] ==>
              var usage := Part(Part(event, "response"), "usage");
              Count(usage, "input_tokens") == Some(input) && Count(usage, "output_tokens") == Some(output)
  {
    hide Count, Part;
  }

  /** A read of an open stream whose verdict is this one failure. */
  predicate FailsWith(model: string, inputs: seq<Read>, i: nat, failure: P.ProviderEvent)
    requires i < |inputs|
  {
    !Drive(model, inputs[..i]).over && Verdict(model, Heard(inputs[..i]), inputs[i]) == [failure]
  }

  predicate FailureRead(model: string, inputs: seq<Read>, failure: P.ProviderEvent) {
    exists i :: 0 <= i < |inputs| && FailsWith(model, inputs, i, failure)
  }

  /** A failure is the verdict on one of the reads. */
  lemma {:induction false} FailureSource(model: string, inputs: seq<Read>, failure: P.ProviderEvent)
    requires failure.Failed? && failure in Drive(model, inputs).emitted
    ensures FailureRead(model, inputs, failure)
    decreases |inputs|
  {
    hide Batch, Verdict, MayContinue, MayComplete;
    var front, last := inputs[..|inputs| - 1], inputs[|inputs| - 1];
    assert front + [last] == inputs;
    if failure in Drive(model, front).emitted {
      FailureSource(model, front, failure);
      var i :| 0 <= i < |front| && FailsWith(model, front, i, failure);
      assert inputs[i] == front[i] && inputs[..i] == front[..i];
      assert FailsWith(model, inputs, i, failure);
    } else {
      ReadsAreJudged(model, front, last);
      VerdictFails(model, Heard(front), last, failure);
      assert FailsWith(model, inputs, |front|, failure);
    }
  }

  lemma VerdictFails(model: string, heard: seq<Value>, read: Read, failure: P.ProviderEvent)
    requires failure.Failed? && failure in Verdict(model, heard, read)
    ensures Verdict(model, heard, read) == [failure]
  {
    hide MayContinue, MayComplete, InSequence, Count, EventKind, EndingOf;
  }
}
