/** The strict stream automaton of the OpenAI adapter: `_ResponsesAutomaton` and the field checks of
    `openai_responses.py`. */
module ResponsesAutomaton {
  import opened Prelude
  import P = ProviderEvents

  const OPENAI_MAX_OUTPUT_TOKENS := 8192
  const MAX_SAFE_INTEGER := 9_007_199_254_740_991

  /** An untrusted SDK value.  `Opaque` is anything else: booleans, floats, strings with no UTF-8
      form, foreign objects without fields. */
  datatype Value =
    | Null
    | Str(text: string)
    | Int(number: int)
    | List(items: seq<Value>)
    | Obj(fields: map<string, Value>)
    | Opaque

  /** A checked value, or `InvalidSDKObservation`. */
  datatype Checked<+T> = Ok(value: T) | Invalid
  {
    predicate IsFailure() { Invalid? }

    function PropagateFailure<U>(): Checked<U>
      requires Invalid?
    {
      Invalid
    }

    function Extract(): T
      requires Ok?
    {
      value
    }
  }

  // ----- Field checks -----

  function Field(v: Value, name: string): Checked<Value> {
    if v.Obj? && name in v.fields then Ok(v.fields[name]) else Invalid
  }

  function OptionalField(v: Value, name: string): Value {
    if v.Obj? && name in v.fields then v.fields[name] else Null
  }

  function Require(condition: bool): Checked<()> { if condition then Ok(()) else Invalid }

  function RequiredText(v: Value): Checked<string> { if v.Str? then Ok(v.text) else Invalid }

  function RequiredString(v: Value): Checked<string> {
    if v.Str? && v.text != "" then Ok(v.text) else Invalid
  }

  function SafeInteger(v: Value): Checked<nat> {
    if v.Int? && 0 <= v.number <= MAX_SAFE_INTEGER then Ok(v.number) else Invalid
  }

  function RequiredList(v: Value): Checked<seq<Value>> { if v.List? then Ok(v.items) else Invalid }

  function RequireEmptyList(v: Value): Checked<()> {
    var items :- RequiredList(v);
    Require(items == [])
  }

  function RequireAbsentOrEmptyList(v: Value): Checked<()> {
    if v.Null? then Ok(()) else RequireEmptyList(v)
  }

  function RequireIndex(v: Value, name: string, expected: int): Checked<()> {
    var field :- Field(v, name);
    var index :- SafeInteger(field);
    Require(index == expected)
  }

  /** No C0 or C1 control other than TAB and LF. */
  predicate TerminalSafe(text: string) {
    forall c :: c in text ==>
      !((c as int < 32 && c != '\t' && c != '\n') || 127 <= c as int <= 159)
  }

  function TerminalSafeText(v: Value, allowEmpty: bool): Checked<string> {
    if v.Str? && (allowEmpty || v.text != "") && TerminalSafe(v.text) then Ok(v.text) else Invalid
  }

  function ValidateOutputText(v: Value, expected: string): Checked<()> {
    var kind :- Field(v, "type");
    var _ :- Require(kind == Str("output_text"));
    var field :- Field(v, "text");
    var text :- RequiredText(field);
    var _ :- Require(text == expected);
    var annotations :- Field(v, "annotations");
    RequireEmptyList(annotations)
  }

  function ItemStatus(completed: bool): Value {
    Str(if completed then "completed" else "in_progress")
  }

  function ValidateMessage(v: Value, contentCount: nat, completed: bool): (r: Checked<string>)
    ensures r.Ok? ==> Field(v, "content").Ok? && Field(v, "content").value.List?
                      && |Field(v, "content").value.items| == contentCount
  {
    var kind :- Field(v, "type");
    var role :- Field(v, "role");
    var _ :- Require(kind == Str("message") && role == Str("assistant"));
    var id :- Field(v, "id");
    var itemId :- RequiredString(id);
    var content :- Field(v, "content");
    var parts :- RequiredList(content);
    var _ :- Require(|parts| == contentCount);
    var status :- Field(v, "status");
    var _ :- Require(status == ItemStatus(completed));
    Ok(itemId)
  }

  /** A completed message whose single part repeats the accumulated text. */
  function ValidateFinalMessage(v: Value, expected: string): Checked<string> {
    var itemId :- ValidateMessage(v, 1, true);
    var _ :- ValidateOutputText(Field(v, "content").value.items[0], expected);
    Ok(itemId)
  }

  function ValidateReasoningItem(v: Value, completed: bool): Checked<string> {
    var kind :- Field(v, "type");
    var _ :- Require(kind == Str("reasoning"));
    var id :- Field(v, "id");
    var itemId :- RequiredString(id);
    var summary :- Field(v, "summary");
    var _ :- RequireEmptyList(summary);
    var _ :- RequireAbsentOrEmptyList(OptionalField(v, "content"));
    var status := OptionalField(v, "status");
    var _ :- Require(status.Null? || status == ItemStatus(completed));
    Ok(itemId)
  }

  function ValidateReasoningConfiguration(v: Value): Checked<()> {
    var effort :- Field(v, "effort");
    var context :- Field(v, "context");
    var mode := OptionalField(v, "mode");
    Require(
      && effort == Str("none")
      && context == Str("current_turn")
      && OptionalField(v, "summary").Null?
      && OptionalField(v, "generate_summary").Null?
      && (mode.Null? || mode == Str("standard")))
  }

  // ----- The automaton -----

  datatype Stage =
    | Created
    | QueuedOrInProgress
    | InProgress
    | OutputItemAdded
    | ReasoningItemDone
    | MessageItemAdded
    | ContentPartAdded
    | Delta
    | DeltaOrDone
    | ContentPartDone
    | OutputItemDone
    | AwaitCompleted
    | Terminal

  datatype Automaton = Automaton(
    stage: Stage,
    nextSequence: Option<int>,
    responseId: Option<string>,
    reasoningItemId: Option<string>,
    itemId: Option<string>,
    messageOutputIndex: int,
    textFragments: seq<string>)
  {
    function Text(): string { Join(textFragments) }

    /** The message index names an item that a complete response has. */
    predicate Coherent() {
      messageOutputIndex == 0 || (messageOutputIndex == 1 && reasoningItemId.Some?)
    }
  }

  const FRESH := Automaton(Created, None, None, None, None, 0, [])

  /** The automaton after one observation, and what it maps to. */
  datatype Outcome = Outcome(after: Automaton, mapped: Checked<seq<P.ProviderEvent>>)

  function FailureMessage(code: P.FailureCode): string {
    match code
    case AuthenticationFailed => "OpenAI authentication failed. Check OPENAI_API_KEY."
    case RateLimited => "OpenAI rate limit was reached. Try again later."
    case Unavailable => "OpenAI is temporarily unavailable. Try again later."
    case RequestRejected => "OpenAI rejected the request."
    case InvalidResponse => "OpenAI returned an invalid response."
    case Unknown => "OpenAI request failed."
  }

  function Failure(code: P.FailureCode): P.ProviderEvent { P.Failed(code, FailureMessage(code)) }

  function Refuse(a: Automaton): Outcome { Outcome(a, Invalid) }

  /** Applies a transition that mutates nothing before its last check. */
  function Settle(a: Automaton, checked: Checked<(Automaton, seq<P.ProviderEvent>)>): Outcome {
    match checked
    case Ok(pair) => Outcome(pair.0, Ok(pair.1))
    case Invalid => Refuse(a)
  }

  function AcceptSequence(a: Automaton, v: Value): Checked<Automaton> {
    var sequence :- SafeInteger(v);
    var _ :- Require(a.nextSequence.None? || sequence == a.nextSequence.value);
    Ok(a.(nextSequence := Some(sequence + 1)))
  }

  function RequireResponseIdentity(a: Automaton, response: Value): Checked<()> {
    var field :- Field(response, "id");
    var id :- RequiredString(field);
    Require(Some(id) == a.responseId)
  }

  function RequireItemCoordinates(a: Automaton, event: Value): Checked<()> {
    var field :- Field(event, "item_id");
    var id :- RequiredString(field);
    var _ :- Require(Some(id) == a.itemId);
    var _ :- RequireIndex(event, "output_index", a.messageOutputIndex);
    RequireIndex(event, "content_index", 0)
  }

  function OnCreated(a: Automaton, event: Value): Checked<(Automaton, seq<P.ProviderEvent>)> {
    var _ :- Require(a.stage.Created?);
    var response :- Field(event, "response");
    var field :- Field(response, "id");
    var id :- RequiredString(field);
    Ok((a.(responseId := Some(id), stage := QueuedOrInProgress), []))
  }

  function OnQueued(a: Automaton, event: Value): Checked<(Automaton, seq<P.ProviderEvent>)> {
    var _ :- Require(a.stage.QueuedOrInProgress?);
    var response :- Field(event, "response");
    var _ :- RequireResponseIdentity(a, response);
    Ok((a.(stage := InProgress), []))
  }

  function OnInProgress(a: Automaton, event: Value): Checked<(Automaton, seq<P.ProviderEvent>)> {
    var _ :- Require(a.stage.QueuedOrInProgress? || a.stage.InProgress?);
    var response :- Field(event, "response");
    var _ :- RequireResponseIdentity(a, response);
    Ok((a.(stage := OutputItemAdded), []))
  }

  function OnItemAdded(a: Automaton, event: Value): Outcome {
    if !(a.stage.OutputItemAdded? || a.stage.MessageItemAdded?) then Refuse(a)
    else
      match Field(event, "item")
      case Invalid => Refuse(a)
      case Ok(item) =>
        if a.stage.OutputItemAdded? && OptionalField(item, "type") == Str("reasoning") then
          Settle(a, OnReasoningAdded(a, event, item))
        else
          var b := a.(messageOutputIndex := if a.reasoningItemId.Some? then 1 else 0);
          Settle(b, OnMessageAdded(b, event, item))
  }

  function OnReasoningAdded(a: Automaton, event: Value, item: Value)
    : Checked<(Automaton, seq<P.ProviderEvent>)>
  {
    var _ :- RequireIndex(event, "output_index", 0);
    var id :- ValidateReasoningItem(item, false);
    Ok((a.(reasoningItemId := Some(id), stage := ReasoningItemDone), []))
  }

  function OnMessageAdded(a: Automaton, event: Value, item: Value)
    : Checked<(Automaton, seq<P.ProviderEvent>)>
  {
    var _ :- RequireIndex(event, "output_index", a.messageOutputIndex);
    var id :- ValidateMessage(item, 0, false);
    Ok((a.(itemId := Some(id), stage := ContentPartAdded), []))
  }

  function OnPartAdded(a: Automaton, event: Value): Checked<(Automaton, seq<P.ProviderEvent>)> {
    var _ :- Require(a.stage.ContentPartAdded?);
    var _ :- RequireItemCoordinates(a, event);
    var part :- Field(event, "part");
    var _ :- ValidateOutputText(part, "");
    Ok((a.(stage := Delta), []))
  }

  function OnTextDelta(a: Automaton, event: Value): Checked<(Automaton, seq<P.ProviderEvent>)> {
    var _ :- Require(a.stage.Delta? || a.stage.DeltaOrDone?);
    var _ :- RequireItemCoordinates(a, event);
    var _ :- RequireAbsentOrEmptyList(OptionalField(event, "logprobs"));
    var field :- Field(event, "delta");
    var delta :- TerminalSafeText(field, false);
    Ok((a.(textFragments := a.textFragments + [delta], stage := DeltaOrDone), [P.TextDelta(delta)]))
  }

  function OnTextDone(a: Automaton, event: Value): Checked<(Automaton, seq<P.ProviderEvent>)> {
    var _ :- Require(a.stage.DeltaOrDone?);
    var _ :- RequireItemCoordinates(a, event);
    var _ :- RequireAbsentOrEmptyList(OptionalField(event, "logprobs"));
    var field :- Field(event, "text");
    var text :- TerminalSafeText(field, true);
    var _ :- Require(text == a.Text());
    Ok((a.(stage := ContentPartDone), [P.TextCompleted(text)]))
  }

  function OnPartDone(a: Automaton, event: Value): Checked<(Automaton, seq<P.ProviderEvent>)> {
    var _ :- Require(a.stage.ContentPartDone?);
    var _ :- RequireItemCoordinates(a, event);
    var part :- Field(event, "part");
    var _ :- ValidateOutputText(part, a.Text());
    Ok((a.(stage := OutputItemDone), []))
  }

  function OnItemDone(a: Automaton, event: Value): Checked<(Automaton, seq<P.ProviderEvent>)> {
    if a.stage.ReasoningItemDone? then
      var _ :- RequireIndex(event, "output_index", 0);
      var item :- Field(event, "item");
      var id :- ValidateReasoningItem(item, true);
      var _ :- Require(Some(id) == a.reasoningItemId);
      Ok((a.(stage := MessageItemAdded), []))
    else
      var _ :- Require(a.stage.OutputItemDone?);
      var _ :- RequireIndex(event, "output_index", a.messageOutputIndex);
      var item :- Field(event, "item");
      var id :- ValidateFinalMessage(item, a.Text());
      var _ :- Require(Some(id) == a.itemId);
      Ok((a.(stage := AwaitCompleted), []))
  }

  function ReportedUsage(usage: Value): Checked<seq<P.ProviderEvent>> {
    if usage.Null? then Ok([])
    else
      var inputField :- Field(usage, "input_tokens");
      var input :- SafeInteger(inputField);
      var outputField :- Field(usage, "output_tokens");
      var output :- SafeInteger(outputField);
      var totalField :- Field(usage, "total_tokens");
      var total :- SafeInteger(totalField);
      var _ :- Require(input + output == total && output <= OPENAI_MAX_OUTPUT_TOKENS);
      var details := OptionalField(usage, "output_tokens_details");
      var _ :-
        if details.Null? then Ok(())
        else
          var reasoningField :- Field(details, "reasoning_tokens");
          var reasoning :- SafeInteger(reasoningField);
          Require(reasoning <= output);
      Ok([P.UsageReported(input, output)])
  }

  function OnCompleted(model: string, a: Automaton, event: Value)
    : Checked<(Automaton, seq<P.ProviderEvent>)>
    requires a.Coherent()
  {
    var _ :- Require(a.stage.AwaitCompleted?);
    var response :- Field(event, "response");
    var _ :- RequireResponseIdentity(a, response);
    var status :- Field(response, "status");
    var _ :- Require(status == Str("completed"));
    var echoed :- Field(response, "model");
    var _ :- Require(echoed == Str(model));
    var _ :- Require(OptionalField(response, "error").Null?);
    var _ :- Require(OptionalField(response, "incomplete_details").Null?);
    var _ :- ValidateReasoningConfiguration(OptionalField(response, "reasoning"));
    var field :- Field(response, "output");
    var output :- RequiredList(field);
    var _ :- Require(|output| == if a.reasoningItemId.Some? then 2 else 1);
    var _ :-
      if a.reasoningItemId.None? then Ok(())
      else
        var reasoningId :- ValidateReasoningItem(output[0], true);
        Require(Some(reasoningId) == a.reasoningItemId);
    var id :- ValidateFinalMessage(output[a.messageOutputIndex], a.Text());
    var _ :- Require(Some(id) == a.itemId);
    var usage :- ReportedUsage(OptionalField(response, "usage"));
    Ok((a.(stage := Terminal), usage + [P.Completed]))
  }

  function CheckResponseTerminal(a: Automaton, event: Value, status: string): Checked<Value> {
    var _ :- Require(a.responseId.Some? && !a.stage.Created?);
    var response :- Field(event, "response");
    var _ :- RequireResponseIdentity(a, response);
    var actual :- Field(response, "status");
    var _ :- Require(actual == Str(status));
    Ok(response)
  }

  /** The failure a `response.failed` observation reports; a code that is neither absent nor a
      string is malformed. */
  function FailedCode(response: Value): Checked<P.FailureCode> {
    var error :- Field(response, "error");
    var code := OptionalField(error, "code");
    if code == Str("server_error") then Ok(P.Unavailable)
    else if code == Str("rate_limit_exceeded") then Ok(P.RateLimited)
    else if code.Null? || code.Str? then Ok(P.Unknown)
    else Invalid
  }

  function OnResponseTerminal(a: Automaton, event: Value, kind: string): Outcome {
    match CheckResponseTerminal(
            a, event, if kind == "response.failed" then "failed" else "incomplete")
    case Invalid => Refuse(a)
    case Ok(response) =>
      var over := a.(stage := Terminal);
      if kind == "response.incomplete" then Outcome(over, Ok([Failure(P.RequestRejected)]))
      else
        match FailedCode(response)
        case Invalid => Refuse(over)
        case Ok(code) => Outcome(over, Ok([Failure(code)]))
  }

  function Handle(model: string, a: Automaton, event: Value, kind: string): Outcome
    requires a.Coherent()
  {
    if kind == "response.created" then Settle(a, OnCreated(a, event))
    else if kind == "response.queued" then Settle(a, OnQueued(a, event))
    else if kind == "response.in_progress" then Settle(a, OnInProgress(a, event))
    else if kind == "response.output_item.added" then OnItemAdded(a, event)
    else if kind == "response.content_part.added" then Settle(a, OnPartAdded(a, event))
    else if kind == "response.output_text.delta" then Settle(a, OnTextDelta(a, event))
    else if kind == "response.output_text.done" then Settle(a, OnTextDone(a, event))
    else if kind == "response.content_part.done" then Settle(a, OnPartDone(a, event))
    else if kind == "response.output_item.done" then Settle(a, OnItemDone(a, event))
    else if kind == "response.completed" then Settle(a, OnCompleted(model, a, event))
    else Refuse(a)
  }

  function KindOf(event: Value): Checked<string> {
    var field :- Field(event, "type");
    RequiredString(field)
  }

  /** `accept`: one SDK observation. */
  function Accept(model: string, a: Automaton, event: Value): Outcome
    requires a.Coherent()
  {
    match KindOf(event)
    case Invalid => Refuse(a)
    case Ok(kind) =>
      match Field(event, "sequence_number")
      case Invalid => Refuse(a)
      case Ok(number) =>
        match AcceptSequence(a, number)
        case Invalid => Refuse(a)
        case Ok(b) =>
          if kind == "error" then Outcome(b.(stage := Terminal), Ok([Failure(P.Unknown)]))
          else if b.stage.Terminal? then Refuse(b)
          else if kind == "response.failed" || kind == "response.incomplete" then
            OnResponseTerminal(b, event, kind)
          else Handle(model, b, event, kind)
  }

  /** `_ResponsesAutomaton`: the fields advance in place. */
  class StreamAutomaton {
    const model: string
    var stage: Stage
    var nextSequence: Option<int>
    var responseId: Option<string>
    var reasoningItemId: Option<string>
    var itemId: Option<string>
    var messageOutputIndex: int
    var textFragments: seq<string>

    function View(): Automaton
      reads this
    {
      Automaton(stage, nextSequence, responseId, reasoningItemId, itemId, messageOutputIndex,
                textFragments)
    }

    constructor (model: string)
      ensures this.model == model && View() == FRESH
    {
      this.model := model;
      stage, nextSequence, responseId := Created, None, None;
      reasoningItemId, itemId, messageOutputIndex, textFragments := None, None, 0, [];
    }

    method AcceptEvent(event: Value) returns (r: Checked<seq<P.ProviderEvent>>)
      requires View().Coherent()
      modifies this
      ensures Outcome(View(), r) == Accept(model, old(View()), event)
    {
      hide OnResponseTerminal, Handle;
      var kind :- KindOf(event);
      var number :- Field(event, "sequence_number");
      var sequence :- SafeInteger(number);
      if nextSequence.Some? && sequence != nextSequence.value { return Invalid; }
      nextSequence := Some(sequence + 1);
      if kind == "error" {
        stage := Terminal;
        return Ok([Failure(P.Unknown)]);
      }
      if stage.Terminal? { return Invalid; }
      if kind == "response.failed" || kind == "response.incomplete" {
        r := AcceptResponseTerminal(event, kind);
      } else {
        r := HandleEvent(event, kind);
      }
    }

    method AcceptResponseTerminal(event: Value, kind: string)
      returns (r: Checked<seq<P.ProviderEvent>>)
      modifies this
      ensures Outcome(View(), r) == OnResponseTerminal(old(View()), event, kind)
    {
      hide CheckResponseTerminal, FailedCode;
      var response :-
        CheckResponseTerminal(View(), event, if kind == "response.failed" then "failed" else "incomplete");
      stage := Terminal;
      if kind == "response.incomplete" { return Ok([Failure(P.RequestRejected)]); }
      var code :- FailedCode(response);
      r := Ok([Failure(code)]);
    }

    method HandleEvent(event: Value, kind: string) returns (r: Checked<seq<P.ProviderEvent>>)
      requires View().Coherent()
      modifies this
      ensures Outcome(View(), r) == Handle(model, old(View()), event, kind)
    {
      hide OnCreated, OnQueued, OnInProgress, OnItemAdded, OnPartAdded, OnPartDone;
      hide OnItemDone, OnTextDelta, OnTextDone, OnCompleted;
      if kind == "response.created" { r := ResponseCreated(event); }
      else if kind == "response.queued" { r := ResponseQueued(event); }
      else if kind == "response.in_progress" { r := ResponseInProgress(event); }
      else if kind == "response.output_item.added" { r := ItemAdded(event); }
      else if kind == "response.content_part.added" { r := PartAdded(event); }
      else if kind == "response.output_text.delta" { r := TextDelta(event); }
      else if kind == "response.output_text.done" { r := TextDone(event); }
      else if kind == "response.content_part.done" { r := PartDone(event); }
      else if kind == "response.output_item.done" { r := ItemDone(event); }
      else if kind == "response.completed" { r := ResponseCompleted(event); }
      else { r := Invalid; }
    }

    method ResponseCreated(event: Value) returns (r: Checked<seq<P.ProviderEvent>>)
      modifies this
      ensures Outcome(View(), r) == Settle(old(View()), OnCreated(old(View()), event))
    {
      if !stage.Created? { return Invalid; }
      var response :- Field(event, "response");
      var field :- Field(response, "id");
      var id :- RequiredString(field);
      responseId := Some(id);
      stage := QueuedOrInProgress;
      r := Ok([]);
    }

    method ResponseQueued(event: Value) returns (r: Checked<seq<P.ProviderEvent>>)
      modifies this
      ensures Outcome(View(), r) == Settle(old(View()), OnQueued(old(View()), event))
    {
      if !stage.QueuedOrInProgress? { return Invalid; }
      var response :- Field(event, "response");
      var _ :- RequireResponseIdentity(View(), response);
      stage := InProgress;
      r := Ok([]);
    }

    method ResponseInProgress(event: Value) returns (r: Checked<seq<P.ProviderEvent>>)
      modifies this
      ensures Outcome(View(), r) == Settle(old(View()), OnInProgress(old(View()), event))
    {
      if !stage.QueuedOrInProgress? && !stage.InProgress? { return Invalid; }
      var response :- Field(event, "response");
      var _ :- RequireResponseIdentity(View(), response);
      stage := OutputItemAdded;
      r := Ok([]);
    }

    method ItemAdded(event: Value) returns (r: Checked<seq<P.ProviderEvent>>)
      modifies this
      ensures Outcome(View(), r) == OnItemAdded(old(View()), event)
    {
      hide ValidateReasoningItem, ValidateMessage, RequireIndex;
      if !stage.OutputItemAdded? && !stage.MessageItemAdded? { return Invalid; }
      var item :- Field(event, "item");
      if stage.OutputItemAdded? && OptionalField(item, "type") == Str("reasoning") {
        var _ :- RequireIndex(event, "output_index", 0);
        var reasoningId :- ValidateReasoningItem(item, false);
        reasoningItemId := Some(reasoningId);
        stage := ReasoningItemDone;
        return Ok([]);
      }
      messageOutputIndex := if reasoningItemId.Some? then 1 else 0;
      var _ :- RequireIndex(event, "output_index", messageOutputIndex);
      var id :- ValidateMessage(item, 0, false);
      itemId := Some(id);
      stage := ContentPartAdded;
      r := Ok([]);
    }

    method PartAdded(event: Value) returns (r: Checked<seq<P.ProviderEvent>>)
      modifies this
      ensures Outcome(View(), r) == Settle(old(View()), OnPartAdded(old(View()), event))
    {
      hide RequireItemCoordinates, ValidateOutputText;
      if !stage.ContentPartAdded? { return Invalid; }
      var _ :- RequireItemCoordinates(View(), event);
      var part :- Field(event, "part");
      var _ :- ValidateOutputText(part, "");
      stage := Delta;
      r := Ok([]);
    }

    method TextDelta(event: Value) returns (r: Checked<seq<P.ProviderEvent>>)
      modifies this
      ensures Outcome(View(), r) == Settle(old(View()), OnTextDelta(old(View()), event))
    {
      hide RequireItemCoordinates, RequireAbsentOrEmptyList, TerminalSafeText;
      if !stage.Delta? && !stage.DeltaOrDone? { return Invalid; }
      var _ :- RequireItemCoordinates(View(), event);
      var _ :- RequireAbsentOrEmptyList(OptionalField(event, "logprobs"));
      var field :- Field(event, "delta");
      var delta :- TerminalSafeText(field, false);
      textFragments := textFragments + [delta];
      stage := DeltaOrDone;
      r := Ok([P.TextDelta(delta)]);
    }

    method TextDone(event: Value) returns (r: Checked<seq<P.ProviderEvent>>)
      modifies this
      ensures Outcome(View(), r) == Settle(old(View()), OnTextDone(old(View()), event))
    {
      hide RequireItemCoordinates, RequireAbsentOrEmptyList, TerminalSafeText;
      if !stage.DeltaOrDone? { return Invalid; }
      var _ :- RequireItemCoordinates(View(), event);
      var _ :- RequireAbsentOrEmptyList(OptionalField(event, "logprobs"));
      var field :- Field(event, "text");
      var text :- TerminalSafeText(field, true);
      if text != View().Text() { return Invalid; }
      stage := ContentPartDone;
      r := Ok([P.TextCompleted(text)]);
    }

    method PartDone(event: Value) returns (r: Checked<seq<P.ProviderEvent>>)
      modifies this
      ensures Outcome(View(), r) == Settle(old(View()), OnPartDone(old(View()), event))
    {
      hide RequireItemCoordinates, ValidateOutputText;
      if !stage.ContentPartDone? { return Invalid; }
      var _ :- RequireItemCoordinates(View(), event);
      var part :- Field(event, "part");
      var _ :- ValidateOutputText(part, View().Text());
      stage := OutputItemDone;
      r := Ok([]);
    }

    method ItemDone(event: Value) returns (r: Checked<seq<P.ProviderEvent>>)
      modifies this
      ensures Outcome(View(), r) == Settle(old(View()), OnItemDone(old(View()), event))
    {
      hide ValidateReasoningItem, ValidateFinalMessage, RequireIndex;
      if stage.ReasoningItemDone? {
        var _ :- RequireIndex(event, "output_index", 0);
        var reasoning :- Field(event, "item");
        var reasoningId :- ValidateReasoningItem(reasoning, true);
        if Some(reasoningId) != reasoningItemId { return Invalid; }
        stage := MessageItemAdded;
        return Ok([]);
      }
      if !stage.OutputItemDone? { return Invalid; }
      var _ :- RequireIndex(event, "output_index", messageOutputIndex);
      var item :- Field(event, "item");
      var id :- ValidateFinalMessage(item, View().Text());
      if Some(id) != itemId { return Invalid; }
      stage := AwaitCompleted;
      r := Ok([]);
    }

    method ResponseCompleted(event: Value) returns (r: Checked<seq<P.ProviderEvent>>)
      requires View().Coherent()
      modifies this
      ensures Outcome(View(), r) == Settle(old(View()), OnCompleted(model, old(View()), event))
    {
      hide ValidateReasoningItem, ValidateFinalMessage, RequireResponseIdentity, ReportedUsage;
      hide ValidateReasoningConfiguration;
      if !stage.AwaitCompleted? { return Invalid; }
      var response :- Field(event, "response");
      var _ :- RequireResponseIdentity(View(), response);
      var status :- Field(response, "status");
      if status != Str("completed") { return Invalid; }
      var echoed :- Field(response, "model");
      if echoed != Str(model) { return Invalid; }
      if !OptionalField(response, "error").Null? { return Invalid; }
      if !OptionalField(response, "incomplete_details").Null? { return Invalid; }
      var _ :- ValidateReasoningConfiguration(OptionalField(response, "reasoning"));
      var field :- Field(response, "output");
      var output :- RequiredList(field);
      if |output| != (if reasoningItemId.Some? then 2 else 1) { return Invalid; }
      if reasoningItemId.Some? {
        var reasoningId :- ValidateReasoningItem(output[0], true);
        if Some(reasoningId) != reasoningItemId { return Invalid; }
      }
      var id :- ValidateFinalMessage(output[messageOutputIndex], View().Text());
      if Some(id) != itemId { return Invalid; }
      var usage :- ReportedUsage(OptionalField(response, "usage"));
      stage := Terminal;
      r := Ok(usage + [P.Completed]);
    }
  }
}
