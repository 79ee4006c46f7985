/** What the adapter must make of each SDK observation, read off the stream so far: the compatibility
    contract behind `openai_responses.py`, without its automaton. */
module StreamRules {
  import opened Prelude
  import opened ResponsesAutomaton
  import opened AutomatonRuns
  import P = ProviderEvents

  // ----- Fields -----

  predicate Has(v: Value, name: string, x: Value) {
    v.Obj? && name in v.fields && v.fields[name] == x
  }

  /** The field is missing or null. */
  predicate Lacks(v: Value, name: string) {
    !v.Obj? || name !in v.fields || v.fields[name].Null?
  }

  predicate LacksItems(v: Value, name: string) { Lacks(v, name) || Has(v, name, List([])) }

  /** The field; a missing one reads as opaque. */
  function Part(v: Value, name: string): Value {
    if v.Obj? && name in v.fields then v.fields[name] else Opaque
  }

  /** A name: text that is not empty. */
  function Name(v: Value, name: string): Option<string> {
    var field := Part(v, name);
    if field.Str? && field.text != "" then Some(field.text) else None
  }

  /** A count of at most 2^53 - 1. */
  function Count(v: Value, name: string): Option<nat> {
    var field := Part(v, name);
    if field.Int? && 0 <= field.number <= 9_007_199_254_740_991 then Some(field.number) else None
  }

  /** TAB, LF and everything but the C0 and C1 controls and DEL. */
  predicate Printable(text: string) {
    forall c :: c in text ==> c == '\t' || c == '\n' || 32 <= c as int < 127 || 159 < c as int
  }

  predicate IsText(v: Value, text: string) {
    && Has(v, "type", Str("output_text"))
    && Has(v, "text", Str(text))
    && Has(v, "annotations", List([]))
  }

  predicate IsMessage(v: Value, parts: nat, status: string) {
    && Has(v, "type", Str("message"))
    && Has(v, "role", Str("assistant"))
    && Name(v, "id").Some?
    && Part(v, "content").List? && |Part(v, "content").items| == parts
    && Has(v, "status", Str(status))
  }

  /** A finished message that says `text` in one part. */
  predicate Says(v: Value, text: string) {
    IsMessage(v, 1, "completed") && IsText(Part(v, "content").items[0], text)
  }

  predicate IsReasoning(v: Value, status: string) {
    && Has(v, "type", Str("reasoning"))
    && Name(v, "id").Some?
    && Has(v, "summary", List([]))
    && LacksItems(v, "content")
    && (Lacks(v, "status") || Has(v, "status", Str(status)))
  }

  predicate IsConfiguration(v: Value) {
    && Has(v, "effort", Str("none"))
    && Has(v, "context", Str("current_turn"))
    && Lacks(v, "summary") && Lacks(v, "generate_summary")
    && (Lacks(v, "mode") || Has(v, "mode", Str("standard")))
  }

  predicate IsUsage(v: Value) {
    var input, output, total :=
      Count(v, "input_tokens"), Count(v, "output_tokens"), Count(v, "total_tokens");
    && input.Some? && output.Some? && total.Some?
    && input.value + output.value == total.value && output.value <= 8192
    && (Lacks(v, "output_tokens_details")
        || var reasoning := Count(Part(v, "output_tokens_details"), "reasoning_tokens");
           reasoning.Some? && reasoning.value <= output.value)
  }

  // ----- What a stream has said so far -----

  datatype Kind =
    | ResponseCreated
    | ResponseQueued
    | ResponseInProgress
    | ItemAdded
    | PartAdded
    | TextDelta
    | TextDone
    | PartDone
    | ItemDone
    | ResponseCompleted
    | ResponseFailed
    | ResponseIncomplete
    | StreamError
    | Unheard

  function KindNamed(name: string): Kind {
    if name == "error" then StreamError
    else if name == "response.failed" then ResponseFailed
    else if name == "response.incomplete" then ResponseIncomplete
    else if name == "response.created" then ResponseCreated
    else if name == "response.queued" then ResponseQueued
    else if name == "response.in_progress" then ResponseInProgress
    else if name == "response.output_item.added" then ItemAdded
    else if name == "response.content_part.added" then PartAdded
    else if name == "response.output_text.delta" then TextDelta
    else if name == "response.output_text.done" then TextDone
    else if name == "response.content_part.done" then PartDone
    else if name == "response.output_item.done" then ItemDone
    else if name == "response.completed" then ResponseCompleted
    else Unheard
  }

  function EventKind(event: Value): Kind {
    match Name(event, "type")
    case None => Unheard
    case Some(name) => KindNamed(name)
  }

  /** The kind of the latest observation. */
  function Latest(heard: seq<Value>): Kind {
    if heard == [] then Unheard else EventKind(heard[|heard| - 1])
  }

  function ResponseId(heard: seq<Value>): Option<string> {
    if heard == [] then None else Name(Part(heard[0], "response"), "id")
  }

  /** The id of the latest item added with this type. */
  function ItemId(heard: seq<Value>, kind: string): Option<string> {
    if heard == [] then None
    else
      var last := heard[|heard| - 1];
      if EventKind(last).ItemAdded? && Has(Part(last, "item"), "type", Str(kind)) then
        Name(Part(last, "item"), "id")
      else ItemId(heard[..|heard| - 1], kind)
  }

  /** Where the message stands in the output: behind the reasoning item if there is one. */
  function MessageIndex(heard: seq<Value>): int {
    if ItemId(heard, "reasoning").Some? then 1 else 0
  }

  /** The text of all deltas. */
  function Said(heard: seq<Value>): string {
    if heard == [] then ""
    else
      var last := heard[|heard| - 1];
      Said(heard[..|heard| - 1])
      + if EventKind(last).TextDelta? && Part(last, "delta").Str? then Part(last, "delta").text else ""
  }

  // ----- Which observations are in order -----

  /** Numbers follow one another from any start. */
  predicate InSequence(heard: seq<Value>, event: Value) {
    var n := Count(event, "sequence_number");
    && n.Some?
    && (heard != [] ==>
          var before := Count(heard[|heard| - 1], "sequence_number");
          before.Some? && n.value == before.value + 1)
  }

  predicate OfResponse(heard: seq<Value>, event: Value) {
    ResponseId(heard).Some? && Name(Part(event, "response"), "id") == ResponseId(heard)
  }

  /** The event points at the message's one part. */
  predicate OfMessage(heard: seq<Value>, event: Value) {
    && ItemId(heard, "message").Some?
    && Has(event, "item_id", Str(ItemId(heard, "message").value))
    && Has(event, "output_index", Int(MessageIndex(heard)))
    && Has(event, "content_index", Int(0))
  }

  predicate AddsItem(heard: seq<Value>, event: Value) {
    var item := Part(event, "item");
    if Latest(heard).ResponseInProgress? && Has(item, "type", Str("reasoning")) then
      Has(event, "output_index", Int(0)) && IsReasoning(item, "in_progress")
    else
      && (Latest(heard).ResponseInProgress?
          || (Latest(heard).ItemDone? && ItemId(heard, "message").None?))
      && Has(event, "output_index", Int(MessageIndex(heard)))
      && IsMessage(item, 0, "in_progress")
  }

  predicate FinishesItem(heard: seq<Value>, event: Value) {
    var item := Part(event, "item");
    if Latest(heard).ItemAdded? && ItemId(heard, "message").None? then
      && Has(event, "output_index", Int(0))
      && IsReasoning(item, "completed") && Name(item, "id") == ItemId(heard, "reasoning")
    else
      && Latest(heard).PartDone?
      && Has(event, "output_index", Int(MessageIndex(heard)))
      && Says(item, Said(heard)) && Name(item, "id") == ItemId(heard, "message")
  }

  predicate AddsText(heard: seq<Value>, event: Value) {
    && (Latest(heard).PartAdded? || Latest(heard).TextDelta?)
    && OfMessage(heard, event)
    && LacksItems(event, "logprobs")
    && Name(event, "delta").Some? && Printable(Name(event, "delta").value)
  }

  predicate FinishesText(heard: seq<Value>, event: Value) {
    && Latest(heard).TextDelta?
    && OfMessage(heard, event)
    && LacksItems(event, "logprobs")
    && Has(event, "text", Str(Said(heard))) && Printable(Said(heard))
  }

  /** An observation that is in order behind `heard` and leaves the stream open. */
  predicate MayContinue(heard: seq<Value>, event: Value) {
    && InSequence(heard, event)
    && match EventKind(event)
       case ResponseCreated => heard == [] && Name(Part(event, "response"), "id").Some?
       case ResponseQueued => Latest(heard).ResponseCreated? && OfResponse(heard, event)
       case ResponseInProgress =>
         (Latest(heard).ResponseCreated? || Latest(heard).ResponseQueued?) && OfResponse(heard, event)
       case ItemAdded => AddsItem(heard, event)
       case PartAdded =>
         && Latest(heard).ItemAdded? && OfMessage(heard, event) && IsText(Part(event, "part"), "")
       case TextDelta => AddsText(heard, event)
       case TextDone => FinishesText(heard, event)
       case PartDone =>
         && Latest(heard).TextDone? && OfMessage(heard, event)
         && IsText(Part(event, "part"), Said(heard))
       case ItemDone => FinishesItem(heard, event)
       case _ => false
  }

  /** The completion that a stream behind `heard` needs to succeed. */
  predicate MayComplete(model: string, heard: seq<Value>, event: Value) {
    var response := Part(event, "response");
    && InSequence(heard, event) && EventKind(event).ResponseCompleted?
    && Latest(heard).ItemDone? && ItemId(heard, "message").Some?
    && OfResponse(heard, event)
    && Has(response, "status", Str("completed")) && Has(response, "model", Str(model))
    && Lacks(response, "error") && Lacks(response, "incomplete_details")
    && IsConfiguration(Part(response, "reasoning"))
    && RepeatsOutput(heard, Part(response, "output"))
    && (Lacks(response, "usage") || IsUsage(Part(response, "usage")))
  }

  /** The final output repeats the items that were streamed. */
  predicate RepeatsOutput(heard: seq<Value>, output: Value) {
    && output.List? && |output.items| == MessageIndex(heard) + 1
    && (ItemId(heard, "reasoning").Some? ==>
          && IsReasoning(output.items[0], "completed")
          && Name(output.items[0], "id") == ItemId(heard, "reasoning"))
    && Says(output.items[MessageIndex(heard)], Said(heard))
    && Name(output.items[MessageIndex(heard)], "id") == ItemId(heard, "message")
  }

  /** An ending of this response that the provider itself reports. */
  predicate EndsResponse(heard: seq<Value>, event: Value, status: string) {
    && InSequence(heard, event) && OfResponse(heard, event)
    && Has(Part(event, "response"), "status", Str(status))
  }

  /** What a read that does not continue or complete the stream ends it with. */
  function EndingOf(heard: seq<Value>, event: Value): P.ProviderEvent {
    var response := Part(event, "response");
    var error := Part(response, "error");
    if EventKind(event).StreamError? && InSequence(heard, event) then
      P.Failed(P.Unknown, "OpenAI request failed.")
    else if EventKind(event).ResponseIncomplete? && EndsResponse(heard, event, "incomplete") then
      P.Failed(P.RequestRejected, "OpenAI rejected the request.")
    else if && EventKind(event).ResponseFailed? && EndsResponse(heard, event, "failed")
            && response.Obj? && "error" in response.fields
            && (Lacks(error, "code") || Part(error, "code").Str?)
    then
      if Has(error, "code", Str("server_error")) then
        P.Failed(P.Unavailable, "OpenAI is temporarily unavailable. Try again later.")
      else if Has(error, "code", Str("rate_limit_exceeded")) then
        P.Failed(P.RateLimited, "OpenAI rate limit was reached. Try again later.")
      else P.Failed(P.Unknown, "OpenAI request failed.")
    else P.Failed(P.InvalidResponse, "OpenAI returned an invalid response.")
  }

  /** What a broken read ends the stream with. */
  function BreakOf(code: P.FailureCode): P.ProviderEvent {
    P.Failed(
      code,
      match code
      case AuthenticationFailed => "OpenAI authentication failed. Check OPENAI_API_KEY."
      case RateLimited => "OpenAI rate limit was reached. Try again later."
      case Unavailable => "OpenAI is temporarily unavailable. Try again later."
      case RequestRejected => "OpenAI rejected the request."
      case InvalidResponse => "OpenAI returned an invalid response."
      case Unknown => "OpenAI request failed.")
  }

  /** What an observation in order tells the session. */
  function TellsOf(event: Value): seq<P.ProviderEvent> {
    var kind := EventKind(event);
    if kind.TextDelta? && Part(event, "delta").Str? then [P.TextDelta(Part(event, "delta").text)]
    else if kind.TextDone? && Part(event, "text").Str? then [P.TextCompleted(Part(event, "text").text)]
    else []
  }

  function UsageOf(event: Value): seq<P.ProviderEvent> {
    var usage := Part(Part(event, "response"), "usage");
    var input, output := Count(usage, "input_tokens"), Count(usage, "output_tokens");
    if input.Some? && output.Some? then [P.UsageReported(input.value, output.value)] else []
  }

  /** The events the next read is worth. */
  function Verdict(model: string, heard: seq<Value>, read: Read): seq<P.ProviderEvent> {
    match read
    case Broke(code) => [BreakOf(code)]
    case Observed(event) =>
      if MayContinue(heard, event) then TellsOf(event)
      else if MayComplete(model, heard, event) then UsageOf(event) + [P.Completed]
      else [EndingOf(heard, event)]
  }
}
