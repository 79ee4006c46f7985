/** A conforming SDK stream for any text and usage, and what the adapter makes of it. */
module AutomatonRoundTrip {
  import opened Prelude
  import opened ResponsesAutomaton
  import opened AutomatonRuns
  import P = ProviderEvents

  /** A response to be streamed. */
  datatype Reply = Reply(
    responseId: string, itemId: string, fragments: seq<string>, usage: Option<(nat, nat)>)
  {
    predicate Valid() {
      && responseId != "" && itemId != "" && fragments != []
      && (forall i :: 0 <= i < |fragments| ==> fragments[i] != "" && TerminalSafe(fragments[i]))
      && |fragments| + 7 <= MAX_SAFE_INTEGER
      && (usage.Some? ==>
            && usage.value.0 + usage.value.1 <= MAX_SAFE_INTEGER
            && usage.value.1 <= OPENAI_MAX_OUTPUT_TOKENS)
    }
  }

  lemma {:induction false} JoinSafe(fragments: seq<string>)
    requires forall i :: 0 <= i < |fragments| ==> TerminalSafe(fragments[i])
    ensures TerminalSafe(Join(fragments))
  {
    if fragments != [] { JoinSafe(fragments[..|fragments| - 1]); }
  }

  function Message(kind: string, number: nat, fields: map<string, Value>): Read {
    Observed(Obj(fields["type" := Str(kind)]["sequence_number" := Int(number)]))
  }

  function Part(text: string): Value {
    Obj(map["type" := Str("output_text"), "text" := Str(text), "annotations" := List([])])
  }

  function Item(id: string, completed: bool, content: seq<Value>): Value {
    Obj(map["type" := Str("message"), "role" := Str("assistant"), "id" := Str(id),
            "content" := List(content), "status" := ItemStatus(completed)])
  }

  function At(id: string, fields: map<string, Value>): map<string, Value> {
    fields["item_id" := Str(id)]["output_index" := Int(0)]["content_index" := Int(0)]
  }

  function Identified(reply: Reply): map<string, Value> {
    map["response" := Obj(map["id" := Str(reply.responseId)])]
  }

  function UsageValue(usage: Option<(nat, nat)>): Value {
    match usage
    case None => Null
    case Some(counts) =>
      Obj(map["input_tokens" := Int(counts.0), "output_tokens" := Int(counts.1),
              "total_tokens" := Int(counts.0 + counts.1)])
  }

  function FinalResponse(model: string, reply: Reply): Value {
    Obj(map["id" := Str(reply.responseId), "status" := Str("completed"), "model" := Str(model),
            "reasoning" := Obj(map["effort" := Str("none"), "context" := Str("current_turn")]),
            "output" := List([Item(reply.itemId, true, [Part(Join(reply.fragments))])]),
            "usage" := UsageValue(reply.usage)])
  }

  function Opening(reply: Reply): seq<Read> {
    [Message("response.created", 0, Identified(reply))]
    + [Message("response.in_progress", 1, Identified(reply))]
    + [Message("response.output_item.added", 2,
               map["output_index" := Int(0), "item" := Item(reply.itemId, false, [])])]
    + [Message("response.content_part.added", 3, At(reply.itemId, map["part" := Part("")]))]
  }

  function DeltaReads(reply: Reply, n: nat): (r: seq<Read>)
    requires n <= |reply.fragments|
    ensures |r| == n
  {
    if n == 0 then []
    else
      DeltaReads(reply, n - 1)
      + [Message("response.output_text.delta", 3 + n,
                 At(reply.itemId, map["delta" := Str(reply.fragments[n - 1])]))]
  }

  function TextDoneRead(reply: Reply): Read {
    Message("response.output_text.done", 4 + |reply.fragments|,
            At(reply.itemId, map["text" := Str(Join(reply.fragments))]))
  }

  function PartDoneRead(reply: Reply): Read {
    Message("response.content_part.done", 5 + |reply.fragments|,
            At(reply.itemId, map["part" := Part(Join(reply.fragments))]))
  }

  function ItemDoneRead(reply: Reply): Read {
    Message("response.output_item.done", 6 + |reply.fragments|,
            map["output_index" := Int(0),
                "item" := Item(reply.itemId, true, [Part(Join(reply.fragments))])])
  }

  function CompletedRead(model: string, reply: Reply): Read {
    Message("response.completed", 7 + |reply.fragments|,
            map["response" := FinalResponse(model, reply)])
  }

  function Streamed(model: string, reply: Reply): seq<Read> {
    Opening(reply) + DeltaReads(reply, |reply.fragments|)
    + [TextDoneRead(reply)] + [PartDoneRead(reply)] + [ItemDoneRead(reply)]
    + [CompletedRead(model, reply)]
  }

  function DeltaEvents(fragments: seq<string>): seq<P.ProviderEvent> {
    if fragments == [] then []
    else DeltaEvents(fragments[..|fragments| - 1]) + [P.TextDelta(fragments[|fragments| - 1])]
  }

  lemma DriveSnoc(model: string, inputs: seq<Read>, last: Read)
    requires !Drive(model, inputs).over
    ensures var before := Drive(model, inputs);
            var (after, batch) := Batch(model, before.automaton, last);
            Drive(model, inputs + [last]) == Driven(after, before.emitted + batch, !IsProgress(batch))
  {
    assert (inputs + [last])[..|inputs|] == inputs;
  }

  function Streaming(reply: Reply, stage: Stage, number: int, n: nat): Automaton
    requires n <= |reply.fragments|
  {
    Automaton(stage, Some(number), Some(reply.responseId), None, Some(reply.itemId), 0,
              reply.fragments[..n])
  }

  /** One conforming observation: its effect is that of the handler alone. */
  lemma Conforms(model: string, a: Automaton, kind: string, number: nat, fields: map<string, Value>)
    requires a.Coherent() && !a.stage.Terminal?
    requires a.nextSequence.None? || a.nextSequence == Some(number)
    requires 0 <= number <= MAX_SAFE_INTEGER
    requires kind != "" && kind != "error" && kind != "response.failed"
             && kind != "response.incomplete"
    ensures var event := Message(kind, number, fields).event;
            Accept(model, a, event)
            == Handle(model, a.(nextSequence := Some(number + 1)), event, kind)
  {
    hide Handle, OnResponseTerminal;
  }

  /** Which handler each kind of observation goes to. */
  lemma Dispatches(model: string, a: Automaton, event: Value)
    requires a.Coherent()
    ensures Handle(model, a, event, "response.created") == Settle(a, OnCreated(a, event))
    ensures Handle(model, a, event, "response.in_progress") == Settle(a, OnInProgress(a, event))
    ensures Handle(model, a, event, "response.output_item.added") == OnItemAdded(a, event)
    ensures Handle(model, a, event, "response.content_part.added") == Settle(a, OnPartAdded(a, event))
    ensures Handle(model, a, event, "response.output_text.delta") == Settle(a, OnTextDelta(a, event))
    ensures Handle(model, a, event, "response.output_text.done") == Settle(a, OnTextDone(a, event))
    ensures Handle(model, a, event, "response.content_part.done") == Settle(a, OnPartDone(a, event))
    ensures Handle(model, a, event, "response.output_item.done") == Settle(a, OnItemDone(a, event))
    ensures Handle(model, a, event, "response.completed") == Settle(a, OnCompleted(model, a, event))
  {
    hide OnCreated, OnInProgress, OnItemAdded, OnPartAdded, OnPartDone;
    hide OnItemDone, OnTextDelta, OnTextDone, OnCompleted;
  }

  lemma CreatedHandled(reply: Reply)
    requires reply.Valid()
    ensures OnCreated(FRESH.(nextSequence := Some(1)),
                      Message("response.created", 0, Identified(reply)).event)
            == Ok((Automaton(QueuedOrInProgress, Some(1), Some(reply.responseId), None, None, 0, []), []))
  {}

  lemma OpensCreated(model: string, reply: Reply)
    requires reply.Valid()
    ensures Batch(model, FRESH, Opening(reply)[0])
            == (Automaton(QueuedOrInProgress, Some(1), Some(reply.responseId), None, None, 0, []), [])
  {
    hide Accept, Handle, OnCreated, OnInProgress, OnItemAdded, OnPartAdded, OnTextDelta, OnTextDone;
    hide OnPartDone, OnItemDone, OnCompleted, Message, Identified;
    HandledAlone(model, FRESH, "response.created", 0, Identified(reply));
    Dispatches(model, FRESH.(nextSequence := Some(1)),
               Message("response.created", 0, Identified(reply)).event);
    CreatedHandled(reply);
  }

  lemma OpensProgress(model: string, reply: Reply)
    requires reply.Valid()
    ensures Batch(model,
                  Automaton(QueuedOrInProgress, Some(1), Some(reply.responseId), None, None, 0, []),
                  Opening(reply)[1])
            == (Automaton(OutputItemAdded, Some(2), Some(reply.responseId), None, None, 0, []), [])
  {
    hide Accept, Handle;
    hide OnCreated, OnItemAdded, OnPartAdded, OnTextDelta, OnTextDone, OnPartDone;
    hide OnItemDone, OnCompleted;
    var a := Automaton(QueuedOrInProgress, Some(1), Some(reply.responseId), None, None, 0, []);
    Conforms(model, a, "response.in_progress", 1, Identified(reply));
    Dispatches(model, a.(nextSequence := Some(2)),
               Message("response.in_progress", 1, Identified(reply)).event);
  }

  lemma ItemHandled(reply: Reply)
    requires reply.Valid()
    ensures var fields := map["output_index" := Int(0), "item" := Item(reply.itemId, false, [])];
            OnItemAdded(Automaton(OutputItemAdded, Some(3), Some(reply.responseId), None, None, 0, []),
                        Message("response.output_item.added", 2, fields).event)
            == Outcome(Streaming(reply, ContentPartAdded, 3, 0), Ok([]))
  {
    hide ValidateMessage;
    ItemValid(reply.itemId, false, []);
  }

  lemma OpensItem(model: string, reply: Reply)
    requires reply.Valid()
    ensures Batch(model,
                  Automaton(OutputItemAdded, Some(2), Some(reply.responseId), None, None, 0, []),
                  Opening(reply)[2])
            == (Streaming(reply, ContentPartAdded, 3, 0), [])
  {
    hide Accept, Handle, OnCreated, OnInProgress, OnItemAdded, OnPartAdded, OnTextDelta, OnTextDone;
    hide OnPartDone, OnItemDone, OnCompleted, Message, Item;
    var a := Automaton(OutputItemAdded, Some(2), Some(reply.responseId), None, None, 0, []);
    var fields := map["output_index" := Int(0), "item" := Item(reply.itemId, false, [])];
    HandledAlone(model, a, "response.output_item.added", 2, fields);
    Dispatches(model, a.(nextSequence := Some(3)),
               Message("response.output_item.added", 2, fields).event);
    ItemHandled(reply);
  }

  lemma ItemValid(id: string, completed: bool, content: seq<Value>)
    requires id != ""
    ensures ValidateMessage(Item(id, completed, content), |content|, completed) == Ok(id)
    ensures OptionalField(Item(id, completed, content), "type") == Str("message")
  {}

  lemma PartValid(text: string)
    ensures ValidateOutputText(Part(text), text) == Ok(())
  {}

  lemma FinalItemValid(id: string, text: string)
    requires id != ""
    ensures ValidateFinalMessage(Item(id, true, [Part(text)]), text) == Ok(id)
  {
    ItemValid(id, true, [Part(text)]);
    PartValid(text);
    hide ValidateMessage, ValidateOutputText;
  }

  lemma AtCoordinates(a: Automaton, reply: Reply, kind: string, number: nat,
                      fields: map<string, Value>)
    requires reply.Valid() && a.itemId == Some(reply.itemId) && a.messageOutputIndex == 0
    ensures RequireItemCoordinates(a, Message(kind, number, At(reply.itemId, fields)).event) == Ok(())
  {}

  lemma OpensPart(model: string, reply: Reply)
    requires reply.Valid()
    ensures Batch(model, Streaming(reply, ContentPartAdded, 3, 0), Opening(reply)[3])
            == (Streaming(reply, Delta, 4, 0), [])
  {
    hide Accept, Handle, RequireItemCoordinates, ValidateOutputText;
    hide OnCreated, OnInProgress, OnItemAdded, OnTextDelta, OnTextDone, OnPartDone;
    hide OnItemDone, OnCompleted;
    var a := Streaming(reply, ContentPartAdded, 3, 0);
    var fields := map["part" := Part("")];
    Conforms(model, a, "response.content_part.added", 3, At(reply.itemId, fields));
    Dispatches(model, a.(nextSequence := Some(4)),
               Message("response.content_part.added", 3, At(reply.itemId, fields)).event);
    AtCoordinates(a.(nextSequence := Some(4)), reply, "response.content_part.added", 3, fields);
    PartValid("");
  }

  lemma Opens(model: string, reply: Reply)
    requires reply.Valid()
    ensures Drive(model, Opening(reply)) == Driven(Streaming(reply, Delta, 4, 0), [], false)
  {
    var s := Opening(reply);
    OpensCreated(model, reply);
    OpensProgress(model, reply);
    OpensItem(model, reply);
    OpensPart(model, reply);
    hide Batch, Message;
    assert s[..1] == [] + [s[0]] && s[..2] == s[..1] + [s[1]] && s[..3] == s[..2] + [s[2]];
    assert s == s[..3] + [s[3]];
    DriveSnoc(model, [], s[0]);
    DriveSnoc(model, s[..1], s[1]);
    DriveSnoc(model, s[..2], s[2]);
    DriveSnoc(model, s[..3], s[3]);
    hide Drive;
  }

  function TextStage(n: nat): Stage { if n == 0 then Delta else DeltaOrDone }

  /** The handler of one delta of the reply. */
  lemma DeltaHandled(reply: Reply, n: nat)
    requires reply.Valid() && 0 < n <= |reply.fragments|
    ensures var fields := map["delta" := Str(reply.fragments[n - 1])];
            var event := Message("response.output_text.delta", 3 + n, At(reply.itemId, fields)).event;
            OnTextDelta(Streaming(reply, TextStage(n - 1), 4 + n, n - 1), event)
            == Ok((Streaming(reply, TextStage(n), 4 + n, n), [P.TextDelta(reply.fragments[n - 1])]))
  {
    hide RequireItemCoordinates, TerminalSafe;
    var a := Streaming(reply, TextStage(n - 1), 4 + n, n - 1);
    var fields := map["delta" := Str(reply.fragments[n - 1])];
    AtCoordinates(a, reply, "response.output_text.delta", 3 + n, fields);
    assert reply.fragments[..n] == reply.fragments[..n - 1] + [reply.fragments[n - 1]];
  }

  lemma DeltaStreams(model: string, reply: Reply, n: nat)
    requires reply.Valid() && 0 < n <= |reply.fragments|
    ensures Batch(model, Streaming(reply, TextStage(n - 1), 3 + n, n - 1),
                  DeltaReads(reply, n)[n - 1])
            == (Streaming(reply, TextStage(n), 4 + n, n), [P.TextDelta(reply.fragments[n - 1])])
  {
    hide Accept, Handle, OnTextDelta, OnCreated, OnInProgress, OnItemAdded, OnPartAdded, OnTextDone;
    hide OnPartDone, OnItemDone, OnCompleted, Message, At;
    var a := Streaming(reply, TextStage(n - 1), 3 + n, n - 1);
    var fields := map["delta" := Str(reply.fragments[n - 1])];
    var kind := "response.output_text.delta";
    HandledAlone(model, a, kind, 3 + n, At(reply.itemId, fields));
    Dispatches(model, a.(nextSequence := Some(4 + n)),
               Message(kind, 3 + n, At(reply.itemId, fields)).event);
    DeltaHandled(reply, n);
  }

  /** A conforming observation whose handler accepts it is mapped to what the handler emits. */
  lemma HandledAlone(model: string, a: Automaton, kind: string, number: nat, fields: map<string, Value>)
    requires a.Coherent() && !a.stage.Terminal?
    requires a.nextSequence.None? || a.nextSequence == Some(number)
    requires 0 <= number <= MAX_SAFE_INTEGER
    requires kind != "" && kind != "error" && kind != "response.failed"
             && kind != "response.incomplete"
    ensures Message(kind, number, fields).Observed?
    ensures var read := Message(kind, number, fields);
            var o := Handle(model, a.(nextSequence := Some(number + 1)), read.event, kind);
            o.mapped.Ok? ==> Batch(model, a, read) == (o.after, o.mapped.value)
  {
    hide Accept, Handle;
    Conforms(model, a, kind, number, fields);
  }

  lemma DeltasSnoc(reply: Reply, n: nat)
    requires 0 < n <= |reply.fragments|
    ensures DeltaReads(reply, n) == DeltaReads(reply, n - 1) + [DeltaReads(reply, n)[n - 1]]
    ensures DeltaEvents(reply.fragments[..n])
            == DeltaEvents(reply.fragments[..n - 1]) + [P.TextDelta(reply.fragments[n - 1])]
  {
    hide Message;
    assert reply.fragments[..n][..n - 1] == reply.fragments[..n - 1];
  }

  lemma NoDeltas(reply: Reply)
    ensures DeltaReads(reply, 0) == [] && DeltaEvents(reply.fragments[..0]) == []
  {}

  lemma {:induction false} Streams(model: string, reply: Reply, n: nat)
    requires reply.Valid() && n <= |reply.fragments|
    ensures Drive(model, Opening(reply) + DeltaReads(reply, n))
            == Driven(Streaming(reply, TextStage(n), 4 + n, n), DeltaEvents(reply.fragments[..n]),
                      false)
    decreases n
  {
    hide Batch, Drive, Opening, DeltaReads, DeltaEvents, Message;
    if n == 0 {
      NoDeltas(reply);
      Opens(model, reply);
      assert Opening(reply) + [] == Opening(reply);
    } else {
      Streams(model, reply, n - 1);
      DeltaStreams(model, reply, n);
      DeltasSnoc(reply, n);
      var front := Opening(reply) + DeltaReads(reply, n - 1);
      var last := DeltaReads(reply, n)[n - 1];
      assert Opening(reply) + DeltaReads(reply, n) == front + [last];
      DriveSnoc(model, front, last);
    }
  }

  lemma TextDoneStreams(model: string, reply: Reply)
    requires reply.Valid()
    ensures var n := |reply.fragments|;
            Batch(model, Streaming(reply, DeltaOrDone, 4 + n, n), TextDoneRead(reply))
            == (Streaming(reply, ContentPartDone, 5 + n, n), [P.TextCompleted(Join(reply.fragments))])
  {
    hide Accept, Handle, RequireItemCoordinates, TerminalSafe, Join;
    hide OnCreated, OnInProgress, OnItemAdded, OnPartAdded, OnTextDelta, OnPartDone;
    hide OnItemDone, OnCompleted;
    var n := |reply.fragments|;
    var a := Streaming(reply, DeltaOrDone, 4 + n, n);
    var kind, fields := "response.output_text.done", map["text" := Str(Join(reply.fragments))];
    Conforms(model, a, kind, 4 + n, At(reply.itemId, fields));
    Dispatches(model, a.(nextSequence := Some(5 + n)),
               Message(kind, 4 + n, At(reply.itemId, fields)).event);
    AtCoordinates(a.(nextSequence := Some(5 + n)), reply, kind, 4 + n, fields);
    assert reply.fragments[..n] == reply.fragments;
    JoinSafe(reply.fragments);
  }

  lemma PartDoneStreams(model: string, reply: Reply)
    requires reply.Valid()
    ensures var n := |reply.fragments|;
            Batch(model, Streaming(reply, ContentPartDone, 5 + n, n), PartDoneRead(reply))
            == (Streaming(reply, OutputItemDone, 6 + n, n), [])
  {
    hide Accept, Handle, RequireItemCoordinates, ValidateOutputText, Join;
    hide OnCreated, OnInProgress, OnItemAdded, OnPartAdded, OnTextDelta, OnTextDone;
    hide OnItemDone, OnCompleted;
    var n := |reply.fragments|;
    var a := Streaming(reply, ContentPartDone, 5 + n, n);
    var kind, fields := "response.content_part.done", map["part" := Part(Join(reply.fragments))];
    Conforms(model, a, kind, 5 + n, At(reply.itemId, fields));
    Dispatches(model, a.(nextSequence := Some(6 + n)),
               Message(kind, 5 + n, At(reply.itemId, fields)).event);
    AtCoordinates(a.(nextSequence := Some(6 + n)), reply, kind, 5 + n, fields);
    assert reply.fragments[..n] == reply.fragments;
    PartValid(Join(reply.fragments));
  }

  lemma ItemDoneStreams(model: string, reply: Reply)
    requires reply.Valid()
    ensures var n := |reply.fragments|;
            Batch(model, Streaming(reply, OutputItemDone, 6 + n, n), ItemDoneRead(reply))
            == (Streaming(reply, AwaitCompleted, 7 + n, n), [])
  {
    hide Accept, Handle, ValidateFinalMessage, Join;
    hide OnCreated, OnInProgress, OnItemAdded, OnPartAdded, OnTextDelta, OnTextDone;
    hide OnPartDone, OnCompleted;
    var n := |reply.fragments|;
    var a := Streaming(reply, OutputItemDone, 6 + n, n);
    var item := Item(reply.itemId, true, [Part(Join(reply.fragments))]);
    var kind := "response.output_item.done";
    Conforms(model, a, kind, 6 + n, map["output_index" := Int(0), "item" := item]);
    Dispatches(model, a.(nextSequence := Some(7 + n)),
               Message(kind, 6 + n, map["output_index" := Int(0), "item" := item]).event);
    assert reply.fragments[..n] == reply.fragments;
    FinalItemValid(reply.itemId, Join(reply.fragments));
  }

  function UsageEvents(usage: Option<(nat, nat)>): seq<P.ProviderEvent> {
    if usage.None? then [] else [P.UsageReported(usage.value.0, usage.value.1)]
  }

  lemma UsageValid(usage: Option<(nat, nat)>)
    requires usage.Some? ==>
               && usage.value.0 + usage.value.1 <= MAX_SAFE_INTEGER
               && usage.value.1 <= OPENAI_MAX_OUTPUT_TOKENS
    ensures ReportedUsage(UsageValue(usage)) == Ok(UsageEvents(usage))
  {}

  lemma FinalFields(model: string, reply: Reply)
    ensures var v := FinalResponse(model, reply);
            && Field(v, "id") == Ok(Str(reply.responseId))
            && Field(v, "status") == Ok(Str("completed"))
            && Field(v, "model") == Ok(Str(model))
            && OptionalField(v, "error").Null?
            && OptionalField(v, "incomplete_details").Null?
            && ValidateReasoningConfiguration(OptionalField(v, "reasoning")) == Ok(())
            && Field(v, "output")
               == Ok(List([Item(reply.itemId, true, [Part(Join(reply.fragments))])]))
            && OptionalField(v, "usage") == UsageValue(reply.usage)
  {
    hide Join, Item, Part, UsageValue;
  }

  lemma CompletedHandled(model: string, reply: Reply)
    requires reply.Valid()
    ensures var n := |reply.fragments|;
            var fields := map["response" := FinalResponse(model, reply)];
            OnCompleted(model, Streaming(reply, AwaitCompleted, 8 + n, n),
                        Message("response.completed", 7 + n, fields).event)
            == Ok((Streaming(reply, Terminal, 8 + n, n), UsageEvents(reply.usage) + [P.Completed]))
  {
    hide ValidateFinalMessage, Join, FinalResponse, ReportedUsage, ValidateReasoningConfiguration;
    var n := |reply.fragments|;
    assert reply.fragments[..n] == reply.fragments;
    FinalItemValid(reply.itemId, Join(reply.fragments));
    FinalFields(model, reply);
    UsageValid(reply.usage);
  }

  lemma CompletedStreams(model: string, reply: Reply)
    requires reply.Valid()
    ensures var n := |reply.fragments|;
            Batch(model, Streaming(reply, AwaitCompleted, 7 + n, n), CompletedRead(model, reply))
            == (Streaming(reply, Terminal, 8 + n, n), UsageEvents(reply.usage) + [P.Completed])
  {
    hide Accept, Handle, OnCreated, OnInProgress, OnItemAdded, OnPartAdded, OnTextDelta, OnTextDone;
    hide OnPartDone, OnItemDone, OnCompleted, Message, FinalResponse, UsageEvents;
    var n := |reply.fragments|;
    var a := Streaming(reply, AwaitCompleted, 7 + n, n);
    var fields := map["response" := FinalResponse(model, reply)];
    HandledAlone(model, a, "response.completed", 7 + n, fields);
    Dispatches(model, a.(nextSequence := Some(8 + n)),
               Message("response.completed", 7 + n, fields).event);
    CompletedHandled(model, reply);
  }

  /** Round trip: any valid reply, streamed fragment by fragment, comes back as the same fragments,
      their concatenation, its usage and success. */
  lemma StreamedReplyComesBack(model: string, reply: Reply)
    requires reply.Valid()
    ensures Drive(model, Streamed(model, reply)).over
    ensures Drive(model, Streamed(model, reply)).emitted
            == DeltaEvents(reply.fragments) + [P.TextCompleted(Join(reply.fragments))]
               + UsageEvents(reply.usage) + [P.Completed]
  {
    hide Batch, Opening, DeltaReads, Message, Drive, Join;
    var n := |reply.fragments|;
    var s := Opening(reply) + DeltaReads(reply, n);
    Streams(model, reply, n);
    TextDoneStreams(model, reply);
    PartDoneStreams(model, reply);
    ItemDoneStreams(model, reply);
    CompletedStreams(model, reply);
    DriveSnoc(model, s, TextDoneRead(reply));
    DriveSnoc(model, s + [TextDoneRead(reply)], PartDoneRead(reply));
    DriveSnoc(model, s + [TextDoneRead(reply)] + [PartDoneRead(reply)], ItemDoneRead(reply));
    DriveSnoc(model, s + [TextDoneRead(reply)] + [PartDoneRead(reply)] + [ItemDoneRead(reply)],
              CompletedRead(model, reply));
    assert reply.fragments[..n] == reply.fragments;
    var done := DeltaEvents(reply.fragments) + [P.TextCompleted(Join(reply.fragments))];
    assert done + [] + [] == done;
    assert done + (UsageEvents(reply.usage) + [P.Completed])
        == done + UsageEvents(reply.usage) + [P.Completed];
  }
}
