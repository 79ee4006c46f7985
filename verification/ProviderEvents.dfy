/** Provider-neutral stream observations (`provider/models.py`) and the grammar of one turn. */
module ProviderEvents {
  import opened Prelude
  import opened LoopLimits
  import Tape

  datatype FailureCode =
    | AuthenticationFailed
    | RateLimited
    | RequestRejected
    | Unavailable
    | InvalidResponse
    | Unknown
  {
    function Text(): string {
      match this
      case AuthenticationFailed => "authentication_failed"
      case RateLimited => "rate_limited"
      case RequestRejected => "request_rejected"
      case Unavailable => "unavailable"
      case InvalidResponse => "invalid_response"
      case Unknown => "unknown"
    }
  }

  /** `Foreign` is any object the session does not recognise, or a delta that has no UTF-8 form. */
  datatype ProviderEvent =
    | TextDelta(text: string)
    | TextCompleted(text: string)
    | ToolCallRequested
    | UsageReported(inputTokens: nat, outputTokens: nat)
    | Completed
    | Failed(code: FailureCode, message: string)
    | Foreign
  {
    /** What constructing the value already checked. */
    predicate Valid() {
      && (TextDelta? ==> text != "")
      && (UsageReported? ==>
            inputTokens <= Tape.MAX_MODEL_USAGE_TOKENS && outputTokens <= Tape.MAX_MODEL_USAGE_TOKENS)
    }

    predicate EndsStream() { Completed? || Failed? || ToolCallRequested? || Foreign? }
  }

  /** The concatenation of the deltas. */
  function DeltaText(events: seq<ProviderEvent>): string {
    if events == [] then ""
    else
      var last := events[|events| - 1];
      DeltaText(events[..|events| - 1]) + if last.TextDelta? then last.text else ""
  }

  ghost predicate CompletionSeen(events: seq<ProviderEvent>) {
    exists i :: 0 <= i < |events| && events[i].TextCompleted?
  }

  ghost predicate EndSeen(events: seq<ProviderEvent>) {
    exists i :: 0 <= i < |events| && events[i].EndsStream()
  }

  ghost predicate UsageSeen(events: seq<ProviderEvent>) {
    exists i :: 0 <= i < |events| && events[i].UsageReported?
  }

  /** Whether `next` may follow `history` in a well-formed turn: deltas, then one completion that
      equals their concatenation, then at most one usage value, then success; a failure or a tool
      request may come at any point. */
  ghost predicate MayFollow(history: seq<ProviderEvent>, next: ProviderEvent) {
    match next
    case TextDelta(_) => !CompletionSeen(history)
    case TextCompleted(text) => !CompletionSeen(history) && text == DeltaText(history)
    case UsageReported(_, _) =>
      CompletionSeen(history) && DeltaText(history) != "" && !UsageSeen(history)
    case Completed => CompletionSeen(history) && DeltaText(history) != ""
    case Failed(_, _) => true
    case ToolCallRequested => true
    case Foreign => false
  }

  /** Every observation may follow the ones before it. */
  ghost predicate TurnGrammar(events: seq<ProviderEvent>) {
    forall i :: 0 <= i < |events| ==> MayFollow(events[..i], events[i])
  }

  // ----- A one-pass monitor for the grammar -----

  datatype Scan = Scan(
    text: string, completed: bool, usage: bool, ending: Option<ProviderEvent>, valid: bool)

  const UNSEEN := Scan("", false, false, None, true)

  function Observe(scan: Scan, next: ProviderEvent): Scan {
    match next
    case TextDelta(text) =>
      scan.(text := scan.text + text, valid := scan.valid && !scan.completed)
    case TextCompleted(text) =>
      scan.(completed := true, valid := scan.valid && !scan.completed && text == scan.text)
    case UsageReported(_, _) =>
      scan.(usage := true,
            valid := scan.valid && scan.completed && scan.text != "" && !scan.usage)
    case Completed =>
      scan.(ending := Some(next), valid := scan.valid && scan.completed && scan.text != "")
    case Foreign => scan.(ending := Some(next), valid := false)
    case _ => scan.(ending := Some(next))
  }

  function ScanAll(events: seq<ProviderEvent>): Scan {
    if events == [] then UNSEEN
    else Observe(ScanAll(events[..|events| - 1]), events[|events| - 1])
  }

  lemma ScanSnoc(events: seq<ProviderEvent>, last: ProviderEvent)
    ensures ScanAll(events + [last]) == Observe(ScanAll(events), last)
  {
    assert (events + [last])[..|events|] == events;
  }

  lemma SeenSnoc(front: seq<ProviderEvent>, last: ProviderEvent)
    ensures CompletionSeen(front + [last]) <==> CompletionSeen(front) || last.TextCompleted?
    ensures UsageSeen(front + [last]) <==> UsageSeen(front) || last.UsageReported?
    ensures EndSeen(front + [last]) <==> EndSeen(front) || last.EndsStream()
    ensures DeltaText(front + [last]) == DeltaText(front) + if last.TextDelta? then last.text else ""
  {
    var events := front + [last];
    assert events[..|front|] == front && events[|front|] == last;
    if CompletionSeen(front) {
      var i :| 0 <= i < |front| && front[i].TextCompleted?;
      assert events[i].TextCompleted?;
    }
    if UsageSeen(front) {
      var i :| 0 <= i < |front| && front[i].UsageReported?;
      assert events[i].UsageReported?;
    }
    if EndSeen(front) {
      var i :| 0 <= i < |front| && front[i].EndsStream();
      assert events[i].EndsStream();
    }
  }

  lemma GrammarSnoc(front: seq<ProviderEvent>, last: ProviderEvent)
    ensures TurnGrammar(front + [last]) <==> TurnGrammar(front) && MayFollow(front, last)
  {
    hide MayFollow;
    var events := front + [last];
    assert events[..|front|] == front && events[|front|] == last;
    assert forall i :: 0 <= i < |front| ==> front[..i] == events[..i] && front[i] == events[i];
  }

  ghost predicate Remembers(scan: Scan, events: seq<ProviderEvent>) {
    && scan.text == DeltaText(events)
    && (scan.completed <==> CompletionSeen(events))
    && (scan.usage <==> UsageSeen(events))
    && (scan.ending.Some? <==> EndSeen(events))
  }

  lemma ObserveRemembers(scan: Scan, front: seq<ProviderEvent>, last: ProviderEvent)
    requires Remembers(scan, front)
    ensures Remembers(Observe(scan, last), front + [last])
    ensures Observe(scan, last).valid <==> scan.valid && MayFollow(front, last)
  {
    SeenSnoc(front, last);
    hide CompletionSeen, UsageSeen, EndSeen, DeltaText;
  }

  /** The monitor accepts exactly the grammar, and its memory is a function of the history. */
  lemma {:induction false} ScanDecides(events: seq<ProviderEvent>)
    ensures ScanAll(events).valid <==> TurnGrammar(events)
    ensures Remembers(ScanAll(events), events)
  {
    if events != [] {
      var front, last := events[..|events| - 1], events[|events| - 1];
      ScanDecides(front);
      ObserveRemembers(ScanAll(front), front, last);
      GrammarSnoc(front, last);
      assert events == front + [last];
      hide Remembers, TurnGrammar, Observe, MayFollow;
    }
  }

  /** The grammar is closed under prefixes. */
  lemma GrammarPrefix(events: seq<ProviderEvent>, n: nat)
    requires TurnGrammar(events) && n <= |events|
    ensures TurnGrammar(events[..n])
  {
    forall i | 0 <= i < n ensures MayFollow(events[..n][..i], events[..n][i]) {
      assert events[..n][..i] == events[..i];
    }
  }

  /** The failure code a session publishes for a provider failure. */
  function SessionFailureCode(code: FailureCode): string { "provider_" + code.Text() }

  /** No provider failure can borrow a budget's reserved code, although one of those codes also
      begins with "provider_". */
  lemma ProviderCodesAreNotReserved(code: FailureCode)
    ensures !IsLoopLimitCode(SessionFailureCode(code))
  {
    var text := SessionFailureCode(code);
    assert text[0] == 'p' && |text| == 9 + |code.Text()|;
    assert MODEL_TURN_LIMIT_EXCEEDED_CODE[0] == 'm';
    assert ASSISTANT_OUTPUT_LIMIT_EXCEEDED_CODE[0] == 'a';
    assert TOOL_CALL_LIMIT_EXCEEDED_CODE[0] == 't';
    assert |PROVIDER_WORK_DEADLINE_EXCEEDED_CODE| == 31;
    assert |text| < 31;
  }
}
