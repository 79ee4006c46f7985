/** What one session transcript accepts: the semantic guards of `transcript.py`, apart from storage
    faults and size caps. */
module Tape {
  import opened Prelude
  import opened Lifecycle
  import opened LoopLimits

  const MAX_MODEL_USAGE_TOKENS := 9_007_199_254_740_991

  datatype Usage = Usage(sessionId: string, inputTokens: nat, outputTokens: nat)

  datatype Evidence = Evidence(usage: Option<Usage>, limits: Option<Observed>)

  /** One call a session makes on its transcript. */
  datatype Call =
    | RecordUpdate(update: Update, accepted: State)
    | RecordUsage(usage: Usage)
    | RecordLimits(observed: Observed)

  datatype Tape = Tape(state: State, evidence: Evidence)

  const BLANK := Tape(INITIAL, Evidence(None, None))

  /** Replay-critical metadata agrees; task, assistant text and failure message may differ. */
  predicate SameLifecycle(safe: State, live: State) {
    && safe.status == live.status
    && safe.startCommandId == live.startCommandId
    && safe.sessionId == live.sessionId
    && safe.cancelCommandId == live.cancelCommandId
    && safe.lastSequence == live.lastSequence
    && safe.assistantCompleted == live.assistantCompleted
    && (if safe.sessionFailure.Some? then Some(safe.sessionFailure.value.code) else None)
       == (if live.sessionFailure.Some? then Some(live.sessionFailure.value.code) else None)
  }

  predicate UsesLimitCode(u: Update) {
    u.Wire? && u.event.body.SessionFailed? && IsLoopLimitCode(u.event.body.code)
  }

  predicate LimitsMatchTerminal(observed: Observed, terminal: Update) {
    match observed.counters.exhausted
    case None => !UsesLimitCode(terminal)
    case Some(exhaustion) =>
      && terminal.Wire?
      && terminal.event.body.SessionFailed?
      && terminal.event.body.code == FailureCode(exhaustion)
  }

  /** The writer's decision on one call: the next tape, or nothing when it refuses the call. */
  function Guard(sessionId: string, tape: Tape, call: Call): Option<Tape> {
    match call
    case RecordUpdate(u, accepted) =>
      if tape.evidence.limits.None? && UsesLimitCode(u) then None
      else if tape.evidence.limits.Some?
              && (!u.EndsSession() || !LimitsMatchTerminal(tape.evidence.limits.value, u)) then None
      else if tape.evidence.usage.Some? && u.IsDelta() then None
      else
        var reduction := Reduce(tape.state, u);
        if reduction.Accepted? && SameLifecycle(reduction.state, accepted)
        then Some(tape.(state := reduction.state)) else None
    case RecordUsage(usage) =>
      if || usage.sessionId != sessionId
         || tape.evidence.usage.Some?
         || tape.evidence.limits.Some?
         || !tape.state.status.Running?
         || tape.state.assistantText == ""
         || tape.state.assistantCompleted
      then None
      else Some(tape.(evidence := tape.evidence.(usage := Some(usage))))
    case RecordLimits(observed) =>
      if || observed.sessionId != sessionId
         || tape.evidence.limits.Some?
         || tape.state.sessionId != Some(sessionId)
         || tape.state.status.Terminal()
      then None
      else Some(tape.(evidence := tape.evidence.(limits := Some(observed))))
  }

  /** All calls in order; nothing as soon as one is refused. */
  function RunGuards(sessionId: string, calls: seq<Call>): Option<Tape> {
    if calls == [] then Some(BLANK)
    else
      match RunGuards(sessionId, calls[..|calls| - 1])
      case None => None
      case Some(tape) => Guard(sessionId, tape, calls[|calls| - 1])
  }

  lemma RunGuardsSnoc(sessionId: string, calls: seq<Call>, last: Call)
    ensures RunGuards(sessionId, calls + [last])
            == match RunGuards(sessionId, calls) {
                 case None => None
                 case Some(tape) => Guard(sessionId, tape, last)
               }
  {
    assert (calls + [last])[..|calls|] == calls;
  }

  // ----- What passing the guards means for the order of calls -----

  /** The lifecycle updates among the calls. */
  function Updates(calls: seq<Call>): seq<Update> {
    if calls == [] then []
    else
      var last := calls[|calls| - 1];
      Updates(calls[..|calls| - 1]) + if last.RecordUpdate? then [last.update] else []
  }

  /** The assistant text recorded before the i-th call. */
  function TextBefore(calls: seq<Call>, i: nat): string
    requires i <= |calls|
  {
    Lifecycle.DeltaText(Updates(calls[..i]))
  }

  /** Usage comes at most once, after visible text, and no delta follows it. */
  ghost predicate UsageWellPlaced(calls: seq<Call>) {
    && (forall i :: 0 <= i < |calls| && calls[i].RecordUsage? ==> TextBefore(calls, i) != "")
    && (forall i, j :: 0 <= i < j < |calls| && calls[i].RecordUsage? ==>
          !calls[j].RecordUsage? && !(calls[j].RecordUpdate? && calls[j].update.IsDelta()))
  }

  /** Limits evidence comes at most once; only the one matching terminal may follow, directly. */
  ghost predicate LimitsWellPlaced(calls: seq<Call>) {
    forall i, j :: 0 <= i < j < |calls| && calls[i].RecordLimits? ==>
      && i == |calls| - 2
      && calls[j].RecordUpdate?
      && calls[j].update.EndsSession()
      && LimitsMatchTerminal(calls[i].observed, calls[j].update)
  }

  /** No terminal goes in without limits evidence directly before it. */
  ghost predicate TerminalsCarryLimits(calls: seq<Call>) {
    forall i :: 0 <= i < |calls| && calls[i].RecordUpdate? && calls[i].update.EndsSession() ==>
      i == |calls| - 1 && i > 0 && calls[i - 1].RecordLimits?
  }

  lemma {:induction false} UpdatesReplay(sessionId: string, calls: seq<Call>)
    requires RunGuards(sessionId, calls).Some?
    ensures Replay(INITIAL, Updates(calls)) == Accepted(RunGuards(sessionId, calls).value.state)
  {
    if calls != [] {
      var front, last := calls[..|calls| - 1], calls[|calls| - 1];
      UpdatesReplay(sessionId, front);
      if last.RecordUpdate? {
        ReplaySnoc(INITIAL, Updates(front), last.update);
      } else {
        assert Updates(calls) == Updates(front);
      }
    }
  }

  /** Where the evidence the tape holds came from. */
  ghost predicate EvidenceFrom(tape: Tape, calls: seq<Call>) {
    && (tape.evidence.usage.Some? <==> exists i :: 0 <= i < |calls| && calls[i].RecordUsage?)
    && (forall i :: 0 <= i < |calls| && calls[i].RecordUsage? ==>
          tape.evidence.usage == Some(calls[i].usage))
    && (forall i :: 0 <= i < |calls| && calls[i].RecordLimits? ==>
          tape.evidence.limits == Some(calls[i].observed))
    && (tape.evidence.limits.Some? && !tape.state.status.Terminal() ==>
          calls != [] && calls[|calls| - 1].RecordLimits?)
    && (tape.evidence.limits.Some? && tape.state.status.Terminal() ==>
          |calls| > 1 && calls[|calls| - 2].RecordLimits? && calls[|calls| - 1].RecordUpdate?)
    && (tape.state.status.Terminal() <==>
          exists i :: 0 <= i < |calls| && calls[i].RecordUpdate? && calls[i].update.EndsSession())
    && (tape.evidence.limits.Some? ==>
          forall i :: 0 <= i < |calls| && calls[i].RecordUpdate? && calls[i].update.EndsSession() ==>
            i == |calls| - 1)
  }

  lemma ReduceEnds(state: State, u: Update)
    requires Reduce(state, u).Accepted?
    ensures !state.status.Terminal()
    ensures Reduce(state, u).state.status.Terminal() <==> u.EndsSession()
  {}

  lemma {:induction false} GuardedEvidence(sessionId: string, calls: seq<Call>)
    requires RunGuards(sessionId, calls).Some?
    ensures EvidenceFrom(RunGuards(sessionId, calls).value, calls)
  {
    if calls != [] {
      var front, last := calls[..|calls| - 1], calls[|calls| - 1];
      var before, after := RunGuards(sessionId, front).value, RunGuards(sessionId, calls).value;
      GuardedEvidence(sessionId, front);
      if last.RecordUpdate? { ReduceEnds(before.state, last.update); }
      assert calls == front + [last];
      EvidenceStep(sessionId, before, front, last);
    }
  }

  lemma EvidenceStep(sessionId: string, before: Tape, front: seq<Call>, last: Call)
    requires EvidenceFrom(before, front) && Guard(sessionId, before, last).Some?
    ensures EvidenceFrom(Guard(sessionId, before, last).value, front + [last])
  {
    var calls := front + [last];
    assert calls[|front|] == last && forall i :: 0 <= i < |front| ==> calls[i] == front[i];
    if last.RecordUpdate? { ReduceEnds(before.state, last.update); }
    hide Reduce;
    if i :| 0 <= i < |front| && front[i].RecordUsage? { assert calls[i].RecordUsage?; }
    if i :| 0 <= i < |front| && front[i].RecordUpdate? && front[i].update.EndsSession() {
      assert calls[i].update.EndsSession();
    }
  }

  lemma UsageStep(sessionId: string, before: Tape, front: seq<Call>, last: Call)
    requires UsageWellPlaced(front) && Guard(sessionId, before, last).Some?
    requires before.evidence.usage.Some? <==> exists i :: 0 <= i < |front| && front[i].RecordUsage?
    requires before.state.assistantText == Lifecycle.DeltaText(Updates(front))
    ensures UsageWellPlaced(front + [last])
  {
    var calls := front + [last];
    hide Reduce, Updates, Lifecycle.DeltaText, LimitsMatchTerminal, UsesLimitCode, SameLifecycle;
    forall i | 0 <= i < |calls| && calls[i].RecordUsage? ensures TextBefore(calls, i) != "" {
      if i < |front| {
        assert front[i].RecordUsage? && TextBefore(front, i) != "";
        assert calls[..i] == front[..i];
      } else {
        assert calls[..i] == front;
      }
    }
    hide TextBefore;
  }

  lemma TapeText(sessionId: string, calls: seq<Call>)
    requires RunGuards(sessionId, calls).Some?
    ensures RunGuards(sessionId, calls).value.state.assistantText
            == Lifecycle.DeltaText(Updates(calls))
  {
    hide RunGuards, Updates, Replay;
    UpdatesReplay(sessionId, calls);
    RunInvariant(Updates(calls));
  }

  /** Usage comes once, after text and before no delta, whenever the guards passed. */
  lemma {:induction false} GuardsPlaceUsage(sessionId: string, calls: seq<Call>)
    requires RunGuards(sessionId, calls).Some?
    ensures UsageWellPlaced(calls)
  {
    hide Guard, Updates;
    if calls != [] {
      var front, last := calls[..|calls| - 1], calls[|calls| - 1];
      GuardsPlaceUsage(sessionId, front);
      GuardedEvidence(sessionId, front);
      TapeText(sessionId, front);
      hide UsageWellPlaced;
      UsageStep(sessionId, RunGuards(sessionId, front).value, front, last);
      assert calls == front + [last];
    }
  }

  lemma LimitsStep(sessionId: string, before: Tape, front: seq<Call>, last: Call)
    requires LimitsWellPlaced(front) && EvidenceFrom(before, front)
    requires Guard(sessionId, before, last).Some?
    ensures LimitsWellPlaced(front + [last])
  {
    hide Reduce, LimitsMatchTerminal, UsesLimitCode, SameLifecycle;
    var calls := front + [last];
    if last.RecordUpdate? { ReduceEnds(before.state, last.update); }
    forall i, j | 0 <= i < j < |calls| && calls[i].RecordLimits?
      ensures i == |front| - 1
              && calls[j].RecordUpdate? && calls[j].update.EndsSession()
              && LimitsMatchTerminal(calls[i].observed, calls[j].update)
    {
      assert front[i] == calls[i] && before.evidence.limits == Some(front[i].observed);
      assert last.RecordUpdate?;
      NoEndingYet(before, front);
    }
  }

  lemma NoEndingYet(tape: Tape, calls: seq<Call>)
    requires EvidenceFrom(tape, calls) && !tape.state.status.Terminal()
    ensures forall i :: 0 <= i < |calls| && calls[i].RecordUpdate? ==> !calls[i].update.EndsSession()
  {}

  /** Limits evidence comes once, and only its matching terminal may follow. */
  lemma {:induction false} GuardsPlaceLimits(sessionId: string, calls: seq<Call>)
    requires RunGuards(sessionId, calls).Some?
    ensures LimitsWellPlaced(calls)
  {
    hide Guard, LimitsWellPlaced, EvidenceFrom;
    if calls == [] {
      NoLimits();
    } else {
      var front, last := calls[..|calls| - 1], calls[|calls| - 1];
      GuardsPlaceLimits(sessionId, front);
      GuardedEvidence(sessionId, front);
      LimitsStep(sessionId, RunGuards(sessionId, front).value, front, last);
      assert calls == front + [last];
    }
  }

  lemma NoLimits()
    ensures LimitsWellPlaced([])
  {}

  /** With limits evidence accepted, any terminal has it directly in front. */
  lemma GuardsPlaceTerminals(sessionId: string, calls: seq<Call>)
    requires RunGuards(sessionId, calls).Some?
    requires RunGuards(sessionId, calls).value.evidence.limits.Some?
    ensures TerminalsCarryLimits(calls)
  {
    hide RunGuards;
    GuardedEvidence(sessionId, calls);
    TerminalsLast(RunGuards(sessionId, calls).value, calls);
  }

  lemma TerminalsLast(tape: Tape, calls: seq<Call>)
    requires EvidenceFrom(tape, calls) && tape.evidence.limits.Some?
    ensures TerminalsCarryLimits(calls)
  {
    forall i | 0 <= i < |calls| && calls[i].RecordUpdate? && calls[i].update.EndsSession()
      ensures i == |calls| - 1 && i > 0 && calls[i - 1].RecordLimits?
    {
      assert tape.state.status.Terminal();
      assert |calls| > 1 && calls[|calls| - 2].RecordLimits?;
      assert i == |calls| - 1;
    }
  }
}
