/** Harness-owned budgets of one provider-backed session: `loop_limits.py`. */
module LoopLimits {
  import opened Prelude

  const MAX_MODEL_TURNS := 16
  const MAX_PROVIDER_WORK_TIMEOUT_SECONDS := 3600
  const MAX_ASSISTANT_OUTPUT_BYTES := 8192
  const MAX_OBSERVED_TOOL_CALLS := 64

  datatype Exhaustion = ModelTurns | ProviderWork | AssistantOutput | ToolCalls

  datatype Limits = Limits(
    maxModelTurns: int,
    providerWorkTimeoutSeconds: int,
    maxAssistantOutputBytes: int,
    maxObservedToolCalls: int)
  {
    predicate Valid() {
      && 1 <= maxModelTurns <= MAX_MODEL_TURNS
      && 1 <= providerWorkTimeoutSeconds <= MAX_PROVIDER_WORK_TIMEOUT_SECONDS
      && 1 <= maxAssistantOutputBytes <= MAX_ASSISTANT_OUTPUT_BYTES
      && 1 <= maxObservedToolCalls <= MAX_OBSERVED_TOOL_CALLS
    }
  }

  /** The mutable part of a tracker. */
  datatype Counters = Counters(
    modelTurnsStarted: int,
    assistantOutputBytes: int,
    toolCallsObserved: int,
    exhausted: Option<Exhaustion>)

  /** One evidence record: a snapshot of limits and counters bound to a session. */
  datatype Observed = Observed(sessionId: string, limits: Limits, counters: Counters)
  {
    /** The validation every observation passes before it exists. */
    predicate Valid() { limits.Valid() && Consistent(limits, counters) }
  }

  /** The cross-field checks shared by the observation and the tracker's own constructor. */
  predicate Consistent(limits: Limits, c: Counters) {
    var toolMaximum :=
      limits.maxObservedToolCalls + if c.exhausted == Some(ToolCalls) then 1 else 0;
    && 0 <= c.modelTurnsStarted <= limits.maxModelTurns
    && 0 <= c.assistantOutputBytes <= limits.maxAssistantOutputBytes
    && 0 <= c.toolCallsObserved <= toolMaximum
    && (c.exhausted == Some(ToolCalls) ==> c.toolCallsObserved == toolMaximum)
    && (c.exhausted == Some(ModelTurns) ==> c.modelTurnsStarted == limits.maxModelTurns)
    && (c.modelTurnsStarted == 0 ==>
          && c.assistantOutputBytes == 0
          && c.toolCallsObserved == 0
          && c.exhausted != Some(AssistantOutput)
          && c.exhausted != Some(ToolCalls))
  }

  const MODEL_TURN_LIMIT_EXCEEDED_CODE := "model_turn_limit_exceeded"
  const PROVIDER_WORK_DEADLINE_EXCEEDED_CODE := "provider_work_deadline_exceeded"
  const ASSISTANT_OUTPUT_LIMIT_EXCEEDED_CODE := "assistant_output_limit_exceeded"
  const TOOL_CALL_LIMIT_EXCEEDED_CODE := "tool_call_limit_exceeded"

  function FailureCode(exhaustion: Exhaustion): string {
    match exhaustion
    case ModelTurns => MODEL_TURN_LIMIT_EXCEEDED_CODE
    case ProviderWork => PROVIDER_WORK_DEADLINE_EXCEEDED_CODE
    case AssistantOutput => ASSISTANT_OUTPUT_LIMIT_EXCEEDED_CODE
    case ToolCalls => TOOL_CALL_LIMIT_EXCEEDED_CODE
  }

  predicate IsLoopLimitCode(code: string) {
    || code == MODEL_TURN_LIMIT_EXCEEDED_CODE
    || code == PROVIDER_WORK_DEADLINE_EXCEEDED_CODE
    || code == ASSISTANT_OUTPUT_LIMIT_EXCEEDED_CODE
    || code == TOOL_CALL_LIMIT_EXCEEDED_CODE
  }

  // ----- What each charge does to the counters -----

  function AdmitModelTurn(limits: Limits, c: Counters): (Counters, bool) {
    if c.exhausted.Some? then (c, false)
    else if c.modelTurnsStarted >= limits.maxModelTurns then
      (c.(exhausted := Some(ModelTurns)), false)
    else (c.(modelTurnsStarted := c.modelTurnsStarted + 1), true)
  }

  function ReserveAssistantOutput(limits: Limits, c: Counters, bytes: nat): (Counters, bool) {
    if c.exhausted.Some? then (c, false)
    else if bytes > limits.maxAssistantOutputBytes - c.assistantOutputBytes then
      (c.(exhausted := Some(AssistantOutput)), false)
    else (c.(assistantOutputBytes := c.assistantOutputBytes + bytes), true)
  }

  function ObserveToolCall(limits: Limits, c: Counters): (Counters, bool) {
    if c.exhausted.Some? then (c, false)
    else if c.toolCallsObserved + 1 > limits.maxObservedToolCalls then
      (c.(toolCallsObserved := c.toolCallsObserved + 1, exhausted := Some(ToolCalls)), false)
    else (c.(toolCallsObserved := c.toolCallsObserved + 1), true)
  }

  function MarkProviderWorkExhausted(c: Counters): Counters {
    if c.exhausted.Some? then c else c.(exhausted := Some(ProviderWork))
  }

  datatype Charge =
    | Admit
    | Reserve(bytes: nat)
    | ToolCall
    | WorkExpired

  function Apply(limits: Limits, c: Counters, charge: Charge): Counters {
    match charge
    case Admit => AdmitModelTurn(limits, c).0
    case Reserve(bytes) => ReserveAssistantOutput(limits, c, bytes).0
    case ToolCall => ObserveToolCall(limits, c).0
    case WorkExpired => MarkProviderWorkExhausted(c)
  }

  function ApplyAll(limits: Limits, c: Counters, charges: seq<Charge>): Counters {
    if charges == [] then c
    else Apply(limits, ApplyAll(limits, c, charges[..|charges| - 1]), charges[|charges| - 1])
  }

  /** No output reservation or tool observation comes before a model turn was admitted. */
  predicate TurnFirst(c: Counters, charges: seq<Charge>) {
    c.modelTurnsStarted > 0
    || forall i :: 0 <= i < |charges| && (charges[i].Reserve? || charges[i].ToolCall?) ==>
                     exists j :: 0 <= j < i && charges[j].Admit?
  }

  /** Exactly which charge breaks a valid snapshot: one that counts provider work on a tracker that
      is not exhausted and never admitted a turn. */
  lemma ChargeKeepsConsistent(limits: Limits, c: Counters, charge: Charge)
    requires limits.Valid() && Consistent(limits, c)
    ensures Consistent(limits, Apply(limits, c, charge)) <==>
            !(&& c.modelTurnsStarted == 0
              && c.exhausted.None?
              && (charge.ToolCall? || (charge.Reserve? && charge.bytes > 0)))
    ensures c.exhausted.Some? ==> Apply(limits, c, charge) == c
  {}

  /** Every run of charges that admits a turn first leaves a snapshot that validates, and the first
      exhausted budget is never replaced. */
  lemma {:induction false} SnapshotsValidate(limits: Limits, c: Counters, charges: seq<Charge>)
    requires limits.Valid() && Consistent(limits, c) && TurnFirst(c, charges)
    ensures Consistent(limits, ApplyAll(limits, c, charges))
    ensures c.exhausted.Some? ==> ApplyAll(limits, c, charges).exhausted == c.exhausted
    ensures (exists j :: 0 <= j < |charges| && charges[j].Admit?) ==>
              ApplyAll(limits, c, charges).modelTurnsStarted > 0
              || ApplyAll(limits, c, charges).exhausted.Some?
    ensures c.modelTurnsStarted <= ApplyAll(limits, c, charges).modelTurnsStarted
  {
    if charges != [] {
      var front, last := charges[..|charges| - 1], charges[|charges| - 1];
      assert charges == front + [last];
      assert TurnFirst(c, front) by {
        if c.modelTurnsStarted == 0 {
          forall i | 0 <= i < |front| && (front[i].Reserve? || front[i].ToolCall?)
            ensures exists j :: 0 <= j < i && front[j].Admit?
          {
            assert charges[i] == front[i];
            var j :| 0 <= j < i && charges[j].Admit?;
            assert front[j].Admit?;
          }
        }
      }
      SnapshotsValidate(limits, c, front);
      var mid := ApplyAll(limits, c, front);
      if (last.Reserve? || last.ToolCall?) && c.modelTurnsStarted == 0 {
        assert charges[|charges| - 1] == last;
        var j :| 0 <= j < |charges| - 1 && charges[j].Admit?;
        assert front[j].Admit?;
      }
      ChargeKeepsConsistent(limits, mid, last);
      if j :| 0 <= j < |charges| && charges[j].Admit? && !last.Admit? {
        assert front[j].Admit?;
      }
    }
  }

  // ----- Budgets as sums -----

  function Turns(charges: seq<Charge>): nat {
    if charges == [] then 0
    else Turns(charges[..|charges| - 1]) + if charges[|charges| - 1].Admit? then 1 else 0
  }

  function Bytes(charges: seq<Charge>): nat {
    if charges == [] then 0
    else
      var last := charges[|charges| - 1];
      Bytes(charges[..|charges| - 1]) + if last.Reserve? then last.bytes else 0
  }

  function Calls(charges: seq<Charge>): nat {
    if charges == [] then 0
    else Calls(charges[..|charges| - 1]) + if charges[|charges| - 1].ToolCall? then 1 else 0
  }

  /** The charge does not fit behind the ones in front of it. */
  predicate Exceeds(limits: Limits, c: Counters, charges: seq<Charge>, i: nat)
    requires i < |charges|
  {
    var before := charges[..i];
    match charges[i]
    case Admit => c.modelTurnsStarted + Turns(before) + 1 > limits.maxModelTurns
    case Reserve(bytes) =>
      c.assistantOutputBytes + Bytes(before) + bytes > limits.maxAssistantOutputBytes
    case ToolCall => c.toolCallsObserved + Calls(before) + 1 > limits.maxObservedToolCalls
    case WorkExpired => true
  }

  predicate FirstExcess(limits: Limits, c: Counters, charges: seq<Charge>, i: nat)
    requires i < |charges|
  {
    Exceeds(limits, c, charges, i) && forall j :: 0 <= j < i ==> !Exceeds(limits, c, charges, j)
  }

  /** The counters of charges that all fit. */
  function Summed(c: Counters, charges: seq<Charge>): Counters {
    Counters(c.modelTurnsStarted + Turns(charges), c.assistantOutputBytes + Bytes(charges),
             c.toolCallsObserved + Calls(charges), None)
  }

  /** The budget a charge draws on. */
  function BudgetOf(charge: Charge): Exhaustion {
    match charge
    case Admit => ModelTurns
    case Reserve(_) => AssistantOutput
    case ToolCall => ToolCalls
    case WorkExpired => ProviderWork
  }

  /** The counters behind a first charge that does not fit: its own budget is exhausted, and a tool call
      is counted nevertheless. */
  function Overdrawn(c: Counters, before: seq<Charge>, charge: Charge): Counters {
    var sums := Summed(c, before);
    sums.(toolCallsObserved := sums.toolCallsObserved + (if charge.ToolCall? then 1 else 0),
          exhausted := Some(BudgetOf(charge)))
  }

  lemma ExceedsFront(limits: Limits, c: Counters, charges: seq<Charge>, last: Charge, i: nat)
    requires i < |charges|
    ensures Exceeds(limits, c, charges + [last], i) <==> Exceeds(limits, c, charges, i)
  {
    assert (charges + [last])[..i] == charges[..i] && (charges + [last])[i] == charges[i];
  }

  /** One charge behind charges that all fit. */
  lemma OneCharge(limits: Limits, c: Counters, front: seq<Charge>, last: Charge)
    ensures var charges := front + [last];
            Apply(limits, Summed(c, front), last)
            == if Exceeds(limits, c, charges, |front|) then Overdrawn(c, front, last)
               else Summed(c, charges)
  {
    assert (front + [last])[..|front|] == front;
  }

  /** Charges that all fit add up. */
  lemma {:induction false} FittingChargesAddUp(limits: Limits, c: Counters, charges: seq<Charge>)
    requires c.exhausted.None?
    requires forall i :: 0 <= i < |charges| ==> !Exceeds(limits, c, charges, i)
    ensures ApplyAll(limits, c, charges) == Summed(c, charges)
    decreases |charges|
  {
    hide Exceeds, Apply;
    if charges == [] {
      NothingCharged(limits, c);
    } else {
      var front, last := charges[..|charges| - 1], charges[|charges| - 1];
      assert front + [last] == charges;
      forall i | 0 <= i < |front| ensures !Exceeds(limits, c, front, i) {
        ExceedsFront(limits, c, front, last, i);
      }
      FittingChargesAddUp(limits, c, front);
      OneCharge(limits, c, front, last);
    }
  }

  lemma NothingCharged(limits: Limits, c: Counters)
    requires c.exhausted.None?
    ensures ApplyAll(limits, c, []) == Summed(c, [])
  {}

  /** The first charge that does not fit exhausts its own budget, and nothing behind it is counted. */
  lemma {:induction false} FirstExcessExhausts(
    limits: Limits, c: Counters, charges: seq<Charge>, i: nat)
    requires c.exhausted.None? && i < |charges| && FirstExcess(limits, c, charges, i)
    ensures ApplyAll(limits, c, charges) == Overdrawn(c, charges[..i], charges[i])
    decreases |charges|
  {
    hide Exceeds, Apply, Summed;
    var front, last := charges[..|charges| - 1], charges[|charges| - 1];
    assert front + [last] == charges;
    forall j | 0 <= j < |front|
      ensures Exceeds(limits, c, front, j) <==> Exceeds(limits, c, charges, j)
    {
      ExceedsFront(limits, c, front, last, j);
    }
    if i < |front| {
      FirstExcessExhausts(limits, c, front, i);
      assert front[..i] == charges[..i] && front[i] == charges[i];
      ExhaustedStays(limits, ApplyAll(limits, c, front), last);
    } else {
      FittingChargesAddUp(limits, c, front);
      OneCharge(limits, c, front, last);
    }
  }

  lemma ExhaustedStays(limits: Limits, c: Counters, charge: Charge)
    ensures c.exhausted.Some? ==> Apply(limits, c, charge) == c
  {}

  /** The tracker object: fields are charged in place. */
  class LoopLimitTracker {
    const limits: Limits
    var modelTurnsStarted: int
    var assistantOutputBytes: int
    var toolCallsObserved: int
    var exhausted: Option<Exhaustion>

    ghost function View(): Counters
      reads this
    {
      Counters(modelTurnsStarted, assistantOutputBytes, toolCallsObserved, exhausted)
    }

    ghost predicate Valid()
      reads this
    {
      limits.Valid() && Consistent(limits, View())
    }

    constructor (limits: Limits, seed: Counters)
      requires limits.Valid() && Consistent(limits, seed)
      ensures Valid() && this.limits == limits && View() == seed
    {
      this.limits := limits;
      modelTurnsStarted := seed.modelTurnsStarted;
      assistantOutputBytes := seed.assistantOutputBytes;
      toolCallsObserved := seed.toolCallsObserved;
      exhausted := seed.exhausted;
    }

    method AdmitTurn() returns (admitted: bool)
      modifies this
      ensures (View(), admitted) == AdmitModelTurn(limits, old(View()))
      ensures old(Valid()) ==> Valid()
    {
      if exhausted.Some? { return false; }
      if modelTurnsStarted >= limits.maxModelTurns {
        exhausted := Some(ModelTurns);
        return false;
      }
      modelTurnsStarted := modelTurnsStarted + 1;
      admitted := true;
    }

    /** Any call is taken; a valid tracker stays valid unless bytes are reserved on one that is not
        exhausted and never admitted a turn. */
    method ReserveOutput(bytes: nat) returns (reserved: bool)
      modifies this
      ensures (View(), reserved) == ReserveAssistantOutput(limits, old(View()), bytes)
      ensures old(Valid()) ==>
                (Valid() <==> bytes == 0 || old(modelTurnsStarted > 0 || exhausted.Some?))
    {
      if exhausted.Some? { return false; }
      var remaining := limits.maxAssistantOutputBytes - assistantOutputBytes;
      if bytes > remaining {
        exhausted := Some(AssistantOutput);
        return false;
      }
      assistantOutputBytes := assistantOutputBytes + bytes;
      reserved := true;
    }

    /** Any call is taken; a valid tracker stays valid unless it is not exhausted and never admitted a
        turn. */
    method ObserveCall() returns (within: bool)
      modifies this
      ensures (View(), within) == ObserveToolCall(limits, old(View()))
      ensures old(Valid()) ==> (Valid() <==> old(modelTurnsStarted > 0 || exhausted.Some?))
    {
      if exhausted.Some? { return false; }
      toolCallsObserved := toolCallsObserved + 1;
      if toolCallsObserved > limits.maxObservedToolCalls {
        exhausted := Some(ToolCalls);
        return false;
      }
      within := true;
    }

    method MarkExpired()
      modifies this
      ensures View() == MarkProviderWorkExhausted(old(View()))
      ensures old(Valid()) ==> Valid()
    {
      if exhausted.None? { exhausted := Some(ProviderWork); }
    }

    /** The evidence, or nothing when its own validation refuses it: exactly when the tracker is not
        valid. */
    method Snapshot(sessionId: string) returns (evidence: Option<Observed>)
      ensures evidence == if Valid() then Some(Observed(sessionId, limits, View())) else None
      ensures evidence.Some? ==> evidence.value.Valid()
    {
      var observed := Observed(sessionId, limits,
                               Counters(modelTurnsStarted, assistantOutputBytes, toolCallsObserved,
                                        exhausted));
      evidence := if observed.Valid() then Some(observed) else None;
    }
  }
}
