/** What a session publishes and records of an adapter operation is what the SDK said. */
module ComposedReports {
  import opened Prelude
  import opened AutomatonRuns
  import opened OperationSafety
  import opened ComposedRuns
  import P = ProviderEvents
  import V = AutomatonVerdicts
  import O = ResponsesOperation
  import OR = OperationRuns
  import M = SessionMachine
  import S = SessionSafety
  import R = SessionRuns
  import U = SessionUsage
  import L = LoopLimits
  import Tape

  /** Everything the session examined came out of the adapter's stream, save for the one failure that
      stands in for a success whose cleanup failed. */
  lemma ExaminedIsEmitted(
    model: string, cfg: M.Config, seed: L.Counters, now: int, moves: seq<Move>, w: World,
    event: P.ProviderEvent)
    requires Reached(model, cfg, seed, now, moves, w) && event in w.session.stream.delivered
    ensures || event in Drive(model, w.operation.inputs).emitted
            || event == P.Failed(P.Unknown, "OpenAI request failed.")
  {
    hide Reached, S.Inv, R.Reachable, OR.Schedule, Drive, HasCompleted, P.DeltaText;
    AdapterNeverRejected(model, cfg, seed, now, moves, w);
    ReachedBoth(model, cfg, seed, now, moves, w);
    BackedOnes(model, w.operation, event);
  }

  lemma BackedOnes(model: string, o: O.Operation, event: P.ProviderEvent)
    requires OperationSafety.Inv(model, o) && event in o.delivered
    ensures || event in Drive(model, o.inputs).emitted
            || event == P.Failed(P.Unknown, "OpenAI request failed.")
  {
    hide Drive, InvState, InvCancel, InvConsumer, InvTerminal;
    var emitted := Drive(model, o.inputs).emitted;
    if !(o.delivered <= emitted) {
      var front := o.delivered[..|o.delivered| - 1];
      assert o.delivered == front + [o.delivered[|o.delivered| - 1]];
    }
  }

  /** The recorded usage is the SDK's: each usage value told to the transcript carries the input and
      output tokens of a completion the adapter read. */
  lemma RecordedUsageIsTheSdks(
    model: string, cfg: M.Config, seed: L.Counters, now: int, moves: seq<Move>, w: World,
    usage: Tape.Usage)
    requires Reached(model, cfg, seed, now, moves, w)
    requires Tape.RecordUsage(usage) in w.session.recording.calls
    ensures usage.sessionId == cfg.sessionId
    ensures V.CompletionRead(w.operation.inputs, usage.inputTokens, usage.outputTokens)
  {
    hide Reached, S.Inv, OperationSafety.Inv, R.Reachable, OR.Schedule, Drive, P.TurnGrammar;
    hide V.CompletionRead;
    ReachedBoth(model, cfg, seed, now, moves, w);
    U.UsageIsTheProviders(cfg, seed, now, w.sessionSteps, w.session);
    var event := P.UsageReported(usage.inputTokens, usage.outputTokens);
    ExaminedIsEmitted(model, cfg, seed, now, moves, w, event);
    V.UsageSource(model, w.operation.inputs, usage.inputTokens, usage.outputTokens);
  }

  /** A published provider failure is the verdict on a read of the SDK's stream, with the code and the
      message that read is worth, or the general failure of an operation that could not release its
      resources. */
  lemma ProviderFailureIsTheSdks(
    model: string, cfg: M.Config, seed: L.Counters, now: int, moves: seq<Move>, w: World,
    code: P.FailureCode, message: string)
    requires Reached(model, cfg, seed, now, moves, w)
    requires w.session.selection == Some(M.ChooseProviderFailure(code, message))
    ensures || (code == P.Unknown && message == "OpenAI request failed.")
            || V.FailureRead(model, w.operation.inputs, P.Failed(code, message))
  {
    hide Reached, S.Inv, OperationSafety.Inv, R.Reachable, OR.Schedule, Drive, P.TurnGrammar, P.EndSeen;
    hide S.EndsAs, R.OpenBefore, V.FailureRead;
    ReachedBoth(model, cfg, seed, now, moves, w);
    R.ProviderGrammarDecides(cfg, seed, now, w.sessionSteps, w.session);
    var seen := w.session.stream.delivered;
    assert seen[|seen| - 1] == P.Failed(code, message);
    ExaminedIsEmitted(model, cfg, seed, now, moves, w, P.Failed(code, message));
    if P.Failed(code, message) in Drive(model, w.operation.inputs).emitted {
      V.FailureSource(model, w.operation.inputs, P.Failed(code, message));
    }
  }
}
