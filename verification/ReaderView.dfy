/** A TypeScript reader of the protocol stream follows every session Python can publish. */
module ReaderView {
  import opened Prelude
  import opened Lifecycle
  import opened LifecycleTs
  import opened LoopLimits
  import opened SessionMachine
  import opened WireGrammar
  import Runs = SessionRuns

  lemma StartsWellFormed()
    ensures WellFormed(INITIAL)
  {}

  /** In every interleaving, a reader that submitted the task and may have sent one cancellation, which
      any published cancellation answers, accepts the published events with the TypeScript reducer. */
  lemma ReaderFollowsSession(
    cfg: Config, seed: Counters, now: int, steps: seq<Step>, s: Session, at: nat, command: string)
    requires Runs.Reachable(cfg, seed, now, steps, s)
    requires at > 0 && CancelAnswered(s.output.published, at, command)
    ensures var updates := ReaderUpdates(cfg, s.output.published, at, command);
            && ReplayTs(INITIAL, updates).Accepted?
            && ReplayTs(INITIAL, updates).state.lastSequence == |s.output.published|
            && ReplayTs(INITIAL, updates).state.assistantText == Spoken(s.output.published)
  {
    hide Runs.Reachable, LegalSession, CancelAnswered, ReaderUpdates, Replay, ReplayTs, WellFormed;
    Runs.PublishedIsLegal(cfg, seed, now, steps, s);
    ReaderAccepts(cfg, s.output.published, at, command);
    StartsWellFormed();
    ReplayParity(INITIAL, ReaderUpdates(cfg, s.output.published, at, command));
  }
}
