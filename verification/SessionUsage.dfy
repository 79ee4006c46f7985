/** The usage a session records is the usage its provider reported, over every schedule. */
module SessionUsage {
  import opened Prelude
  import opened Lifecycle
  import opened LoopLimits
  import opened Tape
  import opened SessionMachine
  import opened SessionSafety
  import opened SessionRuns
  import P = ProviderEvents

  /** The usage values told to the transcript, in order. */
  function Told(calls: seq<Call>): seq<Usage> {
    if calls == [] then []
    else
      var last := calls[|calls| - 1];
      Told(calls[..|calls| - 1]) + if last.RecordUsage? then [last.usage] else []
  }

  /** The usage value that is examined and not yet told. */
  function Pending(lock: DecisionLock): seq<Usage> {
    if lock.Held? && lock.at.NotifyUsage? then [lock.at.usage] else []
  }

  /** The usage values the provider reported, under the session's name: input first. */
  function Reported(sessionId: string, events: seq<P.ProviderEvent>): seq<Usage> {
    if events == [] then []
    else
      Reported(sessionId, events[..|events| - 1])
      + match events[|events| - 1] {
          case UsageReported(input, output) => [Usage(sessionId, input, output)]
          case _ => []
        }
  }

  predicate SameUsage(s: Session, t: Session) {
    && Told(t.recording.calls) == Told(s.recording.calls)
    && Pending(t.lock) == Pending(s.lock)
    && t.stream.delivered == s.stream.delivered
    && t.stream.scan == s.stream.scan
  }

  predicate UsageIf(s: Session, t: Option<Session>) { t.Some? ==> SameUsage(s, t.value) }

  lemma SelectingKeepsUsage()
    ensures forall s: Session, c: Choice :: SameUsage(s, Select(s, c))
    ensures forall s: Session, c: Choice :: Select(s, c).lock == s.lock
    ensures forall s: Session, mode: CleanupMode :: SameUsage(s, EnsureCleanup(s, mode))
    ensures forall s: Session :: SameUsage(s, Latch(s))
    ensures forall s: Session :: SameUsage(s, Expire(s)) && Expire(s).lock == s.lock
  {
    hide Told;
  }

  lemma ToldSnoc(calls: seq<Call>, last: Call)
    ensures Told(calls + [last]) == Told(calls) + if last.RecordUsage? then [last.usage] else []
  {
    assert (calls + [last])[..|calls|] == calls;
  }

  lemma AcceptingKeepsUsage(cfg: Config, s: Session, u: Update)
    ensures SameUsage(s, AcceptUpdate(cfg, s, u)) && AcceptUpdate(cfg, s, u).lock == s.lock
  {
    hide Reduce, Guard, Told;
    match Reduce(s.life, u)
    case Accepted(next) => ToldSnoc(s.recording.calls, RecordUpdate(u, next));
    case Rejected(_, _) =>
  }

  lemma StartKeepsUsage(cfg: Config, s: Session, result: StartResult, before: nat, during: nat)
    ensures UsageIf(s, StartProvider(cfg, s, result, before, during))
  {
    hide Told, Select, Expire;
    SelectingKeepsUsage();
  }

  lemma LoopKeepsUsage(cfg: Config, s: Session, read: ReadResult, reapFailed: bool)
    ensures UsageIf(s, BeginRead(s)) && UsageIf(s, FinishRead(cfg, s, read, reapFailed))
    ensures UsageIf(s, SelectExpired(s)) && UsageIf(s, BeginInvalid(s))
    ensures UsageIf(s, BeginObservation(s)) && UsageIf(s, LeaveLoop(s)) && UsageIf(s, JoinFinalizer(s))
  {
    hide Told, Expire;
    SelectingKeepsUsage();
  }

  lemma HandlersKeepUsage(s: Session)
    ensures UsageIf(s, Run(s)) && UsageIf(s, BeginStarted(s)) && UsageIf(s, CancelRunner(s))
    ensures UsageIf(s, HandleRaised(s)) && UsageIf(s, BeginRecovery(s))
    ensures UsageIf(s, ResumeRecovered(s)) && UsageIf(s, BeginRunnerTeardown(s))
  {
    hide Told;
  }

  lemma RunnerKeepsUsage(cfg: Config, s: Session, step: Step)
    requires OfRunner(step)
    ensures UsageIf(s, TakeRunner(cfg, s, step))
  {
    hide UsageIf, Run, BeginStarted, StartProvider, BeginRead, FinishRead, SelectExpired, BeginInvalid;
    hide BeginObservation, LeaveLoop, JoinFinalizer, CancelRunner, HandleRaised, BeginRecovery;
    hide ResumeRecovered, BeginRunnerTeardown;
    var (read, reapFailed) :=
      if step.DoFinishRead? then (step.read, step.reapFailed) else (StreamOver, false);
    if step.DoStartProvider? {
      StartKeepsUsage(cfg, s, step.result, step.before, step.during);
    } else {
      LoopKeepsUsage(cfg, s, read, reapFailed);
      HandlersKeepUsage(s);
    }
  }

  lemma WritersKeepUsage(cfg: Config, s: Session, written: bool)
    ensures UsageIf(s, PublishStarted(cfg, s, written)) && UsageIf(s, PublishDelta(cfg, s, written))
    ensures UsageIf(s, PublishText(cfg, s, written)) && UsageIf(s, PublishTerminal(cfg, s, written))
  {
    hide Told, Hear, TerminalOf;
  }

  lemma AdmissionsKeepUsage(cfg: Config, s: Session)
    ensures UsageIf(s, AdmitStarted(cfg, s)) && UsageIf(s, AdmitDelta(cfg, s))
    ensures UsageIf(s, AdmitText(cfg, s)) && UsageIf(s, AdmitTerminal(cfg, s))
    ensures UsageIf(s, AdmitDeferred(cfg, s))
  {
    hide Told, AcceptUpdate;
    if s.lock.Held? && Accepting(s.lock.at) { AcceptingKeepsUsage(cfg, s, Wire(s.lock.at.event)); }
    if s.start.deferred.Some? {
      AcceptingKeepsUsage(cfg, s, CancelRequested(s.start.deferred.value, cfg.sessionId));
    }
  }

  lemma LimitsKeepUsage(cfg: Config, s: Session)
    ensures UsageIf(s, NotifyLimitsStep(cfg, s))
  {
    hide Told, Guard;
    ToldSnoc(s.recording.calls, RecordLimits(Observed(cfg.sessionId, cfg.limits, s.budget.counters)));
  }

  lemma DecisionsKeepUsage(cfg: Config, s: Session)
    ensures UsageIf(s, EnterObservationStep(cfg, s)) && UsageIf(s, RecheckDeadlineStep(cfg, s))
    ensures UsageIf(s, ChooseStep(cfg, s))
  {
    hide Told, Select, Expire;
    SelectingKeepsUsage();
  }

  lemma HolderKeepsUsage(cfg: Config, s: Session, step: Step)
    requires OfHolder(step) && !step.DoNotifyUsage? && !step.DoDispatch?
    ensures UsageIf(s, TakeHolder(cfg, s, step))
  {
    hide UsageIf, PublishStarted, PublishDelta, PublishText, PublishTerminal, AdmitStarted, AdmitDelta;
    hide AdmitText, AdmitTerminal, AdmitDeferred, NotifyLimitsStep, EnterObservationStep;
    hide RecheckDeadlineStep, ChooseStep;
    WritersKeepUsage(cfg, s, true);
    WritersKeepUsage(cfg, s, false);
    AdmissionsKeepUsage(cfg, s);
    LimitsKeepUsage(cfg, s);
    DecisionsKeepUsage(cfg, s);
  }

  lemma RequestKeepsUsage(cfg: Config, s: Session, command: string)
    ensures UsageIf(s, RequestCancellation(cfg, s, command))
  {
    hide Told, AcceptUpdate;
    AcceptingKeepsUsage(cfg, s.(lock := Held(Caller, Choosing(ChooseUserCancel(command)))),
                        CancelRequested(command, cfg.sessionId));
  }

  lemma OtherKeepsUsage(cfg: Config, s: Session, step: Step)
    requires !OfRunner(step) && !OfHolder(step)
    ensures UsageIf(s, TakeOther(cfg, s, step))
  {
    hide Told, Latch, EnsureCleanup, RequestCancellation;
    SelectingKeepsUsage();
    if step.DoRequestCancellation? { RequestKeepsUsage(cfg, s, step.command); }
  }

  // ----- The invariant -----

  /** What was told and what is pending is what was reported; only a report that broke the grammar,
      which is always the latest event, is left out. */
  ghost predicate UsageInv(cfg: Config, s: Session) {
    var told, delivered := Told(s.recording.calls) + Pending(s.lock), s.stream.delivered;
    if s.stream.scan.valid then told == Reported(cfg.sessionId, delivered)
    else delivered != [] && told == Reported(cfg.sessionId, delivered[..|delivered| - 1])
  }

  lemma ValidAtDispatch(cfg: Config, s: Session)
    requires Inv(cfg, s) && s.lock.Held? && s.lock.at.DispatchObservation?
    ensures s.stream.scan.valid && s.lock.at.observed.Valid()
    ensures s.stream.scan.text == Join(s.stream.acceptedText)
    ensures s.stream.acceptedText == [] <==> s.stream.scan.text == ""
    ensures s.stream.scan.completed == s.stream.completedText.Some?
    ensures s.stream.scan.usage == s.stream.usageObserved
  {
    hide InvStart, InvFinalizer, InvLife, InvTape, InvBudget, InvCleanup, InvEvents;
  }

  /** Deltas and tool calls have no part in this. */
  lemma ChargingKeepsUsage(cfg: Config, s: Session, text: string)
    requires s.lock.Held? && s.lock.at.DispatchObservation?
    ensures SameUsage(s, DispatchDelta(cfg, s, text)) && DispatchDelta(cfg, s, text).recording == s.recording
    ensures SameUsage(s, DispatchToolCall(cfg, s)) && DispatchToolCall(cfg, s).recording == s.recording
  {
    hide Told, Select, Expire;
    SelectingKeepsUsage();
    SelectingKeepsLogs();
  }

  lemma DispatchReports(cfg: Config, s: Session)
    requires Inv(cfg, s) && DispatchStep(cfg, s).Some?
    ensures var t := DispatchStep(cfg, s).value;
            && t.recording == s.recording
            && t.stream.delivered == s.stream.delivered + [s.lock.at.observed]
            && t.stream.scan == P.Observe(s.stream.scan, s.lock.at.observed)
            && Pending(s.lock) == []
            && Pending(t.lock)
               == (if t.stream.scan.valid && s.lock.at.observed.UsageReported? then
                     [Usage(cfg.sessionId, s.lock.at.observed.inputTokens,
                            s.lock.at.observed.outputTokens)]
                   else [])
  {
    hide Inv, DispatchDelta, DispatchToolCall, Told;
    ValidHere(cfg, s);
    ValidAtDispatch(cfg, s);
    var t := s.Examine(s.lock.at.observed);
    ChargingKeepsUsage(cfg, t, if s.lock.at.observed.TextDelta? then s.lock.at.observed.text else "");
  }

  lemma DispatchKeepsInv(cfg: Config, s: Session)
    requires Inv(cfg, s) && UsageInv(cfg, s) && DispatchStep(cfg, s).Some?
    ensures UsageInv(cfg, DispatchStep(cfg, s).value)
  {
    hide Inv, DispatchStep, Told, P.Observe;
    ValidHere(cfg, s);
    DispatchReports(cfg, s);
    var delivered := DispatchStep(cfg, s).value.stream.delivered;
    assert delivered[..|delivered| - 1] == s.stream.delivered;
  }

  lemma ValidHere(cfg: Config, s: Session)
    requires Inv(cfg, s) && DispatchStep(cfg, s).Some?
    ensures s.stream.scan.valid
  {
    hide Inv;
    ValidAtDispatch(cfg, s);
  }

  lemma NotifyKeepsInv(cfg: Config, s: Session)
    requires UsageInv(cfg, s) && NotifyUsageStep(cfg, s).Some?
    ensures UsageInv(cfg, NotifyUsageStep(cfg, s).value)
  {
    hide Guard, Reported, Told;
    ToldSnoc(s.recording.calls, RecordUsage(s.lock.at.usage));
  }

  lemma TakeKeepsUsageInv(cfg: Config, s: Session, step: Step)
    requires Inv(cfg, s) && UsageInv(cfg, s) && Take(cfg, s, step).Some?
    ensures UsageInv(cfg, Take(cfg, s, step).value)
  {
    hide Inv, Told, Reported, TakeRunner, TakeOther;
    if step.DoDispatch? {
      hide UsageInv, DispatchStep;
      DispatchKeepsInv(cfg, s);
    } else if step.DoNotifyUsage? {
      hide UsageInv, NotifyUsageStep;
      NotifyKeepsInv(cfg, s);
    } else {
      hide TakeHolder;
      if OfRunner(step) {
        RunnerKeepsUsage(cfg, s, step);
      } else if OfHolder(step) {
        HolderKeepsUsage(cfg, s, step);
      } else {
        OtherKeepsUsage(cfg, s, step);
      }
    }
  }

  lemma {:induction false} ReachableUsage(
    cfg: Config, seed: Counters, now: int, steps: seq<Step>, s: Session)
    requires Reachable(cfg, seed, now, steps, s)
    ensures UsageInv(cfg, s)
    decreases |steps|
  {
    hide Inv, UsageInv, Take;
    if steps == [] {
      NothingToldYet(cfg, seed, now);
    } else {
      var front := steps[..|steps| - 1];
      var before := Schedule(cfg, Created(cfg, seed, now), front).value;
      ReachableUsage(cfg, seed, now, front, before);
      ReachableInv(cfg, seed, now, front, before);
      TakeKeepsUsageInv(cfg, before, steps[|steps| - 1]);
    }
  }

  lemma NothingToldYet(cfg: Config, seed: Counters, now: int)
    ensures UsageInv(cfg, Created(cfg, seed, now))
  {
    ToldSnoc([], Created(cfg, seed, now).recording.calls[0]);
    assert [] + Created(cfg, seed, now).recording.calls == Created(cfg, seed, now).recording.calls;
  }

  // ----- Main result -----

  lemma {:induction false} ToldAre(calls: seq<Call>)
    ensures forall u :: u in Told(calls) <==> RecordUsage(u) in calls
  {
    if calls != [] {
      var front, last := calls[..|calls| - 1], calls[|calls| - 1];
      ToldAre(front);
      assert calls == front + [last];
    }
  }

  lemma {:induction false} ReportedAre(sessionId: string, events: seq<P.ProviderEvent>)
    ensures forall u :: u in Reported(sessionId, events) <==>
              u.sessionId == sessionId && P.UsageReported(u.inputTokens, u.outputTokens) in events
  {
    if events != [] {
      var front, last := events[..|events| - 1], events[|events| - 1];
      ReportedAre(sessionId, front);
      assert events == front + [last];
    }
  }

  /** In every interleaving, a usage value told to the transcript is one the provider reported, input
      as input and output as output, under the session's own name; and while the provider keeps to the
      grammar, every report is told or just about to be. */
  lemma UsageIsTheProviders(
    cfg: Config, seed: Counters, now: int, steps: seq<Step>, s: Session)
    requires Reachable(cfg, seed, now, steps, s)
    ensures forall call :: call in s.recording.calls && call.RecordUsage? ==>
              && call.usage.sessionId == cfg.sessionId
              && P.UsageReported(call.usage.inputTokens, call.usage.outputTokens)
                 in s.stream.delivered
    ensures P.TurnGrammar(s.stream.delivered) ==>
              forall input: nat, output: nat :: P.UsageReported(input, output) in s.stream.delivered ==>
                || RecordUsage(Usage(cfg.sessionId, input, output)) in s.recording.calls
                || s.lock == Held(Runner, NotifyUsage(Usage(cfg.sessionId, input, output)))
  {
    hide Inv, Logged, Reachable, Told, Reported, P.TurnGrammar, P.ScanAll;
    ReachableUsage(cfg, seed, now, steps, s);
    ReachableLogged(cfg, seed, now, steps, s);
    ReachableInv(cfg, seed, now, steps, s);
    NotifierIsRunner(cfg, s);
    ScanIs(cfg, s);
    P.ScanDecides(s.stream.delivered);
    var delivered := s.stream.delivered;
    var heard := if s.stream.scan.valid then delivered else delivered[..|delivered| - 1];
    ToldAre(s.recording.calls);
    ReportedAre(cfg.sessionId, heard);
    forall call | call in s.recording.calls && call.RecordUsage?
      ensures && call.usage.sessionId == cfg.sessionId
              && P.UsageReported(call.usage.inputTokens, call.usage.outputTokens) in delivered
    {
      assert call == RecordUsage(call.usage);
      assert call.usage in Told(s.recording.calls);
      assert call.usage in Reported(cfg.sessionId, heard);
    }
    if P.TurnGrammar(delivered) {
      forall input: nat, output: nat | P.UsageReported(input, output) in delivered
        ensures || RecordUsage(Usage(cfg.sessionId, input, output)) in s.recording.calls
                || s.lock == Held(Runner, NotifyUsage(Usage(cfg.sessionId, input, output)))
      {
        assert Usage(cfg.sessionId, input, output) in Reported(cfg.sessionId, heard);
      }
    }
  }

  lemma NotifierIsRunner(cfg: Config, s: Session)
    requires Inv(cfg, s)
    ensures s.lock.Held? && s.lock.at.NotifyUsage? ==> s.lock.owner.Runner?
  {
    hide InvStart, InvFinalizer, InvLife, InvText, InvPoint, InvTape, InvBudget, InvCleanup;
    hide InvEvents, InvScan;
  }

  lemma ScanIs(cfg: Config, s: Session)
    requires Logged(cfg, s)
    ensures s.stream.scan == P.ScanAll(s.stream.delivered)
  {}
}
