/** From the provider session through its transcript and back: what a session did is what a replay of
    its transcript shows. */
module EndToEnd {
  import opened Prelude
  import opened Lifecycle
  import opened LoopLimits
  import opened Tape
  import opened Utf8
  import opened TranscriptWriter
  import opened TranscriptRuns
  import opened WireGrammar
  import S = Sanitizer
  import R = TranscriptReplay
  import M = SessionMachine
  import P = ProviderEvents
  import Runs = SessionRuns
  import Inv = SessionSafety
  import Usages = SessionUsage

  // ----- The byte budget keeps the replay-size guard silent -----

  /** The largest text limit whose budget, marker and omissions always fit the replay cap. */
  const MAX_SILENT_LIMIT := R.MAX_REPLAY_ASSISTANT_BYTES - R.MAX_TRANSCRIPT_RECORDS - 11

  ghost predicate BudgetInv(o: Options, w: Writer) {
    && (w.failure.None? ==>
          && S.WithinBudget(o.settings.textLimit, w.memory, |w.records|)
          && w.tape.state.assistantText == w.memory.safeText)
    && WellFormed(w.tape.state)
  }

  lemma BudgetGrows(limit: nat, z: S.Memory, n: nat, m: nat)
    requires S.WithinBudget(limit, z, n) && n <= m
    ensures S.WithinBudget(limit, z, m)
  {}

  /** What an admitted call does to the persisted text. */
  lemma AdmittedText(o: Options, w: Writer, request: Request)
    requires o.settings.Valid() && BudgetInv(o, w) && w.failure.None?
    requires w.memory.contentBytes <= o.settings.textLimit
    requires Guard(o.sessionId, w.tape, SafeCall(o, w, request).1).Some?
    ensures var (after, safe) := SafeCall(o, w, request);
            var next := Guard(o.sessionId, w.tape, safe).value;
            && next.state.assistantText == after.safeText
            && WellFormed(next.state)
            && S.WithinBudget(o.settings.textLimit, after, |w.records| + 1)
  {
    hide LimitsMatchTerminal, UsesLimitCode, SameLifecycle, S.Sanitize, Length;
    var (after, safe) := SafeCall(o, w, request);
    GuardFacts(o.sessionId, w.tape, safe);
    if request.call.RecordUpdate? {
      var u := request.call.update;
      S.SanitizeShape(o.settings, w.memory, u, request.credentials);
      S.SanitizeKeepsBudget(o.settings, w.memory, u, request.credentials, |w.records|);
      BudgetGrows(o.settings.textLimit, after, |w.records| + if u.IsDelta() then 1 else 0,
                  |w.records| + 1);
    } else {
      BudgetGrows(o.settings.textLimit, after, |w.records|, |w.records| + 1);
    }
  }

  lemma PerformKeepsBudget(o: Options, w: Writer, request: Request)
    requires o.settings.Valid() && BudgetInv(o, w)
    requires w.memory.contentBytes <= o.settings.textLimit
    ensures BudgetInv(o, Perform(o, w, request).0)
  {
    hide S.Sanitize, SafeCall, Guard, LineOf, Append, Length, BuildRecord, S.WithinBudget, WellFormed;
    var (after, safe) := SafeCall(o, w, request);
    if Guard(o.sessionId, w.tape, safe).Some? && w.failure.None? {
      AdmittedText(o, w, request);
    }
  }

  lemma {:induction false} RunKeepsBudget(o: Options, requests: seq<Request>)
    requires o.settings.Valid()
    ensures BudgetInv(o, Run(o, requests).0)
    decreases |requests|
  {
    hide Perform, WellFormed;
    if requests == [] {
      NothingPersisted(o);
    } else {
      hide BudgetInv;
      RunKeepsBudget(o, requests[..|requests| - 1]);
      PerformKeepsBudget(o, Run(o, requests[..|requests| - 1]).0, requests[|requests| - 1]);
    }
  }

  lemma NothingPersisted(o: Options)
    ensures BudgetInv(o, OPENED)
  {}

  /** With a text limit up to 131,061 bytes, which the default of 16,384 is far below, no call that the
      guards admit within the record cap ever exceeds the replay's cap on assistant text. */
  lemma ReplaySizeGuardNeverFires(o: Options, requests: seq<Request>, next: Request)
    requires o.settings.Valid() && o.settings.textLimit <= MAX_SILENT_LIMIT
    requires var w := Run(o, requests).0;
             && w.failure.None? && |w.records| < R.MAX_TRANSCRIPT_RECORDS
             && Guard(o.sessionId, w.tape, SafeCall(o, w, next).1).Some?
    ensures var w := Run(o, requests).0;
            Length(Guard(o.sessionId, w.tape, SafeCall(o, w, next).1).value.state.assistantText)
            <= R.MAX_REPLAY_ASSISTANT_BYTES
  {
    hide Run, Guard, SafeCall, BudgetInv;
    RunKeepsBudget(o, requests);
    AdmittedText(o, Run(o, requests).0, next);
  }

  // ----- Calls the guards admit are all recorded -----

  function Calls(requests: seq<Request>): seq<Call> {
    if requests == [] then []
    else Calls(requests[..|requests| - 1]) + [requests[|requests| - 1].call]
  }

  predicate Visible(call: Call) { call.RecordUpdate? ==> S.NonEmptyText(call.update) }

  /** Storage lets this call through: its record encodes, fits, and is written and flushed. */
  ghost predicate Smooth(o: Options, w: Writer, request: Request)
    requires o.settings.Valid() && w.memory.contentBytes <= o.settings.textLimit
  {
    var record := BuildRecord(o, w, SafeCall(o, w, request).1, request.now);
    && LineOf(o, w, record).Some?
    && Append(LineOf(o, w, record).value, request.faults).1.None?
    && request.faults.summaryOk
  }

  /** Nothing in the environment keeps any call of the run from being stored. */
  ghost predicate SmoothRun(o: Options, requests: seq<Request>)
    requires o.settings.Valid()
  {
    forall i :: 0 <= i < |requests| ==> Smooth(o, Run(o, requests[..i]).0, requests[i])
  }

  /** The transcript's own tape stands for the live one. */
  predicate StandsFor(w: Writer, live: Tape) {
    && S.Stands(w.memory, w.tape.state, live.state)
    && w.tape.evidence == live.evidence
  }

  /** A call the guards admit on the live tape, they admit in its sanitised form. */
  lemma SafeCallAdmitted(o: Options, w: Writer, live: Tape, request: Request)
    requires o.settings.Valid() && w.memory.contentBytes <= o.settings.textLimit
    requires StandsFor(w, live) && Visible(request.call)
    requires Guard(o.sessionId, live, request.call).Some?
    ensures var (after, safe) := SafeCall(o, w, request);
            && Guard(o.sessionId, w.tape, safe).Some?
            && StandsFor(w.(memory := after, tape := Guard(o.sessionId, w.tape, safe).value),
                         Guard(o.sessionId, live, request.call).value)
  {
    if request.call.RecordUpdate? {
      SafeUpdateAdmitted(o, w, live, request);
    } else {
      hide WellFormed;
    }
  }

  lemma SafeUpdateAdmitted(o: Options, w: Writer, live: Tape, request: Request)
    requires o.settings.Valid() && w.memory.contentBytes <= o.settings.textLimit
    requires StandsFor(w, live) && Visible(request.call) && request.call.RecordUpdate?
    requires Guard(o.sessionId, live, request.call).Some?
    ensures var (after, safe) := SafeCall(o, w, request);
            && Guard(o.sessionId, w.tape, safe).Some?
            && StandsFor(w.(memory := after, tape := Guard(o.sessionId, w.tape, safe).value),
                         Guard(o.sessionId, live, request.call).value)
  {
    hide Reduce, S.Sanitize, WellFormed, S.NonEmptyText, IsLoopLimitCode;
    var u := request.call.update;
    S.SimulationStep(o.settings, w.memory, w.tape.state, live.state, u, request.credentials);
    S.SanitizeShape(o.settings, w.memory, u, request.credentials);
  }

  /** A run whose calls the guards admit, and which storage lets through, is recorded completely. */
  lemma {:induction false} AllCallsAreRecorded(o: Options, requests: seq<Request>)
    requires o.settings.Valid() && o.settings.textLimit <= MAX_SILENT_LIMIT
    requires SmoothRun(o, requests)
    requires forall i :: 0 <= i < |requests| ==> Visible(requests[i].call)
    requires RunGuards(o.sessionId, Calls(requests)).Some?
    ensures var w := Run(o, requests).0;
            && w.failure.None?
            && |w.records| == |requests|
            && StandsFor(w, RunGuards(o.sessionId, Calls(requests)).value)
            && (w.closed <==> w.tape.state.status.Terminal())
    decreases |requests|
  {
    hide Perform, SafeCall, Guard, Visible, StandsFor, Smooth, Run;
    if requests == [] {
      NothingRecorded(o);
    } else {
      var front, last := requests[..|requests| - 1], requests[|requests| - 1];
      SmoothFront(o, requests);
      RunGuardsSnoc(o.sessionId, Calls(front), last.call);
      AllCallsAreRecorded(o, front);
      RunSnoc(o, requests);
      RecordedStep(o, front, last);
    }
  }

  lemma NothingRecorded(o: Options)
    requires o.settings.Valid()
    ensures Run(o, []).0 == OPENED && StandsFor(OPENED, BLANK) && Calls([]) == []
  {}

  lemma RunSnoc(o: Options, requests: seq<Request>)
    requires o.settings.Valid() && requests != []
    ensures var front := requests[..|requests| - 1];
            Run(o, requests).0 == Perform(o, Run(o, front).0, requests[|requests| - 1]).0
  {}

  lemma SmoothFront(o: Options, requests: seq<Request>)
    requires o.settings.Valid() && SmoothRun(o, requests) && requests != []
    ensures SmoothRun(o, requests[..|requests| - 1])
    ensures Smooth(o, Run(o, requests[..|requests| - 1]).0, requests[|requests| - 1])
  {
    hide Smooth, Run;
    var front := requests[..|requests| - 1];
    forall i | 0 <= i < |front| ensures Smooth(o, Run(o, front[..i]).0, front[i]) {
      assert front[..i] == requests[..i] && front[i] == requests[i];
    }
  }

  lemma RecordedStep(o: Options, front: seq<Request>, last: Request)
    requires o.settings.Valid() && o.settings.textLimit <= MAX_SILENT_LIMIT
    requires Smooth(o, Run(o, front).0, last) && Visible(last.call)
    requires RunGuards(o.sessionId, Calls(front)).Some?
    requires Guard(o.sessionId, RunGuards(o.sessionId, Calls(front)).value, last.call).Some?
    requires var w := Run(o, front).0;
             && w.failure.None? && |w.records| == |front|
             && StandsFor(w, RunGuards(o.sessionId, Calls(front)).value)
             && (w.closed <==> w.tape.state.status.Terminal())
    ensures var w := Run(o, front).0;
            var after := Perform(o, w, last).0;
            && after.failure.None?
            && |after.records| == |front| + 1
            && StandsFor(after,
                         Guard(o.sessionId, RunGuards(o.sessionId, Calls(front)).value, last.call).value)
            && (after.closed <==> after.tape.state.status.Terminal())
  {
    hide Run, RunGuards, Visible, StandsFor, S.Sanitize, Length, Append, LineOf, BuildRecord;
    hide Guard, SafeCall;
    var w := Run(o, front).0;
    var live := RunGuards(o.sessionId, Calls(front)).value;
    GuardsOpen(o.sessionId, live, last.call);
    StandsTogether(w, live);
    SafeCallAdmitted(o, w, live, last);
    RecordCap(o, w, BuildRecord(o, w, SafeCall(o, w, last).1, last.now));
    ReplaySizeGuardNeverFires(o, front, last);
    MemoryIrrelevant(o, w, SafeCall(o, w, last).0, SafeCall(o, w, last).1, last.now);
    StandsForFields(w.(memory := SafeCall(o, w, last).0,
                       tape := Guard(o.sessionId, w.tape, SafeCall(o, w, last).1).value),
                    Perform(o, w, last).0, Guard(o.sessionId, live, last.call).value);
  }

  lemma StandsForFields(a: Writer, b: Writer, live: Tape)
    ensures a.memory == b.memory && a.tape == b.tape ==> (StandsFor(a, live) <==> StandsFor(b, live))
  {}

  /** What the sanitiser remembers has no part in building or fitting a record. */
  lemma MemoryIrrelevant(o: Options, w: Writer, memory: S.Memory, safe: Call, now: string)
    ensures var other := w.(memory := memory);
            && BuildRecord(o, other, safe, now) == BuildRecord(o, w, safe, now)
            && LineOf(o, other, BuildRecord(o, w, safe, now))
               == LineOf(o, w, BuildRecord(o, w, safe, now))
  {}

  lemma RecordCap(o: Options, w: Writer, record: R.Record)
    requires LineOf(o, w, record).Some?
    ensures |w.records| < R.MAX_TRANSCRIPT_RECORDS
  {}

  lemma GuardsOpen(sessionId: string, tape: Tape, call: Call)
    requires Guard(sessionId, tape, call).Some?
    ensures !tape.state.status.Terminal()
  {
    hide SameLifecycle, LimitsMatchTerminal, UsesLimitCode;
  }

  lemma StandsTogether(w: Writer, live: Tape)
    requires StandsFor(w, live)
    ensures w.tape.state.status == live.state.status
  {}

  // ----- The whole way -----

  lemma {:induction false} WiresVisible(calls: seq<Call>)
    requires forall e :: e in Wires(Updates(calls)) ==>
               (e.body.AssistantDelta? ==> e.body.text != "")
               && (e.body.AssistantCompleted? ==> e.body.text != "")
    ensures forall i :: 0 <= i < |calls| ==> Visible(calls[i])
  {
    if calls != [] {
      var front, last := calls[..|calls| - 1], calls[|calls| - 1];
      Runs.WiresSnoc(calls);
      assert Wires(Updates(calls)) == Wires(Updates(front)) + Runs.WiresOf(last);
      WiresVisible(front);
      if last.RecordUpdate? && last.update.Wire? {
        assert last.update.event in Wires(Updates(calls));
      }
      hide Updates, Wires;
      forall i | 0 <= i < |calls| ensures Visible(calls[i]) {
        if i < |front| { assert front[i] == calls[i]; }
      }
    }
  }

  lemma LegalTexts(cfg: M.Config, events: seq<Event>, e: Event)
    requires LegalSession(cfg, events) && e in events
    ensures e.body.AssistantDelta? ==> e.body.text != ""
    ensures e.body.AssistantCompleted? ==> e.body.text != ""
  {
    var i :| 0 <= i < |events| && events[i] == e;
    assert MayBeNext(cfg, events[..i], events[i]);
  }

  /** Every update a session makes is visible text or none. */
  lemma SessionCallsVisible(
    cfg: M.Config, seed: Counters, now: int, steps: seq<M.Step>, s: M.Session)
    requires Runs.Reachable(cfg, seed, now, steps, s)
    ensures forall i :: 0 <= i < |s.recording.calls| ==> Visible(s.recording.calls[i])
  {
    hide Runs.Reachable, LegalSession, Updates, Wires, Visible;
    Runs.PublishedIsLegal(cfg, seed, now, steps, s);
    Runs.PublishedAreRecorded(cfg, seed, now, steps, s);
    var wires := Wires(Updates(s.recording.calls));
    forall e | e in wires
      ensures (e.body.AssistantDelta? ==> e.body.text != "")
              && (e.body.AssistantCompleted? ==> e.body.text != "")
    {
      assert e in s.output.published;
      LegalTexts(cfg, s.output.published, e);
    }
    WiresVisible(s.recording.calls);
  }

  /** End to end: in any interleaving, a session whose transcript meets no storage fault is recorded
      call by call, and replaying the file gives a state that agrees with the live one on everything
      but sanitised text, the same usage and limits evidence, and completeness exactly when the
      session has ended. */
  lemma ReplayShowsTheSession(
    cfg: M.Config, seed: Counters, now: int, steps: seq<M.Step>, s: M.Session,
    o: Options, scope: Option<string>, requests: seq<Request>)
    requires Runs.Reachable(cfg, seed, now, steps, s)
    requires Trusted(o, scope) && o.settings.textLimit <= MAX_SILENT_LIMIT
    requires o.sessionId == cfg.sessionId
    requires Calls(requests) == s.recording.calls && SmoothRun(o, requests)
    ensures var w := Run(o, requests).0;
            var read := R.ReplayFrom(o.codec, scope, R.UNREAD, w.file);
            && read.Ok?
            && |read.reader.records| == |s.recording.calls|
            && SameLifecycle(read.reader.state, s.life)
            && s.recording.tape == Some(Tape(s.life, read.reader.evidence))
            && (read.reader.Complete() <==> s.life.status.Terminal())
  {
    hide Runs.Reachable, Run, RunGuards, SmoothRun, R.ReplayFrom, Visible, FileInv, R.CodecOk;
    Runs.TranscriptAcceptsEveryCall(cfg, seed, now, steps, s);
    Runs.RecordingIsGuarded(cfg, seed, now, steps, s);
    SessionCallsVisible(cfg, seed, now, steps, s);
    CallsAlign(requests);
    assert forall i :: 0 <= i < |requests| ==> Visible(requests[i].call);
    AllCallsAreRecorded(o, requests);
    CommittedRecordsReplay(o, scope, requests);
    FileIsCommittedRecords(o, requests);
    var w := Run(o, requests).0;
    assert Committed(o, w) + [] == Committed(o, w);
    assert w.torn == [];
  }

  /** The evidence a replay shows: the usage is one the provider reported, token for token, and no
      report of a grammatical stream is missing once it has been told; the limits are the session's
      own, and an ended session always has them. */
  lemma ReplayShowsTheEvidence(
    cfg: M.Config, seed: Counters, now: int, steps: seq<M.Step>, s: M.Session,
    o: Options, scope: Option<string>, requests: seq<Request>)
    requires Runs.Reachable(cfg, seed, now, steps, s)
    requires Trusted(o, scope) && o.settings.textLimit <= MAX_SILENT_LIMIT
    requires o.sessionId == cfg.sessionId
    requires Calls(requests) == s.recording.calls && SmoothRun(o, requests)
    ensures var read := R.ReplayFrom(o.codec, scope, R.UNREAD, Run(o, requests).0.file);
            && read.Ok?
            && var evidence := read.reader.evidence;
               && (evidence.usage.Some? ==>
                     && evidence.usage.value.sessionId == cfg.sessionId
                     && P.UsageReported(evidence.usage.value.inputTokens,
                                        evidence.usage.value.outputTokens) in s.stream.delivered)
               && (P.TurnGrammar(s.stream.delivered) && !(s.lock.Held? && s.lock.at.NotifyUsage?) ==>
                     forall input: nat, output: nat ::
                       P.UsageReported(input, output) in s.stream.delivered ==>
                         evidence.usage == Some(Usage(cfg.sessionId, input, output)))
               && (evidence.limits.Some? ==>
                     evidence.limits.value == Observed(cfg.sessionId, cfg.limits, s.budget.counters))
               && (s.life.status.Terminal() ==> evidence.limits.Some?)
  {
    hide Runs.Reachable, Run, RunGuards, SmoothRun, R.ReplayFrom, Trusted, Inv.Inv, Runs.Logged;
    hide P.TurnGrammar, Calls;
    ReplayShowsTheSession(cfg, seed, now, steps, s, o, scope, requests);
    Runs.RecordingIsGuarded(cfg, seed, now, steps, s);
    Usages.UsageIsTheProviders(cfg, seed, now, steps, s);
    Runs.ReachableInv(cfg, seed, now, steps, s);
    Runs.ReachableLogged(cfg, seed, now, steps, s);
    Runs.TapeFacts(cfg, s);
    UsageIsTold(cfg.sessionId, s.recording.calls);
  }

  /** The usage a guarded tape holds is the one told to it. */
  lemma UsageIsTold(sessionId: string, calls: seq<Call>)
    requires RunGuards(sessionId, calls).Some?
    ensures var usage := RunGuards(sessionId, calls).value.evidence.usage;
            && (usage.Some? ==> RecordUsage(usage.value) in calls)
            && forall call :: call in calls && call.RecordUsage? ==> usage == Some(call.usage)
  {
    hide RunGuards;
    GuardedEvidence(sessionId, calls);
    var tape := RunGuards(sessionId, calls).value;
    if tape.evidence.usage.Some? {
      var i :| 0 <= i < |calls| && calls[i].RecordUsage?;
      assert calls[i] == RecordUsage(calls[i].usage);
    }
  }

  lemma {:induction false} CallsAlign(requests: seq<Request>)
    ensures |Calls(requests)| == |requests|
    ensures forall i :: 0 <= i < |requests| ==> Calls(requests)[i] == requests[i].call
  {
    if requests != [] {
      CallsAlign(requests[..|requests| - 1]);
      forall i | 0 <= i < |requests| ensures Calls(requests)[i] == requests[i].call {
        if i < |requests| - 1 { assert requests[..|requests| - 1][i] == requests[i]; }
      }
    }
  }
}
