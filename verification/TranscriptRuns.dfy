/** What holds of a transcript after any calls and any storage faults. */
module TranscriptRuns {
  import opened Prelude
  import opened Lifecycle
  import opened Tape
  import opened Utf8
  import opened TranscriptWriter
  import S = Sanitizer
  import R = TranscriptReplay

  // ----- The invariant -----

  predicate SessionIsOwn(o: Options, state: State) {
    state.sessionId.None? || state.sessionId == Some(o.sessionId)
  }

  ghost predicate ReplayInv(o: Options, scope: Option<string>, w: Writer)
    requires FileInv(o, w)
  {
    var read := R.ReplayLines(o.codec, scope, Lines(o, w.records));
    && (Own(w.records) ==> read.Ok? && Agrees(o, read.reader, w.tape, w.records, w.committedBytes))
    && (!Own(w.records) ==> !read.Ok?)
  }

  ghost predicate Inv(o: Options, scope: Option<string>, w: Writer) {
    && FileInv(o, w)
    && LatchInv(w)
    && WellFormed(w.tape.state)
    && (Own(w.records) <==> SessionIsOwn(o, w.tape.state))
    && ReplayInv(o, scope, w)
  }

  ghost predicate Trusted(o: Options, scope: Option<string>) {
    R.CodecOk(o.codec) && o.settings.Valid() && InScope(o, scope)
  }

  lemma OpenedInv(o: Options, scope: Option<string>)
    ensures Inv(o, scope, OPENED)
  {}

  lemma OwnSnoc(records: seq<R.Record>, record: R.Record)
    ensures Own(records + [record]) <==> Own(records) && record.MatchesSession()
  {
    hide R.Record.MatchesSession;
    var now := records + [record];
    assert now[|records|] == record && forall i :: 0 <= i < |records| ==> now[i] == records[i];
  }

  /** Whether a persisted call names the transcript's own session. */
  lemma MatchesIffOwn(o: Options, w: Writer, safe: Call, now: string)
    requires Guard(o.sessionId, w.tape, safe).Some? && WellFormed(w.tape.state)
    requires SessionIsOwn(o, w.tape.state)
    ensures BuildRecord(o, w, safe, now).MatchesSession()
            <==> SessionIsOwn(o, Guard(o.sessionId, w.tape, safe).value.state)
  {
    hide LimitsMatchTerminal, UsesLimitCode, SameLifecycle;
  }

  /** A foreign session stays foreign. */
  lemma ForeignStays(o: Options, tape: Tape, safe: Call)
    requires Guard(o.sessionId, tape, safe).Some? && WellFormed(tape.state)
    requires !SessionIsOwn(o, tape.state)
    ensures !SessionIsOwn(o, Guard(o.sessionId, tape, safe).value.state)
  {
    hide LimitsMatchTerminal, UsesLimitCode, SameLifecycle;
  }

  /** The reader takes a committed line exactly when the record names its own session. */
  lemma LineAgrees(
    o: Options, scope: Option<string>, r: R.Reader, w: Writer, safe: Call, now: string)
    requires Trusted(o, scope) && WellFormed(w.tape.state)
    requires Agrees(o, r, w.tape, w.records, w.committedBytes)
    requires !w.tape.state.status.Terminal() && Guard(o.sessionId, w.tape, safe).Some?
    requires safe.RecordUpdate? ==>
               Length(Guard(o.sessionId, w.tape, safe).value.state.assistantText)
               <= R.MAX_REPLAY_ASSISTANT_BYTES
    requires LineOf(o, w, BuildRecord(o, w, safe, now)).Some?
    ensures var record := BuildRecord(o, w, safe, now);
            var line := LineOf(o, w, record).value;
            var read := R.AcceptLine(o.codec, scope, r, line);
            if record.MatchesSession() then
              read.Ok? && Agrees(o, read.reader, Guard(o.sessionId, w.tape, safe).value,
                                 w.records + [record], w.committedBytes + |line|)
            else !read.Ok?
  {
    hide Guard, R.AcceptRecord, Agrees, Length, WellFormed, R.Record.MatchesSession;
    var record := BuildRecord(o, w, safe, now);
    var line := LineOf(o, w, record).value;
    assert line[..|line| - 1] == o.codec.encode(record).value;
    CountsAgree(o, r, w);
    if record.MatchesSession() {
      RecordAgrees(o, scope, r, w, safe, now, |line|);
    } else {
      ForeignStops(o, scope, r.(lines := r.lines + 1, bytes := r.bytes + |line|), record);
    }
  }

  lemma CountsAgree(o: Options, r: R.Reader, w: Writer)
    requires Agrees(o, r, w.tape, w.records, w.committedBytes)
    ensures r.lines == |w.records| && r.bytes == w.committedBytes
  {}

  // ----- Steps -----

  lemma GuardFacts(sessionId: string, tape: Tape, safe: Call)
    requires Guard(sessionId, tape, safe).Some? && WellFormed(tape.state)
    ensures WellFormed(Guard(sessionId, tape, safe).value.state)
  {
    hide WellFormed, LimitsMatchTerminal, UsesLimitCode, SameLifecycle, Reduce;
    if safe.RecordUpdate? { ReduceKeepsWellFormed(tape.state, safe.update); }
  }

  predicate Fits(o: Options, w: Writer, safe: Call) {
    && Guard(o.sessionId, w.tape, safe).Some?
    && (safe.RecordUpdate? ==>
          Length(Guard(o.sessionId, w.tape, safe).value.state.assistantText)
          <= R.MAX_REPLAY_ASSISTANT_BYTES)
  }

  /** A committed record extends the replay. */
  lemma CommittedReplay(o: Options, scope: Option<string>, w: Writer, safe: Call, now: string)
    requires Trusted(o, scope) && Inv(o, scope, w) && !w.tape.state.status.Terminal()
    requires Fits(o, w, safe) && LineOf(o, w, BuildRecord(o, w, safe, now)).Some?
    requires forall i :: 0 <= i < |Lines(o, w.records + [BuildRecord(o, w, safe, now)])| ==>
               R.IsLine(Lines(o, w.records + [BuildRecord(o, w, safe, now)])[i])
    ensures var record := BuildRecord(o, w, safe, now);
            var records := w.records + [record];
            var next := Guard(o.sessionId, w.tape, safe).value;
            var read := R.ReplayLines(o.codec, scope, Lines(o, records));
            && (Own(records) ==>
                  read.Ok? && Agrees(o, read.reader, next, records,
                                     w.committedBytes + |LineOf(o, w, record).value|))
            && (!Own(records) ==> !read.Ok?)
            && (Own(records) <==> SessionIsOwn(o, next.state))
  {
    hide Guard, R.AcceptLine, Agrees, Length, WellFormed, R.Record.MatchesSession, SessionIsOwn;
    hide Lines, LineOf, Own, R.CodecOk;
    var record := BuildRecord(o, w, safe, now);
    OwnSnoc(w.records, record);
    LineFacts(o, w, record);
    if Own(w.records) {
      var read := R.ReplayLines(o.codec, scope, Lines(o, w.records));
      LineAgrees(o, scope, read.reader, w, safe, now);
      MatchesIffOwn(o, w, safe, now);
    } else {
      ForeignStays(o, w.tape, safe);
    }
  }

  lemma LineFacts(o: Options, w: Writer, record: R.Record)
    requires LineOf(o, w, record).Some?
    ensures var lines := Lines(o, w.records + [record]);
            && lines != []
            && lines[..|lines| - 1] == Lines(o, w.records)
            && lines[|lines| - 1] == LineOf(o, w, record).value
  {
    LinesSnoc(o, w.records, record);
  }

  lemma AdmitKeeps(
    o: Options, scope: Option<string>, w: Writer, safe: Call, now: string, faults: Faults)
    requires Trusted(o, scope) && Inv(o, scope, w) && w.failure.None? && !w.closed
    ensures Inv(o, scope, Report(Admit(o, w, safe, now, faults)).0)
  {
    hide R.CodecOk, FileInv, ReplayInv, WellFormed, SessionIsOwn, Own, Length, LineOf, Append;
    if Fits(o, w, safe) {
      CommittedKeeps(o, scope, w, safe, now, faults);
      hide Guard;
    } else {
      hide Guard;
      LatchKeeps(o, scope, w, WriteFailed);
    }
  }

  lemma LatchKeeps(o: Options, scope: Option<string>, w: Writer, code: PersistenceFailure)
    requires Inv(o, scope, w) && !w.reported && w.failure.None?
    ensures Inv(o, scope, Report(Latch(w, code)).0)
  {
    hide WellFormed, SessionIsOwn, Own, Lines, R.JoinLines, R.IsLine, Stamped, R.ReplayLines, Agrees;
  }

  lemma CommittedKeeps(
    o: Options, scope: Option<string>, w: Writer, safe: Call, now: string, faults: Faults)
    requires Trusted(o, scope) && Inv(o, scope, w) && w.failure.None? && !w.closed
    requires Fits(o, w, safe)
    ensures Inv(o, scope, Report(Admit(o, w, safe, now, faults)).0)
  {
    hide R.CodecOk, WellFormed, SessionIsOwn, Own, Length, Append, Lines, R.JoinLines, R.IsLine;
    hide Stamped, R.ReplayLines, Agrees, Guard, LineOf;
    var record := BuildRecord(o, w, safe, now);
    CommitKeepsFile(o, w, record, faults);
    GuardFacts(o.sessionId, w.tape, safe);
    var (after, failure) := Commit(o, w, record, faults);
    if failure.None? {
      CommittedReplay(o, scope, w, safe, now);
    }
  }

  // ----- Whole runs -----

  /** The transcript after the calls, and what each call returned. */
  ghost function Run(o: Options, requests: seq<Request>)
    : (r: (Writer, seq<Option<PersistenceFailure>>))
    requires o.settings.Valid()
    ensures r.0.memory.contentBytes <= o.settings.textLimit
    ensures |r.1| == |requests|
    decreases |requests|
  {
    if requests == [] then (OPENED, [])
    else
      var (w, results) := Run(o, requests[..|requests| - 1]);
      var (after, result) := Perform(o, w, requests[|requests| - 1]);
      (after, results + [result])
  }

  lemma PerformKeeps(o: Options, scope: Option<string>, w: Writer, request: Request)
    requires Trusted(o, scope) && Inv(o, scope, w)
    requires w.memory.contentBytes <= o.settings.textLimit
    ensures Inv(o, scope, Perform(o, w, request).0)
  {
    hide S.Sanitize, Admit, Guard, FileInv, ReplayInv, WellFormed, SessionIsOwn, Own;
    if w.failure.None? && !w.closed {
      var (after, safe) := SafeCall(o, w, request);
      RememberKeeps(o, scope, w, after);
      AdmitKeeps(o, scope, w.(memory := after), safe, request.now, request.faults);
    }
  }

  lemma RememberKeeps(o: Options, scope: Option<string>, w: Writer, memory: S.Memory)
    requires Inv(o, scope, w)
    ensures Inv(o, scope, w.(memory := memory))
  {
    hide WellFormed, SessionIsOwn, Own, Lines, R.JoinLines, R.IsLine, Stamped, R.ReplayLines, Agrees;
  }

  lemma {:induction false} RunKeeps(o: Options, scope: Option<string>, requests: seq<Request>)
    requires Trusted(o, scope)
    ensures Inv(o, scope, Run(o, requests).0)
    decreases |requests|
  {
    hide Inv, Perform;
    if requests == [] {
      OpenedInv(o, scope);
    } else {
      RunKeeps(o, scope, requests[..|requests| - 1]);
      PerformKeeps(o, scope, Run(o, requests[..|requests| - 1]).0, requests[|requests| - 1]);
    }
  }

  // ----- Main results -----

  /** Committed bytes. */
  function Committed(o: Options, w: Writer): seq<byte> { R.JoinLines(Lines(o, w.records)) }

  /** Under any short writes and any write, flush and truncate failures the file is exactly the
      committed records, and behind them at most the start of one line, which only a failed append
      leaves. */
  lemma FileIsCommittedRecords(o: Options, requests: seq<Request>)
    requires R.CodecOk(o.codec) && o.settings.Valid()
    ensures var w := Run(o, requests).0;
            && w.file == Committed(o, w) + w.torn
            && (w.torn != [] ==> w.failure.Some? && BeginsLine(o, w))
            && |w.records| <= R.MAX_TRANSCRIPT_RECORDS
            && |Committed(o, w)| <= R.MAX_TRANSCRIPT_BYTES
  {
    RunKeeps(o, None, requests);
  }

  /** A torn line means that the truncating rollback failed as well, in the very call that reported the
      failure. */
  lemma {:induction false} TornMeansRollbackFailed(o: Options, requests: seq<Request>)
    requires R.CodecOk(o.codec) && o.settings.Valid() && Run(o, requests).0.torn != []
    ensures exists i :: 0 <= i < |requests|
              && Run(o, requests).1[i].Some? && !requests[i].faults.truncateOk
    decreases |requests|
  {
    hide Perform;
    if requests != [] {
      var front, last := requests[..|requests| - 1], requests[|requests| - 1];
      var w := Run(o, front).0;
      if w.torn != [] {
        TornMeansRollbackFailed(o, front);
        var i :| 0 <= i < |front| && Run(o, front).1[i].Some? && !front[i].faults.truncateOk;
        assert requests[i] == front[i] && Run(o, requests).1[i] == Run(o, front).1[i];
      } else {
        FailureReportedOnce(o, front);
        PerformTears(o, w, last);
        assert Run(o, requests).1[|requests| - 1].Some?;
      }
    }
  }

  lemma PerformTears(o: Options, w: Writer, request: Request)
    requires o.settings.Valid() && w.memory.contentBytes <= o.settings.textLimit && w.torn == []
    requires w.reported ==> w.failure.Some?
    ensures Perform(o, w, request).0.torn != [] ==>
              Perform(o, w, request).1.Some? && !request.faults.truncateOk
  {
    hide S.Sanitize, Guard, LineOf, Append, Length, BuildRecord;
    if w.failure.None? && !w.closed {
      var (after, safe) := SafeCall(o, w, request);
      AdmitTears(o, w.(memory := after), safe, request.now, request.faults);
      hide Admit, SafeCall;
    }
  }

  lemma AdmitTears(o: Options, w: Writer, safe: Call, now: string, faults: Faults)
    requires w.torn == []
    ensures var after := Admit(o, w, safe, now, faults);
            after.torn != [] ==>
              !faults.truncateOk && after.failure.Some? && after.reported == w.reported
  {
    hide Guard, LineOf, Append, Length, BuildRecord;
  }

  /** Writer and reader agree.  The committed records replay exactly when no foreign
      `session.started` was recorded; the replay then yields the writer's records, state and
      evidence, and is complete exactly when the session ended. */
  lemma CommittedRecordsReplay(o: Options, scope: Option<string>, requests: seq<Request>)
    requires Trusted(o, scope)
    ensures var w := Run(o, requests).0;
            var read := R.ReplayFrom(o.codec, scope, R.UNREAD, Committed(o, w));
            && (read.Ok? <==> SessionIsOwn(o, w.tape.state))
            && (read.Ok? ==>
                  && read.reader.records == w.records
                  && read.reader.state == w.tape.state
                  && read.reader.evidence == w.tape.evidence
                  && (read.reader.Complete() <==> w.tape.state.status.Terminal()))
  {
    hide Run, R.ReplayLines, R.ReplayFrom, Own, R.IsLine, Lines, R.JoinLines, WellFormed;
    var w := Run(o, requests).0;
    RunKeeps(o, scope, requests);
    R.ReplayJoined(o.codec, scope, Lines(o, w.records), []);
    assert Committed(o, w) + [] == Committed(o, w);
    ReplayNothing(o, scope);
  }

  lemma ReplayNothing(o: Options, scope: Option<string>)
    ensures forall r: R.Reader :: R.ReplayFrom(o.codec, scope, r, []) == R.Ok(r)
  {}

  /** The torn line is the start of the line of a call that the guards had admitted. */
  ghost predicate Attempts(o: Options, w: Writer, safe: Call, now: string) {
    && Fits(o, w, safe)
    && !w.tape.state.status.Terminal()
    && LineOf(o, w, BuildRecord(o, w, safe, now)).Some?
    && w.attempted == Some(BuildRecord(o, w, safe, now))
    && w.torn <= LineOf(o, w, BuildRecord(o, w, safe, now)).value
  }

  ghost predicate TornWasAdmitted(o: Options, w: Writer) {
    w.torn != [] ==> w.failure.Some? && exists safe: Call, now: string :: Attempts(o, w, safe, now)
  }

  lemma SameAttempt(o: Options, v: Writer, w: Writer)
    requires TornWasAdmitted(o, v)
    requires w.tape == v.tape && w.records == v.records && w.committedBytes == v.committedBytes
    requires w.torn == v.torn && w.attempted == v.attempted && w.failure == v.failure
    ensures TornWasAdmitted(o, w)
  {
    hide Fits;
    if w.torn != [] {
      var safe: Call, now: string :| Attempts(o, v, safe, now);
      SameFits(o, v, w, safe);
      assert Attempts(o, w, safe, now);
    }
  }

  lemma SameFits(o: Options, v: Writer, w: Writer, safe: Call)
    requires v.tape == w.tape
    ensures Fits(o, v, safe) <==> Fits(o, w, safe)
  {}

  /** Building and fitting a record depends on what is committed alone. */
  lemma SameRecord(o: Options, v: Writer, w: Writer, safe: Call, now: string)
    requires v.records == w.records && v.committedBytes == w.committedBytes
    ensures BuildRecord(o, v, safe, now) == BuildRecord(o, w, safe, now)
    ensures LineOf(o, v, BuildRecord(o, v, safe, now)) == LineOf(o, w, BuildRecord(o, v, safe, now))
  {}

  lemma AdmitAttempts(o: Options, w: Writer, safe: Call, now: string, faults: Faults)
    requires w.torn == [] && !w.tape.state.status.Terminal()
    ensures TornWasAdmitted(o, Admit(o, w, safe, now, faults))
  {
    hide Guard, Length, Append, LineOf, BuildRecord;
    var after := Admit(o, w, safe, now, faults);
    if after.torn != [] {
      SameRecord(o, w, after, safe, now);
      SameFits(o, w, after, safe);
      assert Attempts(o, after, safe, now);
    }
  }

  lemma {:induction false} RunAttempts(o: Options, requests: seq<Request>)
    requires R.CodecOk(o.codec) && o.settings.Valid()
    ensures TornWasAdmitted(o, Run(o, requests).0)
    decreases |requests|
  {
    hide TornWasAdmitted, Admit, SafeCall, R.CodecOk, FileInv, ReplayInv, WellFormed, SessionIsOwn, Own;
    if requests == [] {
      NothingTorn(o);
    } else {
      var front, request := requests[..|requests| - 1], requests[|requests| - 1];
      var w := Run(o, front).0;
      RunAttempts(o, front);
      RunKeeps(o, None, front);
      if w.failure.Some? || w.closed {
        SameAttempt(o, w, Perform(o, w, request).0);
      } else {
        TornMeansFailure(o, w);
        var (after, safe) := SafeCall(o, w, request);
        AdmitAttempts(o, w.(memory := after), safe, request.now, request.faults);
        SameAttempt(o, Admit(o, w.(memory := after), safe, request.now, request.faults),
                    Perform(o, w, request).0);
      }
    }
  }

  lemma NothingTorn(o: Options)
    ensures TornWasAdmitted(o, OPENED)
  {}

  lemma TornMeansFailure(o: Options, w: Writer)
    requires TornWasAdmitted(o, w) && w.failure.None?
    ensures w.torn == []
  {}

  lemma WholeOrOpen(o: Options, w: Writer, safe: Call, now: string)
    requires R.CodecOk(o.codec) && Attempts(o, w, safe, now)
    ensures R.LF in w.torn ==> w.torn == LineOf(o, w, BuildRecord(o, w, safe, now)).value
    ensures R.IsLine(LineOf(o, w, BuildRecord(o, w, safe, now)).value)
  {
    hide Guard, Fits, BuildRecord;
    var record := w.attempted.value;
    var line := LineOf(o, w, record).value;
    LineIsLine(o, w, record);
    assert forall k :: 0 <= k < |line| - 1 ==> line[k] == line[..|line| - 1][k];
    if R.LF in w.torn {
      var i :| 0 <= i < |w.torn| && w.torn[i] == R.LF;
      assert line[i] == R.LF;
    }
  }

  /** What a failed rollback leaves is read exactly for what it is: a line cut anywhere is refused
      right behind the committed records, and a line that got through whole, with its LF, counts as one
      more record of the session. */
  lemma TornLineIsRefusedUnlessWhole(o: Options, scope: Option<string>, requests: seq<Request>)
    requires Trusted(o, scope)
    requires var w := Run(o, requests).0; SessionIsOwn(o, w.tape.state) && w.torn != []
    ensures var w := Run(o, requests).0;
            var read := R.ReplayFrom(o.codec, scope, R.UNREAD, w.file);
            && w.attempted.Some?
            && (read.Ok? <==> R.LF in w.torn && w.attempted.value.MatchesSession())
            && (read.Ok? ==> read.reader.records == w.records + [w.attempted.value])
            && (R.LF !in w.torn ==> read.line == |w.records| + 1)
  {
    hide Run, R.ReplayLines, R.ReplayFrom, Own, R.IsLine, Lines, R.JoinLines, WellFormed, Fits, LineOf;
    hide R.AcceptLine, R.CodecOk, BuildRecord, R.Record.MatchesSession, BeginsLine, Stamped;
    var w := Run(o, requests).0;
    RunKeeps(o, scope, requests);
    RunAttempts(o, requests);
    R.ReplayJoined(o.codec, scope, Lines(o, w.records), w.torn);
    var reader := R.ReplayLines(o.codec, scope, Lines(o, w.records)).reader;
    if R.LF in w.torn {
      var safe: Call, now: string :| Attempts(o, w, safe, now);
      WholeOrOpen(o, w, safe, now);
      WholeLineReads(o, scope, reader, w, safe, now);
    } else {
      CountsAgree(o, reader, w);
      UnterminatedStops(o, scope, reader, w.torn);
    }
  }

  lemma WholeLineReads(
    o: Options, scope: Option<string>, r: R.Reader, w: Writer, safe: Call, now: string)
    requires Trusted(o, scope) && WellFormed(w.tape.state) && Attempts(o, w, safe, now)
    requires Agrees(o, r, w.tape, w.records, w.committedBytes)
    requires w.torn == LineOf(o, w, BuildRecord(o, w, safe, now)).value
    requires R.IsLine(w.torn)
    ensures var record := BuildRecord(o, w, safe, now);
            var read := R.ReplayFrom(o.codec, scope, r, w.torn);
            && (read.Ok? <==> record.MatchesSession())
            && (read.Ok? ==> read.reader.records == w.records + [record])
  {
    hide R.AcceptLine, R.CodecOk, BuildRecord, R.Record.MatchesSession, WellFormed, Guard, Length;
    LineAgrees(o, scope, r, w, safe, now);
    R.LineLengthOfLine(w.torn, [], R.MAX_TRANSCRIPT_LINE_BYTES + 2);
    assert w.torn + [] == w.torn && w.torn[..|w.torn|] == w.torn && w.torn[|w.torn|..] == [];
  }

  lemma UnterminatedStops(o: Options, scope: Option<string>, r: R.Reader, tail: seq<byte>)
    requires tail != [] && R.LF !in tail
    ensures var read := R.ReplayFrom(o.codec, scope, r, tail);
            read.Unreadable? && read.line == r.lines + 1
  {
    var n := R.LineLength(tail, R.MAX_TRANSCRIPT_LINE_BYTES + 2);
    assert tail[..n][n - 1] == tail[n - 1];
    hide R.AcceptRecord;
  }

  function CountReports(results: seq<Option<PersistenceFailure>>): nat {
    if results == [] then 0
    else CountReports(results[..|results| - 1]) + if results[|results| - 1].Some? then 1 else 0
  }

  /** A persistence failure is reported exactly once, by the call that met it. */
  lemma {:induction false} FailureReportedOnce(o: Options, requests: seq<Request>)
    requires o.settings.Valid()
    ensures var (w, results) := Run(o, requests);
            && CountReports(results) == (if w.failure.Some? then 1 else 0)
            && (w.failure.Some? <==> w.reported)
            && (w.failure.Some? ==> w.closed)
    decreases |requests|
  {
    hide Perform;
    if requests != [] {
      var front, last := requests[..|requests| - 1], requests[|requests| - 1];
      var (w, results) := Run(o, front);
      FailureReportedOnce(o, front);
      PerformReports(o, w, last);
      assert Run(o, requests).1[..|front|] == results;
    }
  }

  lemma PerformReports(o: Options, w: Writer, request: Request)
    requires o.settings.Valid() && w.memory.contentBytes <= o.settings.textLimit
    requires (w.failure.Some? <==> w.reported) && (w.failure.Some? ==> w.closed)
    ensures var (after, result) := Perform(o, w, request);
            && (after.failure.Some? <==> after.reported)
            && (after.failure.Some? ==> after.closed)
            && (w.failure.Some? ==> after == w && result.None?)
            && (w.failure.None? ==> result == after.failure)
  {
    hide S.Sanitize, Guard, LineOf, Append, Length, BuildRecord, SafeCall;
    if w.failure.None? && !w.closed {
      MemoryStays(o, w, request);
      var (after, safe) := SafeCall(o, w, request);
      AdmitLatches(o, w.(memory := after), safe, request.now, request.faults);
      hide Admit;
    }
  }

  lemma AdmitLatches(o: Options, w: Writer, safe: Call, now: string, faults: Faults)
    requires w.failure.None? && !w.reported
    ensures var after := Admit(o, w, safe, now, faults);
            !after.reported && (after.failure.Some? ==> after.closed)
  {
    hide Guard, LineOf, Append, Length, BuildRecord;
  }
}
