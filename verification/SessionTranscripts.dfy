/** The transcript object of `transcript.py`, updated in place. */
module SessionTranscripts {
  import opened Prelude
  import opened Lifecycle
  import L = LoopLimits
  import opened Tape
  import opened Utf8
  import opened TranscriptWriter
  import Redaction
  import S = Sanitizer
  import O = SanitizerObject
  import R = TranscriptReplay

  class SessionTranscript {
    const codec: R.Codec
    const workspaceId: string
    const sessionId: string
    const sanitizer: O.TranscriptSanitizer

    var state: State
    var evidence: Evidence
    var nextRecordOrder: nat
    var committedBytes: nat
    var failure: Option<PersistenceFailure>
    var failureReported: bool
    var closed: bool

    /** The bytes behind the descriptor. */
    var file: seq<byte>

    ghost var records: seq<R.Record>
    ghost var torn: seq<byte>
    ghost var attempted: Option<R.Record>

    ghost function View(): Writer
      reads this, sanitizer
    {
      Writer(Tape(state, evidence), sanitizer.View(), records, committedBytes, file, torn,
             attempted, closed, failure, failureReported)
    }

    ghost function Given(): Options
      reads sanitizer
    {
      Options(sanitizer.settings, codec, workspaceId, sessionId)
    }

    ghost predicate Valid()
      reads this, sanitizer
    {
      sanitizer.Valid() && nextRecordOrder == |records| + 1
    }

    constructor (settings: S.Settings, codec: R.Codec, workspaceId: string, sessionId: string)
      requires settings.Valid()
      ensures Valid() && View() == OPENED && fresh(sanitizer)
      ensures Given() == Options(settings, codec, workspaceId, sessionId)
    {
      this.codec, this.workspaceId, this.sessionId := codec, workspaceId, sessionId;
      sanitizer := new O.TranscriptSanitizer(settings);
      state, evidence := INITIAL, Evidence(None, None);
      nextRecordOrder, committedBytes := 1, 0;
      failure, failureReported, closed := None, false, false;
      file, records, torn, attempted := [], [], [], None;
    }

    /** `_write_all`: short writes are continued; no progress or an error gives up. */
    method WriteAll(contents: seq<byte>, plan: seq<WriteOutcome>) returns (ok: bool)
      modifies this`file
      ensures var (done, count) := TranscriptWriter.WriteAll(contents, plan);
              ok == done && file == old(file) + contents[..count]
    {
      var remaining := contents;
      var i := 0;
      while remaining != []
        invariant 0 <= i <= |plan|
        invariant |remaining| <= |contents| && remaining == contents[|contents| - |remaining|..]
        invariant file == old(file) + contents[..|contents| - |remaining|]
        invariant var (done, count) := TranscriptWriter.WriteAll(contents, plan);
                  var (later, more) := TranscriptWriter.WriteAll(remaining, plan[i..]);
                  done == later && count == |contents| - |remaining| + more
        decreases |remaining|
      {
        var taken := |remaining|;
        if i < |plan| {
          assert plan[i..][0] == plan[i] && plan[i..][1..] == plan[i + 1..];
          if plan[i].Raises? || plan[i].count == 0 { return false; }
          if plan[i].count < taken { taken := plan[i].count; }
          i := i + 1;
        }
        var position := |contents| - |remaining|;
        assert contents[..position + taken] == contents[..position] + remaining[..taken];
        file := file + remaining[..taken];
        remaining := remaining[taken..];
      }
      ok := true;
    }

    /** `_append_and_flush`, rolling back to the old end of the file on failure. */
    method AppendAndFlush(line: seq<byte>, faults: Faults) returns (r: Option<PersistenceFailure>)
      modifies this`file
      ensures var (kept, failed) := Append(line, faults);
              r == failed && file == old(file) + kept
    {
      var startOffset := |file|;
      var written := WriteAll(line, faults.writes);
      if !written || !faults.flushOk {
        if faults.truncateOk { file := file[..startOffset]; }
        return Some(if written then FlushFailed else WriteFailed);
      }
      r := None;
    }

    /** `_append_record`. */
    method AppendRecord(record: R.Record, faults: Faults) returns (r: Option<PersistenceFailure>)
      requires Valid()
      modifies this`file, this`nextRecordOrder, this`committedBytes
      modifies this`records, this`torn, this`attempted
      ensures Valid()
      ensures (View(), r) == Commit(Given(), old(View()), record, faults)
    {
      hide Append;
      var encoded := codec.encode(record);
      if encoded.None? || |encoded.value| > R.MAX_TRANSCRIPT_LINE_BYTES { return Some(WriteFailed); }
      var line := encoded.value + [R.LF];
      if nextRecordOrder > R.MAX_TRANSCRIPT_RECORDS
         || committedBytes + |line| > R.MAX_TRANSCRIPT_BYTES {
        return Some(WriteFailed);
      }
      r := AppendAndFlush(line, faults);
      if r.Some? {
        torn, attempted := Append(line, faults).0, Some(record);
        return;
      }
      nextRecordOrder := nextRecordOrder + 1;
      committedBytes := committedBytes + |line|;
      records := records + [record];
    }

    /** `_latch_failure`: the first failure stays, whatever fails after it. */
    method LatchFailure(code: PersistenceFailure)
      requires Valid()
      modifies this`failure, this`closed
      ensures Valid() && View() == Latch(old(View()), code)
      ensures closed && failure.Some? && (old(failure).Some? ==> failure == old(failure))
    {
      if failure.None? { failure := Some(code); }
      closed := true;
    }

    /** `_take_failure`: a failure is handed out by the first call that finds it and never again. */
    method TakeFailure() returns (r: Option<PersistenceFailure>)
      requires Valid()
      modifies this`failureReported
      ensures Valid() && (View(), r) == Report(old(View()))
      ensures r.Some? <==> failure.Some? && !old(failureReported)
      ensures failure.Some? ==> failureReported
    {
      if failure.None? || failureReported { return None; }
      failureReported := true;
      r := failure;
    }

    /** The common end of the three `record` methods, once the call passed the guards. */
    method CommitCall(safe: Call, next: Tape, now: string, faults: Faults)
      requires Valid() && Guard(sessionId, Tape(state, evidence), safe) == Some(next)
      requires safe.RecordUpdate? ==> Length(next.state.assistantText) <= R.MAX_REPLAY_ASSISTANT_BYTES
      modifies this
      ensures Valid() && View() == Admit(Given(), old(View()), safe, now, faults)
    {
      hide Guard, Commit, Length;
      var record := R.Record(R.TRANSCRIPT_VERSION, nextRecordOrder, now, workspaceId, sessionId,
                             PayloadOf(safe));
      var failed := AppendRecord(record, faults);
      if failed.Some? {
        LatchFailure(failed.value);
        return;
      }
      state, evidence := next.state, next.evidence;
      if state.status.Terminal() {
        closed := true;
        if !faults.summaryOk { LatchFailure(SummaryFailed); }
      }
    }

    /** `record`. */
    method RecordLifecycle(
      u: Update, acceptedState: State, now: string, credentials: seq<Redaction.Range>, faults: Faults)
      returns (r: Option<PersistenceFailure>)
      requires Valid()
      requires u.IsDelta() ==> Redaction.Within(credentials, |u.event.body.text|)
      modifies this, sanitizer
      ensures Valid()
      ensures var positions :=
                if u.IsDelta() then Redaction.Covered(credentials, |u.event.body.text|) else {};
              (View(), r) == Perform(Given(), old(View()),
                                     Request(RecordUpdate(u, acceptedState), now, positions, faults))
    {
      hide S.Sanitize, Admit, Length;
      if failure.Some? {
        r := TakeFailure();
        return;
      }
      if closed { return None; }
      var safe := sanitizer.SanitizeUpdate(u, credentials);
      var next := CheckUpdate(safe, acceptedState);
      if next.None? {
        RefusedIsLatched(RecordUpdate(safe, acceptedState), now, faults);
        LatchFailure(WriteFailed);
      } else {
        CommitCall(RecordUpdate(safe, acceptedState), next.value, now, faults);
      }
      r := TakeFailure();
    }

    /** The guards of `record`. */
    method CheckUpdate(safe: Update, acceptedState: State) returns (next: Option<Tape>)
      requires Valid()
      ensures next.Some? ==>
                && Guard(sessionId, Tape(state, evidence), RecordUpdate(safe, acceptedState)) == next
                && Length(next.value.state.assistantText) <= R.MAX_REPLAY_ASSISTANT_BYTES
      ensures next.None? ==>
                var guarded :=
                  Guard(sessionId, Tape(state, evidence), RecordUpdate(safe, acceptedState));
                guarded.None?
                || Length(guarded.value.state.assistantText) > R.MAX_REPLAY_ASSISTANT_BYTES
    {
      hide Length, Reduce, LimitsMatchTerminal, UsesLimitCode, SameLifecycle;
      if evidence.limits.None? && UsesLimitCode(safe) { return None; }
      if evidence.limits.Some?
         && (!safe.EndsSession() || !LimitsMatchTerminal(evidence.limits.value, safe)) {
        return None;
      }
      if evidence.usage.Some? && safe.IsDelta() { return None; }
      var reduction := Reduce(state, safe);
      if reduction.Rejected? || !SameLifecycle(reduction.state, acceptedState) { return None; }
      if |Encode(reduction.state.assistantText)| > R.MAX_REPLAY_ASSISTANT_BYTES { return None; }
      next := Some(Tape(reduction.state, evidence));
    }

    lemma RefusedIsLatched(safe: Call, now: string, faults: Faults)
      requires var guarded := Guard(sessionId, Tape(state, evidence), safe);
               guarded.None?
               || (safe.RecordUpdate?
                   && Length(guarded.value.state.assistantText) > R.MAX_REPLAY_ASSISTANT_BYTES)
      ensures Admit(Given(), View(), safe, now, faults) == Latch(View(), WriteFailed)
    {
      hide Guard, Commit, Length;
    }

    /** `record_model_usage`. */
    method RecordModelUsage(usage: Usage, now: string, faults: Faults)
      returns (r: Option<PersistenceFailure>)
      requires Valid()
      modifies this
      ensures Valid()
      ensures (View(), r) == Perform(Given(), old(View()), Request(RecordUsage(usage), now, {}, faults))
    {
      hide Admit, Commit, Length;
      if failure.Some? {
        r := TakeFailure();
        return;
      }
      if closed { return None; }
      if || usage.sessionId != sessionId || evidence.usage.Some? || evidence.limits.Some?
         || !state.status.Running? || state.assistantText == "" || state.assistantCompleted {
        RefusedIsLatched(RecordUsage(usage), now, faults);
        LatchFailure(WriteFailed);
      } else {
        CommitCall(RecordUsage(usage), Tape(state, evidence.(usage := Some(usage))), now, faults);
      }
      r := TakeFailure();
    }

    /** `record_loop_limits`. */
    method RecordLoopLimits(observed: L.Observed, now: string, faults: Faults)
      returns (r: Option<PersistenceFailure>)
      requires Valid()
      modifies this
      ensures Valid()
      ensures (View(), r)
              == Perform(Given(), old(View()), Request(RecordLimits(observed), now, {}, faults))
    {
      hide Admit, Commit, Length;
      if failure.Some? {
        r := TakeFailure();
        return;
      }
      if closed { return None; }
      if || observed.sessionId != sessionId || evidence.limits.Some?
         || state.sessionId != Some(sessionId) || state.status.Terminal() {
        RefusedIsLatched(RecordLimits(observed), now, faults);
        LatchFailure(WriteFailed);
      } else {
        CommitCall(RecordLimits(observed), Tape(state, evidence.(limits := Some(observed))), now,
                   faults);
      }
      r := TakeFailure();
    }
  }
}
