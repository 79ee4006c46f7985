/** One session's append-only transcript under storage faults: `SessionTranscript` of
    `transcript.py`, as a function of the calls made on it. */
module TranscriptWriter {
  import opened Prelude
  import opened Lifecycle
  import opened Tape
  import opened Utf8
  import S = Sanitizer
  import R = TranscriptReplay
  import LoopLimits

  datatype Options = Options(
    settings: S.Settings, codec: R.Codec, workspaceId: string, sessionId: string)

  datatype PersistenceFailure = WriteFailed | FlushFailed | SummaryFailed

  /** How one `os.write` ends: some bytes taken, or an error. */
  datatype WriteOutcome = Wrote(count: nat) | Raises

  /** What the file system does during one call; writes beyond the plan take everything. */
  datatype Faults = Faults(writes: seq<WriteOutcome>, flushOk: bool, truncateOk: bool, summaryOk: bool)

  /** One call on the transcript, with the clock, the credential patterns' finds and the faults. */
  datatype Request = Request(call: Call, now: string, credentials: set<int>, faults: Faults)

  /** `torn` is what a failed append of the record `attempted` left behind the committed lines. */
  datatype Writer = Writer(
    tape: Tape,
    memory: S.Memory,
    records: seq<R.Record>,
    committedBytes: nat,
    file: seq<byte>,
    torn: seq<byte>,
    attempted: Option<R.Record>,
    closed: bool,
    failure: Option<PersistenceFailure>,
    reported: bool)

  const OPENED := Writer(BLANK, S.UNUSED, [], 0, [], [], None, false, None, false)

  // ----- Appending bytes -----

  /** `_write_all`: whether it got through, and how many bytes it wrote. */
  function WriteAll(contents: seq<byte>, plan: seq<WriteOutcome>): (r: (bool, nat))
    ensures r.1 <= |contents|
    ensures r.0 <==> r.1 == |contents|
    decreases |plan|
  {
    if contents == [] then (true, 0)
    else if plan == [] then (true, |contents|)
    else if plan[0].Raises? || plan[0].count == 0 then (false, 0)
    else
      var taken := if plan[0].count < |contents| then plan[0].count else |contents|;
      var (ok, more) := WriteAll(contents[taken..], plan[1..]);
      (ok, taken + more)
  }

  /** `_append_and_flush`: what stays behind the old end of the file, and the failure. */
  function Append(line: seq<byte>, faults: Faults): (r: (seq<byte>, Option<PersistenceFailure>))
    ensures r.0 <= line
    ensures r.1.None? ==> r.0 == line
    ensures r.1.Some? && faults.truncateOk ==> r.0 == []
  {
    var (ok, count) := WriteAll(line, faults.writes);
    if ok && faults.flushOk then (line, None)
    else (if faults.truncateOk then [] else line[..count], Some(if ok then FlushFailed else WriteFailed))
  }

  function PayloadOf(call: Call): R.Payload {
    match call
    case RecordUpdate(u, _) => if u.Wire? then R.SessionEvent(u.event) else R.DomainFact(u)
    case RecordUsage(usage) => R.UsageObserved(usage.inputTokens, usage.outputTokens)
    case RecordLimits(observed) => R.LimitsObserved(observed.limits, observed.counters)
  }

  function BuildRecord(o: Options, w: Writer, call: Call, now: string): R.Record {
    R.Record(R.TRANSCRIPT_VERSION, |w.records| + 1, now, o.workspaceId, o.sessionId, PayloadOf(call))
  }

  /** The line of a record that can be encoded and fits. */
  function LineOf(o: Options, w: Writer, record: R.Record): Option<seq<byte>> {
    match o.codec.encode(record)
    case None => None
    case Some(bytes) =>
      if || |bytes| > R.MAX_TRANSCRIPT_LINE_BYTES
         || |w.records| + 1 > R.MAX_TRANSCRIPT_RECORDS
         || w.committedBytes + |bytes| + 1 > R.MAX_TRANSCRIPT_BYTES
      then None
      else Some(bytes + [R.LF])
  }

  /** `_append_record`: commits the record, or says why not. */
  function Commit(o: Options, w: Writer, record: R.Record, faults: Faults)
    : (Writer, Option<PersistenceFailure>)
  {
    match LineOf(o, w, record)
    case None => (w, Some(WriteFailed))
    case Some(line) =>
      var (kept, failure) := Append(line, faults);
      var appended := w.(file := w.file + kept);
      if failure.Some? then (appended.(torn := kept, attempted := Some(record)), failure)
      else
        (appended.(records := w.records + [record], committedBytes := w.committedBytes + |line|), None)
  }

  // ----- Calls -----

  function Latch(w: Writer, code: PersistenceFailure): Writer {
    w.(failure := if w.failure.None? then Some(code) else w.failure, closed := true)
  }

  /** `_take_failure`. */
  function Report(w: Writer): (Writer, Option<PersistenceFailure>) {
    if w.failure.None? || w.reported then (w, None) else (w.(reported := true), w.failure)
  }

  /** The call as it is persisted, and what the sanitiser remembers afterwards. */
  ghost function SafeCall(o: Options, w: Writer, request: Request): (S.Memory, Call)
    requires o.settings.Valid() && w.memory.contentBytes <= o.settings.textLimit
  {
    match request.call
    case RecordUpdate(u, accepted) =>
      var (after, safe) := S.Sanitize(o.settings, w.memory, u, request.credentials);
      (after, RecordUpdate(safe, accepted))
    case _ => (w.memory, request.call)
  }

  function Finish(w: Writer, ended: bool, summaryOk: bool): Writer {
    if !ended then w
    else
      var closed := w.(closed := true);
      if summaryOk then closed else Latch(closed, SummaryFailed)
  }

  /** The guarded part of `record`, `record_model_usage` and `record_loop_limits`. */
  function Admit(o: Options, w: Writer, safe: Call, now: string, faults: Faults): Writer {
    match Guard(o.sessionId, w.tape, safe)
    case None => Latch(w, WriteFailed)
    case Some(next) =>
      if safe.RecordUpdate? && Length(next.state.assistantText) > R.MAX_REPLAY_ASSISTANT_BYTES then
        Latch(w, WriteFailed)
      else
        var (after, failure) := Commit(o, w, BuildRecord(o, w, safe, now), faults);
        if failure.Some? then Latch(after, failure.value)
        else Finish(after.(tape := next), next.state.status.Terminal(), faults.summaryOk)
  }

  ghost function Perform(o: Options, w: Writer, request: Request)
    : (r: (Writer, Option<PersistenceFailure>))
    requires o.settings.Valid() && w.memory.contentBytes <= o.settings.textLimit
    ensures r.0.memory.contentBytes <= o.settings.textLimit
  {
    if w.failure.Some? then Report(w)
    else if w.closed then (w, None)
    else
      MemoryStays(o, w, request);
      var (after, safe) := SafeCall(o, w, request);
      Report(Admit(o, w.(memory := after), safe, request.now, request.faults))
  }

  lemma MemoryStays(o: Options, w: Writer, request: Request)
    requires o.settings.Valid() && w.memory.contentBytes <= o.settings.textLimit
    ensures SafeCall(o, w, request).0.contentBytes <= o.settings.textLimit
    ensures forall m: S.Memory, safe: Call ::
              Admit(o, w.(memory := m), safe, request.now, request.faults).memory == m
  {
    hide S.Sanitize, Guard, LineOf, Append, Length;
    if request.call.RecordUpdate? {
      S.SanitizeShape(o.settings, w.memory, request.call.update, request.credentials);
    }
  }

  // ----- The invariant -----

  /** The committed lines. */
  function Lines(o: Options, records: seq<R.Record>): seq<seq<byte>> {
    if records == [] then []
    else
      var line := match o.codec.encode(records[|records| - 1]) {
        case None => [R.LF]
        case Some(bytes) => bytes + [R.LF]
      };
      Lines(o, records[..|records| - 1]) + [line]
  }

  predicate Stamped(o: Options, records: seq<R.Record>) {
    forall i :: 0 <= i < |records| ==>
      && records[i].version == R.TRANSCRIPT_VERSION
      && records[i].order == i + 1
      && records[i].workspaceId == o.workspaceId
      && records[i].sessionId == o.sessionId
  }

  /** What a failed append left is the start of the next record's line. */
  predicate BeginsLine(o: Options, w: Writer) {
    && w.attempted.Some?
    && w.attempted.value.order == |w.records| + 1
    && o.codec.encode(w.attempted.value).Some?
    && w.torn <= o.codec.encode(w.attempted.value).value + [R.LF]
  }

  /** The file is the committed lines, and behind them at most the start of one failed line. */
  predicate FileInv(o: Options, w: Writer) {
    && w.file == R.JoinLines(Lines(o, w.records)) + w.torn
    && |R.JoinLines(Lines(o, w.records))| == w.committedBytes <= R.MAX_TRANSCRIPT_BYTES
    && |w.records| <= R.MAX_TRANSCRIPT_RECORDS
    && (w.torn != [] ==> w.failure.Some? && BeginsLine(o, w))
    && Stamped(o, w.records)
    && (forall i :: 0 <= i < |Lines(o, w.records)| ==> R.IsLine(Lines(o, w.records)[i]))
  }

  predicate LatchInv(w: Writer) {
    && (w.failure.Some? ==> w.closed && w.reported)
    && (w.reported ==> w.failure.Some?)
    && (w.tape.state.status.Terminal() ==> w.closed)
  }

  lemma LineIsLine(o: Options, w: Writer, record: R.Record)
    requires R.CodecOk(o.codec) && LineOf(o, w, record).Some?
    ensures R.IsLine(LineOf(o, w, record).value)
  {
    var bytes := o.codec.encode(record).value;
    var line := bytes + [R.LF];
    assert line[..|line| - 1] == bytes && line[|line| - 1] == R.LF;
  }

  lemma LinesSnoc(o: Options, records: seq<R.Record>, record: R.Record)
    requires o.codec.encode(record).Some?
    ensures var line := o.codec.encode(record).value + [R.LF];
            && Lines(o, records + [record]) == Lines(o, records) + [line]
            && R.JoinLines(Lines(o, records + [record])) == R.JoinLines(Lines(o, records)) + line
  {
    assert (records + [record])[..|records|] == records;
    var lines := Lines(o, records + [record]);
    assert lines[..|lines| - 1] == Lines(o, records);
  }

  lemma CommitKeepsFile(o: Options, w: Writer, record: R.Record, faults: Faults)
    requires R.CodecOk(o.codec) && FileInv(o, w) && w.failure.None?
    requires record.version == R.TRANSCRIPT_VERSION && record.order == |w.records| + 1
    requires record.workspaceId == o.workspaceId && record.sessionId == o.sessionId
    ensures var (after, failure) := Commit(o, w, record, faults);
            && FileInv(o, if failure.Some? then Latch(after, failure.value) else after)
            && (failure.None? ==> after.torn == [] && after.records == w.records + [record])
            && (failure.Some? ==> after.records == w.records)
            && (after.torn != [] ==> !faults.truncateOk)
  {
    hide R.CodecOk, Lines, R.JoinLines, R.IsLine, Append;
    if LineOf(o, w, record).Some? {
      LineIsLine(o, w, record);
      LinesSnoc(o, w.records, record);
    }
  }

  // ----- The reader agrees -----

  predicate Own(records: seq<R.Record>) {
    forall i :: 0 <= i < |records| ==> records[i].MatchesSession()
  }

  function AwaitedLimits(tape: Tape): Option<LoopLimits.Observed> {
    if tape.state.status.Terminal() then None else tape.evidence.limits
  }

  /** The reader stands exactly where the writer does. */
  predicate Agrees(
    o: Options, r: R.Reader, tape: Tape, records: seq<R.Record>, committedBytes: nat)
  {
    && r.records == records
    && r.state == tape.state
    && r.evidence == tape.evidence
    && r.lines == |records|
    && r.bytes == committedBytes
    && r.contentBytes == Length(tape.state.assistantText)
    && r.pending == AwaitedLimits(tape)
    && if records == [] then r.version.None? && r.workspaceId.None? && r.sessionId.None?
       else
         && r.version == Some(R.TRANSCRIPT_VERSION)
         && r.workspaceId == Some(o.workspaceId)
         && r.sessionId == Some(o.sessionId)
  }

  predicate InScope(o: Options, scope: Option<string>) {
    scope.None? || scope.value == o.workspaceId
  }

  lemma PendingAgrees(
    o: Options, r: R.Reader, tape: Tape, safe: Call, record: R.Record)
    requires r.pending == AwaitedLimits(tape) && !tape.state.status.Terminal()
    requires Guard(o.sessionId, tape, safe).Some?
    requires record.payload == PayloadOf(safe)
    ensures R.PendingOk(r, record)
  {
    hide Reduce, LimitsMatchTerminal, UsesLimitCode, SameLifecycle;
  }

  /** What the writer's guards admit, the reader accepts, and both end up in the same place. */
  lemma PayloadAgrees(
    o: Options, r: R.Reader, tape: Tape, safe: Call, record: R.Record)
    requires r.state == tape.state && r.evidence == tape.evidence && WellFormed(tape.state)
    requires r.contentBytes == Length(tape.state.assistantText) && r.pending.None?
    requires !tape.state.status.Terminal()
    requires Guard(o.sessionId, tape, safe).Some?
    requires safe.RecordUpdate? ==>
               Length(Guard(o.sessionId, tape, safe).value.state.assistantText)
               <= R.MAX_REPLAY_ASSISTANT_BYTES
    requires record.payload == PayloadOf(safe) && record.sessionId == o.sessionId
    ensures R.AcceptPayload(r, record).Ok?
    ensures var next := Guard(o.sessionId, tape, safe).value;
            var reader := R.AcceptPayload(r, record).reader;
            && reader.state == next.state && reader.evidence == next.evidence
            && reader.contentBytes == Length(next.state.assistantText)
            && reader.pending == AwaitedLimits(next)
            && reader == r.(state := reader.state, evidence := reader.evidence,
                            contentBytes := reader.contentBytes, pending := reader.pending,
                            records := r.records + [record])
  {
    hide LimitsMatchTerminal, UsesLimitCode, SameLifecycle, Length;
    if safe.RecordUpdate? && safe.update.IsDelta() {
      LengthConcat(tape.state.assistantText, safe.update.event.body.text);
    }
  }

  lemma RecordAgrees(
    o: Options, scope: Option<string>, r: R.Reader, w: Writer, safe: Call, now: string, size: nat)
    requires InScope(o, scope) && WellFormed(w.tape.state)
    requires Agrees(o, r, w.tape, w.records, w.committedBytes)
    requires !w.tape.state.status.Terminal() && Guard(o.sessionId, w.tape, safe).Some?
    requires safe.RecordUpdate? ==>
               Length(Guard(o.sessionId, w.tape, safe).value.state.assistantText)
               <= R.MAX_REPLAY_ASSISTANT_BYTES
    requires BuildRecord(o, w, safe, now).MatchesSession()
    ensures var record := BuildRecord(o, w, safe, now);
            var counted := r.(lines := r.lines + 1, bytes := r.bytes + size);
            var read := R.AcceptRecord(scope, counted, record);
            && read.Ok?
            && Agrees(o, read.reader, Guard(o.sessionId, w.tape, safe).value, w.records + [record],
                      w.committedBytes + size)
  {
    hide Guard, R.AcceptPayload, R.PendingOk, Length, WellFormed, AwaitedLimits;
    var record := BuildRecord(o, w, safe, now);
    var counted := r.(lines := r.lines + 1, bytes := r.bytes + size);
    var known := counted.(version := Some(record.version), workspaceId := Some(record.workspaceId),
                          sessionId := Some(record.sessionId));
    PendingAgrees(o, known, w.tape, safe, record);
    PayloadAgrees(o, known.(pending := None), w.tape, safe, record);
    assert R.CheckEnvelope(scope, counted, record).None?;
  }

  /** A record of some other session stops the reader. */
  lemma ForeignStops(o: Options, scope: Option<string>, r: R.Reader, record: R.Record)
    requires !record.MatchesSession()
    ensures !R.AcceptRecord(scope, r, record).Ok?
  {}
}
