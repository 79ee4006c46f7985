/** Which transcripts the reader takes: every line judged by the records in front of it, without the
    reader's running state. */
module TranscriptReading {
  import opened Prelude
  import opened Lifecycle
  import opened LoopLimits
  import opened Tape
  import opened Utf8
  import opened TranscriptReplay

  // ----- What the records in front say -----

  function UpdatesOf(records: seq<Record>): seq<Update> {
    if records == [] then []
    else
      var payload := records[|records| - 1].payload;
      UpdatesOf(records[..|records| - 1])
      + match payload {
          case SessionEvent(event) => [Wire(event)]
          case DomainFact(fact) => [fact]
          case _ => []
        }
  }

  /** The latest usage record as a value. */
  function UsageIn(records: seq<Record>): Option<Usage> {
    if records == [] then None
    else
      var last := records[|records| - 1];
      match last.payload
      case UsageObserved(input, output) => Some(Usage(last.sessionId, input, output))
      case _ => UsageIn(records[..|records| - 1])
  }

  /** The latest limits record as evidence. */
  function LimitsIn(records: seq<Record>): Option<Observed> {
    if records == [] then None
    else
      var last := records[|records| - 1];
      match last.payload
      case LimitsObserved(limits, counters) => Some(Observed(last.sessionId, limits, counters))
      case _ => LimitsIn(records[..|records| - 1])
  }

  /** Limits evidence directly in front. */
  function Awaited(records: seq<Record>): Option<Observed> {
    if records != [] && records[|records| - 1].payload.LimitsObserved? then LimitsIn(records) else None
  }

  // ----- One more record -----

  /** The record speaks of its own session alone. */
  predicate OwnSession(record: Record) {
    match record.payload
    case SessionEvent(event) => event.sessionId == record.sessionId
    case DomainFact(fact) =>
      && (fact.CancelRequested? ==> fact.sessionId == record.sessionId)
      && (fact.ApprovalRequested? ==> fact.sessionId == record.sessionId)
      && (fact.ApprovalResolved? ==> fact.sessionId == record.sessionId)
    case _ => true
  }

  /** What is foreign about a record behind others, the first such thing in the order of the reader. */
  function Foreign(scope: Option<string>, records: seq<Record>, record: Record)
    : Option<ReplayFailure>
  {
    if record.order != |records| + 1 then Some(RecordOrderMismatch)
    else if records == [] then
      if scope.Some? && record.workspaceId != scope.value then Some(WorkspaceMismatch)
      else if !OwnSession(record) then Some(ForeignSession)
      else None
    else
      var first := records[0];
      if record.version != first.version then Some(VersionMismatch)
      else if record.workspaceId != first.workspaceId then Some(WorkspaceMismatch)
      else if record.sessionId != first.sessionId || !OwnSession(record) then Some(ForeignSession)
      else None
  }

  /** An update that the history admits, within the text cap and before any usage if it is a delta. */
  predicate UpdateFits(records: seq<Record>, u: Update) {
    var history := UpdatesOf(records);
    && Admits(history, u)
    && (u.IsDelta() ==>
          && UsageIn(records).None?
          && Length(DeltaText(history)) + Length(u.event.body.text) <= 141072)
  }

  /** Limits evidence has its one matching terminal directly behind it, and no budget's code comes without
      evidence in version 3. */
  predicate TerminalFits(records: seq<Record>, record: Record) {
    match Awaited(records)
    case Some(observed) =>
      && record.payload.SessionEvent?
      && Wire(record.payload.event).EndsSession()
      && LimitsMatchTerminal(observed, Wire(record.payload.event))
    case None =>
      !(record.version == 3 && record.payload.SessionEvent?
        && record.payload.event.body.SessionFailed?
        && IsLoopLimitCode(record.payload.event.body.code))
  }

  predicate RecordFits(scope: Option<string>, records: seq<Record>, record: Record) {
    var history := UpdatesOf(records);
    && Foreign(scope, records, record).None?
    && TerminalFits(records, record)
    && match record.payload {
         case SessionEvent(event) => UpdateFits(records, Wire(event))
         case DomainFact(fact) => UpdateFits(records, fact)
         case UsageObserved(_, _) =>
           && UsageIn(records).None? && LimitsIn(records).None?
           && HistoryStatus(history).Running? && DeltaText(history) != ""
           && Latest(history, IsAssistantEnd()).None?
         case LimitsObserved(_, _) =>
           && LimitsIn(records).None?
           && OfSession(history, record.sessionId) && !HistoryStatus(history).Terminal()
       }
  }

  // ----- Lines -----

  /** The record a line holds. */
  function RecordIn(codec: Codec, line: seq<byte>): Option<Record> {
    if line == [] || !codec.isUtf8(line[..|line| - 1]) then None
    else codec.decode(line[..|line| - 1])
  }

  function RecordsIn(codec: Codec, lines: seq<seq<byte>>): seq<Record> {
    if lines == [] then []
    else
      RecordsIn(codec, lines[..|lines| - 1])
      + match RecordIn(codec, lines[|lines| - 1]) { case Some(record) => [record] case None => [] }
  }

  function SizeOf(lines: seq<seq<byte>>): nat {
    if lines == [] then 0 else SizeOf(lines[..|lines| - 1]) + |lines[|lines| - 1]|
  }

  /** A line ends with LF alone, not CRLF. */
  predicate EndsPlainly(line: seq<byte>) {
    line != [] && line[|line| - 1] == 10 && (|line| > 1 ==> line[|line| - 2] != 13)
  }

  /** Size and framing of a line behind others. */
  predicate LineSound(codec: Codec, lines: seq<seq<byte>>, line: seq<byte>) {
    && |lines| + 1 <= 10000 && SizeOf(lines) + |line| <= 16777216
    && |line| <= 131073 && EndsPlainly(line)
    && RecordIn(codec, line).Some?
  }

  /** The line may come behind `lines`. */
  predicate LineFits(
    codec: Codec, scope: Option<string>, lines: seq<seq<byte>>, line: seq<byte>)
  {
    && LineSound(codec, lines, line)
    && RecordFits(scope, RecordsIn(codec, lines), RecordIn(codec, line).value)
  }

  /** Every line may come behind the ones in front of it. */
  predicate Legible(codec: Codec, scope: Option<string>, lines: seq<seq<byte>>) {
    lines != [] ==>
      && Legible(codec, scope, lines[..|lines| - 1])
      && LineFits(codec, scope, lines[..|lines| - 1], lines[|lines| - 1])
  }

  // ----- The reader knows what the records say -----

  /** What was read, and what it amounts to. */
  predicate KnowsContent(r: Reader, records: seq<Record>) {
    && r.records == records
    && Replay(INITIAL, UpdatesOf(records)) == Accepted(r.state)
    && r.evidence == Evidence(UsageIn(records), LimitsIn(records))
    && r.pending == Awaited(records)
    && r.contentBytes == Length(r.state.assistantText)
  }

  /** Where it came from. */
  predicate KnowsSource(r: Reader, records: seq<Record>) {
    if records == [] then r.version.None? && r.workspaceId.None? && r.sessionId.None?
    else
      && r.version == Some(records[0].version)
      && r.workspaceId == Some(records[0].workspaceId)
      && r.sessionId == Some(records[0].sessionId)
  }

  lemma RecordsSnoc(records: seq<Record>, record: Record)
    ensures var now := records + [record];
            && UpdatesOf(now)
               == UpdatesOf(records)
                  + (match record.payload {
                       case SessionEvent(event) => [Wire(event)]
                       case DomainFact(fact) => [fact]
                       case _ => []
                     })
            && UsageIn(now)
               == (if record.payload.UsageObserved? then
                     Some(Usage(record.sessionId, record.payload.inputTokens,
                                record.payload.outputTokens))
                   else UsageIn(records))
            && LimitsIn(now)
               == (if record.payload.LimitsObserved? then
                     Some(Observed(record.sessionId, record.payload.limits, record.payload.counters))
                   else LimitsIn(records))
            && Awaited(now) == (if record.payload.LimitsObserved? then LimitsIn(now) else None)
            && now[0] == if records == [] then record else records[0]
  {
    assert (records + [record])[..|records|] == records;
  }

  lemma EnvelopeMeans(scope: Option<string>, r: Reader, records: seq<Record>, record: Record)
    requires KnowsSource(r, records) && r.lines == |records| + 1
    ensures CheckEnvelope(scope, r, record) == Foreign(scope, records, record)
  {}

  /** What the state says of the history. */
  lemma StateMeans(r: Reader, records: seq<Record>)
    requires KnowsContent(r, records)
    ensures var history := UpdatesOf(records);
            && r.state.status == HistoryStatus(history)
            && r.state.assistantText == DeltaText(history)
            && r.state.assistantCompleted == Latest(history, IsAssistantEnd()).Some?
            && (forall id :: r.state.sessionId == Some(id) <==> OfSession(history, id))
            && WellFormed(r.state)
  {
    hide Replay, UpdatesOf, UsageIn, LimitsIn, Awaited, Length, HistoryStatus, DeltaText, Latest;
    hide WellFormed, CountWire;
    RunInvariant(UpdatesOf(records));
  }

  predicate SameSource(r: Reader, s: Reader) {
    && s.version == r.version && s.workspaceId == r.workspaceId && s.sessionId == r.sessionId
    && s.lines == r.lines && s.bytes == r.bytes
  }

  lemma UpdateRead(r: Reader, records: seq<Record>, record: Record, u: Update)
    requires KnowsContent(r, records)
    requires record.payload == DomainFact(u) || (u.Wire? && record.payload == SessionEvent(u.event))
    ensures AcceptPayload(r.(pending := None), record).Ok? <==> UpdateFits(records, u)
    ensures UpdateFits(records, u) ==>
              var after := AcceptPayload(r.(pending := None), record).reader;
              KnowsContent(after, records + [record]) && SameSource(r, after)
  {
    RecordsSnoc(records, record);
    hide UpdatesOf, UsageIn, LimitsIn, Awaited, Length, Admits, WellFormed, HistoryStatus, Latest;
    StateMeans(r, records);
    var history := UpdatesOf(records);
    AcceptedExactly(history, u);
    ReplaySnoc(INITIAL, history, u);
    TextGrows(r.state, u);
    if u.IsDelta() { LengthConcat(r.state.assistantText, u.event.body.text); }
    hide Replay, Reduce, DeltaText;
  }

  lemma TextGrows(state: State, u: Update)
    requires WellFormed(state)
    ensures Reduce(state, u).Accepted? ==>
              Reduce(state, u).state.assistantText
              == state.assistantText + if u.IsDelta() then u.event.body.text else ""
  {}

  lemma EvidenceRead(r: Reader, records: seq<Record>, record: Record)
    requires KnowsContent(r, records)
    requires record.payload.UsageObserved? || record.payload.LimitsObserved?
    ensures var history, read := UpdatesOf(records), AcceptPayload(r.(pending := None), record);
            && (record.payload.UsageObserved? ==>
                  (read.Ok? <==>
                     && UsageIn(records).None? && LimitsIn(records).None?
                     && HistoryStatus(history).Running? && DeltaText(history) != ""
                     && Latest(history, IsAssistantEnd()).None?))
            && (record.payload.LimitsObserved? ==>
                  (read.Ok? <==>
                     && LimitsIn(records).None?
                     && OfSession(history, record.sessionId) && !HistoryStatus(history).Terminal()))
            && (read.Ok? ==>
                  KnowsContent(read.reader, records + [record]) && SameSource(r, read.reader))
  {
    hide UpdatesOf, UsageIn, LimitsIn, Length, WellFormed, HistoryStatus, Latest, Replay, DeltaText;
    hide Awaited;
    StateMeans(r, records);
    RecordsSnoc(records, record);
    assert UpdatesOf(records) + [] == UpdatesOf(records);
  }

  /** One record is taken exactly when it fits behind the others; a foreign one is refused for what is
      foreign about it. */
  lemma RecordRead(scope: Option<string>, r: Reader, records: seq<Record>, record: Record)
    requires KnowsContent(r, records) && KnowsSource(r, records) && r.lines == |records| + 1
    ensures var read := AcceptRecord(scope, r, record);
            && (read.Ok? <==> RecordFits(scope, records, record))
            && (read.Ok? ==>
                  && KnowsContent(read.reader, records + [record])
                  && KnowsSource(read.reader, records + [record])
                  && read.reader.lines == r.lines && read.reader.bytes == r.bytes)
            && (Foreign(scope, records, record).Some? ==>
                  read == Unreadable(Foreign(scope, records, record).value, r.lines))
  {
    EnvelopeMeans(scope, r, records, record);
    var known := r.(version := Some(record.version), workspaceId := Some(record.workspaceId),
                    sessionId := Some(record.sessionId));
    SourceKnown(scope, r, records, record);
    StillKnows(r, known, records);
    TerminalMeans(known, records, record);
    match record.payload {
      case SessionEvent(event) => UpdateRead(known, records, record, Wire(event));
      case DomainFact(fact) => UpdateRead(known, records, record, fact);
      case _ => EvidenceRead(known, records, record);
    }
    hide CheckEnvelope, Foreign, PendingOk, TerminalFits, AcceptPayload, KnowsContent, UpdateFits;
    hide UsageIn, LimitsIn, HistoryStatus, DeltaText, Latest, OfSession, UpdatesOf, KnowsSource;
  }

  lemma StillKnows(r: Reader, s: Reader, records: seq<Record>)
    requires KnowsContent(r, records)
    requires s == r.(version := s.version, workspaceId := s.workspaceId, sessionId := s.sessionId)
    ensures KnowsContent(s, records)
  {}

  lemma TerminalMeans(r: Reader, records: seq<Record>, record: Record)
    requires KnowsContent(r, records)
    ensures PendingOk(r, record) <==> TerminalFits(records, record)
  {
    hide Replay, UpdatesOf, UsageIn, LimitsIn, Awaited, Length, LimitsMatchTerminal, IsLoopLimitCode;
  }

  /** A record that is not foreign has the source of the first. */
  lemma SourceKnown(scope: Option<string>, r: Reader, records: seq<Record>, record: Record)
    requires KnowsSource(r, records)
    ensures forall s: Reader ::
              Foreign(scope, records, record).None?
              && s.version == Some(record.version) && s.workspaceId == Some(record.workspaceId)
              && s.sessionId == Some(record.sessionId)
              ==> KnowsSource(s, records + [record])
  {}

  // ----- Whole files -----

  /** Behind size and framing, a line is its record. */
  lemma SoundLine(codec: Codec, scope: Option<string>, lines: seq<seq<byte>>, r: Reader, line: seq<byte>)
    requires line != [] && r.lines == |lines| && r.bytes == SizeOf(lines)
    ensures var counted := r.(lines := r.lines + 1, bytes := r.bytes + |line|);
            AcceptLine(codec, scope, r, line)
            == if LineSound(codec, lines, line) then
                 AcceptRecord(scope, counted, RecordIn(codec, line).value)
               else Unreadable(AcceptLine(codec, scope, r, line).code, |lines| + 1)
  {
    hide AcceptRecord, SizeOf;
  }

  lemma LineMeans(codec: Codec, scope: Option<string>, lines: seq<seq<byte>>, r: Reader, line: seq<byte>)
    requires line != [] && RecordsIn(codec, lines) == r.records && |r.records| == |lines|
    requires KnowsContent(r, r.records) && KnowsSource(r, r.records)
    requires r.lines == |lines| && r.bytes == SizeOf(lines)
    ensures var read := AcceptLine(codec, scope, r, line);
            && (read.Ok? <==> LineFits(codec, scope, lines, line))
            && (read.Ok? ==>
                  && read.reader.records == r.records + [RecordIn(codec, line).value]
                  && KnowsContent(read.reader, read.reader.records)
                  && KnowsSource(read.reader, read.reader.records)
                  && read.reader.lines == |lines| + 1
                  && read.reader.bytes == SizeOf(lines) + |line|)
            && (read.Unreadable? ==> read.line == |lines| + 1)
  {
    hide AcceptLine, AcceptRecord, RecordFits, KnowsContent, KnowsSource, RecordsIn, SizeOf, RecordIn;
    hide EndsPlainly;
    var counted := r.(lines := r.lines + 1, bytes := r.bytes + |line|);
    SoundLine(codec, scope, lines, r, line);
    CountingKnows(r, counted, r.records);
    if LineSound(codec, lines, line) {
      var record := RecordIn(codec, line).value;
      RecordRead(scope, counted, r.records, record);
      RefusalsNameTheLine(scope, counted, record);
      if AcceptRecord(scope, counted, record).Ok? {
        RecordsRead(AcceptRecord(scope, counted, record).reader, r.records + [record]);
      }
    }
  }

  lemma RefusalsNameTheLine(scope: Option<string>, r: Reader, record: Record)
    ensures AcceptRecord(scope, r, record).Unreadable? ==>
              AcceptRecord(scope, r, record).line == r.lines
  {
    hide Reduce, CheckEnvelope, PendingOk, Length;
  }

  lemma RecordsRead(r: Reader, records: seq<Record>)
    requires KnowsContent(r, records)
    ensures r.records == records
  {}

  lemma CountingKnows(r: Reader, s: Reader, records: seq<Record>)
    requires KnowsContent(r, records) && KnowsSource(r, records)
    requires s == r.(lines := s.lines, bytes := s.bytes)
    ensures KnowsContent(s, records) && KnowsSource(s, records)
  {}

  lemma NothingKnown()
    ensures KnowsContent(UNREAD, []) && KnowsSource(UNREAD, [])
  {
    EmptyText();
  }

  lemma EmptyText()
    ensures Length("") == 0
  {}

  /** The reader takes exactly the legible files, and what it returns is what their records say: the replay
      of their updates, their usage and their limits evidence. */
  lemma {:induction false} LegibleFilesAreRead(
    codec: Codec, scope: Option<string>, lines: seq<seq<byte>>)
    requires forall i :: 0 <= i < |lines| ==> IsLine(lines[i])
    ensures var read := ReplayLines(codec, scope, lines);
            && (read.Ok? <==> Legible(codec, scope, lines))
            && (read.Ok? ==>
                  && read.reader.records == RecordsIn(codec, lines) && |read.reader.records| == |lines|
                  && KnowsContent(read.reader, read.reader.records)
                  && KnowsSource(read.reader, read.reader.records)
                  && read.reader.lines == |lines| && read.reader.bytes == SizeOf(lines))
  {
    hide AcceptLine, LineFits, KnowsContent, KnowsSource, RecordIn;
    if lines == [] {
      NothingKnown();
    } else {
      var front, last := lines[..|lines| - 1], lines[|lines| - 1];
      LegibleFilesAreRead(codec, scope, front);
      var before := ReplayLines(codec, scope, front);
      if before.Ok? {
        LineMeans(codec, scope, front, before.reader, last);
        FitsHasRecord(codec, scope, front, last);
      }
    }
  }

  lemma FitsHasRecord(codec: Codec, scope: Option<string>, lines: seq<seq<byte>>, line: seq<byte>)
    ensures LineFits(codec, scope, lines, line) ==> RecordIn(codec, line).Some?
  {}

  /** A framed record that is foreign behind legible lines is refused for exactly that. */
  lemma ForeignRecordsAreRefused(
    codec: Codec, scope: Option<string>, lines: seq<seq<byte>>, line: seq<byte>, record: Record)
    requires forall i :: 0 <= i < |lines| ==> IsLine(lines[i])
    requires Legible(codec, scope, lines) && EndsPlainly(line) && RecordIn(codec, line) == Some(record)
    requires |lines| + 1 <= 10000 && SizeOf(lines) + |line| <= 16777216 && |line| <= 131073
    requires Foreign(scope, RecordsIn(codec, lines), record).Some?
    ensures ReplayLines(codec, scope, lines).Ok?
    ensures AcceptLine(codec, scope, ReplayLines(codec, scope, lines).reader, line)
            == Unreadable(Foreign(scope, RecordsIn(codec, lines), record).value, |lines| + 1)
  {
    hide Legible, ReplayLines, KnowsContent, KnowsSource, Foreign, AcceptRecord, SizeOf, RecordsIn;
    LegibleFilesAreRead(codec, scope, lines);
    var r := ReplayLines(codec, scope, lines).reader;
    var counted := r.(lines := r.lines + 1, bytes := r.bytes + |line|);
    CountingKnows(r, counted, r.records);
    RecordRead(scope, counted, r.records, record);
  }

  lemma Regroup(a: seq<byte>, b: seq<byte>, c: seq<byte>)
    ensures (a + b) + c == a + (b + c)
  {}

  lemma {:induction false} JoinFront(line: seq<byte>, lines: seq<seq<byte>>)
    ensures JoinLines([line] + lines) == line + JoinLines(lines)
    decreases |lines|
  {
    var all := [line] + lines;
    if lines == [] {
      assert all[..0] == [];
    } else {
      var front, last := lines[..|lines| - 1], lines[|lines| - 1];
      assert all[..|all| - 1] == [line] + front && all[|all| - 1] == last;
      JoinFront(line, front);
      Regroup(line, JoinLines(front), last);
    }
  }

  /** A line the reader takes is a whole line. */
  lemma TakenIsLine(codec: Codec, scope: Option<string>, r: Reader, rest: seq<byte>)
    requires rest != []
    requires var n := LineLength(rest, MAX_TRANSCRIPT_LINE_BYTES + 2);
             AcceptLine(codec, scope, r, rest[..n]).Ok?
    ensures IsLine(rest[..LineLength(rest, MAX_TRANSCRIPT_LINE_BYTES + 2)])
  {
    hide AcceptRecord;
    var n := LineLength(rest, MAX_TRANSCRIPT_LINE_BYTES + 2);
    var line := rest[..n];
    forall i | 0 <= i < |line| - 1 ensures line[i] != LF {
      assert rest[i] != LF;
    }
    assert LF !in line[..n - 1];
  }

  lemma {:induction false} TakenFileIsLines(
    codec: Codec, scope: Option<string>, r: Reader, rest: seq<byte>)
    returns (lines: seq<seq<byte>>)
    requires ReplayFrom(codec, scope, r, rest).Ok?
    ensures JoinLines(lines) == rest
    ensures forall i :: 0 <= i < |lines| ==> IsLine(lines[i])
    decreases |rest|
  {
    hide AcceptLine, IsLine;
    if rest == [] {
      lines := [];
    } else {
      var n := LineLength(rest, MAX_TRANSCRIPT_LINE_BYTES + 2);
      TakenIsLine(codec, scope, r, rest);
      var more := TakenFileIsLines(codec, scope, AcceptLine(codec, scope, r, rest[..n]).reader,
                                   rest[n..]);
      lines := [rest[..n]] + more;
      JoinFront(rest[..n], more);
      assert rest == rest[..n] + rest[n..];
    }
  }

  /** The file is these whole lines, one behind another. */
  predicate CutInto(file: seq<byte>, lines: seq<seq<byte>>) {
    JoinLines(lines) == file && forall i :: 0 <= i < |lines| ==> IsLine(lines[i])
  }

  /** A file of legible lines. */
  ghost predicate LegibleFile(codec: Codec, scope: Option<string>, file: seq<byte>) {
    exists lines :: CutInto(file, lines) && Legible(codec, scope, lines)
  }

  /** The reader takes exactly the files made of legible lines. */
  lemma FilesReadExactly(codec: Codec, scope: Option<string>, file: seq<byte>)
    ensures ReplayFrom(codec, scope, UNREAD, file).Ok? <==> LegibleFile(codec, scope, file)
  {
    hide Legible, ReplayLines, IsLine, AcceptLine, JoinLines, KnowsContent, KnowsSource;
    assert file + [] == file;
    if ReplayFrom(codec, scope, UNREAD, file).Ok? {
      var lines := TakenFileIsLines(codec, scope, UNREAD, file);
      assert JoinLines(lines) + [] == JoinLines(lines);
      ReplayJoined(codec, scope, lines, []);
      LegibleFilesAreRead(codec, scope, lines);
      assert CutInto(file, lines);
    }
    if LegibleFile(codec, scope, file) {
      var lines :| CutInto(file, lines) && Legible(codec, scope, lines);
      ReplayJoined(codec, scope, lines, []);
      LegibleFilesAreRead(codec, scope, lines);
    }
  }
}
