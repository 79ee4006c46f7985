/** Transcript records and the reader that replays them: `replay_transcript` of `transcript.py`. */
module TranscriptReplay {
  import opened Prelude
  import opened Lifecycle
  import opened LoopLimits
  import opened Tape
  import opened Utf8

  const TRANSCRIPT_VERSION := 3
  const MAX_TRANSCRIPT_LINE_BYTES := 131072
  const MAX_TRANSCRIPT_BYTES := 16777216
  const MAX_TRANSCRIPT_RECORDS := 10000
  const MAX_REPLAY_ASSISTANT_BYTES := 141072
  const LF: byte := 10
  const CR: byte := 13

  datatype Payload =
    | DomainFact(fact: Update)
    | SessionEvent(event: Event)
    | UsageObserved(inputTokens: nat, outputTokens: nat)
    | LimitsObserved(limits: Limits, counters: Counters)

  datatype Record = Record(
    version: int,
    order: nat,
    recordedAt: string,
    workspaceId: string,
    sessionId: string,
    payload: Payload)
  {
    /** The schema every decoded record meets. */
    predicate Valid() {
      && 1 <= version <= 3
      && order > 0
      && match payload {
           case DomainFact(fact) => !fact.Wire?
           case SessionEvent(event) => event.sequence > 0
           case UsageObserved(input, output) =>
             && version >= 2
             && input <= MAX_MODEL_USAGE_TOKENS && output <= MAX_MODEL_USAGE_TOKENS
           case LimitsObserved(limits, counters) =>
             version == 3 && Observed(sessionId, limits, counters).Valid()
         }
    }

    /** `_record_matches_session`. */
    predicate MatchesSession() {
      match payload
      case UsageObserved(_, _) => true
      case LimitsObserved(_, _) => true
      case SessionEvent(event) => event.sessionId == sessionId
      case DomainFact(fact) =>
        match fact
        case CancelRequested(_, sid) => sid == sessionId
        case ApprovalRequested(sid) => sid == sessionId
        case ApprovalResolved(sid) => sid == sessionId
        case _ => true
    }
  }

  /** JSON encoding and strict validation, both ways; encoding fails where validation would. */
  datatype Codec = Codec(
    encode: Record -> Option<seq<byte>>,
    decode: seq<byte> -> Option<Record>,
    isUtf8: seq<byte> -> bool)

  /** What the JSON library promises: an encoded record is one line of text that decodes to itself. */
  ghost predicate CodecOk(codec: Codec) {
    && (forall r: Record :: codec.encode(r).Some? ==>
          var bytes := codec.encode(r).value;
          && codec.decode(bytes) == Some(r)
          && codec.isUtf8(bytes)
          && LF !in bytes
          && bytes != [] && bytes[|bytes| - 1] != CR)
    && (forall bytes: seq<byte> :: codec.decode(bytes).Some? ==> codec.decode(bytes).value.Valid())
  }

  datatype ReplayFailure =
    | InvalidFraming
    | LineTooLarge
    | InvalidUtf8
    | InvalidRecord
    | VersionMismatch
    | RecordOrderMismatch
    | WorkspaceMismatch
    | ForeignSession
    | LifecycleInvariantFailed
    | TranscriptTooLarge

  /** The reader's local variables between two lines. */
  datatype Reader = Reader(
    records: seq<Record>,
    state: State,
    evidence: Evidence,
    version: Option<int>,
    workspaceId: Option<string>,
    sessionId: Option<string>,
    contentBytes: nat,
    pending: Option<Observed>,
    lines: nat,
    bytes: nat)
  {
    predicate Complete() { state.status.Terminal() }
  }

  const UNREAD := Reader([], INITIAL, Evidence(None, None), None, None, None, 0, None, 0, 0)

  datatype Replayed = Ok(reader: Reader) | Unreadable(code: ReplayFailure, line: nat)

  // ----- One record -----

  /** The identity checks: order, version, workspace and session; the first record fixes the last
      three for the rest. */
  function CheckEnvelope(scope: Option<string>, r: Reader, record: Record): Option<ReplayFailure> {
    if record.order != r.lines then Some(RecordOrderMismatch)
    else if r.version.Some? && record.version != r.version.value then Some(VersionMismatch)
    else if r.workspaceId.None? then
      if scope.Some? && record.workspaceId != scope.value then Some(WorkspaceMismatch)
      else if !record.MatchesSession() then Some(ForeignSession) else None
    else if record.workspaceId != r.workspaceId.value then Some(WorkspaceMismatch)
    else if Some(record.sessionId) != r.sessionId then Some(ForeignSession)
    else if !record.MatchesSession() then Some(ForeignSession)
    else None
  }

  /** Limits evidence must be followed by the terminal it matches, and in version 3 a reserved
      failure code must follow limits evidence. */
  predicate PendingOk(r: Reader, record: Record) {
    match r.pending
    case Some(observed) =>
      && record.payload.SessionEvent?
      && Wire(record.payload.event).EndsSession()
      && LimitsMatchTerminal(observed, Wire(record.payload.event))
    case None =>
      !(record.version == 3 && record.payload.SessionEvent?
        && UsesLimitCode(Wire(record.payload.event)))
  }

  function RecordUpdateOf(record: Record): Update
    requires record.payload.SessionEvent? || record.payload.DomainFact?
  {
    if record.payload.SessionEvent? then Wire(record.payload.event) else record.payload.fact
  }

  function AcceptPayload(r: Reader, record: Record): Replayed {
    match record.payload
    case UsageObserved(input, output) =>
      if || r.evidence.usage.Some? || r.evidence.limits.Some? || !r.state.status.Running?
         || r.state.assistantText == "" || r.state.assistantCompleted
      then Unreadable(LifecycleInvariantFailed, r.lines)
      else
        Ok(r.(evidence := r.evidence.(usage := Some(Usage(record.sessionId, input, output))),
              records := r.records + [record]))
    case LimitsObserved(limits, counters) =>
      if || r.evidence.limits.Some? || r.state.sessionId != Some(record.sessionId)
         || r.state.status.Terminal()
      then Unreadable(LifecycleInvariantFailed, r.lines)
      else
        var observed := Observed(record.sessionId, limits, counters);
        Ok(r.(evidence := r.evidence.(limits := Some(observed)), pending := Some(observed),
              records := r.records + [record]))
    case _ =>
      var u := RecordUpdateOf(record);
      if u.IsDelta() && r.evidence.usage.Some? then Unreadable(LifecycleInvariantFailed, r.lines)
      else
        var content := r.contentBytes + if u.IsDelta() then Length(u.event.body.text) else 0;
        if u.IsDelta() && content > MAX_REPLAY_ASSISTANT_BYTES then
          Unreadable(TranscriptTooLarge, r.lines)
        else
          match Reduce(r.state, u)
          case Rejected(_, _) => Unreadable(LifecycleInvariantFailed, r.lines)
          case Accepted(next) =>
            Ok(r.(state := next, contentBytes := content, records := r.records + [record]))
  }

  /** `r` already counts the line the record came from. */
  function AcceptRecord(scope: Option<string>, r: Reader, record: Record): Replayed {
    match CheckEnvelope(scope, r, record)
    case Some(code) => Unreadable(code, r.lines)
    case None =>
      var known := r.(version := Some(record.version), workspaceId := Some(record.workspaceId),
                      sessionId := Some(record.sessionId));
      if !PendingOk(known, record) then Unreadable(LifecycleInvariantFailed, r.lines)
      else AcceptPayload(known.(pending := None), record)
  }

  // ----- Lines -----

  function AcceptLine(codec: Codec, scope: Option<string>, r: Reader, line: seq<byte>): Replayed
    requires line != []
  {
    var counted := r.(lines := r.lines + 1, bytes := r.bytes + |line|);
    if counted.bytes > MAX_TRANSCRIPT_BYTES || counted.lines > MAX_TRANSCRIPT_RECORDS then
      Unreadable(TranscriptTooLarge, counted.lines)
    else if |line| > MAX_TRANSCRIPT_LINE_BYTES + 1 then Unreadable(LineTooLarge, counted.lines)
    else if line[|line| - 1] != LF || (|line| > 1 && line[|line| - 2] == CR) then
      Unreadable(InvalidFraming, counted.lines)
    else
      var encoded := line[..|line| - 1];
      if !codec.isUtf8(encoded) then Unreadable(InvalidUtf8, counted.lines)
      else
        match codec.decode(encoded)
        case None => Unreadable(InvalidRecord, counted.lines)
        case Some(record) => AcceptRecord(scope, counted, record)
  }

  /** How many bytes `readline` with a bound returns. */
  function LineLength(rest: seq<byte>, bound: nat): (n: nat)
    ensures n <= |rest| && n <= bound
    ensures rest != [] && bound > 0 ==> n > 0
    ensures forall i :: 0 <= i < n - 1 ==> rest[i] != LF
    ensures n < |rest| && n < bound ==> n > 0 && rest[n - 1] == LF
  {
    if rest == [] || bound == 0 then 0
    else if rest[0] == LF then 1
    else 1 + LineLength(rest[1..], bound - 1)
  }

  function ReplayFrom(codec: Codec, scope: Option<string>, r: Reader, rest: seq<byte>): Replayed
    decreases |rest|
  {
    if rest == [] then Ok(r)
    else
      var n := LineLength(rest, MAX_TRANSCRIPT_LINE_BYTES + 2);
      match AcceptLine(codec, scope, r, rest[..n])
      case Unreadable(code, line) => Unreadable(code, line)
      case Ok(next) => ReplayFrom(codec, scope, next, rest[n..])
  }

  /** The read loop of `replay_transcript` over the whole file. */
  method ReplayTranscript(codec: Codec, scope: Option<string>, file: seq<byte>)
    returns (result: Replayed)
    ensures |file| <= MAX_TRANSCRIPT_BYTES ==> result == ReplayFrom(codec, scope, UNREAD, file)
    ensures |file| > MAX_TRANSCRIPT_BYTES ==> result.Unreadable? && result.code.TranscriptTooLarge?
  {
    hide AcceptLine, LineLength;
    if |file| > MAX_TRANSCRIPT_BYTES { return Unreadable(TranscriptTooLarge, 0); }
    var reader := UNREAD;
    var position := 0;
    while position < |file|
      invariant 0 <= position <= |file|
      invariant ReplayFrom(codec, scope, UNREAD, file)
                == ReplayFrom(codec, scope, reader, file[position..])
    {
      var rest := file[position..];
      var n := LineLength(rest, MAX_TRANSCRIPT_LINE_BYTES + 2);
      var line := AcceptLine(codec, scope, reader, rest[..n]);
      assert rest[n..] == file[position + n..];
      if line.Unreadable? { return line; }
      reader := line.reader;
      position := position + n;
    }
    result := Ok(reader);
  }

  // ----- Complete lines -----

  function JoinLines(lines: seq<seq<byte>>): seq<byte> {
    if lines == [] then [] else JoinLines(lines[..|lines| - 1]) + lines[|lines| - 1]
  }

  function ReplayLines(codec: Codec, scope: Option<string>, lines: seq<seq<byte>>): Replayed
    requires forall i :: 0 <= i < |lines| ==> IsLine(lines[i])
  {
    if lines == [] then Ok(UNREAD)
    else
      assert IsLine(lines[|lines| - 1]);
      match ReplayLines(codec, scope, lines[..|lines| - 1])
      case Unreadable(code, line) => Unreadable(code, line)
      case Ok(r) => AcceptLine(codec, scope, r, lines[|lines| - 1])
  }

  /** One LF, at the end, within the bound. */
  predicate IsLine(line: seq<byte>) {
    && 0 < |line| <= MAX_TRANSCRIPT_LINE_BYTES + 1
    && line[|line| - 1] == LF
    && LF !in line[..|line| - 1]
  }

  lemma {:induction false} LineLengthOfLine(line: seq<byte>, rest: seq<byte>, bound: nat)
    requires line != [] && line[|line| - 1] == LF && LF !in line[..|line| - 1]
    requires |line| <= bound
    ensures LineLength(line + rest, bound) == |line|
    decreases |line|
  {
    if |line| > 1 {
      assert line[0] == line[..|line| - 1][0];
      assert (line + rest)[1..] == line[1..] + rest;
      assert line[1..][..|line| - 2] == line[..|line| - 1][1..];
      LineLengthOfLine(line[1..], rest, bound - 1);
    }
  }

  /** Reading a file of whole lines is reading its lines one by one, whatever follows them. */
  lemma {:induction false} ReplayJoined(
    codec: Codec, scope: Option<string>, lines: seq<seq<byte>>, rest: seq<byte>)
    requires forall i :: 0 <= i < |lines| ==> IsLine(lines[i])
    ensures ReplayFrom(codec, scope, UNREAD, JoinLines(lines) + rest)
            == match ReplayLines(codec, scope, lines) {
                 case Unreadable(code, line) => Unreadable(code, line)
                 case Ok(r) => ReplayFrom(codec, scope, r, rest)
               }
    decreases |lines|
  {
    hide AcceptLine;
    if lines == [] {
      assert JoinLines(lines) + rest == rest;
    } else {
      var front, last := lines[..|lines| - 1], lines[|lines| - 1];
      assert JoinLines(lines) + rest == JoinLines(front) + (last + rest);
      ReplayJoined(codec, scope, front, last + rest);
      LineLengthOfLine(last, rest, MAX_TRANSCRIPT_LINE_BYTES + 2);
      assert (last + rest)[..|last|] == last && (last + rest)[|last|..] == rest;
    }
  }
}
