/** What the records of a transcript say, why recording fails, and which files the reader takes: all
    stated of the calls, the bytes and the faults alone. */
module TranscriptContents {
  import opened Prelude
  import opened Lifecycle
  import opened Tape
  import opened Utf8
  import opened TranscriptWriter
  import opened TranscriptRuns
  import S = Sanitizer
  import R = TranscriptReplay
  import T = PersistedText

  // ----- Records show the calls -----

  /** The updates among the requests, with what the credential patterns find in them. */
  function Items(requests: seq<Request>): seq<S.Item> {
    if requests == [] then []
    else
      var last := requests[|requests| - 1];
      Items(requests[..|requests| - 1])
      + if last.call.RecordUpdate? then [S.Item(last.call.update, last.credentials)] else []
  }

  /** A record of version 3 with its number, its time and its call: usage token for token, limits counter
      for counter, an update as an event or a domain fact. */
  predicate RecordOf(o: Options, order: nat, now: string, call: Call, record: R.Record) {
    && record.version == 3 && record.order == order && record.recordedAt == now
    && record.workspaceId == o.workspaceId && record.sessionId == o.sessionId
    && record.payload
       == match call {
            case RecordUsage(usage) => R.UsageObserved(usage.inputTokens, usage.outputTokens)
            case RecordLimits(observed) => R.LimitsObserved(observed.limits, observed.counters)
            case RecordUpdate(u, _) => if u.Wire? then R.SessionEvent(u.event) else R.DomainFact(u)
          }
  }

  /** The record of a call behind others: stamped with the call's own time, and its update sanitised. */
  ghost predicate ShowsCall(o: Options, before: seq<Request>, request: Request, record: R.Record)
    requires o.settings.Valid()
  {
    match request.call
    case RecordUpdate(_, accepted) =>
      var safe := S.SanitizeAll(o.settings, Items(before + [request])).1;
      safe != []
      && RecordOf(o, |before| + 1, request.now, RecordUpdate(safe[|safe| - 1], accepted), record)
    case call => RecordOf(o, |before| + 1, request.now, call, record)
  }

  /** The records so far, and what the sanitiser remembers while recording goes on. */
  ghost predicate Content(o: Options, requests: seq<Request>, w: Writer)
    requires o.settings.Valid()
  {
    && |w.records| <= |requests|
    && (forall i :: 0 <= i < |w.records| ==>
          ShowsCall(o, requests[..i], requests[i], w.records[i]))
    && (w.failure.None? && !w.closed ==>
          |w.records| == |requests| && w.memory == S.SanitizeAll(o.settings, Items(requests)).0)
  }

  lemma ItemsSnoc(requests: seq<Request>, last: Request)
    ensures Items(requests + [last])
            == Items(requests)
               + if last.call.RecordUpdate? then [S.Item(last.call.update, last.credentials)] else []
  {
    assert (requests + [last])[..|requests|] == requests;
  }

  /** Sanitising one more call goes on from what is remembered. */
  lemma SafeCallContinues(o: Options, requests: seq<Request>, w: Writer, request: Request)
    requires o.settings.Valid() && w.memory == S.SanitizeAll(o.settings, Items(requests)).0
    ensures var (after, safe) := SafeCall(o, w, request);
            var all := S.SanitizeAll(o.settings, Items(requests + [request]));
            && after == all.0
            && (!request.call.RecordUpdate? ==> safe == request.call)
            && (request.call.RecordUpdate? ==>
                  all.1 != []
                  && safe == RecordUpdate(all.1[|all.1| - 1], request.call.accepted))
  {
    hide S.Sanitize;
    ItemsSnoc(requests, request);
    if request.call.RecordUpdate? {
      var item := S.Item(request.call.update, request.credentials);
      assert (Items(requests) + [item])[..|Items(requests)|] == Items(requests);
    } else {
      assert Items(requests) + [] == Items(requests);
    }
  }

  lemma BuiltRecord(o: Options, w: Writer, safe: Call, now: string)
    ensures RecordOf(o, |w.records| + 1, now, safe, BuildRecord(o, w, safe, now))
  {}

  /** What admitting a call does to the records. */
  lemma AdmitRecords(o: Options, w: Writer, safe: Call, now: string, faults: Faults)
    requires w.failure.None?
    ensures var after := Admit(o, w, safe, now, faults);
            && after.memory == w.memory
            && (|| (after.records == w.records && after.failure.Some?)
                || (exists record :: after.records == w.records + [record]
                      && RecordOf(o, |w.records| + 1, now, safe, record)))
  {
    hide Guard, Append, LineOf, Length, RecordOf, BuildRecord;
    BuiltRecord(o, w, safe, now);
  }

  /** One more record behind those of the calls so far. */
  lemma OneMoreRecord(
    o: Options, requests: seq<Request>, w: Writer, request: Request, after: Writer)
    requires o.settings.Valid() && Content(o, requests, w) && w.failure.None? && !w.closed
    requires after.memory == SafeCall(o, w, request).0
    requires || (after.records == w.records && after.failure.Some?)
             || (exists record :: after.records == w.records + [record]
                   && RecordOf(o, |w.records| + 1, request.now, SafeCall(o, w, request).1, record))
    ensures Content(o, requests + [request], after)
  {
    hide S.SanitizeAll, SafeCall, RecordOf;
    var all := requests + [request];
    SafeCallContinues(o, requests, w, request);
    forall i | 0 <= i < |after.records| ensures ShowsCall(o, all[..i], all[i], after.records[i]) {
      if i < |w.records| {
        assert all[..i] == requests[..i] && all[i] == requests[i];
      } else {
        assert all[..i] == requests;
      }
    }
  }

  lemma SameContent(o: Options, requests: seq<Request>, request: Request, w: Writer, after: Writer)
    requires o.settings.Valid() && Content(o, requests, w)
    requires after.records == w.records && (after.failure.Some? || after.closed)
    ensures Content(o, requests + [request], after)
  {
    hide ShowsCall;
    var all := requests + [request];
    forall i | 0 <= i < |w.records| ensures ShowsCall(o, all[..i], all[i], after.records[i]) {
      assert all[..i] == requests[..i] && all[i] == requests[i];
    }
  }

  lemma PerformKeepsContent(o: Options, requests: seq<Request>, w: Writer, request: Request)
    requires o.settings.Valid() && w.memory.contentBytes <= o.settings.textLimit
    requires Content(o, requests, w)
    ensures Content(o, requests + [request], Perform(o, w, request).0)
  {
    hide Admit, SafeCall, RecordOf, Content;
    var after := Perform(o, w, request).0;
    if w.failure.None? && !w.closed {
      var (memory, safe) := SafeCall(o, w, request);
      AdmitRecords(o, w.(memory := memory), safe, request.now, request.faults);
      OneMoreRecord(o, requests, w, request, after);
    } else {
      SameContent(o, requests, request, w, after);
    }
  }

  /** Under any faults: the committed records are those of the first calls, in order, each showing its
      call. */
  lemma {:induction false} RecordsShowTheCalls(o: Options, requests: seq<Request>)
    requires o.settings.Valid()
    ensures Content(o, requests, Run(o, requests).0)
    decreases |requests|
  {
    hide Content, Perform;
    if requests == [] {
      NothingShown(o);
    } else {
      var front, last := requests[..|requests| - 1], requests[|requests| - 1];
      RecordsShowTheCalls(o, front);
      PerformKeepsContent(o, front, Run(o, front).0, last);
      assert front + [last] == requests;
    }
  }

  lemma NothingShown(o: Options)
    requires o.settings.Valid()
    ensures Content(o, [], OPENED)
  {}

  /** A closed transcript takes nothing more. */
  lemma ClosedTakesNothing(o: Options, w: Writer, request: Request)
    requires o.settings.Valid() && w.memory.contentBytes <= o.settings.textLimit && w.closed
    ensures var (after, result) := Perform(o, w, request);
            && after == w.(reported := after.reported)
            && (result.Some? ==> result == w.failure && !w.reported)
  {}

  // ----- Secrets never reach the file -----

  /** Calls at the same time and with the same faults, on updates whose accepted states agree on everything
      the transcript compares. */
  predicate AlikeRequest(a: Request, b: Request) {
    && a.now == b.now && a.faults == b.faults
    && if a.call.RecordUpdate? then
         b.call.RecordUpdate? && SameLifecycle(a.call.accepted, b.call.accepted)
       else b.call == a.call
  }

  /** Writers that differ in what the sanitiser remembers alone. */
  predicate SameButMemory(v: Writer, w: Writer) { v == w.(memory := v.memory) }

  lemma GuardAlike(sessionId: string, tape: Tape, u: Update, a: State, b: State)
    requires SameLifecycle(a, b)
    ensures Guard(sessionId, tape, RecordUpdate(u, a)) == Guard(sessionId, tape, RecordUpdate(u, b))
  {
    hide Reduce, UsesLimitCode, LimitsMatchTerminal;
  }

  lemma CommitForgets(o: Options, w: Writer, memory: S.Memory, record: R.Record, faults: Faults)
    ensures Commit(o, w.(memory := memory), record, faults)
            == (Commit(o, w, record, faults).0.(memory := memory), Commit(o, w, record, faults).1)
  {
    hide Append, LineOf;
    SameLine(o, w, memory, record);
  }

  lemma SameLine(o: Options, w: Writer, memory: S.Memory, record: R.Record)
    ensures LineOf(o, w.(memory := memory), record) == LineOf(o, w, record)
  {}

  lemma FinishForgets(w: Writer, memory: S.Memory, ended: bool, summaryOk: bool, code: PersistenceFailure)
    ensures Finish(w.(memory := memory), ended, summaryOk)
            == Finish(w, ended, summaryOk).(memory := memory)
    ensures TranscriptWriter.Latch(w.(memory := memory), code)
            == TranscriptWriter.Latch(w, code).(memory := memory)
  {}

  predicate Refused(o: Options, w: Writer, safe: Call) {
    var guarded := Guard(o.sessionId, w.tape, safe);
    guarded.None?
    || (safe.RecordUpdate? && Length(guarded.value.state.assistantText) > R.MAX_REPLAY_ASSISTANT_BYTES)
  }

  lemma AdmitIs(o: Options, w: Writer, safe: Call, now: string, faults: Faults)
    ensures Admit(o, w, safe, now, faults)
            == if Refused(o, w, safe) then TranscriptWriter.Latch(w, WriteFailed)
               else
                 var (after, failure) := Commit(o, w, BuildRecord(o, w, safe, now), faults);
                 var next := Guard(o.sessionId, w.tape, safe).value;
                 if failure.Some? then TranscriptWriter.Latch(after, failure.value)
                 else Finish(after.(tape := next), next.state.status.Terminal(), faults.summaryOk)
  {
    hide Guard, Length, Commit, Finish, BuildRecord, TranscriptWriter.Latch;
  }

  lemma SameGrounds(o: Options, w: Writer, memory: S.Memory, safe: Call, now: string)
    ensures var v := w.(memory := memory);
            && BuildRecord(o, v, safe, now) == BuildRecord(o, w, safe, now)
            && (Refused(o, v, safe) <==> Refused(o, w, safe))
            && v.tape == w.tape
  {
    hide Guard, Length;
  }

  /** What the sanitiser remembers has no part in admitting. */
  lemma AdmitForgets(o: Options, w: Writer, memory: S.Memory, safe: Call, now: string, faults: Faults)
    ensures Admit(o, w.(memory := memory), safe, now, faults)
            == Admit(o, w, safe, now, faults).(memory := memory)
  {
    hide Admit, Commit, Finish, TranscriptWriter.Latch, BuildRecord;
    AdmitIs(o, w, safe, now, faults);
    AdmitIs(o, w.(memory := memory), safe, now, faults);
    SameGrounds(o, w, memory, safe, now);
    if Refused(o, w, safe) {
      FinishForgets(w, memory, false, false, WriteFailed);
    } else {
      var record := BuildRecord(o, w, safe, now);
      CommitForgets(o, w, memory, record, faults);
      var (after, failure) := Commit(o, w, record, faults);
      var next := Guard(o.sessionId, w.tape, safe).value;
      FinishForgets(after, memory, false, false, if failure.Some? then failure.value else WriteFailed);
      FinishForgets(after.(tape := next), memory, next.state.status.Terminal(), faults.summaryOk,
                    WriteFailed);
    }
    hide Refused, Guard;
  }

  /** Nor has an accepted state that compares alike. */
  lemma AdmitCompares(
    o: Options, w: Writer, u: Update, a: State, b: State, now: string, faults: Faults)
    requires SameLifecycle(a, b)
    ensures Admit(o, w, RecordUpdate(u, a), now, faults) == Admit(o, w, RecordUpdate(u, b), now, faults)
  {
    hide Guard, Length, Commit, SameLifecycle, Finish;
    GuardAlike(o.sessionId, w.tape, u, a, b);
    assert BuildRecord(o, w, RecordUpdate(u, a), now) == BuildRecord(o, w, RecordUpdate(u, b), now);
    hide BuildRecord;
  }

  lemma AdmitAlike(
    o: Options, v: Writer, w: Writer, a: Call, b: Call, now: string, faults: Faults)
    requires SameButMemory(v, w)
    requires a == b || (a.RecordUpdate? && b.RecordUpdate? && a.update == b.update
                        && SameLifecycle(a.accepted, b.accepted))
    ensures SameButMemory(Admit(o, v, a, now, faults), Admit(o, w, b, now, faults))
  {
    hide Admit, SameLifecycle;
    AdmitForgets(o, w, v.memory, a, now, faults);
    AdmitMemory(o, v, a, now, faults);
    if a != b { AdmitCompares(o, w, a.update, a.accepted, b.accepted, now, faults); }
  }

  lemma AdmitMemory(o: Options, w: Writer, safe: Call, now: string, faults: Faults)
    ensures Admit(o, w, safe, now, faults).memory == w.memory
  {
    hide Guard, Length, Append, LineOf, BuildRecord;
  }

  lemma SanitizedOne(o: Options, w: Writer, request: Request)
    requires o.settings.Valid() && w.memory.contentBytes <= o.settings.textLimit
    ensures request.call.RecordUpdate? ==>
              SafeCall(o, w, request).1
              == RecordUpdate(S.Sanitize(o.settings, w.memory, request.call.update,
                                         request.credentials).1,
                              request.call.accepted)
    ensures !request.call.RecordUpdate? ==> SafeCall(o, w, request).1 == request.call
  {
    hide S.Sanitize;
  }

  lemma PerformAlike(o: Options, v: Writer, w: Writer, a: Request, b: Request)
    requires o.settings.Valid() && v.memory.contentBytes <= o.settings.textLimit
    requires w.memory.contentBytes <= o.settings.textLimit
    requires SameButMemory(v, w) && AlikeRequest(a, b)
    requires v.failure.None? && !v.closed && a.call.RecordUpdate? ==>
               && T.SameButTail(v.memory, w.memory)
               && T.Twin(o.settings, v.memory, S.Item(a.call.update, a.credentials),
                         w.memory, S.Item(b.call.update, b.credentials))
    ensures SameButMemory(Perform(o, v, a).0, Perform(o, w, b).0)
    ensures Perform(o, v, a).1 == Perform(o, w, b).1
  {
    hide Admit, SafeCall, T.Twin, SameLifecycle, S.Sanitize;
    if v.failure.None? && !v.closed {
      SanitizedOne(o, v, a);
      SanitizedOne(o, w, b);
      if a.call.RecordUpdate? {
        T.HiddenLeavesNoTrace(o.settings, v.memory, S.Item(a.call.update, a.credentials),
                              w.memory, S.Item(b.call.update, b.credentials));
      }
      AdmitAlike(o, v.(memory := SafeCall(o, v, a).0), w.(memory := SafeCall(o, w, b).0),
                 SafeCall(o, v, a).1, SafeCall(o, w, b).1, a.now, a.faults);
    }
  }

  lemma {:induction false} ItemsAlign(left: seq<Request>, right: seq<Request>)
    requires |left| == |right|
    requires forall i :: 0 <= i < |left| ==> AlikeRequest(left[i], right[i])
    ensures |Items(left)| == |Items(right)|
    decreases |left|
  {
    if left != [] {
      assert AlikeRequest(left[|left| - 1], right[|right| - 1]);
      ItemsAlign(left[..|left| - 1], right[..|right| - 1]);
    }
  }

  /** Twin updates go to the file as the same bytes. */
  lemma {:induction false} TwinsWriteAlike(o: Options, left: seq<Request>, right: seq<Request>)
    requires o.settings.Valid() && |left| == |right|
    requires forall i :: 0 <= i < |left| ==> AlikeRequest(left[i], right[i])
    requires T.Twins(o.settings, Items(left), Items(right))
    ensures SameButMemory(Run(o, left).0, Run(o, right).0)
    ensures Run(o, left).1 == Run(o, right).1
    decreases |left|
  {
    hide Perform, T.Twins, AlikeRequest, Content, S.SanitizeAll;
    if left == [] {
    } else {
      var n := |left| - 1;
      assert left[..n] + [left[n]] == left && right[..n] + [right[n]] == right;
      ItemsAlign(left[..n], right[..n]);
      TwinRequests(o, left[..n], right[..n], left[n], right[n]);
      TwinsWriteAlike(o, left[..n], right[..n]);
      Remembered(o, left[..n]);
      Remembered(o, right[..n]);
      PerformAlike(o, Run(o, left[..n]).0, Run(o, right[..n]).0, left[n], right[n]);
    }
  }

  /** What is remembered while recording goes on. */
  lemma Remembered(o: Options, requests: seq<Request>)
    requires o.settings.Valid()
    ensures var w := Run(o, requests).0;
            w.failure.None? && !w.closed ==>
              w.memory == S.SanitizeAll(o.settings, Items(requests)).0
  {
    hide Run, ShowsCall, S.SanitizeAll;
    RecordsShowTheCalls(o, requests);
  }

  /** Twins are twins in front of their last items, and the last items are. */
  lemma TwinItems(settings: S.Settings, fore: seq<S.Item>, back: seq<S.Item>, a: S.Item, b: S.Item)
    requires settings.Valid() && |fore| == |back|
    requires T.Twins(settings, fore + [a], back + [b])
    ensures T.Twins(settings, fore, back)
    ensures T.Twin(settings, S.SanitizeAll(settings, fore).0, a, S.SanitizeAll(settings, back).0, b)
  {
    hide T.Twins, T.Twin, S.SanitizeAll;
    var left, right := fore + [a], back + [b];
    T.TwinsFront(settings, left, right);
    assert left[..|fore|] == fore && right[..|back|] == back;
  }

  /** The twins in front of the last requests, and the last themselves. */
  lemma TwinRequests(o: Options, fore: seq<Request>, back: seq<Request>, a: Request, b: Request)
    requires o.settings.Valid() && |Items(fore)| == |Items(back)| && AlikeRequest(a, b)
    requires T.Twins(o.settings, Items(fore + [a]), Items(back + [b]))
    ensures T.Twins(o.settings, Items(fore), Items(back))
    ensures T.SameButTail(S.SanitizeAll(o.settings, Items(fore)).0,
                          S.SanitizeAll(o.settings, Items(back)).0)
    ensures a.call.RecordUpdate? ==>
              b.call.RecordUpdate?
              && T.Twin(o.settings, S.SanitizeAll(o.settings, Items(fore)).0,
                        S.Item(a.call.update, a.credentials),
                        S.SanitizeAll(o.settings, Items(back)).0,
                        S.Item(b.call.update, b.credentials))
  {
    hide T.Twins, T.Twin, S.SanitizeAll, SameLifecycle, T.SameButTail, Items;
    ItemsSnoc(fore, a);
    ItemsSnoc(back, b);
    if a.call.RecordUpdate? {
      TwinItems(o.settings, Items(fore), Items(back), S.Item(a.call.update, a.credentials),
                S.Item(b.call.update, b.credentials));
    } else {
      assert Items(fore) + [] == Items(fore) && Items(back) + [] == Items(back);
    }
    T.TwinsLookAlike(o.settings, Items(fore), Items(back));
  }

  /** Under any faults, transcripts of calls that differ in characters of secret occurrences alone are the
      same file, byte for byte, and report the same failures. */
  lemma SecretsNeverReachTheFile(o: Options, left: seq<Request>, right: seq<Request>)
    requires o.settings.Valid() && |left| == |right|
    requires forall i :: 0 <= i < |left| ==> AlikeRequest(left[i], right[i])
    requires T.DifferInSecrets(o.settings, Items(left), Items(right))
    ensures Run(o, left).0.file == Run(o, right).0.file
    ensures Run(o, left).1 == Run(o, right).1
  {
    hide Run, T.Twins, AlikeRequest;
    T.SecretsAreHidden(o.settings, Items(left), Items(right));
    TwinsWriteAlike(o, left, right);
  }

  // ----- Why recording fails -----

  function Taken(plan: seq<WriteOutcome>): nat {
    if plan == [] then 0
    else Taken(plan[..|plan| - 1]) + match plan[|plan| - 1] { case Wrote(n) => n case Raises => 0 }
  }

  /** A write raises or makes no progress before all bytes are out. */
  predicate Stalls(plan: seq<WriteOutcome>, size: nat) {
    exists k :: 0 <= k < |plan| && StallsAt(plan, k, size)
  }

  predicate StallsAt(plan: seq<WriteOutcome>, k: nat, size: nat)
    requires k < |plan|
  {
    (plan[k].Raises? || plan[k] == Wrote(0)) && Taken(plan[..k]) < size
  }

  lemma {:induction false} TakenFront(plan: seq<WriteOutcome>)
    requires plan != []
    ensures Taken(plan)
            == (match plan[0] { case Wrote(n) => n case Raises => 0 }) + Taken(plan[1..])
    decreases |plan|
  {
    if |plan| == 1 {
      assert plan[..0] == [] && plan[1..] == [];
    } else {
      TakenFront(plan[..|plan| - 1]);
      assert plan[..|plan| - 1][1..] == plan[1..][..|plan| - 2];
    }
  }

  /** Writing gets through unless some write stalls. */
  lemma {:induction false} WritesUnlessStalled(contents: seq<byte>, plan: seq<WriteOutcome>)
    ensures WriteAll(contents, plan).0 <==> !Stalls(plan, |contents|)
    decreases |plan|
  {
    if contents != [] && plan != [] {
      if plan[0].Raises? || plan[0].count == 0 {
        assert plan[..0] == [];
        assert StallsAt(plan, 0, |contents|);
      } else {
        var taken := if plan[0].count < |contents| then plan[0].count else |contents|;
        WritesUnlessStalled(contents[taken..], plan[1..]);
        StallsLater(plan, |contents|);
      }
    }
  }

  lemma StallsLater(plan: seq<WriteOutcome>, size: nat)
    requires plan != [] && plan[0].Wrote? && plan[0].count > 0 && size > 0
    ensures var taken := if plan[0].count < size then plan[0].count else size;
            Stalls(plan, size) <==> Stalls(plan[1..], size - taken)
  {
    var taken := if plan[0].count < size then plan[0].count else size;
    forall k | 0 < k < |plan|
      ensures StallsAt(plan, k, size) <==> StallsAt(plan[1..], k - 1, size - taken)
    {
      TakenFront(plan[..k]);
      assert plan[..k][1..] == plan[1..][..k - 1];
    }
    if Stalls(plan, size) {
      var k :| 0 <= k < |plan| && StallsAt(plan, k, size);
      assert StallsAt(plan[1..], k - 1, size - taken);
    }
    if Stalls(plan[1..], size - taken) {
      var k :| 0 <= k < |plan[1..]| && StallsAt(plan[1..], k, size - taken);
      assert StallsAt(plan, k + 1, size);
    }
  }

  /** The record cannot be stored at all: it has no encoding, or does not fit its line, the record count
      or the file. */
  predicate Unstorable(o: Options, w: Writer, record: R.Record) {
    match o.codec.encode(record)
    case None => true
    case Some(bytes) =>
      |bytes| > 131072 || |w.records| >= 10000 || w.committedBytes + |bytes| + 1 > 16777216
  }

  /** What one call on an open transcript reports: the guards, the size caps and a stalled write as a failed
      write, a failed flush as such, and a failed summary only behind the session's end. */
  lemma FailureHasItsCause(o: Options, w: Writer, safe: Call, record: R.Record, faults: Faults)
    requires w.failure.None?
    requires RecordOf(o, |w.records| + 1, record.recordedAt, safe, record)
    ensures var guarded := Guard(o.sessionId, w.tape, safe);
            Admit(o, w, safe, record.recordedAt, faults).failure
            == if guarded.None?
                  || (safe.RecordUpdate? && Length(guarded.value.state.assistantText) > 141072)
                  || Unstorable(o, w, record)
                  || Stalls(faults.writes, |o.codec.encode(record).value| + 1)
               then Some(WriteFailed)
               else if !faults.flushOk then Some(FlushFailed)
               else if guarded.value.state.status.Terminal() && !faults.summaryOk
               then Some(SummaryFailed)
               else None
  {
    hide Guard, Length, WriteAll, Stalls;
    var encoded := o.codec.encode(record);
    if encoded.Some? { WritesUnlessStalled(encoded.value + [R.LF], faults.writes); }
    assert BuildRecord(o, w, safe, record.recordedAt) == record;
  }
}
