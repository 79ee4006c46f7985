/** Sequence numbers of the ordered event writer in `protocol/streams.py`. */
module OrderedEvents {
  import opened Prelude

  const MAX_SAFE_SEQUENCE := 9_007_199_254_740_991

  /** One line on the protocol stream; runtime events carry no session. */
  datatype Emitted = RuntimeLine | SessionLine(sessionId: string, sequence: nat)

  /** How the shielded sink call settles, and whether the caller was cancelled meanwhile. */
  datatype Sink = Sink(written: bool, cancelled: bool)

  datatype Emission = Published(sequence: nat) | CancelledAfterWrite | NotWritten | Overflow

  function Next(sequences: map<string, nat>, sessionId: string): nat {
    if sessionId in sequences then sequences[sessionId] + 1 else 1
  }

  /** How many events of one session the log holds. */
  function Count(log: seq<Emitted>, sessionId: string): nat {
    if log == [] then 0
    else
      var last := log[|log| - 1];
      Count(log[..|log| - 1], sessionId)
      + if last.SessionLine? && last.sessionId == sessionId then 1 else 0
  }

  /** Every session's events carry 1, 2, 3, ... in the order of the stream. */
  predicate Numbered(log: seq<Emitted>) {
    forall i :: 0 <= i < |log| && log[i].SessionLine? ==>
      log[i].sequence == Count(log[..i], log[i].sessionId) + 1
  }

  lemma CountSnoc(log: seq<Emitted>, last: Emitted, sessionId: string)
    ensures Count(log + [last], sessionId)
            == Count(log, sessionId)
               + if last.SessionLine? && last.sessionId == sessionId then 1 else 0
  {
    assert (log + [last])[..|log|] == log;
  }

  lemma NumberedSnoc(log: seq<Emitted>, last: Emitted)
    requires Numbered(log)
    requires last.SessionLine? ==> last.sequence == Count(log, last.sessionId) + 1
    ensures Numbered(log + [last])
  {
    var now := log + [last];
    forall i | 0 <= i < |now| && now[i].SessionLine?
      ensures now[i].sequence == Count(now[..i], now[i].sessionId) + 1
    {
      if i < |log| { assert now[i] == log[i] && now[..i] == log[..i]; } else { assert now[..i] == log; }
    }
  }

  /** Two events of one session never share a number, and a later one has the greater number. */
  lemma {:induction false} NumbersIncrease(log: seq<Emitted>, i: nat, j: nat)
    requires Numbered(log) && i < j < |log|
    requires log[i].SessionLine? && log[j].SessionLine? && log[i].sessionId == log[j].sessionId
    ensures log[i].sequence < log[j].sequence
  {
    assert log[..i + 1] == log[..i] + [log[i]];
    CountSnoc(log[..i], log[i], log[i].sessionId);
    CountMonotone(log, i + 1, j, log[i].sessionId);
  }

  lemma {:induction false} CountMonotone(log: seq<Emitted>, i: nat, j: nat, sessionId: string)
    requires i <= j <= |log|
    ensures Count(log[..i], sessionId) <= Count(log[..j], sessionId)
    decreases j
  {
    if i < j {
      assert log[..j] == log[..j - 1] + [log[j - 1]];
      CountSnoc(log[..j - 1], log[j - 1], sessionId);
      CountMonotone(log, i, j - 1, sessionId);
    }
  }

  /** `OrderedEventWriter`: its lock makes each emission one step. */
  class OrderedEventWriter {
    var sessionSequences: map<string, nat>
    ghost var log: seq<Emitted>

    ghost predicate Valid()
      reads this
    {
      && Numbered(log)
      && forall s: string :: Next(sessionSequences, s) == Count(log, s) + 1
    }

    constructor ()
      ensures Valid() && log == []
    {
      sessionSequences, log := map[], [];
    }

    /** `emit_session`: the number is committed exactly when the line was written, even if the caller
        is cancelled during the write. */
    method EmitSession(sessionId: string, sink: Sink) returns (r: Emission)
      requires Valid()
      modifies this
      ensures Valid()
      ensures var sequence := Count(old(log), sessionId) + 1;
              if sequence > MAX_SAFE_SEQUENCE then r == Overflow && log == old(log)
              else if sink.written then
                && log == old(log) + [SessionLine(sessionId, sequence)]
                && r == if sink.cancelled then CancelledAfterWrite else Published(sequence)
              else r == NotWritten && log == old(log)
    {
      hide Count, Numbered;
      var sequence := Next(sessionSequences, sessionId);
      if sequence > MAX_SAFE_SEQUENCE { return Overflow; }
      if !sink.written { return NotWritten; }
      NumberedSnoc(log, SessionLine(sessionId, sequence));
      forall s: string
        ensures Count(log + [SessionLine(sessionId, sequence)], s)
                == Count(log, s) + if s == sessionId then 1 else 0
      {
        CountSnoc(log, SessionLine(sessionId, sequence), s);
      }
      log := log + [SessionLine(sessionId, sequence)];
      sessionSequences := sessionSequences[sessionId := sequence];
      r := if sink.cancelled then CancelledAfterWrite else Published(sequence);
    }

    /** `emit_runtime`: runtime events take no number. */
    method EmitRuntime(sink: Sink) returns (written: bool)
      requires Valid()
      modifies this
      ensures Valid() && written == sink.written
      ensures log == if sink.written then old(log) + [RuntimeLine] else old(log)
      ensures sessionSequences == old(sessionSequences)
    {
      hide Count, Numbered;
      if sink.written {
        NumberedSnoc(log, RuntimeLine);
        forall s: string ensures Count(log + [RuntimeLine], s) == Count(log, s) {
          CountSnoc(log, RuntimeLine, s);
        }
        log := log + [RuntimeLine];
      }
      written := sink.written;
    }
  }
}
