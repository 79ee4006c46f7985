/** Bounded LF framing: the readers of `protocol/streams.py` and `protocol-stream.ts` against one
    specification of the whole byte string. */
module Framing {
  import opened Prelude

  type byte = n: int | 0 <= n < 256

  const LF: byte := 10

  /** What one physical line comes to before it is parsed. */
  datatype Outcome = Line(bytes: seq<byte>) | TooLong | Unterminated

  // ----- Specification -----

  /** The lines that an LF has ended, and the rest. */
  datatype Split = Split(lines: seq<seq<byte>>, tail: seq<byte>)

  function SplitLines(bytes: seq<byte>): Split {
    if bytes == [] then Split([], [])
    else
      var before, last := SplitLines(bytes[..|bytes| - 1]), bytes[|bytes| - 1];
      if last == LF then Split(before.lines + [before.tail], [])
      else Split(before.lines, before.tail + [last])
  }

  function Classify(limit: nat, line: seq<byte>): Outcome {
    if |line| > limit then TooLong else Line(line)
  }

  function ClassifyAll(limit: nat, lines: seq<seq<byte>>): seq<Outcome> {
    if lines == [] then []
    else ClassifyAll(limit, lines[..|lines| - 1]) + [Classify(limit, lines[|lines| - 1])]
  }

  /** The outcomes due once these bytes have arrived: one for every ended line, and one for a line that
      is already too long. */
  function Due(limit: nat, bytes: seq<byte>): seq<Outcome> {
    var split := SplitLines(bytes);
    ClassifyAll(limit, split.lines) + if |split.tail| > limit then [TooLong] else []
  }

  /** The outcome of ending the stream here. */
  function AtEnd(limit: nat, bytes: seq<byte>): seq<Outcome> {
    if 0 < |SplitLines(bytes).tail| <= limit then [Unterminated] else []
  }

  // ----- How the specification grows -----

  lemma {:induction false} SplitExtend(bytes: seq<byte>, segment: seq<byte>)
    requires LF !in segment
    ensures SplitLines(bytes + segment)
            == Split(SplitLines(bytes).lines, SplitLines(bytes).tail + segment)
    decreases |segment|
  {
    if segment == [] {
      assert bytes + segment == bytes;
    } else {
      var front, last := segment[..|segment| - 1], segment[|segment| - 1];
      assert segment == front + [last];
      SplitExtend(bytes, front);
      var all := bytes + segment;
      assert all[..|all| - 1] == bytes + front && all[|all| - 1] == last;
      AppendLast(SplitLines(bytes).tail, front, last);
    }
  }

  lemma AppendLast(tail: seq<byte>, front: seq<byte>, last: byte)
    ensures (tail + front) + [last] == tail + (front + [last])
  {}

  lemma SplitBreak(bytes: seq<byte>)
    ensures SplitLines(bytes + [LF])
            == Split(SplitLines(bytes).lines + [SplitLines(bytes).tail], [])
  {
    assert (bytes + [LF])[..|bytes|] == bytes;
  }

  /** More bytes of a line that is not ended yet. */
  lemma DueExtend(limit: nat, bytes: seq<byte>, segment: seq<byte>)
    requires LF !in segment
    ensures var tail := SplitLines(bytes).tail;
            Due(limit, bytes + segment)
            == Due(limit, bytes) + if |tail| <= limit < |tail| + |segment| then [TooLong] else []
  {
    SplitExtend(bytes, segment);
  }

  /** The end of a line. */
  lemma DueBreak(limit: nat, bytes: seq<byte>)
    ensures var tail := SplitLines(bytes).tail;
            Due(limit, bytes + [LF])
            == Due(limit, bytes) + if |tail| <= limit then [Line(tail)] else []
  {
    SplitBreak(bytes);
    var split := SplitLines(bytes);
    var lines := split.lines + [split.tail];
    assert lines[..|lines| - 1] == split.lines;
  }

  /** Outcomes already due stay due, so feeding in pieces adds up to feeding at once. */
  lemma {:induction false} DueGrows(limit: nat, bytes: seq<byte>, more: seq<byte>)
    ensures Due(limit, bytes) <= Due(limit, bytes + more)
    decreases |more|
  {
    if more == [] {
      assert bytes + more == bytes;
    } else {
      var front, last := more[..|more| - 1], more[|more| - 1];
      DueGrows(limit, bytes, front);
      assert bytes + more == (bytes + front) + [last];
      if last == LF { DueBreak(limit, bytes + front); } else { DueExtend(limit, bytes + front, [last]); }
      hide Due;
    }
  }

  /** Every ended line and the rest give the stream back. */
  function Rejoin(lines: seq<seq<byte>>): seq<byte> {
    if lines == [] then [] else Rejoin(lines[..|lines| - 1]) + lines[|lines| - 1] + [LF]
  }

  lemma {:induction false} SplitIsLossless(bytes: seq<byte>)
    ensures Rejoin(SplitLines(bytes).lines) + SplitLines(bytes).tail == bytes
    ensures forall l :: l in SplitLines(bytes).lines ==> LF !in l
    ensures LF !in SplitLines(bytes).tail
  {
    if bytes != [] {
      var front, last := bytes[..|bytes| - 1], bytes[|bytes| - 1];
      SplitIsLossless(front);
      var before := SplitLines(front);
      if last == LF {
        var lines := before.lines + [before.tail];
        assert lines[..|lines| - 1] == before.lines;
      }
    }
  }

  /** A stream put together from lines is taken apart into them. */
  lemma {:induction false} SplitOfLines(lines: seq<seq<byte>>, tail: seq<byte>)
    requires (forall i :: 0 <= i < |lines| ==> LF !in lines[i]) && LF !in tail
    ensures SplitLines(Rejoin(lines) + tail) == Split(lines, tail)
    decreases |lines|
  {
    if lines == [] {
      SplitExtend([], tail);
      assert SplitLines([]) == Split([], []);
      assert [] + tail == tail;
    } else {
      var n := |lines| - 1;
      SplitOfLines(lines[..n], lines[n]);
      SplitBreak(Rejoin(lines[..n]) + lines[n]);
      assert lines[..n] + [lines[n]] == lines;
      SplitExtend(Rejoin(lines), tail);
      assert [] + tail == tail;
    }
  }

  lemma {:induction false} ClassifiedAt(limit: nat, lines: seq<seq<byte>>, i: nat)
    requires i < |lines|
    ensures |ClassifyAll(limit, lines)| == |lines|
    ensures ClassifyAll(limit, lines)[i] == if |lines[i]| <= limit then Line(lines[i]) else TooLong
    decreases |lines|
  {
    if |lines| > 1 { ClassifiedAt(limit, lines[..|lines| - 1], if i < |lines| - 1 then i else 0); }
  }

  /** The outcomes of a stream, line by line: a line within the limit comes out whole, a longer one as one
      failure, and a rest that no LF ends as one failure at the end, or at once when it is too long. */
  lemma OutcomesOfLines(limit: nat, lines: seq<seq<byte>>, tail: seq<byte>)
    requires (forall i :: 0 <= i < |lines| ==> LF !in lines[i]) && LF !in tail
    ensures var due := Due(limit, Rejoin(lines) + tail);
            && |due| == |lines| + (if |tail| > limit then 1 else 0)
            && (forall i :: 0 <= i < |lines| ==>
                  due[i] == if |lines[i]| <= limit then Line(lines[i]) else TooLong)
            && (|tail| > limit ==> due[|lines|] == TooLong)
    ensures AtEnd(limit, Rejoin(lines) + tail)
            == if tail == [] || |tail| > limit then [] else [Unterminated]
  {
    SplitOfLines(lines, tail);
    hide Classify, SplitLines;
    forall i | 0 <= i < |lines|
      ensures |ClassifyAll(limit, lines)| == |lines|
      ensures ClassifyAll(limit, lines)[i] == if |lines[i]| <= limit then Line(lines[i]) else TooLong
    {
      ClassifiedAt(limit, lines, i);
    }
  }

  /** What a reader holds after some bytes. */
  predicate Holds(limit: nat, history: seq<byte>, buffer: seq<byte>, discarding: bool) {
    var tail := SplitLines(history).tail;
    && (discarding <==> |tail| > limit)
    && buffer == if |tail| > limit then [] else tail
  }

  lemma HoldsBounded(limit: nat, history: seq<byte>, buffer: seq<byte>, discarding: bool)
    requires Holds(limit, history, buffer, discarding)
    ensures |buffer| <= limit
  {}

  /** A reader's state and the outcomes it reports for one segment without LF, and then possibly the
      LF that ends it. */
  function TakeSegment(
    limit: nat, buffer: seq<byte>, discarding: bool, segment: seq<byte>, ended: bool)
    : (seq<byte>, bool, seq<Outcome>)
  {
    if discarding then (buffer, !ended, [])
    else if |buffer| + |segment| > limit then ([], !ended, [TooLong])
    else if ended then ([], false, [Line(buffer + segment)])
    else (buffer + segment, false, [])
  }

  function Fed(history: seq<byte>, segment: seq<byte>, ended: bool): seq<byte> {
    if ended then history + segment + [LF] else history + segment
  }

  lemma FedAhead(start: seq<byte>, chunk: seq<byte>, offset: nat, end: nat)
    requires offset <= end <= |chunk| && (end < |chunk| ==> chunk[end] == LF)
    ensures Fed(start + chunk[..offset], chunk[offset..end], end < |chunk|)
            == start + chunk[..if end < |chunk| then end + 1 else |chunk|]
  {
    assert chunk[..end] == chunk[..offset] + chunk[offset..end];
    if end < |chunk| { assert chunk[..end + 1] == chunk[..end] + [LF]; }
  }

  /** Taking a segment keeps the reader's state right and reports exactly what becomes due. */
  lemma TakeSegmentRight(
    limit: nat, history: seq<byte>, buffer: seq<byte>, discarding: bool, segment: seq<byte>,
    ended: bool)
    requires Holds(limit, history, buffer, discarding) && LF !in segment
    ensures var (kept, dropping, out) := TakeSegment(limit, buffer, discarding, segment, ended);
            && Holds(limit, Fed(history, segment, ended), kept, dropping)
            && Due(limit, Fed(history, segment, ended)) == Due(limit, history) + out
  {
    hide Due, SplitLines;
    DueExtend(limit, history, segment);
    SplitExtend(history, segment);
    DueBreak(limit, history + segment);
    SplitBreak(history + segment);
  }

  // ----- The Python reader -----

  /** `_BoundedLineReader`: works on the segments between LFs of each chunk. */
  class BoundedLineReader {
    const maxLineBytes: nat
    var buffer: seq<byte>
    var discardingOversizedLine: bool
    var finished: bool
    ghost var history: seq<byte>

    ghost predicate Valid()
      reads this
    {
      !finished ==> Holds(maxLineBytes, history, buffer, discardingOversizedLine)
    }

    constructor (maxLineBytes: nat)
      requires maxLineBytes > 0
      ensures Valid() && !finished && history == [] && this.maxLineBytes == maxLineBytes
    {
      this.maxLineBytes := maxLineBytes;
      buffer, discardingOversizedLine, finished, history := [], false, false, [];
    }

    /** `chunk.find(b"\n", offset)`. */
    static method FindNewline(chunk: seq<byte>, offset: nat) returns (end: nat)
      requires offset <= |chunk|
      ensures offset <= end <= |chunk| && LF !in chunk[offset..end]
      ensures end < |chunk| ==> chunk[end] == LF
    {
      end := offset;
      while end < |chunk| && chunk[end] != LF
        invariant offset <= end <= |chunk| && LF !in chunk[offset..end]
      {
        assert chunk[offset..end + 1] == chunk[offset..end] + [chunk[end]];
        end := end + 1;
      }
    }

    /** `feed`: nothing once finished, otherwise exactly the outcomes this chunk makes due. */
    method Feed(chunk: seq<byte>) returns (results: Option<seq<Outcome>>)
      requires Valid()
      modifies this
      ensures Valid() && finished == old(finished)
      ensures old(finished) ==> results.None? && history == old(history)
      ensures !old(finished) ==>
                && results.Some? && history == old(history) + chunk
                && Due(maxLineBytes, history) == Due(maxLineBytes, old(history)) + results.value
      ensures !finished ==> |buffer| <= maxLineBytes
    {
      hide Due, Holds, SplitLines, Fed;
      if finished { return None; }
      var out: seq<Outcome> := [];
      var offset := 0;
      ghost var start := history;
      assert start + chunk[..0] == start;
      while offset < |chunk|
        invariant 0 <= offset <= |chunk| && !finished
        invariant history == start + chunk[..offset]
        invariant Holds(maxLineBytes, history, buffer, discardingOversizedLine)
        invariant Due(maxLineBytes, history) == Due(maxLineBytes, start) + out
      {
        var end := FindNewline(chunk, offset);
        var segment := chunk[offset..end];
        var ended := end < |chunk|;
        TakeSegmentRight(maxLineBytes, history, buffer, discardingOversizedLine, segment, ended);
        FedAhead(start, chunk, offset, end);
        history := Fed(history, segment, ended);
        if discardingOversizedLine {
          if ended { discardingOversizedLine := false; }
        } else if |buffer| + |segment| > maxLineBytes {
          buffer := [];
          out := out + [TooLong];
          if !ended { discardingOversizedLine := true; }
        } else {
          buffer := buffer + segment;
          if ended {
            out := out + [Line(buffer)];
            buffer := [];
          }
        }
        offset := if ended then end + 1 else |chunk|;
      }
      assert chunk[..offset] == chunk;
      HoldsBounded(maxLineBytes, history, buffer, discardingOversizedLine);
      results := Some(out);
    }

    /** `finish`. */
    method Finish() returns (results: seq<Outcome>)
      requires Valid()
      modifies this
      ensures Valid() && finished && history == old(history)
      ensures results == if old(finished) then [] else AtEnd(maxLineBytes, history)
    {
      if finished { return []; }
      finished := true;
      if discardingOversizedLine {
        discardingOversizedLine := false;
        return [];
      }
      if buffer == [] { return []; }
      buffer := [];
      results := [Unterminated];
    }
  }

  lemma EmptyWhileDiscarding(
    limit: nat, history: seq<byte>, buffer: seq<byte>, discarding: bool)
    requires Holds(limit, history, buffer, discarding)
    ensures (discarding ==> buffer == []) && |buffer| <= limit
  {}

  lemma EndsHere(history: seq<byte>, buffer: seq<byte>)
    ensures Fed(history, [], true) == history + [LF] && buffer + [] == buffer
  {}

  lemma Continues(history: seq<byte>, byte: byte)
    ensures Fed(history, [byte], false) == history + [byte]
  {}

  // ----- The TypeScript reader -----

  /** `NdjsonLineReader`: works byte by byte. */
  class NdjsonLineReader {
    const maxLineBytes: nat
    var lineBytes: seq<byte>
    var discardingOversizeLine: bool
    var finished: bool
    ghost var history: seq<byte>

    ghost predicate Valid()
      reads this
    {
      !finished ==> Holds(maxLineBytes, history, lineBytes, discardingOversizeLine)
    }

    constructor (maxLineBytes: nat)
      requires maxLineBytes > 0
      ensures Valid() && !finished && history == [] && this.maxLineBytes == maxLineBytes
    {
      this.maxLineBytes := maxLineBytes;
      lineBytes, discardingOversizeLine, finished, history := [], false, false, [];
    }

    /** `#completeLine`. */
    method CompleteLine() returns (result: Option<Outcome>)
      modifies this`lineBytes, this`discardingOversizeLine
      ensures lineBytes == [] && !discardingOversizeLine
      ensures result == if old(discardingOversizeLine) then None else Some(Line(old(lineBytes)))
    {
      result := if discardingOversizeLine then None else Some(Line(lineBytes));
      lineBytes, discardingOversizeLine := [], false;
    }

    /** `push`: nothing once finished, otherwise exactly the outcomes this chunk makes due. */
    method Push(chunk: seq<byte>) returns (results: Option<seq<Outcome>>)
      requires Valid()
      modifies this
      ensures Valid() && finished == old(finished)
      ensures old(finished) ==> results.None? && history == old(history)
      ensures !old(finished) ==>
                && results.Some? && history == old(history) + chunk
                && Due(maxLineBytes, history) == Due(maxLineBytes, old(history)) + results.value
      ensures !finished ==> |lineBytes| <= maxLineBytes
    {
      hide Due, Holds, SplitLines, Fed;
      if finished { return None; }
      var out: seq<Outcome> := [];
      ghost var start := history;
      assert start + chunk[..0] == start;
      for i := 0 to |chunk|
        invariant !finished && history == start + chunk[..i]
        invariant Holds(maxLineBytes, history, lineBytes, discardingOversizeLine)
        invariant Due(maxLineBytes, history) == Due(maxLineBytes, start) + out
      {
        var byte := chunk[i];
        assert chunk[..i + 1] == chunk[..i] + [byte];
        if byte == LF {
          TakeSegmentRight(maxLineBytes, history, lineBytes, discardingOversizeLine, [], true);
          EndsHere(history, lineBytes);
          EmptyWhileDiscarding(maxLineBytes, history, lineBytes, discardingOversizeLine);
          var result := CompleteLine();
          if result.Some? { out := out + [result.value]; }
        } else {
          TakeSegmentRight(maxLineBytes, history, lineBytes, discardingOversizeLine, [byte], false);
          EmptyWhileDiscarding(maxLineBytes, history, lineBytes, discardingOversizeLine);
          Continues(history, byte);
          if discardingOversizeLine {
          } else if |lineBytes| == maxLineBytes {
            lineBytes := [];
            discardingOversizeLine := true;
            out := out + [TooLong];
          } else {
            lineBytes := lineBytes + [byte];
          }
        }
        history := history + [byte];
      }
      assert chunk[..|chunk|] == chunk;
      HoldsBounded(maxLineBytes, history, lineBytes, discardingOversizeLine);
      results := Some(out);
    }

    /** `finish`. */
    method Finish() returns (results: seq<Outcome>)
      requires Valid()
      modifies this
      ensures Valid() && finished && history == old(history)
      ensures results == if old(finished) then [] else AtEnd(maxLineBytes, history)
    {
      if finished { return []; }
      finished := true;
      var retained := |lineBytes| > 0 && !discardingOversizeLine;
      lineBytes, discardingOversizeLine := [], false;
      results := if retained then [Unterminated] else [];
    }
  }

  /** The two readers, having seen the same bytes, answer the next chunk alike. */
  method FeedBoth(python: BoundedLineReader, script: NdjsonLineReader, chunk: seq<byte>)
    returns (first: Option<seq<Outcome>>, second: Option<seq<Outcome>>)
    requires python.Valid() && script.Valid() && python.maxLineBytes == script.maxLineBytes
    requires python.history == script.history && python.finished == script.finished
    modifies python, script
    ensures python.Valid() && script.Valid()
    ensures python.history == script.history && python.finished == script.finished
    ensures first == second
  {
    hide Due, Holds;
    ghost var due := Due(python.maxLineBytes, python.history);
    first := python.Feed(chunk);
    second := script.Push(chunk);
    if first.Some? {
      assert Due(python.maxLineBytes, python.history)[|due|..] == first.value == second.value;
    }
  }

  function Concat(chunks: seq<seq<byte>>): seq<byte> {
    if chunks == [] then [] else Concat(chunks[..|chunks| - 1]) + chunks[|chunks| - 1]
  }

  /** A whole stream read in any chunks: the outcomes depend on the bytes alone. */
  method ReadStream(limit: nat, chunks: seq<seq<byte>>) returns (results: seq<Outcome>)
    requires limit > 0
    ensures results == Due(limit, Concat(chunks)) + AtEnd(limit, Concat(chunks))
  {
    hide Holds, AtEnd;
    var reader := new BoundedLineReader(limit);
    results := [];
    for i := 0 to |chunks|
      invariant reader.Valid() && !reader.finished && fresh(reader) && reader.maxLineBytes == limit
      invariant reader.history == Concat(chunks[..i])
      invariant results == Due(limit, reader.history)
    {
      assert chunks[..i + 1][..i] == chunks[..i];
      var more := reader.Feed(chunks[i]);
      results := results + more.value;
    }
    assert chunks[..|chunks|] == chunks;
    var last := reader.Finish();
    results := results + last;
  }
}
