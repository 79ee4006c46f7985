/** Redaction of exact secrets in streamed text: the range arithmetic of `_redact_stream_fragment` and
    `_replace_ranges` in `transcript.py`. */
module Redaction {
  import opened Prelude

  const REDACTION_MARKER := "[REDACTED]"

  datatype Range = Range(start: nat, end: nat)

  predicate Covers(ranges: seq<Range>, i: int) {
    exists r :: r in ranges && r.start <= i < r.end
  }

  predicate Within(ranges: seq<Range>, n: nat) {
    forall r :: r in ranges ==> r.start < r.end <= n
  }

  ghost function Covered(ranges: seq<Range>, n: nat): set<int> {
    set i | 0 <= i < n && Covers(ranges, i)
  }

  /** The first `n` characters with every maximal covered run replaced by one marker. */
  ghost function Mask(value: string, covered: set<int>, n: nat): string
    requires n <= |value|
  {
    if n == 0 then ""
    else if n - 1 !in covered then Mask(value, covered, n - 1) + [value[n - 1]]
    else if n > 1 && n - 2 in covered then Mask(value, covered, n - 1)
    else Mask(value, covered, n - 1) + REDACTION_MARKER
  }

  lemma {:induction false} MaskGap(value: string, covered: set<int>, from: nat, end: nat)
    requires from <= end <= |value|
    requires forall i :: from <= i < end ==> i !in covered
    ensures Mask(value, covered, end) == Mask(value, covered, from) + value[from..end]
    decreases end
  {
    if from < end {
      MaskGap(value, covered, from, end - 1);
      assert value[from..end] == value[from..end - 1] + [value[end - 1]];
    }
  }

  lemma {:induction false} MaskRun(value: string, covered: set<int>, from: nat, end: nat)
    requires from < end <= |value|
    requires forall i :: from <= i < end ==> i in covered
    requires from - 1 !in covered
    ensures Mask(value, covered, end) == Mask(value, covered, from) + REDACTION_MARKER
    decreases end
  {
    if from + 1 < end { MaskRun(value, covered, from, end - 1); }
  }

  // ----- Sorting and merging -----

  predicate Before(a: Range, b: Range) { a.start < b.start || (a.start == b.start && a.end <= b.end) }

  predicate Sorted(ranges: seq<Range>) {
    forall i, j :: 0 <= i < j < |ranges| ==> Before(ranges[i], ranges[j])
  }

  function Insert(ranges: seq<Range>, r: Range): (s: seq<Range>)
    requires Sorted(ranges)
    ensures Sorted(s) && forall x :: x in s <==> x in ranges || x == r
  {
    if ranges == [] || Before(r, ranges[0]) then [r] + ranges
    else
      var rest := Insert(ranges[1..], r);
      assert forall x :: x in rest ==> Before(ranges[0], x);
      [ranges[0]] + rest
  }

  function Sort(ranges: seq<Range>): (s: seq<Range>)
    ensures Sorted(s) && forall x :: x in s <==> x in ranges
  {
    if ranges == [] then []
    else
      var rest := Sort(ranges[1..]);
      assert forall x :: x in ranges <==> x in ranges[1..] || x == ranges[0];
      Insert(rest, ranges[0])
  }

  /** Separated ranges in ascending order. */
  predicate Apart(merged: seq<Range>) {
    && (forall k :: 0 <= k < |merged| ==> merged[k].start < merged[k].end)
    && (forall j, k :: 0 <= j < k < |merged| ==> merged[j].end < merged[k].start)
  }

  lemma CoversSnoc(ranges: seq<Range>, r: Range)
    ensures forall i: int :: Covers(ranges + [r], i) <==> Covers(ranges, i) || r.start <= i < r.end
  {
    forall i: int ensures Covers(ranges + [r], i) <==> Covers(ranges, i) || r.start <= i < r.end {
      if Covers(ranges, i) {
        var x :| x in ranges && x.start <= i < x.end;
        assert x in ranges + [r];
      }
      if r.start <= i < r.end { assert r in ranges + [r]; }
    }
  }

  /** Joins `r` to the last merged range when they touch or overlap, and starts a new one otherwise. */
  function Absorb(merged: seq<Range>, r: Range): seq<Range> {
    if merged != [] && r.start <= merged[|merged| - 1].end then
      var prior := merged[|merged| - 1];
      merged[..|merged| - 1]
      + [Range(prior.start, if prior.end < r.end then r.end else prior.end)]
    else merged + [r]
  }

  lemma AbsorbStaysApart(merged: seq<Range>, r: Range)
    requires Apart(merged) && r.start < r.end
    requires merged != [] ==> merged[|merged| - 1].start <= r.start
    ensures Apart(Absorb(merged, r))
    ensures Absorb(merged, r) != [] && Absorb(merged, r)[|Absorb(merged, r)| - 1].start <= r.start
  {
    var after := Absorb(merged, r);
    var n := |after| - 1;
    assert after[..n] == merged[..n];
    forall j, k | 0 <= j < k < |after| ensures after[j].end < after[k].start {
      assert after[j] == merged[j];
      if k < n { assert after[k] == merged[k]; }
    }
  }

  lemma AbsorbCovers(merged: seq<Range>, r: Range)
    requires merged != [] ==> merged[|merged| - 1].start <= r.start
    ensures forall i: int ::
              Covers(Absorb(merged, r), i) <==> Covers(merged, i) || r.start <= i < r.end
  {
    hide Covers;
    if merged != [] && r.start <= merged[|merged| - 1].end {
      var front, prior := merged[..|merged| - 1], merged[|merged| - 1];
      assert merged == front + [prior];
      CoversSnoc(front, prior);
      CoversSnoc(front, Range(prior.start, if prior.end < r.end then r.end else prior.end));
    } else {
      CoversSnoc(merged, r);
    }
  }

  lemma NothingApart()
    ensures Apart([])
  {}

  method MergeRanges(ranges: seq<Range>) returns (merged: seq<Range>)
    requires forall r :: r in ranges ==> r.start < r.end
    ensures Apart(merged)
    ensures forall i: int :: Covers(merged, i) <==> Covers(ranges, i)
  {
    hide Apart, Covers, Absorb;
    NothingApart();
    var sorted := Sort(ranges);
    merged := [];
    var j := 0;
    while j < |sorted|
      invariant 0 <= j <= |sorted|
      invariant Apart(merged)
      invariant forall i: int :: Covers(merged, i) <==> Covers(sorted[..j], i)
      invariant j > 0 ==> merged != [] && merged[|merged| - 1].start <= sorted[j - 1].start
      invariant j == 0 ==> merged == []
    {
      var r := sorted[j];
      assert r in ranges;
      assert sorted[..j + 1] == sorted[..j] + [r];
      CoversSnoc(sorted[..j], r);
      AbsorbStaysApart(merged, r);
      AbsorbCovers(merged, r);
      AbsorbIs(merged, r);
      if merged != [] && r.start <= merged[|merged| - 1].end {
        var prior := merged[|merged| - 1];
        merged := merged[..|merged| - 1]
                  + [Range(prior.start, if prior.end < r.end then r.end else prior.end)];
      } else {
        merged := merged + [r];
      }
      j := j + 1;
    }
    assert sorted[..j] == sorted;
    SameElements(sorted, ranges);
  }

  lemma AbsorbIs(merged: seq<Range>, r: Range)
    ensures Absorb(merged, r)
            == if merged != [] && r.start <= merged[|merged| - 1].end then
                 var prior := merged[|merged| - 1];
                 merged[..|merged| - 1]
                 + [Range(prior.start, if prior.end < r.end then r.end else prior.end)]
               else merged + [r]
  {}

  lemma SameElements(a: seq<Range>, b: seq<Range>)
    requires forall x :: x in a <==> x in b
    ensures forall i: int :: Covers(a, i) <==> Covers(b, i)
  {}

  lemma {:induction false} MaskNothing(value: string, n: nat)
    requires n <= |value|
    ensures Mask(value, {}, n) == value[..n]
  {
    if n > 0 { MaskNothing(value, n - 1); }
  }

  /** Merged ranges that cover what the given ones cover, inside a text of `n` characters. */
  ghost predicate Merges(merged: seq<Range>, ranges: seq<Range>, n: nat) {
    && Apart(merged)
    && (forall i: int :: Covers(merged, i) <==> Covers(ranges, i))
    && (forall k :: 0 <= k < |merged| ==> merged[k].end <= n)
  }

  function CursorAt(merged: seq<Range>, k: nat): int
    requires k <= |merged|
  {
    if k == 0 then 0 else merged[k - 1].end
  }

  /** One turn of the loop: the gap in front of a merged range stays, the range becomes one marker. */
  lemma MaskTurn(value: string, ranges: seq<Range>, merged: seq<Range>, k: nat)
    requires Merges(merged, ranges, |value|) && k < |merged|
    ensures 0 <= CursorAt(merged, k) <= merged[k].start < merged[k].end <= |value|
    ensures var covered := Covered(ranges, |value|);
            Mask(value, covered, merged[k].end)
            == Mask(value, covered, CursorAt(merged, k))
               + value[CursorAt(merged, k)..merged[k].start] + REDACTION_MARKER
  {
    hide Mask, Covers;
    var covered, r := Covered(ranges, |value|), merged[k];
    GapUncovered(merged, ranges, k, |value|);
    hide Apart, Covered;
    MaskGap(value, covered, CursorAt(merged, k), r.start);
    MaskRun(value, covered, r.start, r.end);
  }

  /** Behind the last merged range everything stays. */
  lemma MaskTail(value: string, ranges: seq<Range>, merged: seq<Range>)
    requires Merges(merged, ranges, |value|)
    ensures 0 <= CursorAt(merged, |merged|) <= |value|
    ensures var covered := Covered(ranges, |value|);
            Mask(value, covered, |value|)
            == Mask(value, covered, CursorAt(merged, |merged|)) + value[CursorAt(merged, |merged|)..]
  {
    hide Mask, Covers, Covered;
    TailUncovered(merged, ranges, |value|);
    MaskGap(value, Covered(ranges, |value|), CursorAt(merged, |merged|), |value|);
  }

  lemma MaskStart(value: string, covered: set<int>)
    ensures Mask(value, covered, 0) == ""
  {}

  lemma NothingCovered(n: nat)
    ensures Covered([], n) == {}
  {}

  /** `_replace_ranges`: exactly the covered characters go, one marker for each maximal run, and all
      other characters stay in order. */
  method ReplaceRanges(value: string, ranges: seq<Range>) returns (result: string)
    requires Within(ranges, |value|)
    ensures result == Mask(value, Covered(ranges, |value|), |value|)
  {
    hide Mask, Covers, Covered, Apart, Merges;
    if ranges == [] {
      NothingCovered(|value|);
      MaskNothing(value, |value|);
      assert value[..|value|] == value;
      return value;
    }
    var merged := MergeRanges(ranges);
    MergedWithin(merged, ranges, |value|);
    ghost var covered := Covered(ranges, |value|);
    MaskStart(value, covered);
    result := "";
    var cursor, k := 0, 0;
    while k < |merged|
      invariant 0 <= k <= |merged| && 0 <= cursor <= |value|
      invariant cursor == CursorAt(merged, k)
      invariant result == Mask(value, covered, cursor)
    {
      MaskTurn(value, ranges, merged, k);
      result := result + value[cursor..merged[k].start] + REDACTION_MARKER;
      cursor := merged[k].end;
      k := k + 1;
    }
    MaskTail(value, ranges, merged);
    result := result + value[cursor..];
  }

  lemma MergedWithin(merged: seq<Range>, ranges: seq<Range>, n: nat)
    requires Apart(merged) && Within(ranges, n)
    requires forall i: int :: Covers(merged, i) <==> Covers(ranges, i)
    ensures Merges(merged, ranges, n)
  {
    forall k | 0 <= k < |merged| ensures merged[k].end <= n {
      assert merged[k] in merged;
      assert Covers(merged, merged[k].end - 1);
    }
  }

  /** Between two merged ranges nothing is covered; inside one, everything is. */
  lemma GapUncovered(merged: seq<Range>, ranges: seq<Range>, k: nat, n: nat)
    requires Apart(merged) && k < |merged| && merged[k].end <= n
    requires forall i: int :: Covers(merged, i) <==> Covers(ranges, i)
    ensures var from := if k == 0 then 0 else merged[k - 1].end;
            from <= merged[k].start
            && forall i :: from <= i < merged[k].start ==> i !in Covered(ranges, n)
    ensures forall i :: merged[k].start <= i < merged[k].end ==> i in Covered(ranges, n)
    ensures merged[k].start - 1 !in Covered(ranges, n)
  {
    assert merged[k] in merged;
    forall i | Covers(merged, i) && i < merged[k].start
      ensures k > 0 && i < merged[k - 1].end
    {
      var r :| r in merged && r.start <= i < r.end;
      var j :| 0 <= j < |merged| && merged[j] == r;
    }
  }

  lemma TailUncovered(merged: seq<Range>, ranges: seq<Range>, n: nat)
    requires Apart(merged)
    requires forall i: int :: Covers(merged, i) <==> Covers(ranges, i)
    ensures var from := if merged == [] then 0 else merged[|merged| - 1].end;
            forall i :: from <= i < n ==> i !in Covered(ranges, n)
  {
    forall i | Covers(merged, i)
      ensures merged != [] && i < merged[|merged| - 1].end
    {
      var r :| r in merged && r.start <= i < r.end;
      var j :| 0 <= j < |merged| && merged[j] == r;
    }
  }

  // ----- Which characters an exact secret claims -----

  predicate OccursAt(text: string, secret: string, k: int) {
    0 <= k && k + |secret| <= |text| && text[k..k + |secret|] == secret
  }

  /** Position `p` lies in an occurrence. */
  ghost predicate InOccurrence(text: string, secret: string, p: int) {
    exists k :: OccursAt(text, secret, k) && k <= p < k + |secret|
  }

  predicate EndsWith(text: string, ending: string) {
    |ending| <= |text| && text[|text| - |ending|..] == ending
  }

  /** Position `p` lies in a text ending that may be the start of an occurrence. */
  ghost predicate InUnfinished(text: string, secret: string, p: int) {
    exists n :: 0 < n < |secret| && EndsWith(text, secret[..n]) && |text| - n <= p
  }

  ghost predicate Claims(text: string, secret: string, p: int) {
    InOccurrence(text, secret, p) || InUnfinished(text, secret, p)
  }

  ghost predicate Claimed(text: string, secrets: seq<string>, p: int) {
    exists s :: s in secrets && Claims(text, s, p)
  }

  /** Position `i` of a fragment that follows `tail`. */
  ghost predicate ClaimedIn(tail: string, value: string, secrets: seq<string>, i: int) {
    Claimed(tail + value, secrets, |tail| + i)
  }

  /** `combined.find(secret, from)`. */
  method Find(text: string, secret: string, from: nat) returns (k: int)
    ensures k == -1 || (from <= k && OccursAt(text, secret, k))
    ensures k == -1 ==> forall j :: from <= j ==> !OccursAt(text, secret, j)
    ensures k >= 0 ==> forall j :: from <= j < k ==> !OccursAt(text, secret, j)
  {
    k := from;
    while k + |secret| <= |text|
      invariant from <= k
      invariant forall j :: from <= j < k ==> !OccursAt(text, secret, j)
    {
      if text[k..k + |secret|] == secret { return; }
      k := k + 1;
    }
    k := -1;
  }

  /** The part of `[start, end)` that lies in the fragment after `boundary`. */
  function Local(start: int, end: int, boundary: nat): Range
    requires boundary < end
  {
    Range((if start < boundary then 0 else start - boundary), end - boundary)
  }

  /** The loop over `find`: every occurrence that reaches into the fragment. */
  method OccurrenceRanges(combined: string, boundary: nat, secret: string) returns (ranges: seq<Range>)
    requires boundary <= |combined| && secret != ""
    ensures Within(ranges, |combined| - boundary)
    ensures forall i :: 0 <= i < |combined| - boundary ==>
              (Covers(ranges, i) <==> InOccurrence(combined, secret, boundary + i))
  {
    ranges := [];
    ghost var done := 0;
    var start := Find(combined, secret, 0);
    while start >= 0
      invariant 0 <= done <= |combined| + 1 && (start >= 0 ==> done <= start)
      invariant start == -1 || OccursAt(combined, secret, start)
      invariant start == -1 ==> forall j :: done <= j ==> !OccursAt(combined, secret, j)
      invariant start >= 0 ==> forall j :: done <= j < start ==> !OccursAt(combined, secret, j)
      invariant Within(ranges, |combined| - boundary)
      invariant forall i :: 0 <= i < |combined| - boundary ==>
                  (Covers(ranges, i) <==> FoundBefore(combined, secret, done, boundary + i))
      decreases if start >= 0 then |combined| + 1 - start else 0
    {
      ghost var before, was := done, ranges;
      var end := start + |secret|;
      if end > boundary {
        CoversSnoc(ranges, Local(start, end, boundary));
        ranges := ranges + [Local(start, end, boundary)];
      }
      done := start + 1;
      forall p: int
        ensures FoundBefore(combined, secret, done, p)
                <==> FoundBefore(combined, secret, before, p) || start <= p < end
      {
        FoundStep(combined, secret, before, start, p);
      }
      start := Find(combined, secret, start + 1);
    }
    forall p: int
      ensures FoundBefore(combined, secret, done, p) <==> InOccurrence(combined, secret, p)
    {}
  }

  /** An occurrence that begins before `done` claims the position. */
  ghost predicate FoundBefore(text: string, secret: string, done: int, p: int) {
    exists k :: 0 <= k < done && k <= p < k + |secret| && OccursAt(text, secret, k)
  }

  lemma FoundStep(text: string, secret: string, before: int, start: int, p: int)
    requires 0 <= before <= start && OccursAt(text, secret, start)
    requires forall j :: before <= j < start ==> !OccursAt(text, secret, j)
    ensures FoundBefore(text, secret, start + 1, p)
            <==> FoundBefore(text, secret, before, p) || start <= p < start + |secret|
  {
    if FoundBefore(text, secret, start + 1, p) {
      var k :| 0 <= k < start + 1 && k <= p < k + |secret| && OccursAt(text, secret, k);
    }
  }

  /** The loop over prefixes, longest first: the fragment may end inside the secret. */
  method UnfinishedRange(combined: string, boundary: nat, secret: string) returns (ranges: seq<Range>)
    requires boundary <= |combined| && secret != ""
    ensures Within(ranges, |combined| - boundary)
    ensures forall i :: 0 <= i < |combined| - boundary ==>
              (Covers(ranges, i) <==> InUnfinished(combined, secret, boundary + i))
  {
    ranges := [];
    var n := |secret| - 1;
    while n > 0
      invariant 0 <= n < |secret|
      invariant forall m :: n < m < |secret| ==> !EndsWith(combined, secret[..m])
    {
      if EndsWith(combined, secret[..n]) {
        var start := |combined| - n;
        if boundary < |combined| { ranges := [Local(start, |combined|, boundary)]; }
        forall i | 0 <= i < |combined| - boundary
          ensures Covers(ranges, i) <==> InUnfinished(combined, secret, boundary + i)
        {
          if boundary < |combined| { assert ranges[0] in ranges; }
        }
        return;
      }
      n := n - 1;
    }
  }

  /** The exact-secret ranges of one streamed fragment, which is `combined` from `boundary` on. */
  method SecretRanges(combined: string, boundary: nat, secrets: seq<string>)
    returns (ranges: seq<Range>)
    requires boundary <= |combined| && forall s :: s in secrets ==> s != ""
    ensures Within(ranges, |combined| - boundary)
    ensures forall i :: 0 <= i < |combined| - boundary ==>
              (Covers(ranges, i) <==> Claimed(combined, secrets, boundary + i))
  {
    ranges := [];
    var j := 0;
    while j < |secrets|
      invariant 0 <= j <= |secrets|
      invariant Within(ranges, |combined| - boundary)
      invariant forall i :: 0 <= i < |combined| - boundary ==>
                  (Covers(ranges, i) <==> Claimed(combined, secrets[..j], boundary + i))
    {
      assert secrets[j] in secrets;
      var found := OccurrenceRanges(combined, boundary, secrets[j]);
      var unfinished := UnfinishedRange(combined, boundary, secrets[j]);
      CoversJoin(found, unfinished);
      CoversJoin(ranges, found + unfinished);
      ClaimedStep(combined, secrets, j);
      forall i | 0 <= i < |combined| - boundary
        ensures Covers(ranges + (found + unfinished), i)
                <==> Claimed(combined, secrets[..j + 1], boundary + i)
      {
        assert Covers(found + unfinished, i) <==> Claims(combined, secrets[j], boundary + i);
      }
      ranges := ranges + (found + unfinished);
      j := j + 1;
    }
    assert secrets[..j] == secrets;
  }

  lemma CoversJoin(a: seq<Range>, b: seq<Range>)
    ensures forall i: int :: Covers(a + b, i) <==> Covers(a, i) || Covers(b, i)
  {
    forall i: int ensures Covers(a + b, i) <==> Covers(a, i) || Covers(b, i) {
      if Covers(a, i) { var x :| x in a && x.start <= i < x.end; assert x in a + b; }
      if Covers(b, i) { var x :| x in b && x.start <= i < x.end; assert x in a + b; }
    }
  }

  lemma ClaimedStep(text: string, secrets: seq<string>, j: nat)
    requires j < |secrets|
    ensures forall p: int :: Claimed(text, secrets[..j + 1], p)
              <==> Claimed(text, secrets[..j], p) || Claims(text, secrets[j], p)
  {
    hide Claims;
    assert secrets[..j + 1] == secrets[..j] + [secrets[j]];
    forall p: int
      ensures Claimed(text, secrets[..j + 1], p)
              <==> Claimed(text, secrets[..j], p) || Claims(text, secrets[j], p)
    {
      if Claimed(text, secrets[..j], p) {
        var s :| s in secrets[..j] && Claims(text, s, p);
        assert s in secrets[..j + 1];
      }
      if Claims(text, secrets[j], p) { assert secrets[j] in secrets[..j + 1]; }
    }
  }

  // ----- Coverage across fragments -----

  /** `combined[-n:]`. */
  function LastChars(text: string, n: nat): string {
    if |text| <= n then text else text[|text| - n..]
  }

  /** The remembered tail is the end of everything streamed. */
  lemma TailOfTail(before: string, value: string, n: nat)
    ensures LastChars(LastChars(before, n) + value, n) == LastChars(before + value, n)
  {}

  /** Every character of every secret occurrence in the whole stream is claimed within its own
      fragment, wherever the stream was cut, as long as the remembered tail is one character short of
      the longest secret. */
  lemma StreamCoverage(
    secrets: seq<string>, n: nat, before: string, value: string, after: string, secret: string,
    k: int, q: int)
    requires secret in secrets && |secret| <= n + 1
    requires OccursAt(before + value + after, secret, k) && k <= q < k + |secret|
    requires |before| <= q < |before| + |value|
    ensures var tail := LastChars(before, n);
            Claimed(tail + value, secrets, |tail| + (q - |before|))
  {
    var tail := LastChars(before, n);
    var combined, offset := tail + value, |before| - |tail|;
    var raw := before + value + after;
    var p := q - offset;
    assert forall i :: 0 <= i < |combined| ==> combined[i] == raw[offset + i];
    if k + |secret| <= |before| + |value| {
      assert OccursAt(combined, secret, k - offset) by {
        assert combined[k - offset..k - offset + |secret|] == raw[k..k + |secret|];
      }
    } else {
      var m := |before| + |value| - k;
      assert combined[|combined| - m..] == raw[k..k + |secret|][..m];
      assert EndsWith(combined, secret[..m]);
    }
    assert Claims(combined, secret, p);
  }
}
