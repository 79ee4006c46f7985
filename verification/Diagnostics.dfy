/** The bounded stderr tail of `runtime-diagnostics.ts`. */
module Diagnostics {
  type byte = n: int | 0 <= n < 256

  predicate IsLineBreak(b: byte) { b == 10 || b == 13 }

  function LastBytes(history: seq<byte>, n: nat): seq<byte> {
    if |history| <= n then history else history[|history| - n..]
  }

  /** The retained tail begins in the middle of a physical line. */
  predicate CutInsideLine(history: seq<byte>, n: nat) {
    |history| > n && !IsLineBreak(history[|history| - n - 1])
  }

  /** A chunk that fills the tail by itself: each flag as the source computes it. */
  lemma FilledByChunk(history: seq<byte>, bytes: seq<byte>, n: nat)
    requires 0 < n <= |bytes|
    ensures var tail, all := LastBytes(history, n), history + bytes;
            && LastBytes(all, n) == bytes[|bytes| - n..]
            && (|all| > n <==> |history| > n || |tail| > 0 || |bytes| > n)
            && (CutInsideLine(all, n) <==>
                  if |bytes| > n then !IsLineBreak(bytes[|bytes| - n - 1])
                  else if |tail| > 0 then !IsLineBreak(tail[|tail| - 1])
                  else CutInsideLine(history, n))
  {}

  /** A chunk behind what is left of the tail. */
  lemma FilledTogether(history: seq<byte>, bytes: seq<byte>, n: nat)
    requires |bytes| < n
    ensures var combined, all := LastBytes(history, n) + bytes, history + bytes;
            && LastBytes(all, n)
               == (if |combined| > n then combined[|combined| - n..] else combined)
            && (|all| > n <==> |combined| > n || |history| > n)
            && (CutInsideLine(all, n) <==>
                  if |combined| > n then !IsLineBreak(combined[|combined| - n - 1])
                  else CutInsideLine(history, n))
  {
    if bytes == [] { assert history + bytes == history; }
  }

  /** Everything behind the first line break; CR LF is one break. */
  function AfterFirstBreak(bytes: seq<byte>): seq<byte> {
    if bytes == [] then []
    else if !IsLineBreak(bytes[0]) then AfterFirstBreak(bytes[1..])
    else if bytes[0] == 13 && |bytes| > 1 && bytes[1] == 10 then bytes[2..]
    else bytes[1..]
  }

  /** What is left is the end of the bytes, begins at the start of a line, and nothing is left exactly
      when no byte follows the first break. */
  lemma {:induction false} KeepsWholeLines(bytes: seq<byte>)
    ensures var rest := AfterFirstBreak(bytes);
            rest != [] ==>
              && |rest| < |bytes|
              && rest == bytes[|bytes| - |rest|..]
              && IsLineBreak(bytes[|bytes| - |rest| - 1])
    ensures (forall i :: 0 <= i < |bytes| ==> !IsLineBreak(bytes[i])) ==> AfterFirstBreak(bytes) == []
  {
    if bytes != [] && !IsLineBreak(bytes[0]) {
      KeepsWholeLines(bytes[1..]);
      var rest := AfterFirstBreak(bytes);
      if rest != [] {
        assert bytes[1..][|bytes| - 1 - |rest|..] == bytes[|bytes| - |rest|..];
        assert bytes[1..][|bytes| - 1 - |rest| - 1] == bytes[|bytes| - |rest| - 1];
      }
    }
  }

  /** The first CR, LF or CR LF goes with everything in front of it, and nothing else does. */
  lemma {:induction false} FirstBreakDecides(bytes: seq<byte>, i: nat)
    requires i < |bytes| && (bytes[i] == 10 || bytes[i] == 13)
    requires forall j :: 0 <= j < i ==> bytes[j] != 10 && bytes[j] != 13
    ensures AfterFirstBreak(bytes)
            == if bytes[i] == 13 && i + 1 < |bytes| && bytes[i + 1] == 10 then bytes[i + 2..]
               else bytes[i + 1..]
    decreases i
  {
    if i > 0 {
      FirstBreakDecides(bytes[1..], i - 1);
      if i + 1 < |bytes| { assert bytes[1..][i..] == bytes[i + 1..]; }
      if i + 2 <= |bytes| { assert bytes[1..][i + 1..] == bytes[i + 2..]; }
    }
  }

  /** The loop of `dropLeadingPartialLine`. */
  method DropLeadingPartialLine(bytes: seq<byte>) returns (rest: seq<byte>)
    ensures rest == AfterFirstBreak(bytes)
  {
    var index := 0;
    while index < |bytes|
      invariant 0 <= index <= |bytes|
      invariant AfterFirstBreak(bytes) == AfterFirstBreak(bytes[index..])
    {
      assert bytes[index..][1..] == bytes[index + 1..];
      if bytes[index] == 10 { return bytes[index + 1..]; }
      if bytes[index] == 13 {
        var next := if index + 1 < |bytes| && bytes[index + 1] == 10 then index + 2 else index + 1;
        assert next == index + 2 ==> bytes[index..][2..] == bytes[next..];
        return bytes[next..];
      }
      index := index + 1;
    }
    rest := [];
  }

  /** `RuntimeDiagnostics`, as far as it retains bytes. */
  class RuntimeDiagnostics {
    const byteLimit: nat
    var tail: seq<byte>
    var truncated: bool
    var tailStartsInsideLine: bool
    ghost var history: seq<byte>

    /** The tail is exactly the last bytes of everything appended; the flags say what was lost. */
    ghost predicate Valid()
      reads this
    {
      && byteLimit > 0
      && tail == LastBytes(history, byteLimit)
      && (truncated <==> |history| > byteLimit)
      && (tailStartsInsideLine <==> CutInsideLine(history, byteLimit))
    }

    constructor (byteLimit: nat)
      requires byteLimit > 0
      ensures Valid() && history == [] && this.byteLimit == byteLimit
    {
      this.byteLimit := byteLimit;
      tail, truncated, tailStartsInsideLine, history := [], false, false, [];
    }

    /** `append`. */
    method Append(bytes: seq<byte>)
      requires Valid()
      modifies this
      ensures Valid() && history == old(history) + bytes
    {
      hide CutInsideLine, IsLineBreak, LastBytes;
      if |bytes| >= byteLimit {
        FilledByChunk(history, bytes, byteLimit);
      } else {
        FilledTogether(history, bytes, byteLimit);
      }
      history := history + bytes;
      if |bytes| >= byteLimit {
        var didDiscard := |tail| > 0 || |bytes| > byteLimit;
        if |bytes| > byteLimit {
          var retainedOffset := |bytes| - byteLimit;
          tailStartsInsideLine := !IsLineBreak(bytes[retainedOffset - 1]);
        } else if |tail| > 0 {
          tailStartsInsideLine := !IsLineBreak(tail[|tail| - 1]);
        }
        truncated := truncated || didDiscard;
        tail := bytes[|bytes| - byteLimit..];
        return;
      }
      var combined := tail + bytes;
      if |combined| > byteLimit {
        truncated := true;
        var retainedOffset := |combined| - byteLimit;
        tailStartsInsideLine := !IsLineBreak(combined[retainedOffset - 1]);
        tail := combined[retainedOffset..];
        return;
      }
      tail := combined;
    }

    /** The part of the tail that `summary` may show: nothing before its first line break when the
        tail begins inside a line. */
    method DisplayTail() returns (shown: seq<byte>)
      requires Valid()
      ensures shown == if CutInsideLine(history, byteLimit)
                       then AfterFirstBreak(LastBytes(history, byteLimit))
                       else LastBytes(history, byteLimit)
    {
      if tailStartsInsideLine { shown := DropLeadingPartialLine(tail); } else { shown := tail; }
    }
  }
}
