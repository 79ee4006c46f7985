/** The hand-written scanners that admit ignore-policy lines: `repository_access.py`. */
module PolicyScanners {
  import opened Prelude

  // ----- Normalising a line -----

  /** Whether an unescaped backslash stands directly before position `i`. */
  predicate Escaped(line: string, i: nat)
    requires i <= |line|
  {
    i > 0 && line[i - 1] == '\\' && !Escaped(line, i - 1)
  }

  /** A space that stands for itself. */
  predicate PlainSpace(line: string, i: nat)
    requires i < |line|
  {
    line[i] == ' ' && !Escaped(line, i)
  }

  function DropCarriageReturn(line: string): string {
    if line != "" && line[|line| - 1] == '\r' then line[..|line| - 1] else line
  }

  /** Everything from `k` on is the maximal trailing run of plain spaces. */
  predicate IsTrailingRun(line: string, k: nat)
    requires k <= |line|
  {
    && (forall i :: k <= i < |line| ==> PlainSpace(line, i))
    && (k > 0 ==> !PlainSpace(line, k - 1))
  }

  /** `_normalize_policy_line`: at most one trailing CR goes, then exactly the maximal trailing run of
      unescaped spaces. */
  method NormalizePolicyLine(raw: string) returns (result: string)
    ensures exists k :: 0 <= k <= |DropCarriageReturn(raw)|
              && IsTrailingRun(DropCarriageReturn(raw), k)
              && result == DropCarriageReturn(raw)[..k]
  {
    var line := DropCarriageReturn(raw);
    var trailingSpace: Option<nat> := None;
    var index := 0;
    while index < |line|
      invariant 0 <= index <= |line| && !Escaped(line, index)
      invariant match trailingSpace {
                  case None => index > 0 ==> !PlainSpace(line, index - 1)
                  case Some(start) =>
                    && start < index
                    && (forall i :: start <= i < index ==> PlainSpace(line, i))
                    && (start > 0 ==> !PlainSpace(line, start - 1))
                }
    {
      if line[index] == '\\' {
        if index + 1 == |line| {
          assert IsTrailingRun(line, |line|) && line[..|line|] == line;
          return line;
        }
        assert Escaped(line, index + 1);
        trailingSpace := None;
        index := index + 2;
      } else {
        if line[index] == ' ' {
          if trailingSpace.None? { trailingSpace := Some(index); }
        } else {
          trailingSpace := None;
        }
        index := index + 1;
      }
    }
    var k := if trailingSpace.None? then |line| else trailingSpace.value;
    assert IsTrailingRun(line, k);
    result := line[..k];
  }

  /** There is only one such run, so the result is determined. */
  lemma TrailingRunIsUnique(line: string, j: nat, k: nat)
    requires j <= |line| && k <= |line| && IsTrailingRun(line, j) && IsTrailingRun(line, k)
    ensures j == k
  {}

  // ----- Bracket contents -----

  /** `_ascii_range_group`. */
  function AsciiRangeGroup(c: char): Option<int> {
    if '0' <= c <= '9' then Some(0)
    else if 'A' <= c <= 'Z' then Some(1)
    else if 'a' <= c <= 'z' then Some(2)
    else None
  }

  predicate SafeLiteral(c: char) { c == '_' || c == '*' || c == '?' || c == '.' }

  /** A member of an accepted bracket. */
  predicate SafeMember(c: char) { AsciiRangeGroup(c).Some? || SafeLiteral(c) }

  datatype Member = Single(c: char) | Span(from: char, upto: char)

  /** The members of a bracket from `i` on: `a-b` spans and single characters; nothing when a dash
      lacks its end. */
  function Members(content: string, i: nat): Option<seq<Member>>
    requires i <= |content|
    decreases |content| - i
  {
    if i == |content| then Some([])
    else if i + 1 < |content| && content[i + 1] == '-' then
      if i + 2 == |content| then None
      else
        match Members(content, i + 3)
        case None => None
        case Some(rest) => Some([Span(content[i], content[i + 2])] + rest)
    else
      match Members(content, i + 1)
      case None => None
      case Some(rest) => Some([Single(content[i])] + rest)
  }

  predicate MemberOk(m: Member) {
    match m
    case Single(c) => SafeMember(c)
    case Span(from, upto) =>
      AsciiRangeGroup(from).Some? && AsciiRangeGroup(upto) == AsciiRangeGroup(from) && from <= upto
  }

  /** The grammar of an accepted bracket. */
  predicate RangeOk(content: string) {
    && content != "" && content[0] != '!' && content[0] != '^' && content[0] != ']'
    && Members(content, 0).Some?
    && forall m :: m in Members(content, 0).value ==> MemberOk(m)
  }

  /** The characters a bracket stands for. */
  predicate Denotes(content: string, c: char) {
    Members(content, 0).Some?
    && exists m :: m in Members(content, 0).value
         && match m { case Single(x) => x == c case Span(from, upto) => from <= c <= upto }
  }

  /** An accepted bracket denotes only ASCII letters, digits and four literals: never a slash, so it
      cannot reach across a path separator. */
  lemma RangeExcludesSlash(content: string, c: char)
    requires RangeOk(content) && Denotes(content, c)
    ensures SafeMember(c) && c != '/'
  {}

  /** A character or a span within the digits, the capitals or the small letters, or one of four signs. */
  predicate Proper(m: Member) {
    match m
    case Single(c) =>
      || '0' <= c <= '9' || 'A' <= c <= 'Z' || 'a' <= c <= 'z'
      || c == '_' || c == '*' || c == '?' || c == '.'
    case Span(from, upto) =>
      && from <= upto
      && (('0' <= from && upto <= '9') || ('A' <= from && upto <= 'Z') || ('a' <= from && upto <= 'z'))
  }

  function Written(members: seq<Member>): string {
    if members == [] then ""
    else
      (match members[0] { case Single(c) => [c] case Span(from, upto) => [from, '-', upto] })
      + Written(members[1..])
  }

  lemma ProperIsOk(m: Member)
    ensures Proper(m) <==> MemberOk(m)
  {}

  /** Written members are read back: no proper member begins with a dash. */
  lemma {:induction false} ReadBack(content: string, i: nat, members: seq<Member>)
    requires i <= |content| && content[i..] == Written(members)
    requires forall m :: m in members ==> Proper(m)
    ensures Members(content, i) == Some(members)
    decreases |members|
  {
    if members != [] {
      var first, rest := members[0], members[1..];
      assert [first] + rest == members;
      var n := if first.Single? then 1 else 3;
      assert forall m :: m in rest ==> m in members;
      assert Written(members)[n..] == Written(rest);
      assert content[i + n..] == content[i..][n..];
      assert content[i] == content[i..][0];
      ReadBack(content, i + n, rest);
      if first.Single? && rest != [] {
        FirstIsNoDash(rest);
        assert content[i + 1] == content[i + 1..][0];
      } else if first.Span? {
        assert content[i + 1] == content[i..][1] && content[i + 2] == content[i..][2];
      }
    }
  }

  lemma FirstIsNoDash(members: seq<Member>)
    requires members != [] && forall m :: m in members ==> Proper(m)
    ensures Written(members) != "" && Written(members)[0] != '-'
  {
    assert Proper(members[0]);
  }

  /** What is read is what was written. */
  lemma {:induction false} WrittenBack(content: string, i: nat)
    requires i <= |content| && Members(content, i).Some?
    ensures Written(Members(content, i).value) == content[i..]
    decreases |content| - i
  {
    if i < |content| {
      var members := Members(content, i).value;
      var n := if members[0].Single? then 1 else 3;
      WrittenBack(content, i + n);
      assert members[1..] == Members(content, i + n).value;
      assert content[i..] == content[i..i + n] + content[i + n..];
    }
  }

  /** The accepted brackets are exactly the written sequences of proper members that do not begin with
      a negation or a closing bracket. */
  lemma RangeIsItsMembers(content: string)
    ensures RangeOk(content)
            <==> && content != "" && content[0] != '!' && content[0] != '^' && content[0] != ']'
                 && exists members ::
                      Written(members) == content && forall m :: m in members ==> Proper(m)
  {
    forall m ensures Proper(m) <==> MemberOk(m) { ProperIsOk(m); }
    hide Proper, MemberOk;
    assert content[0..] == content;
    if RangeOk(content) { WrittenBack(content, 0); }
    if members :| Written(members) == content && forall m :: m in members ==> Proper(m) {
      ReadBack(content, 0, members);
    }
  }

  /** `_validate_policy_range`. */
  method ValidatePolicyRange(content: string) returns (ok: bool)
    ensures ok <==> RangeOk(content)
  {
    if content == "" || content[0] == '!' || content[0] == '^' || content[0] == ']' { return false; }
    var index := 0;
    ghost var seen: seq<Member> := [];
    PrependStep([], Single(content[0]), Members(content, 0));
    while index < |content|
      invariant 0 <= index <= |content|
      invariant forall m :: m in seen ==> MemberOk(m)
      invariant Members(content, 0) == Prepend(seen, Members(content, index))
    {
      var character := content[index];
      var group := AsciiRangeGroup(character);
      if index + 1 < |content| && content[index + 1] == '-' {
        if index + 2 == |content| { return false; }
        var endpoint := content[index + 2];
        ghost var member := Span(character, endpoint);
        if group.None? || AsciiRangeGroup(endpoint) != group || character > endpoint {
          RefusesMember(content, seen, member, Members(content, index + 3));
          return false;
        }
        PrependStep(seen, member, Members(content, index + 3));
        seen := seen + [member];
        index := index + 3;
      } else {
        ghost var member := Single(character);
        if group.None? && !SafeLiteral(character) {
          RefusesMember(content, seen, member, Members(content, index + 1));
          return false;
        }
        PrependStep(seen, member, Members(content, index + 1));
        seen := seen + [member];
        index := index + 1;
      }
    }
    PrependStep(seen, Single(content[0]), None);
    ok := true;
  }

  function Prepend(seen: seq<Member>, rest: Option<seq<Member>>): Option<seq<Member>> {
    match rest
    case None => None
    case Some(more) => Some(seen + more)
  }

  lemma PrependStep(seen: seq<Member>, member: Member, rest: Option<seq<Member>>)
    ensures Prepend([], rest) == rest
    ensures Prepend(seen, Prepend([member], rest)) == Prepend(seen + [member], rest)
    ensures Prepend(seen, Some([])) == Some(seen)
  {
    if rest.Some? {
      assert [] + rest.value == rest.value;
      assert seen + ([member] + rest.value) == (seen + [member]) + rest.value;
    }
    assert seen + [] == seen;
  }

  lemma RefusesMember(content: string, seen: seq<Member>, member: Member, rest: Option<seq<Member>>)
    requires !MemberOk(member)
    requires Members(content, 0) == Prepend(seen, Prepend([member], rest))
    ensures !RangeOk(content)
  {
    if rest.Some? { assert member in seen + ([member] + rest.value); }
  }

  // ----- One segment -----

  /** What a position of a segment is: live, escaped by the backslash before it, or inside the bracket
      whose contents begin at `start`. */
  datatype Mode = Live | Skipped | Inside(start: nat)

  function ModeAt(segment: string, i: nat): (m: Mode)
    requires i <= |segment|
    ensures m.Inside? ==> m.start <= i
  {
    if i == 0 then Live
    else
      var c := segment[i - 1];
      match ModeAt(segment, i - 1)
      case Skipped => Live
      case Live => if c == '\\' then Skipped else if c == '[' then Inside(i) else Live
      case Inside(start) => if c == ']' && i - 1 > start then Live else Inside(start)
  }

  predicate LiveAt(segment: string, i: int, c: char) {
    0 <= i < |segment| && segment[i] == c && ModeAt(segment, i).Live?
  }

  /** Position `e` closes the bracket whose contents begin at `start`. */
  predicate Closes(segment: string, start: int, e: int) {
    0 <= start < e < |segment| && segment[e] == ']' && ModeAt(segment, e) == Inside(start)
  }

  ghost predicate AtMostOneStar(segment: string, n: nat) {
    forall i, j :: 0 <= i < j < n && LiveAt(segment, i, '*') ==> !LiveAt(segment, j, '*')
  }

  ghost predicate NoQuestionMark(segment: string, n: nat) {
    forall i :: 0 <= i < n ==> !LiveAt(segment, i, '?')
  }

  ghost predicate BracketsOk(segment: string, n: nat) {
    forall s, e :: 0 <= e < n && Closes(segment, s, e) ==> RangeOk(segment[s..e])
  }

  /** The grammar of an accepted segment. */
  ghost predicate SegmentOk(segment: string) {
    && AtMostOneStar(segment, |segment|)
    && NoQuestionMark(segment, |segment|)
    && BracketsOk(segment, |segment|)
  }

  /** Whether the scan of the first `n` positions found no fault. */
  ghost predicate PrefixOk(segment: string, n: nat) {
    AtMostOneStar(segment, n) && NoQuestionMark(segment, n) && BracketsOk(segment, n)
  }

  /** A live star comes before `n`. */
  ghost predicate StarBefore(segment: string, n: nat) {
    exists i :: 0 <= i < n && LiveAt(segment, i, '*')
  }

  /** What one more position asks for. */
  ghost predicate StepOk(segment: string, n: nat)
    requires n < |segment|
  {
    && (LiveAt(segment, n, '*') ==> !StarBefore(segment, n))
    && !LiveAt(segment, n, '?')
    && (ModeAt(segment, n).Inside? && Closes(segment, ModeAt(segment, n).start, n) ==>
          RangeOk(segment[ModeAt(segment, n).start..n]))
  }

  lemma PrefixStep(segment: string, n: nat)
    requires n < |segment|
    ensures PrefixOk(segment, n + 1) <==> PrefixOk(segment, n) && StepOk(segment, n)
    ensures StarBefore(segment, n + 1) <==> StarBefore(segment, n) || LiveAt(segment, n, '*')
  {
    hide RangeOk, ModeAt;
    if PrefixOk(segment, n) && StepOk(segment, n) {
      forall s, e | 0 <= e < n + 1 && Closes(segment, s, e) ensures RangeOk(segment[s..e]) {}
    }
    if i :| 0 <= i < n && LiveAt(segment, i, '*') { assert 0 <= i < n + 1; }
  }

  /** A fault found early is a fault of the whole segment. */
  lemma {:induction false} FaultStays(segment: string, n: nat)
    requires n <= |segment| && !PrefixOk(segment, n)
    ensures !SegmentOk(segment)
    decreases |segment| - n
  {
    hide RangeOk, ModeAt, LiveAt, Closes;
    if n < |segment| {
      PrefixStep(segment, n);
      FaultStays(segment, n + 1);
    }
  }

  lemma NothingScanned(segment: string)
    ensures PrefixOk(segment, 0) && !StarBefore(segment, 0)
    ensures PrefixOk(segment, |segment|) <==> SegmentOk(segment)
  {}

  /** `_validate_policy_segment`: accepts exactly the grammar. */
  method ValidatePolicySegment(segment: string) returns (ok: bool)
    ensures ok <==> SegmentOk(segment)
  {
    hide RangeOk, PrefixOk, StarBefore, SegmentOk;
    NothingScanned(segment);
    var stars := 0;
    var inRange, rangeHasMember, rangeStart := false, false, 0;
    var index := 0;
    while index < |segment|
      invariant 0 <= index <= |segment| || (index == |segment| + 1 && !inRange)
      invariant index <= |segment| ==>
                  ModeAt(segment, index) == if inRange then Inside(rangeStart) else Live
      invariant inRange ==> rangeStart <= index && (rangeHasMember <==> rangeStart < index)
      invariant PrefixOk(segment, if index <= |segment| then index else |segment|)
      invariant 0 <= stars <= 1
      invariant index <= |segment| ==> (stars == 1 <==> StarBefore(segment, index))
    {
      var character := segment[index];
      PrefixStep(segment, index);
      if character == '\\' && !inRange {
        assert ModeAt(segment, index + 1).Skipped?;
        if index + 1 < |segment| { PrefixStep(segment, index + 1); }
        index := index + 2;
      } else if !inRange {
        if character == '[' {
          inRange, rangeHasMember, rangeStart := true, false, index + 1;
        } else if character == '*' {
          stars := stars + 1;
          if stars > 1 {
            FaultStays(segment, index + 1);
            return false;
          }
        } else if character == '?' {
          FaultStays(segment, index + 1);
          return false;
        }
        index := index + 1;
      } else if character == ']' && rangeHasMember {
        var fine := ValidatePolicyRange(segment[rangeStart..index]);
        if !fine {
          FaultStays(segment, index + 1);
          return false;
        }
        inRange := false;
        index := index + 1;
      } else {
        rangeHasMember := true;
        index := index + 1;
      }
    }
    ok := true;
  }

  /** In an accepted segment no closed bracket can stand for a path separator. */
  lemma SegmentsKeepSeparators(segment: string, s: int, e: int, c: char)
    requires SegmentOk(segment) && Closes(segment, s, e) && Denotes(segment[s..e], c)
    ensures c != '/' && SafeMember(c)
  {
    RangeExcludesSlash(segment[s..e], c);
  }

  // ----- One line -----

  /** `body.split("/")`. */
  function SplitSlash(body: string): (r: seq<string>)
    ensures r != []
  {
    if body == "" then [""]
    else
      var before, last := SplitSlash(body[..|body| - 1]), body[|body| - 1];
      if last == '/' then before + [""]
      else before[..|before| - 1] + [before[|before| - 1] + [last]]
  }

  function Body(line: string): string {
    if line != "" && line[0] == '!' then line[1..] else line
  }

  predicate Trivial(line: string) { line == "" || line[0] == '#' || line == "/" }

  /** The index of the last non-empty segment, or -1. */
  function LastNonEmpty(segments: seq<string>): int {
    if segments == [] then -1
    else if segments[|segments| - 1] != "" then |segments| - 1
    else LastNonEmpty(segments[..|segments| - 1])
  }

  predicate EndsWithSlashes(body: string) {
    |body| >= 2 && body[|body| - 1] == '/' && body[|body| - 2] == '/'
  }

  /** A `**` that spans directories: one before the last named segment, or the last one itself when
      empty segments follow it. */
  predicate ActiveGlobstar(body: string, i: int) {
    var segments := SplitSlash(body);
    && 0 <= i < |segments| && segments[i] == "**"
    && (i < LastNonEmpty(segments) || (i == LastNonEmpty(segments) && EndsWithSlashes(body)))
  }

  /** The grammar of an accepted line. */
  ghost predicate LineOk(line: string) {
    Trivial(line)
    || (var body := Body(line);
        && (forall i :: 0 <= i < |SplitSlash(body)| && SplitSlash(body)[i] != "**" ==>
              SegmentOk(SplitSlash(body)[i]))
        && (forall i, j :: i < j && ActiveGlobstar(body, i) ==> !ActiveGlobstar(body, j)))
  }

  /** `_validate_policy_line`: accepts exactly the grammar, in particular at most one active globstar. */
  method ValidatePolicyLine(line: string) returns (ok: bool)
    ensures ok <==> LineOk(line)
  {
    hide SegmentOk;
    if Trivial(line) { return true; }
    var body := Body(line);
    var segments := SplitSlash(body);
    var lastNonempty := LastNonEmpty(segments);
    var activeGlobstars := 0;
    ghost var globstar := -1;
    for index := 0 to |segments|
      invariant 0 <= activeGlobstars <= 1
      invariant activeGlobstars == 1 ==> 0 <= globstar < index && ActiveGlobstar(body, globstar)
      invariant forall i :: i < index && ActiveGlobstar(body, i) ==>
                  activeGlobstars == 1 && i == globstar
      invariant forall i :: 0 <= i < index && segments[i] != "**" ==> SegmentOk(segments[i])
    {
      if segments[index] == "**" {
        if index < lastNonempty || (index == lastNonempty && EndsWithSlashes(body)) {
          activeGlobstars := activeGlobstars + 1;
          assert ActiveGlobstar(body, index);
          if activeGlobstars > 1 { return false; }
          globstar := index;
        }
      } else {
        var fine := ValidatePolicySegment(segments[index]);
        if !fine { return false; }
      }
    }
    ok := true;
  }
}
