/** What the sanitiser lets through to the transcript's file, said of its results alone. */
module PersistedText {
  import opened Prelude
  import opened Lifecycle
  import opened Redaction
  import opened Utf8
  import opened Sanitizer

  // ----- One streamed fragment -----

  /** `out` is `value` from position `from` on with one marker for each maximal covered run and
      everything else kept in order. */
  ghost predicate Blanks(value: string, covered: set<int>, from: nat, out: string)
    requires from <= |value|
    decreases |value| - from
  {
    if from == |value| then out == ""
    else if from !in covered then
      out != "" && out[0] == value[from] && Blanks(value, covered, from + 1, out[1..])
    else if from + 1 < |value| && from + 1 in covered then Blanks(value, covered, from + 1, out)
    else
      && REDACTION_MARKER <= out
      && Blanks(value, covered, from + 1, out[|REDACTION_MARKER|..])
  }

  lemma {:induction false} BlanksAreUnique(
    value: string, covered: set<int>, from: nat, a: string, b: string)
    requires from <= |value| && Blanks(value, covered, from, a) && Blanks(value, covered, from, b)
    ensures a == b
    decreases |value| - from
  {
    if from == |value| {
    } else if from !in covered {
      BlanksAreUnique(value, covered, from + 1, a[1..], b[1..]);
      assert a == [a[0]] + a[1..] && b == [b[0]] + b[1..];
    } else if from + 1 < |value| && from + 1 in covered {
      BlanksAreUnique(value, covered, from + 1, a, b);
    } else {
      var n := |REDACTION_MARKER|;
      BlanksAreUnique(value, covered, from + 1, a[n..], b[n..]);
      assert a == a[..n] + a[n..] && b == b[..n] + b[n..];
    }
  }

  /** Whether a run that is under way at `k` has its marker still to come. */
  predicate MarkerDue(value: string, covered: set<int>, k: nat)
    requires k <= |value|
  {
    k > 0 && k < |value| && k - 1 in covered && k in covered
  }

  /** `Mask` puts its marker at the start of a run and `Blanks` at the end; in between they differ by
      that one marker. */
  lemma {:induction false} MaskSplits(value: string, covered: set<int>, k: nat, rest: string)
    requires k <= |value| && Blanks(value, covered, k, rest)
    requires MarkerDue(value, covered, k) ==> REDACTION_MARKER <= rest
    ensures Mask(value, covered, |value|)
            == Mask(value, covered, k)
               + if MarkerDue(value, covered, k) then rest[|REDACTION_MARKER|..] else rest
    decreases |value| - k
  {
    if k < |value| {
      hide Mask, Blanks;
      MaskStep(value, covered, k);
      BlanksStep(value, covered, k, rest);
      var done, n := Mask(value, covered, k), |REDACTION_MARKER|;
      if k !in covered {
        MaskSplits(value, covered, k + 1, rest[1..]);
        assert rest[..1] == [value[k]];
        Regroup(done, rest, 1);
      } else if k + 1 < |value| && k + 1 in covered {
        MarkerComes(value, covered, k + 1, rest);
        MaskSplits(value, covered, k + 1, rest);
        assert rest[..n] == REDACTION_MARKER;
        Regroup(done, rest, n);
      } else {
        MaskSplits(value, covered, k + 1, rest[n..]);
        Regroup(done, rest, n);
      }
    }
  }

  lemma BlanksStep(value: string, covered: set<int>, k: nat, rest: string)
    requires k < |value| && Blanks(value, covered, k, rest)
    ensures var n := |REDACTION_MARKER|;
            if k !in covered then
              rest != "" && rest[0] == value[k] && Blanks(value, covered, k + 1, rest[1..])
            else if k + 1 < |value| && k + 1 in covered then Blanks(value, covered, k + 1, rest)
            else
              && n <= |rest| && rest[..n] == REDACTION_MARKER
              && Blanks(value, covered, k + 1, rest[n..])
  {}

  lemma MaskStep(value: string, covered: set<int>, k: nat)
    requires k < |value|
    ensures Mask(value, covered, k + 1)
            == if k !in covered then Mask(value, covered, k) + [value[k]]
               else if k > 0 && k - 1 in covered then Mask(value, covered, k)
               else Mask(value, covered, k) + REDACTION_MARKER
  {}

  lemma Regroup(a: string, b: string, n: nat)
    requires n <= |b|
    ensures a + b[..n] + b[n..] == a + b
  {
    assert b == b[..n] + b[n..];
  }

  /** Inside a run the text to come begins with its marker. */
  lemma {:induction false} MarkerComes(value: string, covered: set<int>, k: nat, rest: string)
    requires k < |value| && k in covered && Blanks(value, covered, k, rest)
    ensures REDACTION_MARKER <= rest
    decreases |value| - k
  {
    if k + 1 < |value| && k + 1 in covered { MarkerComes(value, covered, k + 1, rest); }
  }

  lemma {:induction false} BlanksExist(value: string, covered: set<int>, from: nat)
    returns (out: string)
    requires from <= |value|
    ensures Blanks(value, covered, from, out)
    decreases |value| - from
  {
    if from == |value| {
      out := "";
    } else {
      var rest := BlanksExist(value, covered, from + 1);
      if from !in covered {
        out := [value[from]] + rest;
        assert out[1..] == rest;
      } else if from + 1 < |value| && from + 1 in covered {
        out := rest;
      } else {
        out := REDACTION_MARKER + rest;
        assert out[|REDACTION_MARKER|..] == rest;
      }
    }
  }

  /** The masked text is the one text that blanks exactly the covered runs. */
  lemma MaskBlanks(value: string, covered: set<int>)
    ensures Blanks(value, covered, 0, Mask(value, covered, |value|))
  {
    var out := BlanksExist(value, covered, 0);
    MaskSplits(value, covered, 0, out);
    assert Mask(value, covered, 0) == "";
    assert "" + out == out;
  }

  /** Everything of a fragment that may not be shown as it is. */
  ghost function Hidden(settings: Settings, z: Memory, value: string, credentials: set<int>): set<int>
  {
    SecretPositions(settings, z, value) + credentials
  }

  /** `kept` bounded to `limit` bytes: itself, or its longest whole-scalar prefix that leaves room for
      the marker, and the marker. */
  ghost predicate Fitted(kept: string, limit: nat, out: string) {
    if Length(kept) <= limit then out == kept
    else
      exists k :: 0 <= k < |kept|
        && out == kept[..k] + "[TRUNCATED]"
        && Length(kept[..k]) <= limit - 11 < Length(kept[..k + 1])
  }

  /** What a transcript with `remaining` bytes of content left keeps of a fragment. */
  ghost predicate Kept(kept: string, remaining: nat, exhausted: bool, out: string) {
    if exhausted || kept == "" then out == "~"
    else if Length(kept) <= remaining || remaining > 11 then Fitted(kept, remaining, out)
    else out == "[TRUNCATED]"
  }

  /** What is kept of a fragment once its hidden characters are blanked. */
  lemma BoundedIsKept(limit: nat, z: Memory, kept: string)
    requires z.contentBytes <= limit
    ensures Kept(kept, limit - z.contentBytes, z.exhausted, BoundFragment(limit, z, kept).1)
  {
    hide BoundUtf8, Length, Fitted;
    EmptyLength();
    MarkerLength();
    BoundedIsFitted(kept, limit - z.contentBytes);
    WholeIsFitted(kept, limit - z.contentBytes);
  }

  lemma WholeIsFitted(kept: string, limit: nat)
    ensures Length(kept) <= limit ==> Fitted(kept, limit, kept)
  {}

  lemma FragmentIsKept(settings: Settings, z: Memory, text: string, credentials: set<int>)
    requires settings.Valid() && z.contentBytes <= settings.textLimit
    ensures var kept :=
              settings.redact(Mask(text, Hidden(settings, z, text, credentials), |text|));
            Kept(kept, settings.textLimit - z.contentBytes, z.exhausted,
                 SanitizeDelta(settings, z, text, credentials).1)
  {
    hide Mask, BoundFragment, Kept, SecretPositions;
    var kept := settings.redact(Mask(text, Hidden(settings, z, text, credentials), |text|));
    BoundedIsKept(settings.textLimit,
                  z.(rawTail := LastChars(z.rawTail + text, settings.TailLength())), kept);
  }

  lemma EmptyLength()
    ensures Length("") == 0
  {}

  lemma BoundedIsFitted(kept: string, limit: nat)
    ensures limit >= |TRUNCATION_MARKER| ==> Fitted(kept, limit, BoundUtf8(kept, limit))
  {
    hide BoundUtf8, Length;
    if limit >= |TRUNCATION_MARKER| { BoundedText(kept, limit); }
  }

  /** A persisted delta: the fragment with its hidden characters blanked, then redacted as a whole,
      then bounded by what is left of the budget; one omission mark when nothing is left to show. */
  lemma PersistedDelta(
    settings: Settings, z: Memory, u: Update, credentials: set<int>, blanked: string)
    requires settings.Valid() && z.contentBytes <= settings.textLimit && u.IsDelta()
    requires var text := u.event.body.text;
             Blanks(text, Hidden(settings, z, text, credentials), 0, blanked)
    ensures var (after, safe) := Sanitize(settings, z, u, credentials);
            && safe.IsDelta()
            && safe == Wire(u.event.(body := AssistantDelta(safe.event.body.text)))
            && Kept(settings.redact(blanked), settings.textLimit - z.contentBytes, z.exhausted,
                    safe.event.body.text)
            && after.safeText == z.safeText + safe.event.body.text
  {
    hide BoundFragment, RedactFragment, Blanks, Kept, Mask, SecretPositions;
    var text := u.event.body.text;
    var covered := Hidden(settings, z, text, credentials);
    MaskBlanks(text, covered);
    BlanksAreUnique(text, covered, 0, blanked, Mask(text, covered, |text|));
    FragmentIsKept(settings, z, text, credentials);
    SanitizeShape(settings, z, u, credentials);
  }

  /** How the budget of content bytes moves with a persisted delta. */
  lemma PersistedBudget(
    settings: Settings, z: Memory, u: Update, credentials: set<int>, blanked: string)
    requires settings.Valid() && z.contentBytes <= settings.textLimit && u.IsDelta()
    requires var text := u.event.body.text;
             Blanks(text, Hidden(settings, z, text, credentials), 0, blanked)
    ensures var (after, safe) := Sanitize(settings, z, u, credentials);
            var kept, remaining := settings.redact(blanked), settings.textLimit - z.contentBytes;
            && after.exhausted == (z.exhausted || Length(kept) > remaining)
            && after.contentBytes
               == z.contentBytes
                  + (if z.exhausted then 0
                     else if Length(kept) <= remaining then Length(kept)
                     else if remaining > 11 then Length(safe.event.body.text) else 0)
  {
    hide BoundUtf8, Blanks, Mask, Length, SecretPositions;
    var text := u.event.body.text;
    var covered := Hidden(settings, z, text, credentials);
    MaskBlanks(text, covered);
    BlanksAreUnique(text, covered, 0, blanked, Mask(text, covered, |text|));
    EmptyLength();
  }

  /** Every other update is persisted as it is, with its own long texts redacted and then bounded. */
  lemma PersistedRest(settings: Settings, z: Memory, u: Update, credentials: set<int>)
    requires settings.Valid() && z.contentBytes <= settings.textLimit && !u.IsDelta()
    ensures var (after, safe) := Sanitize(settings, z, u, credentials);
            && after == z
            && (u.TaskSubmitted? ==>
                  && safe.TaskSubmitted? && safe.commandId == u.commandId
                  && Fitted(settings.redact(u.task), settings.textLimit, safe.task))
            && (u.Wire? && u.event.body.SessionFailed? ==>
                  && safe.Wire? && safe.event.body.SessionFailed?
                  && safe.event == u.event.(body := safe.event.body)
                  && safe.event.body.code == u.event.body.code
                  && Fitted(settings.redact(u.event.body.message), settings.textLimit,
                            safe.event.body.message))
            && (u.Wire? && u.event.body.AssistantCompleted? ==>
                  safe == Wire(u.event.(body := AssistantCompleted(
                                          if z.safeText == "" then "~" else z.safeText))))
            && (!u.TaskSubmitted?
                && !(u.Wire? && (u.event.body.SessionFailed? || u.event.body.AssistantCompleted?)) ==>
                  safe == u)
  {
    hide BoundUtf8, Fitted, Length;
    if u.TaskSubmitted? { BoundedIsFitted(settings.redact(u.task), settings.textLimit); }
    if u.Wire? && u.event.body.SessionFailed? {
      BoundedIsFitted(settings.redact(u.event.body.message), settings.textLimit);
    }
  }

  // ----- Hidden characters leave no trace -----

  /** Texts of one length that agree on everything shown. */
  predicate AgreeOff(a: string, b: string, hidden: set<int>) {
    |a| == |b| && forall i :: 0 <= i < |a| && i !in hidden ==> a[i] == b[i]
  }

  lemma {:induction false} BlanksIgnore(a: string, b: string, hidden: set<int>, from: nat, out: string)
    requires AgreeOff(a, b, hidden) && from <= |a| && Blanks(a, hidden, from, out)
    ensures Blanks(b, hidden, from, out)
    decreases |a| - from
  {
    if from == |a| {
    } else if from !in hidden {
      BlanksIgnore(a, b, hidden, from + 1, out[1..]);
    } else if from + 1 < |a| && from + 1 in hidden {
      BlanksIgnore(a, b, hidden, from + 1, out);
    } else {
      BlanksIgnore(a, b, hidden, from + 1, out[|REDACTION_MARKER|..]);
    }
  }

  /** Memories that differ in the raw tail alone. */
  predicate SameButTail(y: Memory, z: Memory) { y == z.(rawTail := y.rawTail) }

  /** Updates that differ in the hidden characters of a delta, or in a completed text, alone. */
  ghost predicate Twin(settings: Settings, y: Memory, a: Item, z: Memory, b: Item) {
    if a.update.IsDelta() then
      && b.update.IsDelta() && b.update == WithBody(a.update, b.update.event.body)
      && var hidden := Hidden(settings, y, a.update.event.body.text, a.credentials);
         && hidden == Hidden(settings, z, b.update.event.body.text, b.credentials)
         && AgreeOff(a.update.event.body.text, b.update.event.body.text, hidden)
    else SameShown(a.update, b.update)
  }

  predicate SameShown(a: Update, b: Update) {
    || a == b
    || (&& a.Wire? && b.Wire? && a.event.body.AssistantCompleted? && b.event.body.AssistantCompleted?
        && b.event == a.event.(body := b.event.body))
  }

  lemma BoundIgnoresTail(limit: nat, y: Memory, z: Memory, value: string)
    requires z.contentBytes <= limit && SameButTail(y, z)
    ensures BoundFragment(limit, y, value).1 == BoundFragment(limit, z, value).1
    ensures SameButTail(BoundFragment(limit, y, value).0, BoundFragment(limit, z, value).0)
  {
    hide BoundUtf8, Length;
  }

  /** One update: hidden characters change nothing that is persisted or remembered, the raw tail
      excepted. */
  lemma HiddenLeavesNoTrace(settings: Settings, y: Memory, a: Item, z: Memory, b: Item)
    requires settings.Valid() && z.contentBytes <= settings.textLimit && SameButTail(y, z)
    requires Twin(settings, y, a, z, b)
    ensures Sanitize(settings, y, a.update, a.credentials).1
            == Sanitize(settings, z, b.update, b.credentials).1
    ensures SameButTail(Sanitize(settings, y, a.update, a.credentials).0,
                        Sanitize(settings, z, b.update, b.credentials).0)
  {
    if a.update.IsDelta() {
      hide Mask, SecretPositions, BoundFragment;
      var s, t := a.update.event.body.text, b.update.event.body.text;
      var hidden := Hidden(settings, y, s, a.credentials);
      SameMask(s, t, hidden);
      BoundIgnoresTail(settings.textLimit,
                       y.(rawTail := LastChars(y.rawTail + s, settings.TailLength())),
                       z.(rawTail := LastChars(z.rawTail + t, settings.TailLength())),
                       settings.redact(Mask(s, hidden, |s|)));
    } else {
      hide BoundUtf8;
    }
  }

  lemma SameMask(a: string, b: string, hidden: set<int>)
    requires AgreeOff(a, b, hidden)
    ensures Mask(a, hidden, |a|) == Mask(b, hidden, |b|)
  {
    MaskBlanks(a, hidden);
    MaskBlanks(b, hidden);
    BlanksIgnore(a, b, hidden, 0, Mask(a, hidden, |a|));
    BlanksAreUnique(b, hidden, 0, Mask(a, hidden, |a|), Mask(b, hidden, |b|));
  }

  /** Whole runs whose updates are twins, each behind its own memory. */
  ghost predicate Twins(settings: Settings, left: seq<Item>, right: seq<Item>)
    requires settings.Valid()
  {
    && |left| == |right|
    && forall i :: 0 <= i < |left| ==>
         Twin(settings, SanitizeAll(settings, left[..i]).0, left[i],
              SanitizeAll(settings, right[..i]).0, right[i])
  }

  lemma TwinsFront(settings: Settings, left: seq<Item>, right: seq<Item>)
    requires settings.Valid() && Twins(settings, left, right) && left != []
    ensures var n := |left| - 1;
            && Twins(settings, left[..n], right[..n])
            && Twin(settings, SanitizeAll(settings, left[..n]).0, left[n],
                    SanitizeAll(settings, right[..n]).0, right[n])
  {
    hide SanitizeAll, Twin;
    var n := |left| - 1;
    forall i | 0 <= i < n
      ensures Twin(settings, SanitizeAll(settings, left[..n][..i]).0, left[..n][i],
                   SanitizeAll(settings, right[..n][..i]).0, right[..n][i])
    {
      assert left[..n][..i] == left[..i] && right[..n][..i] == right[..i];
    }
  }

  lemma {:induction false} TwinsLookAlike(settings: Settings, left: seq<Item>, right: seq<Item>)
    requires settings.Valid() && Twins(settings, left, right)
    ensures SanitizeAll(settings, left).1 == SanitizeAll(settings, right).1
    ensures SameButTail(SanitizeAll(settings, left).0, SanitizeAll(settings, right).0)
    decreases |left|
  {
    hide Sanitize, Twin;
    if left == [] {
    } else {
      var n := |left| - 1;
      TwinsFront(settings, left, right);
      TwinsLookAlike(settings, left[..n], right[..n]);
      HiddenLeavesNoTrace(settings, SanitizeAll(settings, left[..n]).0, left[n],
                          SanitizeAll(settings, right[..n]).0, right[n]);
      hide Twins, SameButTail;
    }
  }

  // ----- The characters of secrets, over whole streams -----

  /** One update of two runs, equal up to what a delta or a completed text says. */
  predicate SameForm(a: Update, b: Update) {
    if a.IsDelta() then
      && b.IsDelta() && b == WithBody(a, b.event.body)
      && |a.event.body.text| == |b.event.body.text|
    else SameShown(a, b)
  }

  function Streamed(items: seq<Item>): string { Lifecycle.DeltaText(Raw(items)) }

  /** Two runs cut alike whose streams differ in characters of secret occurrences alone, and whose
      fragments hide the same positions. */
  ghost predicate DifferInSecrets(settings: Settings, left: seq<Item>, right: seq<Item>)
    requires settings.Valid()
  {
    && |left| == |right|
    && (forall i :: 0 <= i < |left| ==> SameForm(left[i].update, right[i].update))
    && (forall i :: 0 <= i < |left| && left[i].update.IsDelta() && right[i].update.IsDelta() ==>
          Hidden(settings, SanitizeAll(settings, left[..i]).0, left[i].update.event.body.text,
                 left[i].credentials)
          == Hidden(settings, SanitizeAll(settings, right[..i]).0, right[i].update.event.body.text,
                    right[i].credentials))
    && |Streamed(left)| == |Streamed(right)|
    && (forall q :: 0 <= q < |Streamed(left)| && Streamed(left)[q] != Streamed(right)[q] ==>
          exists s :: s in settings.secrets && InOccurrence(Streamed(left), s, q))
  }

  lemma {:induction false} FragmentPlace(items: seq<Item>, i: nat)
    requires i < |items| && items[i].update.IsDelta()
    ensures var before, text := Streamed(items[..i]), items[i].update.event.body.text;
            && |before| + |text| <= |Streamed(items)|
            && Streamed(items)[..|before|] == before
            && Streamed(items)[|before|..|before| + |text|] == text
    decreases |items|
  {
    var n := |items| - 1;
    var raw := Raw(items);
    assert raw[..|raw| - 1] == Raw(items[..n]);
    if i < n {
      FragmentPlace(items[..n], i);
      assert items[..n][..i] == items[..i];
      var whole, front := Streamed(items), Streamed(items[..n]);
      assert whole[..|front|] == front;
      var before, text := Streamed(items[..i]), items[i].update.event.body.text;
      assert whole[..|before|] == front[..|before|];
      assert whole[|before|..|before| + |text|] == front[|before|..|before| + |text|];
    } else {
      assert items[..n] == items[..i];
    }
  }

  lemma {:induction false} SameFormLength(left: seq<Item>, right: seq<Item>)
    requires |left| == |right|
    requires forall i :: 0 <= i < |left| ==> SameForm(left[i].update, right[i].update)
    ensures |Streamed(left)| == |Streamed(right)|
    decreases |left|
  {
    if left != [] {
      var n := |left| - 1;
      SameFormLength(left[..n], right[..n]);
      var a, b := Raw(left), Raw(right);
      assert a[..|a| - 1] == Raw(left[..n]) && b[..|b| - 1] == Raw(right[..n]);
      assert SameForm(left[n].update, right[n].update);
    }
  }

  /** A character that differs is one its fragment hides. */
  lemma DifferingIsHidden(
    settings: Settings, left: seq<Item>, right: seq<Item>, i: nat, p: nat)
    requires settings.Valid() && DifferInSecrets(settings, left, right)
    requires i < |left| && left[i].update.IsDelta() && right[i].update.IsDelta()
    requires |left[i].update.event.body.text| == |right[i].update.event.body.text|
    requires p < |left[i].update.event.body.text|
    requires left[i].update.event.body.text[p] != right[i].update.event.body.text[p]
    ensures p in SecretPositions(settings, SanitizeAll(settings, left[..i]).0,
                                 left[i].update.event.body.text)
  {
    hide Hidden, SanitizeAll, InOccurrence;
    var before, text := Streamed(left[..i]), left[i].update.event.body.text;
    FragmentPlace(left, i);
    FragmentPlace(right, i);
    forall j | 0 <= j < i ensures SameForm(left[..i][j].update, right[..i][j].update) {
      assert left[..i][j] == left[j] && right[..i][j] == right[j];
    }
    SameFormLength(left[..i], right[..i]);
    var q := |before| + p;
    var whole := Streamed(left);
    assert whole[q] == whole[|before|..|before| + |text|][p];
    assert Streamed(right)[q] == Streamed(right)[|before|..|before| + |text|][p];
    var s :| s in settings.secrets && InOccurrence(whole, s, q);
    OccurrenceHidden(settings, left, i, s, q);
  }

  lemma OccurrenceHidden(settings: Settings, items: seq<Item>, i: nat, secret: string, q: nat)
    requires settings.Valid() && secret in settings.secrets
    requires i < |items| && items[i].update.IsDelta()
    requires InOccurrence(Streamed(items), secret, q)
    requires |Streamed(items[..i])| <= q
             < |Streamed(items[..i])| + |items[i].update.event.body.text|
    ensures q - |Streamed(items[..i])|
            in SecretPositions(settings, SanitizeAll(settings, items[..i]).0,
                               items[i].update.event.body.text)
  {
    hide SanitizeAll, SecretPositions;
    var before, text, whole := Streamed(items[..i]), items[i].update.event.body.text, Streamed(items);
    FragmentPlace(items, i);
    var k :| OccursAt(whole, secret, k) && k <= q < k + |secret|;
    var after := whole[|before| + |text|..];
    assert whole == before + text + after;
    SecretsAreCovered(settings, items[..i], items[i].update, after, secret, k, q);
  }

  lemma SecretsAreHidden(settings: Settings, left: seq<Item>, right: seq<Item>)
    requires settings.Valid() && DifferInSecrets(settings, left, right)
    ensures Twins(settings, left, right)
  {
    hide SanitizeAll, SecretPositions, InOccurrence;
    forall i | 0 <= i < |left|
      ensures Twin(settings, SanitizeAll(settings, left[..i]).0, left[i],
                   SanitizeAll(settings, right[..i]).0, right[i])
    {
      assert SameForm(left[i].update, right[i].update);
      if left[i].update.IsDelta() {
        forall p | 0 <= p < |left[i].update.event.body.text|
            && left[i].update.event.body.text[p] != right[i].update.event.body.text[p]
          ensures p in SecretPositions(settings, SanitizeAll(settings, left[..i]).0,
                                       left[i].update.event.body.text)
        {
          DifferingIsHidden(settings, left, right, i, p);
        }
      }
    }
  }

  /** No character of a secret leaves a trace: runs that differ in such characters alone are persisted
      alike, update for update. */
  lemma SecretsLeaveNoTrace(settings: Settings, left: seq<Item>, right: seq<Item>)
    requires settings.Valid() && DifferInSecrets(settings, left, right)
    ensures SanitizeAll(settings, left).1 == SanitizeAll(settings, right).1
  {
    hide SanitizeAll, DifferInSecrets, Twins;
    SecretsAreHidden(settings, left, right);
    TwinsLookAlike(settings, left, right);
  }

  /** The completed text repeats what was persisted: the joined deltas, or one omission mark. */
  lemma {:induction false} CompletedTextIsPersisted(settings: Settings, items: seq<Item>)
    requires settings.Valid()
    ensures SanitizeAll(settings, items).0.safeText
            == Lifecycle.DeltaText(SanitizeAll(settings, items).1)
    decreases |items|
  {
    hide Sanitize;
    if items != [] {
      var n := |items| - 1;
      CompletedTextIsPersisted(settings, items[..n]);
      var (z, done) := SanitizeAll(settings, items[..n]);
      SanitizeShape(settings, z, items[n].update, items[n].credentials);
      var safe := Sanitize(settings, z, items[n].update, items[n].credentials).1;
      assert (done + [safe])[..|done|] == done;
    }
  }
}
