/** The transcript's sanitiser, `_TranscriptSanitizer`: what it may change, and what it keeps. */
module Sanitizer {
  import opened Prelude
  import opened Lifecycle
  import opened Redaction
  import opened Utf8
  import Tape

  const OMISSION_MARKER := "~"
  const STREAM_REDACTION_LOOKBEHIND := 1024

  /** `redact` is `_redact`: whole-value replacement of secrets and credential patterns. */
  datatype Settings = Settings(secrets: seq<string>, textLimit: nat, redact: string -> string)
  {
    predicate Valid() {
      textLimit > |TRUNCATION_MARKER| && forall s :: s in secrets ==> s != ""
    }

    function Bounded(value: string): string
      requires Valid()
    {
      BoundUtf8(redact(value), textLimit)
    }

    /** How much raw text a fragment looks back at. */
    function TailLength(): (n: nat)
      ensures forall s :: s in secrets ==> |s| <= n + 1
    {
      var longest := LongestSecret(secrets);
      if longest - 1 < STREAM_REDACTION_LOOKBEHIND then STREAM_REDACTION_LOOKBEHIND
      else longest - 1
    }
  }

  function LongestSecret(secrets: seq<string>): (n: nat)
    ensures n >= 1 && forall s :: s in secrets ==> |s| <= n
  {
    if secrets == [] then 1
    else
      var rest := LongestSecret(secrets[1..]);
      assert forall s :: s in secrets ==> s == secrets[0] || s in secrets[1..];
      if |secrets[0]| > rest then |secrets[0]| else rest
  }

  datatype Memory = Memory(rawTail: string, safeText: string, contentBytes: nat, exhausted: bool)

  const UNUSED := Memory("", "", 0, false)

  /** The positions of a fragment that exact secrets claim. */
  ghost function SecretPositions(settings: Settings, z: Memory, value: string): set<int> {
    set i | 0 <= i < |value| && ClaimedIn(z.rawTail, value, settings.secrets, i)
  }

  /** `_redact_stream_fragment`; `credentials` are the positions the credential patterns add. */
  ghost function RedactFragment(
    settings: Settings, z: Memory, value: string, credentials: set<int>): string
  {
    settings.redact(Mask(value, SecretPositions(settings, z, value) + credentials, |value|))
  }

  /** `_bounded_assistant_fragment`. */
  function BoundFragment(limit: nat, z: Memory, value: string): (Memory, string)
    requires z.contentBytes <= limit
  {
    if z.exhausted then (z, OMISSION_MARKER)
    else
      var remaining := limit - z.contentBytes;
      if Length(value) <= remaining then
        (z.(contentBytes := z.contentBytes + Length(value)),
         if value == "" then OMISSION_MARKER else value)
      else if remaining > |TRUNCATION_MARKER| then
        var safe := BoundUtf8(value, remaining);
        (z.(contentBytes := z.contentBytes + Length(safe), exhausted := true), safe)
      else (z.(exhausted := true), TRUNCATION_MARKER)
  }

  ghost function SanitizeDelta(settings: Settings, z: Memory, text: string, credentials: set<int>)
    : (Memory, string)
    requires z.contentBytes <= settings.textLimit
  {
    var seen := z.(rawTail := LastChars(z.rawTail + text, settings.TailLength()));
    var (bounded, safe) :=
      BoundFragment(settings.textLimit, seen, RedactFragment(settings, z, text, credentials));
    (bounded.(safeText := z.safeText + safe), safe)
  }

  function WithBody(u: Update, body: Body): Update
    requires u.Wire?
  {
    Wire(u.event.(body := body))
  }

  /** `sanitize_update`. */
  ghost function Sanitize(settings: Settings, z: Memory, u: Update, credentials: set<int>)
    : (Memory, Update)
    requires settings.Valid() && z.contentBytes <= settings.textLimit
  {
    match u
    case TaskSubmitted(commandId, task) => (z, TaskSubmitted(commandId, settings.Bounded(task)))
    case Wire(event) =>
      (match event.body
       case AssistantDelta(text) =>
         var (after, safe) := SanitizeDelta(settings, z, text, credentials);
         (after, WithBody(u, AssistantDelta(safe)))
       case AssistantCompleted(_) =>
         (z, WithBody(u, AssistantCompleted(
                           if z.safeText == "" then OMISSION_MARKER else z.safeText)))
       case SessionFailed(code, message) =>
         (z, WithBody(u, SessionFailed(code, settings.Bounded(message))))
       case _ => (z, u))
    case _ => (z, u)
  }

  // ----- The byte budget -----

  /** Bytes a run of deltas may have persisted: the content, one byte for each omission, and one
      truncation marker. */
  predicate WithinBudget(limit: nat, z: Memory, deltas: nat) {
    && z.contentBytes <= limit
    && Length(z.safeText) <= z.contentBytes + deltas + if z.exhausted then 11 else 0
  }

  lemma BoundFragmentBudget(limit: nat, z: Memory, value: string)
    requires z.contentBytes <= limit
    ensures var (after, safe) := BoundFragment(limit, z, value);
            && after.contentBytes <= limit
            && safe != ""
            && after.rawTail == z.rawTail && after.safeText == z.safeText
            && (z.exhausted ==> after.exhausted)
            && Length(safe) <= after.contentBytes - z.contentBytes + 1
                               + (if after.exhausted && !z.exhausted then 11 else 0)
  {
    hide BoundUtf8;
    MarkerLength();
    AsciiLength(OMISSION_MARKER);
    if !z.exhausted && limit - z.contentBytes > |TRUNCATION_MARKER| {
      BoundedText(value, limit - z.contentBytes);
      LengthPositive(value);
    }
  }

  lemma SanitizeKeepsBudget(
    settings: Settings, z: Memory, u: Update, credentials: set<int>, deltas: nat)
    requires settings.Valid() && WithinBudget(settings.textLimit, z, deltas)
    ensures WithinBudget(settings.textLimit, Sanitize(settings, z, u, credentials).0,
                         deltas + if u.IsDelta() then 1 else 0)
  {
    if u.IsDelta() {
      var text := u.event.body.text;
      var seen := z.(rawTail := LastChars(z.rawTail + text, settings.TailLength()));
      var redacted := RedactFragment(settings, z, text, credentials);
      BoundFragmentBudget(settings.textLimit, seen, redacted);
      var (_, safe) := BoundFragment(settings.textLimit, seen, redacted);
      LengthConcat(z.safeText, safe);
      hide BoundFragment, RedactFragment;
    }
  }

  // ----- Sanitising simulates the live lifecycle -----

  /** The persisted projection stands for the live state. */
  predicate Stands(z: Memory, safe: State, live: State) {
    && Tape.SameLifecycle(safe, live)
    && WellFormed(safe) && WellFormed(live)
    && safe.assistantText == z.safeText
    && (z.safeText == "" <==> live.assistantText == "")
  }

  /** Protocol validation lets no empty assistant text through. */
  predicate NonEmptyText(u: Update) {
    u.Wire? ==>
      match u.event.body
      case AssistantDelta(text) => text != ""
      case AssistantCompleted(text) => text != ""
      case _ => true
  }

  lemma SanitizeShape(settings: Settings, z: Memory, u: Update, credentials: set<int>)
    requires settings.Valid() && z.contentBytes <= settings.textLimit
    ensures var (after, safe) := Sanitize(settings, z, u, credentials);
            && after.contentBytes <= settings.textLimit
            && (u.TaskSubmitted? ==> safe == TaskSubmitted(u.commandId, settings.Bounded(u.task)))
            && (!u.IsDelta() ==> after == z)
            && (u.IsDelta() ==>
                  && safe.IsDelta() && safe == WithBody(u, safe.event.body)
                  && safe.event.body.text != ""
                  && after.safeText == z.safeText + safe.event.body.text)
            && (u.Wire? && !u.IsDelta() ==>
                  && safe.Wire? && safe == WithBody(u, safe.event.body)
                  && match u.event.body {
                       case AssistantCompleted(_) =>
                         safe.event.body
                         == AssistantCompleted(if z.safeText == "" then OMISSION_MARKER
                                               else z.safeText)
                       case SessionFailed(code, message) =>
                         safe.event.body == SessionFailed(code, settings.Bounded(message))
                       case body => safe.event.body == body
                     })
            && (!u.Wire? && !u.TaskSubmitted? ==> safe == u)
  {
    if u.IsDelta() {
      var text := u.event.body.text;
      BoundFragmentBudget(
        settings.textLimit, z.(rawTail := LastChars(z.rawTail + text, settings.TailLength())),
        RedactFragment(settings, z, text, credentials));
    }
    hide BoundFragment, RedactFragment, BoundUtf8;
  }

  /** One accepted update stays acceptable after sanitising, and the states still match. */
  lemma SimulationStep(
    settings: Settings, z: Memory, safe: State, live: State, u: Update, credentials: set<int>)
    requires settings.Valid() && z.contentBytes <= settings.textLimit
    requires Stands(z, safe, live) && NonEmptyText(u) && Reduce(live, u).Accepted?
    ensures var (after, kept) := Sanitize(settings, z, u, credentials);
            && after.contentBytes <= settings.textLimit
            && Reduce(safe, kept).Accepted?
            && Stands(after, Reduce(safe, kept).state, Reduce(live, u).state)
  {
    hide Sanitize;
    SanitizeShape(settings, z, u, credentials);
    var kept := Sanitize(settings, z, u, credentials).1;
    ReduceKeepsWellFormed(safe, kept);
    ReduceKeepsWellFormed(live, u);
  }

  // ----- Whole runs -----

  /** An update and the positions the credential patterns find in it. */
  datatype Item = Item(update: Update, credentials: set<int>)

  function Raw(items: seq<Item>): seq<Update> {
    if items == [] then [] else Raw(items[..|items| - 1]) + [items[|items| - 1].update]
  }

  function CountDeltas(items: seq<Item>): nat {
    if items == [] then 0
    else CountDeltas(items[..|items| - 1]) + if items[|items| - 1].update.IsDelta() then 1 else 0
  }

  ghost function SanitizeAll(settings: Settings, items: seq<Item>): (r: (Memory, seq<Update>))
    requires settings.Valid()
    ensures WithinBudget(settings.textLimit, r.0, CountDeltas(items))
    decreases |items|
  {
    if items == [] then (UNUSED, [])
    else
      var (z, done) := SanitizeAll(settings, items[..|items| - 1]);
      var last := items[|items| - 1];
      SanitizeKeepsBudget(settings, z, last.update, last.credentials,
                          CountDeltas(items[..|items| - 1]));
      var (after, safe) := Sanitize(settings, z, last.update, last.credentials);
      (after, done + [safe])
  }

  /** Sanitising is a simulation: whatever the live reducer accepts is accepted in its sanitised form,
      and the two states agree on everything the transcript compares. */
  lemma {:induction false} SanitizingSimulates(settings: Settings, items: seq<Item>)
    requires settings.Valid()
    requires forall i :: 0 <= i < |items| ==> NonEmptyText(items[i].update)
    requires Replay(INITIAL, Raw(items)).Accepted?
    ensures var (z, safe) := SanitizeAll(settings, items);
            && Replay(INITIAL, safe).Accepted?
            && Stands(z, Replay(INITIAL, safe).state, Replay(INITIAL, Raw(items)).state)
    decreases |items|
  {
    if items != [] {
      var front, last := items[..|items| - 1], items[|items| - 1];
      ReplaySnoc(INITIAL, Raw(front), last.update);
      SanitizingSimulates(settings, front);
      var (z, safe) := SanitizeAll(settings, front);
      var live := Replay(INITIAL, Raw(front)).state;
      SimulationStep(settings, z, Replay(INITIAL, safe).state, live, last.update, last.credentials);
      ReplaySnoc(INITIAL, safe, Sanitize(settings, z, last.update, last.credentials).1);
      hide Sanitize, Reduce, Stands, NonEmptyText;
    }
  }

  /** The remembered tail is always the end of the raw stream. */
  lemma {:induction false} TailIsRecent(settings: Settings, items: seq<Item>)
    requires settings.Valid()
    ensures SanitizeAll(settings, items).0.rawTail
            == LastChars(Lifecycle.DeltaText(Raw(items)), settings.TailLength())
    decreases |items|
  {
    hide BoundFragment, RedactFragment, Sanitize;
    if items != [] {
      var front, last := items[..|items| - 1], items[|items| - 1];
      TailIsRecent(settings, front);
      var raw := Raw(items);
      assert raw[..|raw| - 1] == Raw(front);
      RecentStep(settings, SanitizeAll(settings, front).0, last);
      if last.update.IsDelta() {
        TailOfTail(Lifecycle.DeltaText(Raw(front)), last.update.event.body.text,
                   settings.TailLength());
      }
    }
  }

  lemma RecentStep(settings: Settings, z: Memory, item: Item)
    requires settings.Valid() && z.contentBytes <= settings.textLimit
    ensures Sanitize(settings, z, item.update, item.credentials).0.rawTail
            == if item.update.IsDelta()
               then LastChars(z.rawTail + item.update.event.body.text, settings.TailLength())
               else z.rawTail
  {
    hide BoundFragment, RedactFragment, LastChars;
    if item.update.IsDelta() {
      var text := item.update.event.body.text;
      BoundFragmentBudget(settings.textLimit,
                          z.(rawTail := LastChars(z.rawTail + text, settings.TailLength())),
                          RedactFragment(settings, z, text, item.credentials));
    }
  }

  /** Redaction across delta boundaries: in any stream, however it is cut into deltas, every character
      of every occurrence of every secret is redacted in the delta that carries it. */
  lemma SecretsAreCovered(
    settings: Settings, items: seq<Item>, u: Update, after: string, secret: string, k: int, q: int)
    requires settings.Valid() && secret in settings.secrets && u.IsDelta()
    requires var before := Lifecycle.DeltaText(Raw(items));
             && OccursAt(before + u.event.body.text + after, secret, k)
             && k <= q < k + |secret|
             && |before| <= q < |before| + |u.event.body.text|
    ensures q - |Lifecycle.DeltaText(Raw(items))|
            in SecretPositions(settings, SanitizeAll(settings, items).0, u.event.body.text)
  {
    var before := Lifecycle.DeltaText(Raw(items));
    TailIsRecent(settings, items);
    StreamCoverage(settings.secrets, settings.TailLength(), before, u.event.body.text, after, secret,
                   k, q);
    hide Claimed;
  }
}
