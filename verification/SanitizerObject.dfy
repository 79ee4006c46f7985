/** The sanitiser object of `transcript.py`, updated in place. */
module SanitizerObject {
  import opened Prelude
  import opened Lifecycle
  import opened Redaction
  import opened Utf8
  import opened Sanitizer

  class TranscriptSanitizer {
    const settings: Settings
    var rawAssistantTail: string
    var safeAssistantText: string
    var assistantContentBytes: nat
    var assistantContentExhausted: bool

    ghost function View(): Memory
      reads this
    {
      Memory(rawAssistantTail, safeAssistantText, assistantContentBytes, assistantContentExhausted)
    }

    ghost predicate Valid()
      reads this
    {
      settings.Valid() && assistantContentBytes <= settings.textLimit
    }

    constructor (settings: Settings)
      requires settings.Valid()
      ensures Valid() && this.settings == settings && View() == UNUSED
    {
      this.settings := settings;
      rawAssistantTail, safeAssistantText := "", "";
      assistantContentBytes, assistantContentExhausted := 0, false;
    }

    /** `_redact_stream_fragment`; `credentials` are the ranges the credential patterns add. */
    method RedactStreamFragment(value: string, credentials: seq<Range>) returns (safe: string)
      requires Valid() && Within(credentials, |value|)
      modifies this
      ensures Valid()
      ensures safe == RedactFragment(settings, old(View()), value, Covered(credentials, |value|))
      ensures View() == old(View()).(rawTail := LastChars(old(rawAssistantTail) + value,
                                                          settings.TailLength()))
    {
      hide Claimed, Mask;
      var combined := rawAssistantTail + value;
      var boundary := |rawAssistantTail|;
      var ranges := SecretRanges(combined, boundary, settings.secrets);
      CoversJoin(ranges, credentials);
      assert Covered(ranges + credentials, |value|)
          == SecretPositions(settings, View(), value) + Covered(credentials, |value|);
      var partial := ReplaceRanges(value, ranges + credentials);
      rawAssistantTail := LastChars(combined, settings.TailLength());
      safe := settings.redact(partial);
    }

    /** `_bounded_assistant_fragment`. */
    method BoundedAssistantFragment(value: string) returns (safe: string)
      requires Valid()
      modifies this
      ensures Valid()
      ensures (View(), safe) == BoundFragment(settings.textLimit, old(View()), value)
    {
      hide BoundUtf8;
      if assistantContentExhausted { return OMISSION_MARKER; }
      var remaining := settings.textLimit - assistantContentBytes;
      var encoded := Encode(value);
      if |encoded| <= remaining {
        assistantContentBytes := assistantContentBytes + |encoded|;
        return if value == "" then OMISSION_MARKER else value;
      }
      if remaining > |TRUNCATION_MARKER| {
        safe := BoundUtf8(value, remaining);
        BoundedText(value, remaining);
        assistantContentBytes := assistantContentBytes + |Encode(safe)|;
      } else {
        safe := TRUNCATION_MARKER;
      }
      assistantContentExhausted := true;
    }

    /** `sanitize_update`. */
    method SanitizeUpdate(u: Update, credentials: seq<Range>) returns (safe: Update)
      requires Valid() && (u.IsDelta() ==> Within(credentials, |u.event.body.text|))
      modifies this
      ensures Valid()
      ensures var positions := if u.IsDelta() then Covered(credentials, |u.event.body.text|) else {};
              (View(), safe) == Sanitize(settings, old(View()), u, positions)
    {
      hide RedactFragment, BoundUtf8;
      match u
      case TaskSubmitted(commandId, task) =>
        safe := TaskSubmitted(commandId, settings.Bounded(task));
      case Wire(event) =>
        match event.body {
          case AssistantDelta(text) =>
            var fragment := RedactStreamFragment(text, credentials);
            fragment := BoundedAssistantFragment(fragment);
            safeAssistantText := safeAssistantText + fragment;
            safe := WithBody(u, AssistantDelta(fragment));
          case AssistantCompleted(_) =>
            var completed := if safeAssistantText == "" then OMISSION_MARKER else safeAssistantText;
            safe := WithBody(u, AssistantCompleted(completed));
          case SessionFailed(code, message) =>
            safe := WithBody(u, SessionFailed(code, settings.Bounded(message)));
          case _ =>
            safe := u;
        }
      case _ =>
        safe := u;
    }
  }
}
