/** UTF-8 (section 3 of RFC 3629) and the bounded prefix kept by the transcript. */
module Utf8 {
  import opened Prelude

  /** Bytes one scalar value takes. */
  function Width(c: char): (n: nat)
    ensures 1 <= n <= 4
  {
    if c as int < 0x80 then 1 else if c as int < 0x800 then 2
    else if c as int < 0x1_0000 then 3 else 4
  }

  /** Bytes a text takes. */
  function Length(s: string): nat {
    if s == "" then 0 else Length(s[..|s| - 1]) + Width(s[|s| - 1])
  }

  lemma {:induction false} LengthConcat(a: string, b: string)
    ensures Length(a + b) == Length(a) + Length(b)
    decreases |b|
  {
    if b == "" {
      assert a + b == a;
    } else {
      assert (a + b)[..|a + b| - 1] == a + b[..|b| - 1];
      LengthConcat(a, b[..|b| - 1]);
    }
  }

  lemma LengthPositive(s: string)
    ensures |s| <= Length(s)
    ensures Length(s) == 0 <==> s == ""
  {
    if s != "" { LengthPositive(s[..|s| - 1]); }
  }

  // ----- Bytes -----

  type byte = n: int | 0 <= n < 256

  /** A continuation byte carrying the six low bits. */
  function Continuation(n: nat): byte { 0x80 + n % 0x40 }

  /** The bytes of one scalar value (section 3 of RFC 3629). */
  function EncodeScalar(c: char): (r: seq<byte>)
    ensures |r| == Width(c)
  {
    var n := c as int;
    var low := n / 0x40;
    var high := low / 0x40;
    if n < 0x80 then [n]
    else if n < 0x800 then [0xC0 + low, Continuation(n)]
    else if n < 0x1_0000 then [0xE0 + high, Continuation(low), Continuation(n)]
    else [0xF0 + high / 0x40, Continuation(high), Continuation(low), Continuation(n)]
  }

  function Encode(s: string): (r: seq<byte>)
    ensures |r| == Length(s)
  {
    if s == "" then [] else Encode(s[..|s| - 1]) + EncodeScalar(s[|s| - 1])
  }

  /** How many bytes a sequence that begins with `lead` has; a continuation byte begins none. */
  function Announced(lead: byte): nat {
    if lead < 0x80 then 1
    else if lead < 0xC0 then 0
    else if lead < 0xE0 then 2
    else if lead < 0xF0 then 3
    else 4
  }

  /** The six bits of a continuation byte. */
  function Six(b: byte): int { b as int - 0x80 }

  function ScalarOf(bytes: seq<byte>): int
    requires 1 <= |bytes| <= 4
  {
    var lead := bytes[0] as int;
    match |bytes|
    case 1 => lead
    case 2 => (lead - 0xC0) * 0x40 + Six(bytes[1])
    case 3 => ((lead - 0xE0) * 0x40 + Six(bytes[1])) * 0x40 + Six(bytes[2])
    case _ =>
      (((lead - 0xF0) * 0x40 + Six(bytes[1])) * 0x40 + Six(bytes[2])) * 0x40 + Six(bytes[3])
  }

  predicate IsScalar(n: int) { 0 <= n < 0xD800 || 0xE000 <= n < 0x11_0000 }

  /** Decodes from the front, dropping what does not form a scalar value. */
  function DecodeIgnore(bytes: seq<byte>): string {
    if bytes == [] then ""
    else
      var width := Announced(bytes[0]);
      if 1 <= width <= |bytes| && IsScalar(ScalarOf(bytes[..width])) then
        [ScalarOf(bytes[..width]) as char] + DecodeIgnore(bytes[width..])
      else DecodeIgnore(bytes[1..])
  }

  lemma ScalarRoundTrip(c: char)
    ensures Announced(EncodeScalar(c)[0]) == Width(c)
    ensures ScalarOf(EncodeScalar(c)) == c as int && IsScalar(c as int)
    ensures forall i :: 1 <= i < Width(c) ==> Announced(EncodeScalar(c)[i]) == 0
  {
    var n := c as int;
    var low := n / 0x40;
    var high := low / 0x40;
    assert n == low * 0x40 + n % 0x40;
    assert low == high * 0x40 + low % 0x40;
    assert high == high / 0x40 * 0x40 + high % 0x40;
  }

  /** The shortest form, as the table in section 3 of RFC 3629 has it. */
  lemma ScalarForm(c: char)
    ensures var n, bytes := c as int, EncodeScalar(c);
            && (forall i :: 1 <= i < |bytes| ==> 0x80 <= bytes[i] <= 0xBF)
            && (n <= 0x7F ==> |bytes| == 1 && bytes[0] == n)
            && (0x80 <= n <= 0x7FF ==>
                  |bytes| == 2 && 0xC2 <= bytes[0] <= 0xDF
                  && n == (bytes[0] as int - 0xC0) * 0x40 + (bytes[1] as int - 0x80))
            && (0x800 <= n <= 0xFFFF ==>
                  |bytes| == 3 && 0xE0 <= bytes[0] <= 0xEF
                  && n == (bytes[0] as int - 0xE0) * 0x1000 + (bytes[1] as int - 0x80) * 0x40
                          + (bytes[2] as int - 0x80))
            && (0x1_0000 <= n ==>
                  |bytes| == 4 && 0xF0 <= bytes[0] <= 0xF4
                  && n == (bytes[0] as int - 0xF0) * 0x4_0000 + (bytes[1] as int - 0x80) * 0x1000
                          + (bytes[2] as int - 0x80) * 0x40 + (bytes[3] as int - 0x80))
  {
    ScalarRoundTrip(c);
  }

  lemma {:induction false} EncodeFront(s: string)
    requires s != ""
    ensures Encode(s) == EncodeScalar(s[0]) + Encode(s[1..])
    ensures Length(s) == Width(s[0]) + Length(s[1..])
  {
    hide EncodeScalar, Width;
    if |s| == 1 {
      assert s[..0] == "" && s[1..] == "";
    } else {
      var front := s[..|s| - 1];
      EncodeFront(front);
      assert front[1..] == s[1..][..|s| - 2];
      assert (EncodeScalar(s[0]) + Encode(front[1..])) + EncodeScalar(s[|s| - 1])
          == EncodeScalar(s[0]) + (Encode(front[1..]) + EncodeScalar(s[|s| - 1]));
    }
  }

  /** How many leading scalar values fit in `n` bytes. */
  function Fit(s: string, n: nat): (k: nat)
    ensures k <= |s|
  {
    if s == "" || Width(s[0]) > n then 0 else 1 + Fit(s[1..], n - Width(s[0]))
  }

  /** `Fit` is the longest prefix within the bytes. */
  lemma {:induction false} FitIsLongest(s: string, n: nat)
    ensures Length(s[..Fit(s, n)]) <= n
    ensures Fit(s, n) < |s| ==> Length(s[..Fit(s, n) + 1]) > n
    decreases |s|
  {
    hide Length, Width;
    if s != "" {
      LengthOne(s);
      if Width(s[0]) <= n {
        var rest, m := s[1..], n - Width(s[0]);
        FitIsLongest(rest, m);
        PrefixFront(s, Fit(rest, m));
        if Fit(rest, m) < |rest| { PrefixFront(s, Fit(rest, m) + 1); }
      }
    } else {
      assert s[..0] == "";
      EmptyLength();
    }
  }

  lemma EmptyLength()
    ensures Length("") == 0
  {}

  lemma LengthOne(s: string)
    requires s != ""
    ensures Length(s[..1]) == Width(s[0]) && Length(s[..0]) == 0
  {
    assert s[..1] == [s[0]] && s[..1][..0] == "" && s[..0] == "";
  }

  lemma PrefixFront(s: string, k: nat)
    requires k < |s|
    ensures Length(s[..k + 1]) == Width(s[0]) + Length(s[1..][..k])
  {
    assert s[..k + 1][1..] == s[1..][..k];
    EncodeFront(s[..k + 1]);
  }

  /** Bytes that begin no sequence are dropped. */
  lemma {:induction false} DropContinuations(bytes: seq<byte>)
    requires forall i :: 0 <= i < |bytes| ==> Announced(bytes[i]) == 0
    ensures DecodeIgnore(bytes) == ""
  {
    if bytes != [] { DropContinuations(bytes[1..]); }
  }

  lemma TruncatedScalar(c: char, n: nat)
    requires n < Width(c)
    ensures DecodeIgnore(EncodeScalar(c)[..n]) == ""
  {
    ScalarRoundTrip(c);
    if n > 0 {
      var bytes := EncodeScalar(c)[..n];
      DropContinuations(bytes[1..]);
    }
  }

  lemma EmptyDecode()
    ensures DecodeIgnore([]) == ""
  {}

  lemma SplitTake(a: seq<byte>, b: seq<byte>, n: nat)
    requires |a| <= n <= |a| + |b|
    ensures (a + b)[..n] == a + b[..n - |a|]
  {}

  lemma DecodeScalarFirst(c: char, rest: seq<byte>)
    ensures DecodeIgnore(EncodeScalar(c) + rest) == [c] + DecodeIgnore(rest)
  {
    ScalarRoundTrip(c);
    var bytes := EncodeScalar(c) + rest;
    assert bytes[..Width(c)] == EncodeScalar(c) && bytes[Width(c)..] == rest;
    hide EncodeScalar, ScalarOf, Width, Announced;
  }

  /** Cutting encoded text anywhere and decoding what is left gives the longest whole prefix. */
  lemma {:induction false} DecodeTruncated(s: string, n: nat)
    requires n <= Length(s)
    ensures DecodeIgnore(Encode(s)[..n]) == s[..Fit(s, n)]
    decreases |s|
  {
    hide EncodeScalar, DecodeIgnore, Width;
    if s == "" {
      EmptyDecode();
    } else {
      EncodeFront(s);
      var w := Width(s[0]);
      if w > n {
        assert Encode(s)[..n] == EncodeScalar(s[0])[..n];
        TruncatedScalar(s[0], n);
      } else {
        DecodeTruncated(s[1..], n - w);
        SplitTake(EncodeScalar(s[0]), Encode(s[1..]), n);
        DecodeScalarFirst(s[0], Encode(s[1..])[..n - w]);
        var k := Fit(s[1..], n - w);
        assert s[..k + 1] == [s[0]] + s[1..][..k];
      }
    }
  }

  lemma PrefixLength(s: string, k: nat)
    requires k <= |s|
    ensures Length(s[..k]) <= Length(s)
  {
    LengthConcat(s[..k], s[k..]);
    assert s[..k] + s[k..] == s;
  }

  /** Decoding inverts encoding. */
  lemma DecodeEncode(s: string)
    ensures DecodeIgnore(Encode(s)) == s
  {
    DecodeTruncated(s, Length(s));
    FitIsLongest(s, Length(s));
    assert Encode(s)[..Length(s)] == Encode(s);
    if Fit(s, Length(s)) < |s| { PrefixLength(s, Fit(s, Length(s)) + 1); }
    assert s[..|s|] == s;
  }

  // ----- The bounded text of the transcript -----

  const TRUNCATION_MARKER := "[TRUNCATED]"

  /** `_bound_utf8`. */
  function BoundUtf8(value: string, limit: nat): string
    requires limit >= |TRUNCATION_MARKER|
  {
    var encoded := Encode(value);
    if |encoded| <= limit then value
    else DecodeIgnore(encoded[..limit - |TRUNCATION_MARKER|]) + TRUNCATION_MARKER
  }

  lemma MarkerLength()
    ensures Length(TRUNCATION_MARKER) == |TRUNCATION_MARKER| == 11
  {
    AsciiLength(TRUNCATION_MARKER);
  }

  lemma {:induction false} AsciiLength(s: string)
    requires forall i :: 0 <= i < |s| ==> s[i] as int < 0x80
    ensures Length(s) == |s|
  {
    if s != "" { AsciiLength(s[..|s| - 1]); }
  }

  /** A bounded text is the value itself, or the longest whole-scalar prefix that leaves room for the
      marker, followed by the marker; either way it is within the limit. */
  lemma BoundedText(value: string, limit: nat)
    requires limit >= |TRUNCATION_MARKER|
    ensures Length(BoundUtf8(value, limit)) <= limit
    ensures Length(value) <= limit ==> BoundUtf8(value, limit) == value
    ensures Length(value) > limit ==>
              exists k :: 0 <= k < |value|
                && BoundUtf8(value, limit) == value[..k] + TRUNCATION_MARKER
                && Length(value[..k]) <= limit - |TRUNCATION_MARKER| < Length(value[..k + 1])
  {
    hide DecodeIgnore, Length, Fit;
    MarkerLength();
    if Length(value) > limit {
      var room := limit - |TRUNCATION_MARKER|;
      DecodeTruncated(value, room);
      FitIsLongest(value, room);
      var k := Fit(value, room);
      assert value[..|value|] == value;
      LengthConcat(value[..k], TRUNCATION_MARKER);
    }
  }
}
