/**
 * The `traceparent` header value of the W3C Trace Context recommendation
 * (section 3.2): `version "-" trace-id "-" parent-id "-" trace-flags`, lower-case
 * hexadecimal fields of 2, 32, 16 and 2 digits.  This is the `Activity.Id` of a span
 * in the W3C id format and the only trace state that crosses the broker.
 */
module TraceContext {
  import opened Wrappers

  type Nibble = x: int | 0 <= x < 16

  /** The identity of a span: its trace id, its own span id and its trace flags. */
  datatype SpanContext = SpanContext(traceId: seq<Nibble>, spanId: seq<Nibble>, flags: seq<Nibble>)

  /** Section 3.2.2.3 and 3.2.2.4: an id of all zeroes is invalid. */
  predicate NonZero(s: seq<Nibble>) {
    exists i :: 0 <= i < |s| && s[i] != 0
  }

  predicate ValidTraceId(t: seq<Nibble>) { |t| == 32 && NonZero(t) }

  predicate ValidSpanId(p: seq<Nibble>) { |p| == 16 && NonZero(p) }

  predicate Valid(c: SpanContext) {
    ValidTraceId(c.traceId) && ValidSpanId(c.spanId) && |c.flags| == 2
  }

  /** The flags of a sampled span (section 3.2.2.5, bit 0 set). */
  const SampledFlags: seq<Nibble> := [0, 1]

  function HexDigit(n: Nibble): (c: char) {
    if n < 10 then ('0' as int + n) as char else ('a' as int + n - 10) as char
  }

  /** The value of a lower-case hexadecimal digit; upper case is not allowed (section 3.2.2.1). */
  function HexValue(c: char): Option<Nibble> {
    if '0' <= c <= '9' then Some(c as int - '0' as int)
    else if 'a' <= c <= 'f' then Some(c as int - 'a' as int + 10)
    else None
  }

  function Hex(s: seq<Nibble>): (r: string)
    ensures |r| == |s|
  {
    seq(|s|, i requires 0 <= i < |s| => HexDigit(s[i]))
  }

  function Unhex(s: string): (r: Option<seq<Nibble>>)
    ensures r.Some? ==> |r.value| == |s|
  {
    if forall i :: 0 <= i < |s| ==> HexValue(s[i]).Some? then
      Some(seq(|s|, i requires 0 <= i < |s| => HexValue(s[i]).value))
    else
      None
  }

  const Version: string := "00"
  const Length := 55

  /** The header value for a span context, in version 00 of the format. */
  function Encode(c: SpanContext): (r: string)
  {
    Version + "-" + Hex(c.traceId) + "-" + Hex(c.spanId) + "-" + Hex(c.flags)
  }

  /**
   * Reads a header value.  Versions other than 00 (and not the invalid ff) are read
   * as section 3.2.4 asks: the first four fields in the version 00 layout, and
   * anything after them must start with a dash.
   */
  function Parse(s: string): (r: Option<SpanContext>)
  {
    if |s| < Length then None
    else
      var version := s[..2];
      if Unhex(version).None? || version == "ff" then None
      else if version == Version && |s| != Length then None
      else if |s| > Length && s[Length] != '-' then None
      else if s[2] != '-' || s[35] != '-' || s[52] != '-' then None
      else
        match (Unhex(s[3..35]), Unhex(s[36..52]), Unhex(s[53..55]))
        case (Some(t), Some(p), Some(f)) =>
          if NonZero(t) && NonZero(p) then Some(SpanContext(t, p, f)) else None
        case _ => None
  }

  lemma UnhexHex(s: seq<Nibble>)
    ensures Unhex(Hex(s)) == Some(s)
  {
    var h := Hex(s);
    assert forall i :: 0 <= i < |h| ==> HexValue(h[i]) == Some(s[i]);
    var v := seq(|h|, i requires 0 <= i < |h| => HexValue(h[i]).value);
    assert v == s;
  }

  lemma HexUnhex(s: string)
    requires Unhex(s).Some?
    ensures Hex(Unhex(s).value) == s
  {
    var v := Unhex(s).value;
    forall i | 0 <= i < |s| ensures Hex(v)[i] == s[i] {
      assert HexValue(s[i]) == Some(v[i]);
    }
  }

  /** The fields of an encoded header value, by position. */
  lemma EncodeFields(c: SpanContext)
    requires Valid(c)
    ensures |Encode(c)| == Length
    ensures Encode(c)[..2] == Version
    ensures Encode(c)[2] == '-' && Encode(c)[35] == '-' && Encode(c)[52] == '-'
    ensures Encode(c)[3..35] == Hex(c.traceId)
    ensures Encode(c)[36..52] == Hex(c.spanId)
    ensures Encode(c)[53..55] == Hex(c.flags)
  {
  }

  /** Round trip: reading an encoded valid span context gives it back. */
  lemma ParseEncode(c: SpanContext)
    requires Valid(c)
    ensures Parse(Encode(c)) == Some(c)
  {
    EncodeFields(c);
    UnhexHex(c.traceId);
    UnhexHex(c.spanId);
    UnhexHex(c.flags);
  }

  /** Whatever is read is a valid span context. */
  lemma ParseValid(s: string)
    requires Parse(s).Some?
    ensures Valid(Parse(s).value)
  {
  }

  /**
   * For a version 00 value the encoding is canonical: it is read as `c` exactly
   * when it is the encoding of the valid context `c`.
   */
  lemma ParseCanonical(s: string, c: SpanContext)
    requires |s| >= 2 && s[..2] == Version
    ensures Parse(s) == Some(c) <==> Valid(c) && s == Encode(c)
  {
    if Parse(s) == Some(c) {
      HexUnhex(s[3..35]);
      HexUnhex(s[36..52]);
      HexUnhex(s[53..55]);
      EncodeFields(c);
      assert s == s[..2] + "-" + s[3..35] + "-" + s[36..52] + "-" + s[53..55];
    }
    if Valid(c) && s == Encode(c) {
      ParseEncode(c);
    }
  }

  /** An encoded header value is ASCII, so its UTF-8 bytes are its characters. */
  lemma EncodeAscii(c: SpanContext)
    ensures forall i :: 0 <= i < |Encode(c)| ==> Encode(c)[i] as int < 0x80
  {
  }
}
