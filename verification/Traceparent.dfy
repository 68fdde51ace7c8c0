/** Trace context headers (src/observability.ts): section 3.2 of W3C Trace Context, as far as the
    code follows it. */
module Traceparent {
  import opened Messages
  import opened Text

  datatype Span = Span(traceId: string, spanId: string, parentSpanId: Option<string>, sampled: bool)

  const ZERO_TRACE := "00000000000000000000000000000000"
  const ZERO_SPAN := "0000000000000000"

  /** version-traceid-spanid-flags, in hexadecimal digits of either case. */
  predicate Shaped(s: string) {
    && |s| == 55 && s[2] == '-' && s[35] == '-' && s[52] == '-'
    && AllHex(s[..2]) && AllHex(s[3..35]) && AllHex(s[36..52]) && AllHex(s[53..])
  }

  /** The low bit of the flags byte. */
  predicate Sampled(flags: string)
    requires |flags| == 2 && AllLowerHex(flags)
  {
    (DigitValue(flags[0]) * 16 + DigitValue(flags[1])) % 2 == 1
  }

  function ParseTraceparent(header: string): Option<Span> {
    var s := Trim(header);
    if !Shaped(s) then None
    else
      var version, traceId, spanId, flags := Lower(s[..2]), Lower(s[3..35]), Lower(s[36..52]), Lower(s[53..]);
      if version == "ff" || traceId == ZERO_TRACE || spanId == ZERO_SPAN then None
      else Some(Span(traceId, spanId, None, Sampled(flags)))
  }

  function FormatTraceparent(ctx: Span): string {
    "00-" + ctx.traceId + "-" + ctx.spanId + "-" + (if ctx.sampled then "01" else "00")
  }

  /** A span whose ids can be written in a header. */
  predicate Writable(ctx: Span) {
    && |ctx.traceId| == 32 && AllLowerHex(ctx.traceId) && ctx.traceId != ZERO_TRACE
    && |ctx.spanId| == 16 && AllLowerHex(ctx.spanId) && ctx.spanId != ZERO_SPAN
  }

  lemma ParsedIsWritable(header: string)
    requires ParseTraceparent(header).Some?
    ensures Writable(ParseTraceparent(header).value) && ParseTraceparent(header).value.parentSpanId.None?
  {
  }

  lemma LeftHalf(traceId: string)
    requires |traceId| == 32
    ensures var left := "00-" + traceId + "-";
            |left| == 36 && left[..2] == "00" && left[2] == left[35] == '-' && left[3..35] == traceId
  {
  }

  lemma RightHalf(spanId: string, flags: string)
    requires |spanId| == 16 && |flags| == 2
    ensures var right := spanId + "-" + flags;
            |right| == 19 && right[..16] == spanId && right[16] == '-' && right[17..] == flags
  {
  }

  lemma Halves(left: string, right: string)
    requires |left| == 36 && |right| == 19
    ensures var s := left + right;
            && |s| == 55 && s[..2] == left[..2] && s[2] == left[2] && s[35] == left[35] && s[3..35] == left[3..35]
            && s[36..52] == right[..16] && s[52] == right[16] && s[53..] == right[17..]
  {
  }

  lemma FormattedParts(ctx: Span)
    requires Writable(ctx)
    ensures var s := FormatTraceparent(ctx);
            && |s| == 55 && s[..2] == "00" && s[2] == s[35] == s[52] == '-'
            && s[3..35] == ctx.traceId && s[36..52] == ctx.spanId
            && s[53..] == if ctx.sampled then "01" else "00"
  {
    hide AllLowerHex;
    var flags := if ctx.sampled then "01" else "00";
    var left, right := "00-" + ctx.traceId + "-", ctx.spanId + "-" + flags;
    LeftHalf(ctx.traceId);
    RightHalf(ctx.spanId, flags);
    Halves(left, right);
    assert FormatTraceparent(ctx) == left + right;
  }

  /** s writes down the trace, span and sampling decision of ctx: in digits of either case, under any
      version but ff, with any other flags. */
  predicate Writes(s: string, ctx: Span) {
    && |s| == 55 && s[2] == '-' && s[35] == '-' && s[52] == '-'
    && AllHex(s[..2]) && !SameDigits(s[..2], "ff")
    && SameDigits(s[3..35], ctx.traceId) && ctx.traceId != ZERO_TRACE
    && SameDigits(s[36..52], ctx.spanId) && ctx.spanId != ZERO_SPAN
    && IsHex(s[53]) && IsHex(s[54]) && (ctx.sampled <==> HexValue(s[54]) % 2 == 1)
    && ctx.parentSpanId.None?
  }

  lemma DigitsEqual(c: char)
    requires IsLowerHex(c)
    ensures DigitValue(c) == HexValue(c)
  {
  }

  lemma FlagsRead(flags: string)
    requires |flags| == 2 && AllHex(flags)
    ensures Sampled(Lower(flags)) <==> HexValue(flags[1]) % 2 == 1
  {
    var low := Lower(flags);
    LowerIs(flags, low);
    DigitsEqual(low[1]);
  }

  lemma DigitsAreHex(a: string, b: string)
    requires SameDigits(a, b)
    ensures AllHex(a)
  {
  }

  /** Exactly which headers are read, and as what: those that, but for white space around them, write the
      span down. */
  lemma ParsedIff(pre: string, body: string, post: string, ctx: Span)
    requires AllSpace(pre) && AllSpace(post) && Bare(body)
    ensures ParseTraceparent(pre + body + post) == Some(ctx) <==> Writes(body, ctx)
  {
    TrimIs(pre, body, post);
    if Writes(body, ctx) {
      DigitsAreHex(body[3..35], ctx.traceId);
      DigitsAreHex(body[36..52], ctx.spanId);
      assert body[53..] == [body[53], body[54]];
    }
    if Shaped(body) {
      LowerIs(body[..2], "ff");
      LowerIs(body[3..35], ctx.traceId);
      LowerIs(body[36..52], ctx.spanId);
      FlagsRead(body[53..]);
      assert body[53..][0] == body[53] && body[53..][1] == body[54];
    }
  }

  lemma OwnDigits(s: string)
    requires AllLowerHex(s)
    ensures SameDigits(s, s)
  {
  }

  /** Writing a span and reading it back gives the same trace, span and sampling decision; only
      the parent, which a header does not carry, is lost. */
  lemma FormatParses(ctx: Span)
    requires Writable(ctx)
    ensures ParseTraceparent(FormatTraceparent(ctx)) == Some(ctx.(parentSpanId := None))
  {
    hide ParseTraceparent, FormatTraceparent, AllSpace;
    var s := FormatTraceparent(ctx);
    FormattedParts(ctx);
    OwnDigits(ctx.traceId);
    OwnDigits(ctx.spanId);
    assert s[0] == s[..2][0] && s[53] == s[53..][0] && s[54] == s[53..][1];
    NoSpace();
    ParsedIff("", s, "", ctx.(parentSpanId := None));
    assert "" + s + "" == s;
  }

  lemma NoSpace()
    ensures AllSpace("")
  {
  }

  /** The canonical form of a header: version 00, lower case, no flag but the sampled bit. */
  function Canonical(header: string): Option<string> {
    var span := ParseTraceparent(header);
    if span.None? then None else Some(FormatTraceparent(span.value))
  }

  /** Canonicalising twice is canonicalising once, and what it yields means what the header meant. */
  lemma CanonicalStays(header: string)
    requires Canonical(header).Some?
    ensures var c := Canonical(header).value;
            |c| == 55 && Canonical(c) == Some(c) && ParseTraceparent(c) == ParseTraceparent(header)
  {
    ParsedIsWritable(header);
    FormatParses(ParseTraceparent(header).value);
    FormattedParts(ParseTraceparent(header).value);
  }

  /** randomHex, given what the random source produced. */
  function NonZero(out: string, zero: string): string
    requires |out| == |zero| > 0
  {
    if out == zero then out[..|out| - 1] + "1" else out
  }

  function StartSpan(parent: Option<Span>, newTrace: string, newSpan: string): Span
    requires |newTrace| == 32 && |newSpan| == 16
  {
    var spanId := NonZero(newSpan, ZERO_SPAN);
    if parent.None? then Span(NonZero(newTrace, ZERO_TRACE), spanId, None, true)
    else Span(parent.value.traceId, spanId, Some(parent.value.spanId), parent.value.sampled)
  }

  function ContinueFrom(header: Option<string>, newTrace: string, newSpan: string): Span
    requires |newTrace| == 32 && |newSpan| == 16
  {
    StartSpan(if header.Some? && header.value != "" then ParseTraceparent(header.value) else None, newTrace, newSpan)
  }

  lemma NonZeroIs(out: string, zero: string)
    requires |out| == |zero| > 0 && AllLowerHex(out) && zero[|zero| - 1] == '0'
    ensures var r := NonZero(out, zero); |r| == |zero| && AllLowerHex(r) && r != zero
  {
    var r := NonZero(out, zero);
    if out == zero {
      assert r[|r| - 1] == '1';
      forall c | c in r ensures IsLowerHex(c) { if c != '1' { assert c in out; } }
    }
  }

  /** Continuing a trace: whatever header came in and whatever the random source gives, the new
      span can be written and read back; and if the header was readable, the new span is in the
      same trace with the same sampling decision and names the old span as its parent. */
  lemma ContinuedTrace(header: Option<string>, newTrace: string, newSpan: string)
    requires |newTrace| == 32 && |newSpan| == 16 && AllLowerHex(newTrace) && AllLowerHex(newSpan)
    ensures var ctx := ContinueFrom(header, newTrace, newSpan);
            && Writable(ctx)
            && ParseTraceparent(FormatTraceparent(ctx)) == Some(ctx.(parentSpanId := None))
            && (header.Some? && header.value != "" && ParseTraceparent(header.value).Some? ==>
                  var parent := ParseTraceparent(header.value).value;
                  ctx.traceId == parent.traceId && ctx.sampled == parent.sampled
                    && ctx.parentSpanId == Some(parent.spanId))
  {
    NonZeroIs(newSpan, ZERO_SPAN);
    NonZeroIs(newTrace, ZERO_TRACE);
    if header.Some? && header.value != "" && ParseTraceparent(header.value).Some? { ParsedIsWritable(header.value); }
    FormatParses(ContinueFrom(header, newTrace, newSpan));
  }
}
