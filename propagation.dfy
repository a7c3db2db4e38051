/** Reading the upstream trace context and the client's sampling flag from the
    propagation headers. */
module Propagation {
  import opened Wrappers
  import opened Http
  import opened NumberUtils

  /** The agent's reserved "no span id" value. */
  const SpanIdNull: int := -1

  /** The sampling-flag value that asks for a request not to be sampled. */
  const SamplingRateFalse: string := "s0"

  /** An upstream trace identifier: transaction id, parent span id and span id
      (64-bit), flags (16-bit). */
  datatype TraceId = TraceId(transactionId: string, parentSpanId: int, spanId: int, flags: int)

  /** `populateTraceIdFromRequest`: no trace id when the transaction-id header is absent;
      otherwise a trace id with that transaction id whose numeric fields come from their
      headers, a missing or malformed span id reading as `SpanIdNull` and missing or
      malformed flags as 0. */
  function PopulateTraceIdFromRequest(headers: Headers): (r: Option<TraceId>)
    ensures r.None? <==> Propagation(TraceIdHeader) !in headers
    ensures r.Some? ==> r.value.transactionId == headers[Propagation(TraceIdHeader)]
    ensures r.Some? ==> InLongRange(r.value.parentSpanId) && InLongRange(r.value.spanId)
                        && InShortRange(r.value.flags)
    ensures r.Some? ==>
              var parent := GetHeaderString(headers, Propagation(ParentSpanIdHeader));
              if IsLongText(parent) then ParseDecimal(parent.value) == Some(r.value.parentSpanId)
              else r.value.parentSpanId == SpanIdNull
    ensures r.Some? ==>
              var span := GetHeaderString(headers, Propagation(SpanIdHeader));
              if IsLongText(span) then ParseDecimal(span.value) == Some(r.value.spanId)
              else r.value.spanId == SpanIdNull
    ensures r.Some? ==>
              var flags := GetHeaderString(headers, Propagation(FlagsHeader));
              if IsShortText(flags) then ParseDecimal(flags.value) == Some(r.value.flags)
              else r.value.flags == 0
  {
    match GetHeaderString(headers, Propagation(TraceIdHeader))
    case None => None
    case Some(transactionId) =>
      var parentSpanId := ParseLong(GetHeaderString(headers, Propagation(ParentSpanIdHeader)), SpanIdNull);
      var spanId := ParseLong(GetHeaderString(headers, Propagation(SpanIdHeader)), SpanIdNull);
      var flags := ParseShort(GetHeaderString(headers, Propagation(FlagsHeader)), 0);
      Some(TraceId(transactionId, parentSpanId, spanId, flags))
  }

  /** The propagation headers an upstream node sends for `id`. */
  function TraceIdHeaders(id: TraceId): Headers {
    map[Propagation(TraceIdHeader) := id.transactionId,
        Propagation(ParentSpanIdHeader) := ShowInt(id.parentSpanId),
        Propagation(SpanIdHeader) := ShowInt(id.spanId),
        Propagation(FlagsHeader) := ShowInt(id.flags)]
  }

  /** Extraction inverts propagation: a trace id whose fields fit their widths is read
      back unchanged, whatever other headers the request carries. */
  lemma PopulateTraceIdRoundTrip(id: TraceId, other: Headers)
    requires InLongRange(id.parentSpanId) && InLongRange(id.spanId) && InShortRange(id.flags)
    ensures PopulateTraceIdFromRequest(other + TraceIdHeaders(id)) == Some(id)
  {
    var headers := other + TraceIdHeaders(id);
    assert GetHeaderString(headers, Propagation(ParentSpanIdHeader)) == Some(ShowInt(id.parentSpanId));
    assert GetHeaderString(headers, Propagation(SpanIdHeader)) == Some(ShowInt(id.spanId));
    assert GetHeaderString(headers, Propagation(FlagsHeader)) == Some(ShowInt(id.flags));
    ParseLongShowInt(id.parentSpanId, SpanIdNull);
    ParseLongShowInt(id.spanId, SpanIdNull);
    ParseShortShowInt(id.flags, 0);
  }

  /** A malformed parent span id degrades to `SpanIdNull`; the trace is still continued. */
  lemma MalformedParentSpanIdExample()
    ensures PopulateTraceIdFromRequest(map[Propagation(TraceIdHeader) := "T1",
                                           Propagation(ParentSpanIdHeader) := "not-a-number"])
            == Some(TraceId("T1", SpanIdNull, SpanIdNull, 0))
  {
    assert ParseDecimal("not-a-number") == None by {
      assert !IsDigit("not-a-number"[0]);
    }
  }

  /** `SamplingFlagUtils.isSamplingFlag`: total on an optional flag; only `s0` disables. */
  predicate IsSamplingFlag(samplingFlag: Option<string>): (r: bool)
    ensures samplingFlag.None? ==> r
    ensures !r <==> samplingFlag == Some(SamplingRateFalse)
  {
    samplingFlag != Some(SamplingRateFalse)
  }

  /** `samplingEnable`: the client's sampling flag; a request without one is sampled. */
  function SamplingEnable(headers: Headers): (r: bool)
    ensures Propagation(SampledHeader) !in headers ==> r
    ensures !r <==> GetHeaderString(headers, Propagation(SampledHeader)) == Some(SamplingRateFalse)
  {
    IsSamplingFlag(GetHeaderString(headers, Propagation(SampledHeader)))
  }
}
