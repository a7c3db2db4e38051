/** The RESTEasy request-dispatch interceptor: around each dispatched request it decides
    whether to trace, records the root span, and ends and closes the trace afterwards. */
module Interceptor {
  import opened Wrappers
  import opened Http
  import opened Text
  import opened NumberUtils
  import opened RemoteAddress
  import opened Propagation
  import opened RequestParameters
  import opened Tracing

  /** The code of the agent's UNDEFINED service type. */
  const UndefinedServiceTypeCode: int := -1

  /** The bounds `after` passes to `getRequestParameter`. */
  const EachLimit: nat := 64
  const TotalLimit: nat := 512

  /** What the interceptor reads from the plugin configuration: the exclude-URL filter,
      the optional real-ip header name and the optional real-ip empty value. */
  datatype RestEasyConfig = RestEasyConfig(
    excludeUrlFilter: string -> bool,
    realIpHeader: Option<string>,
    realIpEmptyValue: Option<string>)

  /** `extracHostName(host)`: the host part of `hostname:port`, the text before the
      first colon, or all of it when there is no colon. */
  function ExtractHostName(host: string): (r: string)
    ensures IsSegmentBefore(r, host, ':')
    ensures ':' !in host ==> r == host
  {
    var n := IndexOf(host, ':');
    if n != -1 then host[..n] else host
  }

  /** `recordParentInfo`: nothing without a parent application name; otherwise the
      acceptor host (the agent's host header, else `Host`) and the parent application
      with its type code (UNDEFINED when its header is missing or malformed). */
  function ParentInfoRecords(headers: Headers): (r: seq<Record>)
    ensures r == [] <==> Propagation(ParentApplicationNameHeader) !in headers
    ensures r != [] ==> |r| == 2 && r[0].AcceptorHost? && r[1].ParentApplication?
    ensures r != [] ==>
              r[0].host == (if Propagation(PinpointHostHeader) in headers
                            then Some(headers[Propagation(PinpointHostHeader)])
                            else GetHeaderString(headers, Host))
    ensures r != [] ==> r[1].name == headers[Propagation(ParentApplicationNameHeader)]
    ensures r != [] ==>
              var typeHeader := GetHeaderString(headers, Propagation(ParentApplicationTypeHeader));
              if IsShortText(typeHeader) then ParseDecimal(typeHeader.value) == Some(r[1].typeCode)
              else r[1].typeCode == UndefinedServiceTypeCode
  {
    match GetHeaderString(headers, Propagation(ParentApplicationNameHeader))
    case None => []
    case Some(parentApplicationName) =>
      var host := GetHeaderString(headers, Propagation(PinpointHostHeader));
      var acceptor := if host.Some? then host else GetHeaderString(headers, Host);
      var typeCode := ParseShort(GetHeaderString(headers, Propagation(ParentApplicationTypeHeader)), UndefinedServiceTypeCode);
      [AcceptorHost(acceptor), ParentApplication(parentApplicationName, typeCode)]
  }

  /** `recordRootSpan`: what is written through the span recorder of a sampled trace. */
  function RootSpanRecords(resolver: RemoteAddressResolver, request: HttpRequest, isRoot: bool): seq<Record> {
    [ ServiceTypeRecord(RestEasy),
      RpcName(request.path),
      EndPoint(GetHeaderString(request.headers, Host)),
      RemoteAddress(Resolve(resolver, request.headers)) ]
    + (if isRoot then [] else ParentInfoRecords(request.headers))
    + [ApiRecord(RestEasySyncMethod)]
  }

  /** The outcome of `createTrace`: the trace handle it returns and the events it logs. */
  datatype Creation = Creation(trace: Option<Trace>, events: seq<Event>)

  /** `createTrace`, with `id` the id the tracing context gives the next trace object:
      the trace handle it returns and the events it logs. */
  function CreateTraceSpec(excludeUrlFilter: string -> bool, resolver: RemoteAddressResolver,
                           request: HttpRequest, answer: SamplerAnswer, id: nat): Creation
  {
    if excludeUrlFilter(request.path) then Creation(None, [])
    else if !SamplingEnable(request.headers) then
      var t := Trace(id, false, answer.isRoot, SamplingDisabled);
      Creation(Some(t), [Bound(t)])
    else
      var origin := match PopulateTraceIdFromRequest(request.headers)
                    case Some(traceId) => Continued(traceId)
                    case None => Started;
      var t := Trace(id, answer.sampled, answer.isRoot, origin);
      var recorded := if t.sampled then SpanRecords(id, RootSpanRecords(resolver, request, t.isRoot)) else [];
      Creation(Some(t), [Bound(t)] + recorded)
  }

  /** The precedence of `createTrace`: the exclude filter first, then the client's
      sampling flag, then the propagation headers; root-span fields are written exactly
      when the trace can be sampled. */
  lemma CreateTracePrecedence(excludeUrlFilter: string -> bool, resolver: RemoteAddressResolver,
                              request: HttpRequest, answer: SamplerAnswer, id: nat)
    ensures var c := CreateTraceSpec(excludeUrlFilter, resolver, request, answer, id);
            && (excludeUrlFilter(request.path) ==> c == Creation(None, []))
            && (!excludeUrlFilter(request.path) ==>
                  c.trace.Some? && c.trace.value.id == id && |c.events| >= 1 && c.events[0] == Bound(c.trace.value))
            && (!excludeUrlFilter(request.path) && !SamplingEnable(request.headers) ==>
                  c.trace == Some(Trace(id, false, answer.isRoot, SamplingDisabled)) && c.events == [Bound(c.trace.value)])
            && (!excludeUrlFilter(request.path) && SamplingEnable(request.headers) ==>
                  c.trace.value.sampled == answer.sampled && c.trace.value.isRoot == answer.isRoot &&
                  c.trace.value.origin == (match PopulateTraceIdFromRequest(request.headers)
                                           case Some(traceId) => Continued(traceId)
                                           case None => Started))
            && (c.trace.Some? && c.trace.value.sampled ==>
                  c.events == [Bound(c.trace.value)] + SpanRecords(id, RootSpanRecords(resolver, request, c.trace.value.isRoot)))
            && (c.trace.Some? && !c.trace.value.sampled ==> c.events == [Bound(c.trace.value)])
  {
  }

  /** The events of `before`: `createTrace`, then for a sampled trace a block begun with
      the RESTEasy method service type. */
  function BeforeEvents(c: Creation): seq<Event> {
    c.events +
    (if c.trace.Some? && c.trace.value.sampled
     then [BlockBegun(c.trace.value.id), SpanEventRecorded(c.trace.value.id, ServiceTypeRecord(RestEasyMethod))]
     else [])
  }

  /** What the try block of `after` writes through the span-event recorder, in order. */
  function AfterRecords(request: HttpRequest, methodDescriptor: MethodDescriptor, throwable: Option<Throwable>): seq<Record> {
    var parameters := RequestParameter(request.queryParameters, EachLimit, TotalLimit);
    (if |parameters| > 0 then [Attribute(HttpParam, parameters)] else [])
    + [ApiRecord(methodDescriptor), ExceptionRecord(throwable)]
  }

  /** The recording calls that complete when the call at index `fault` (if any) throws. */
  function Attempted(records: seq<Record>, fault: Option<nat>): (r: seq<Record>)
    ensures r <= records
    ensures fault.None? ==> r == records
    ensures fault.Some? && fault.value < |records| ==> |r| == fault.value
    ensures fault.Some? && fault.value >= |records| ==> r == records
  {
    if fault.Some? && fault.value < |records| then records[..fault.value] else records
  }

  /** The events of `after` for the trace in the slot: nothing without one; only its
      removal when it is not sampled; otherwise the recording calls that complete, then,
      whatever they did, removal, block end and close. */
  function AfterEvents(current: Option<Trace>, records: seq<Record>, fault: Option<nat>): seq<Event> {
    match current
    case None => []
    case Some(t) =>
      if !t.sampled then [Removed(t.id)]
      else SpanEventRecords(t.id, Attempted(records, fault)) + [Removed(t.id), BlockEnded(t.id), Closed(t.id)]
  }

  /** `after` ends the block and closes the trace in the slot exactly once when it is
      sampled and never when it is not, removes it exactly once, and records nothing
      through a trace that is not sampled. */
  lemma AfterEventsCloseOnce(t: Trace, records: seq<Record>, fault: Option<nat>)
    ensures var r := AfterEvents(Some(t), records, fault);
            && CountOf(r, Removed(t.id)) == 1
            && CountOf(r, BlockEnded(t.id)) == (if t.sampled then 1 else 0)
            && CountOf(r, Closed(t.id)) == (if t.sampled then 1 else 0)
            && CountOf(r, BlockBegun(t.id)) == 0
            && (!t.sampled ==> r == [Removed(t.id)])
            && (t.sampled ==> r[|r| - 3..] == [Removed(t.id), BlockEnded(t.id), Closed(t.id)])
  {
    if t.sampled {
      var recorded := SpanEventRecords(t.id, Attempted(records, fault));
      var tail := [Removed(t.id), BlockEnded(t.id), Closed(t.id)];
      assert AfterEvents(Some(t), records, fault) == recorded + tail;
      forall e | e in tail || e == BlockBegun(t.id)
        ensures CountOf(recorded + tail, e) == (if e in tail then 1 else 0)
      {
        CountOfAbsent(recorded, e);
        CountOfConcat(recorded, tail, e);
        CountOfThree(Removed(t.id), BlockEnded(t.id), Closed(t.id), e);
      }
    }
  }

  /** `before` logs one binding; for a sampled trace one block begin and no end, close or
      removal; for a trace that is not sampled nothing else at all. */
  lemma BeforeEventsCounts(c: Creation, resolver: RemoteAddressResolver, request: HttpRequest)
    requires c.trace.Some? && |c.events| >= 1 && c.events[0] == Bound(c.trace.value)
    requires c.trace.value.sampled ==>
               c.events == [Bound(c.trace.value)] + SpanRecords(c.trace.value.id, RootSpanRecords(resolver, request, c.trace.value.isRoot))
    requires !c.trace.value.sampled ==> c.events == [Bound(c.trace.value)]
    ensures var t := c.trace.value;
            var r := BeforeEvents(c);
            && CountOf(r, BlockBegun(t.id)) == (if t.sampled then 1 else 0)
            && CountOf(r, BlockEnded(t.id)) == 0
            && CountOf(r, Closed(t.id)) == 0
            && CountOf(r, Removed(t.id)) == 0
            && (!t.sampled ==> r == [Bound(t)])
  {
    var t := c.trace.value;
    var r := BeforeEvents(c);
    forall e | e in [BlockBegun(t.id), BlockEnded(t.id), Closed(t.id), Removed(t.id)]
      ensures CountOf(r, e) == (if e == BlockBegun(t.id) && t.sampled then 1 else 0)
    {
      CountOfCons(Bound(t), [], e);
      if t.sampled {
        var spans := SpanRecords(t.id, RootSpanRecords(resolver, request, t.isRoot));
        var block := [BlockBegun(t.id), SpanEventRecorded(t.id, ServiceTypeRecord(RestEasyMethod))];
        assert r == ([Bound(t)] + spans) + block;
        CountOfAbsent(spans, e);
        CountOfConcat([Bound(t)], spans, e);
        CountOfConcat([Bound(t)] + spans, block, e);
        CountOfCons(block[0], [block[1]], e);
        CountOfCons(block[1], [], e);
      }
    }
  }

  /** The events of one request: `before`'s, then `after`'s for the trace `before` bound. */
  function RequestEvents(c: Creation, records: seq<Record>, fault: Option<nat>): seq<Event> {
    BeforeEvents(c) + AfterEvents(c.trace, records, fault)
  }

  /** Over one request, an excluded one logs nothing; a created trace is removed once, and
      its block is begun, ended and closed exactly once when it is sampled and never when it
      is not; one that is not sampled logs only its binding and its removal. */
  lemma RequestEventsCounts(excludeUrlFilter: string -> bool, resolver: RemoteAddressResolver, request: HttpRequest,
                            answer: SamplerAnswer, id: nat, records: seq<Record>, fault: Option<nat>)
    ensures var c := CreateTraceSpec(excludeUrlFilter, resolver, request, answer, id);
            var events := RequestEvents(c, records, fault);
            && (c.trace.None? ==> events == [])
            && (c.trace.Some? ==>
                  var t := c.trace.value;
                  && CountOf(events, Removed(t.id)) == 1
                  && CountOf(events, BlockBegun(t.id)) == (if t.sampled then 1 else 0)
                  && CountOf(events, BlockEnded(t.id)) == (if t.sampled then 1 else 0)
                  && CountOf(events, Closed(t.id)) == (if t.sampled then 1 else 0)
                  && (!t.sampled ==> events == [Bound(t), Removed(t.id)]))
  {
    var c := CreateTraceSpec(excludeUrlFilter, resolver, request, answer, id);
    CreateTracePrecedence(excludeUrlFilter, resolver, request, answer, id);
    if c.trace.Some? {
      var t := c.trace.value;
      BeforeEventsCounts(c, resolver, request);
      AfterEventsCloseOnce(t, records, fault);
      var before := BeforeEvents(c);
      var after := AfterEvents(c.trace, records, fault);
      CountOfConcat(before, after, Removed(t.id));
      CountOfConcat(before, after, BlockBegun(t.id));
      CountOfConcat(before, after, BlockEnded(t.id));
      CountOfConcat(before, after, Closed(t.id));
    }
  }

  /** Over a whole log whose earlier events all belong to older traces, the trace one
      request creates is removed once, and its block is begun, ended and closed exactly
      once when it is sampled and never when it is not. */
  lemma RequestLogCounts(log: seq<Event>, excludeUrlFilter: string -> bool, resolver: RemoteAddressResolver,
                         request: HttpRequest, answer: SamplerAnswer, id: nat, records: seq<Record>, fault: Option<nat>)
    requires forall i :: 0 <= i < |log| ==> log[i].Owner() < id
    ensures var c := CreateTraceSpec(excludeUrlFilter, resolver, request, answer, id);
            var whole := log + RequestEvents(c, records, fault);
            && (c.trace.None? ==> whole == log)
            && (c.trace.Some? ==>
                  var t := c.trace.value;
                  && CountOf(whole, Removed(t.id)) == 1
                  && CountOf(whole, BlockBegun(t.id)) == (if t.sampled then 1 else 0)
                  && CountOf(whole, BlockEnded(t.id)) == (if t.sampled then 1 else 0)
                  && CountOf(whole, Closed(t.id)) == (if t.sampled then 1 else 0))
  {
    var c := CreateTraceSpec(excludeUrlFilter, resolver, request, answer, id);
    var events := RequestEvents(c, records, fault);
    RequestEventsCounts(excludeUrlFilter, resolver, request, answer, id, records, fault);
    CreateTracePrecedence(excludeUrlFilter, resolver, request, answer, id);
    if c.trace.None? {
      assert log + events == log;
    } else {
      var t := c.trace.value;
      CountOfFresh(log, events, Removed(t.id), id);
      CountOfFresh(log, events, BlockBegun(t.id), id);
      CountOfFresh(log, events, BlockEnded(t.id), id);
      CountOfFresh(log, events, Closed(t.id), id);
    }
  }

  class RequestDispatcherServiceInterceptor {
    const excludeUrlFilter: string -> bool
    const remoteAddressResolver: RemoteAddressResolver
    const methodDescriptor: MethodDescriptor
    const traceContext: TraceContext

    /** Takes the filter and the resolver from the configuration; the resolver is Bypass
        exactly when no real-ip header name is configured. */
    constructor (traceContext: TraceContext, descriptor: MethodDescriptor, config: RestEasyConfig)
      ensures this.traceContext == traceContext && this.methodDescriptor == descriptor
      ensures this.excludeUrlFilter == config.excludeUrlFilter
      ensures this.remoteAddressResolver == SelectResolver(config.realIpHeader, config.realIpEmptyValue)
    {
      this.traceContext := traceContext;
      this.methodDescriptor := descriptor;
      this.excludeUrlFilter := config.excludeUrlFilter;
      this.remoteAddressResolver := SelectResolver(config.realIpHeader, config.realIpEmptyValue);
    }

    /** `before`: creates the trace and, for a sampled one, begins a trace block. */
    method Before(request: HttpRequest, answer: SamplerAnswer)
      requires traceContext.Valid()
      modifies traceContext
      ensures traceContext.Valid()
      ensures var c := CreateTraceSpec(excludeUrlFilter, remoteAddressResolver, request, answer, old(traceContext.nextId));
              && traceContext.log == old(traceContext.log) + BeforeEvents(c)
              && traceContext.current == (if c.trace.Some? then c.trace else old(traceContext.current))
              && traceContext.nextId == old(traceContext.nextId) + (if c.trace.Some? then 1 else 0)
    {
      ghost var start := traceContext.log;
      var trace := CreateTrace(request, answer);
      if trace.None? {
        return;
      }
      if !trace.value.sampled {
        return;
      }
      ghost var created := traceContext.log;
      var begun := BlockBegun(trace.value.id);
      var serviceType := SpanEventRecorded(trace.value.id, ServiceTypeRecord(RestEasyMethod));
      traceContext.Emit(begun);
      traceContext.Emit(serviceType);
      AppendEvents(created, [begun], [serviceType]);
      AppendEvents(start, created[|start|..], [begun] + [serviceType]);
      assert created == start + created[|start|..];
    }

    /** `createTrace`. */
    method CreateTrace(request: HttpRequest, answer: SamplerAnswer) returns (trace: Option<Trace>)
      requires traceContext.Valid()
      modifies traceContext
      ensures traceContext.Valid()
      ensures var c := CreateTraceSpec(excludeUrlFilter, remoteAddressResolver, request, answer, old(traceContext.nextId));
              && trace == c.trace
              && traceContext.log == old(traceContext.log) + c.events
              && traceContext.current == (if c.trace.Some? then c.trace else old(traceContext.current))
              && traceContext.nextId == old(traceContext.nextId) + (if c.trace.Some? then 1 else 0)
    {
      ghost var c := CreateTraceSpec(excludeUrlFilter, remoteAddressResolver, request, answer, traceContext.nextId);
      if excludeUrlFilter(request.path) {
        return None;
      }
      var sampling := SamplingEnable(request.headers);
      if !sampling {
        var t := traceContext.DisableSampling(answer);
        return Some(t);
      }
      var traceId := PopulateTraceIdFromRequest(request.headers);
      var t;
      if traceId.Some? {
        t := traceContext.ContinueTraceObject(traceId.value, answer);
      } else {
        t := traceContext.NewTraceObject(answer);
      }
      assert c.trace == Some(t);
      if t.sampled {
        ghost var start := old(traceContext.log);
        RecordRootSpan(t, request);
        AppendEvents(start, [Bound(t)], SpanRecords(t.id, RootSpanRecords(remoteAddressResolver, request, t.isRoot)));
      }
      return Some(t);
    }

    /** `recordRootSpan`. */
    method RecordRootSpan(t: Trace, request: HttpRequest)
      requires traceContext.Valid() && t.id < traceContext.nextId
      modifies traceContext
      ensures traceContext.Valid()
      ensures traceContext.current == old(traceContext.current) && traceContext.nextId == old(traceContext.nextId)
      ensures traceContext.log == old(traceContext.log) + SpanRecords(t.id, RootSpanRecords(remoteAddressResolver, request, t.isRoot))
    {
      ghost var start := traceContext.log;
      traceContext.Emit(SpanRecorded(t.id, ServiceTypeRecord(RestEasy)));
      traceContext.Emit(SpanRecorded(t.id, RpcName(request.path)));
      var endPoint := GetHeaderString(request.headers, Host);
      traceContext.Emit(SpanRecorded(t.id, EndPoint(endPoint)));
      var remoteAddr := Resolve(remoteAddressResolver, request.headers);
      traceContext.Emit(SpanRecorded(t.id, RemoteAddress(remoteAddr)));
      ghost var first := [ServiceTypeRecord(RestEasy), RpcName(request.path), EndPoint(endPoint), RemoteAddress(remoteAddr)];
      assert traceContext.log == start + SpanRecords(t.id, first);
      if !t.isRoot {
        RecordParentInfo(t, request);
      }
      ghost var parent := if t.isRoot then [] else ParentInfoRecords(request.headers);
      SpanRecordsConcat(t.id, first, parent);
      AppendEvents(start, SpanRecords(t.id, first), SpanRecords(t.id, parent));
      traceContext.Emit(SpanRecorded(t.id, ApiRecord(RestEasySyncMethod)));
      SpanRecordsSnoc(t.id, first + parent, ApiRecord(RestEasySyncMethod));
      AppendEvents(start, SpanRecords(t.id, first + parent), [SpanRecorded(t.id, ApiRecord(RestEasySyncMethod))]);
    }

    /** `recordParentInfo`. */
    method RecordParentInfo(t: Trace, request: HttpRequest)
      requires traceContext.Valid() && t.id < traceContext.nextId
      modifies traceContext
      ensures traceContext.Valid()
      ensures traceContext.current == old(traceContext.current) && traceContext.nextId == old(traceContext.nextId)
      ensures traceContext.log == old(traceContext.log) + SpanRecords(t.id, ParentInfoRecords(request.headers))
    {
      var headers := request.headers;
      var parentApplicationName := GetHeaderString(headers, Propagation(ParentApplicationNameHeader));
      if parentApplicationName.Some? {
        var host := GetHeaderString(headers, Propagation(PinpointHostHeader));
        var acceptor;
        if host.Some? {
          acceptor := AcceptorHost(host);
        } else {
          acceptor := AcceptorHost(GetHeaderString(headers, Host));
        }
        traceContext.Emit(SpanRecorded(t.id, acceptor));
        var typeHeader := GetHeaderString(headers, Propagation(ParentApplicationTypeHeader));
        var parentApplicationType := ParseShort(typeHeader, UndefinedServiceTypeCode);
        var parent := ParentApplication(parentApplicationName.value, parentApplicationType);
        traceContext.Emit(SpanRecorded(t.id, parent));
        assert ParentInfoRecords(headers) == [acceptor, parent];
      }
    }

    /** `after`: for the trace in the slot, records the query string, the API and the
        handler's exception; an exception thrown by the recording call at index `fault`
        abandons the rest, and the finally block still removes, ends and closes. */
    method After(request: HttpRequest, throwable: Option<Throwable>, fault: Option<nat>)
      requires traceContext.Valid()
      modifies traceContext
      ensures traceContext.Valid()
      ensures traceContext.current == None && traceContext.nextId == old(traceContext.nextId)
      ensures traceContext.log == old(traceContext.log)
                + AfterEvents(old(traceContext.current), AfterRecords(request, methodDescriptor, throwable), fault)
    {
      var trace := traceContext.CurrentRawTraceObject();
      if trace.None? {
        return;
      }
      var t := trace.value;
      if !t.sampled {
        traceContext.RemoveTraceObject();
        return;
      }
      ghost var start := traceContext.log;
      // try
      RecordOutcome(t, request, throwable, fault);
      ghost var recorded := SpanEventRecords(t.id, Attempted(AfterRecords(request, methodDescriptor, throwable), fault));
      // finally
      traceContext.RemoveTraceObject();
      DeleteTrace(t);
      AppendEvents(start + recorded, [Removed(t.id)], [BlockEnded(t.id), Closed(t.id)]);
      AppendEvents(start, recorded, [Removed(t.id)] + [BlockEnded(t.id), Closed(t.id)]);
    }

    /** The try block of `after`: the query string when it is not empty, the API, and the
        handler's exception, through the current span-event recorder; the recording call
        at index `fault`, if any, throws and abandons the rest. */
    method RecordOutcome(t: Trace, request: HttpRequest, throwable: Option<Throwable>, fault: Option<nat>)
      requires traceContext.Valid() && t.id < traceContext.nextId
      modifies traceContext
      ensures traceContext.Valid()
      ensures traceContext.current == old(traceContext.current) && traceContext.nextId == old(traceContext.nextId)
      ensures traceContext.log == old(traceContext.log)
                + SpanEventRecords(t.id, Attempted(AfterRecords(request, methodDescriptor, throwable), fault))
    {
      var parameters := GetRequestParameter(request.queryParameters, EachLimit, TotalLimit);
      ghost var records := AfterRecords(request, methodDescriptor, throwable);
      ghost var start := traceContext.log;
      var calls := 0;
      if |parameters| > 0 {
        if fault == Some(calls) {
          return;
        }
        var attribute := Attribute(HttpParam, parameters);
        traceContext.Emit(SpanEventRecorded(t.id, attribute));
        SpanEventRecordsSnoc(t.id, [], attribute);
        AppendEvents(start, [], [SpanEventRecorded(t.id, attribute)]);
        calls := calls + 1;
      }
      assert records[..calls] == (if |parameters| > 0 then [Attribute(HttpParam, parameters)] else []);
      assert traceContext.log == start + SpanEventRecords(t.id, records[..calls]);
      if fault == Some(calls) {
        return;
      }
      traceContext.Emit(SpanEventRecorded(t.id, ApiRecord(methodDescriptor)));
      SpanEventRecordsSnoc(t.id, records[..calls], ApiRecord(methodDescriptor));
      AppendEvents(start, SpanEventRecords(t.id, records[..calls]), [SpanEventRecorded(t.id, ApiRecord(methodDescriptor))]);
      assert records[..calls + 1] == records[..calls] + [ApiRecord(methodDescriptor)];
      calls := calls + 1;
      if fault == Some(calls) {
        return;
      }
      traceContext.Emit(SpanEventRecorded(t.id, ExceptionRecord(throwable)));
      SpanEventRecordsSnoc(t.id, records[..calls], ExceptionRecord(throwable));
      AppendEvents(start, SpanEventRecords(t.id, records[..calls]), [SpanEventRecorded(t.id, ExceptionRecord(throwable))]);
      assert records == records[..calls] + [ExceptionRecord(throwable)];
    }

    /** `deleteTrace`: ends the trace block, then closes the trace. */
    method DeleteTrace(t: Trace)
      requires traceContext.Valid() && t.id < traceContext.nextId
      modifies traceContext
      ensures traceContext.Valid()
      ensures traceContext.current == old(traceContext.current) && traceContext.nextId == old(traceContext.nextId)
      ensures traceContext.log == old(traceContext.log) + [BlockEnded(t.id), Closed(t.id)]
    {
      ghost var start := traceContext.log;
      traceContext.Emit(BlockEnded(t.id));
      traceContext.Emit(Closed(t.id));
      AppendEvents(start, [BlockEnded(t.id)], [Closed(t.id)]);
    }

    /** One intercepted request as the agent drives it: `before`, the handler, `after`,
        from an empty slot. It logs `RequestEvents` (counted by `RequestEventsCounts`)
        and leaves the slot empty again; since every earlier event belongs to an older
        trace, the counts hold over the whole log. */
    method Intercept(request: HttpRequest, answer: SamplerAnswer, throwable: Option<Throwable>, fault: Option<nat>)
      requires traceContext.Valid() && traceContext.current == None
      modifies traceContext
      ensures traceContext.Valid() && traceContext.current == None
      ensures var c := CreateTraceSpec(excludeUrlFilter, remoteAddressResolver, request, answer, old(traceContext.nextId));
              && traceContext.log == old(traceContext.log) + RequestEvents(c, AfterRecords(request, methodDescriptor, throwable), fault)
              && traceContext.nextId == old(traceContext.nextId) + (if c.trace.Some? then 1 else 0)
    ensures var c := CreateTraceSpec(excludeUrlFilter, remoteAddressResolver, request, answer, old(traceContext.nextId));
            c.trace.Some? ==>
              var t := c.trace.value;
              && CountOf(traceContext.log, Removed(t.id)) == 1
              && CountOf(traceContext.log, BlockBegun(t.id)) == (if t.sampled then 1 else 0)
              && CountOf(traceContext.log, BlockEnded(t.id)) == (if t.sampled then 1 else 0)
              && CountOf(traceContext.log, Closed(t.id)) == (if t.sampled then 1 else 0)
    {
      ghost var c := CreateTraceSpec(excludeUrlFilter, remoteAddressResolver, request, answer, traceContext.nextId);
      ghost var start := traceContext.log;
      ghost var id := traceContext.nextId;
      Before(request, answer);
      assert traceContext.current == c.trace;
      ghost var before := traceContext.log;
      After(request, throwable, fault);
      ghost var records := AfterRecords(request, methodDescriptor, throwable);
      AppendEvents(start, BeforeEvents(c), AfterEvents(c.trace, records, fault));
      RequestLogCounts(start, excludeUrlFilter, remoteAddressResolver, request, answer, id, records, fault);
    }
  }
}
