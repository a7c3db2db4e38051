# RESTEasy request-dispatch tracing: a Dafny model

This project models the tracing agent's RESTEasy dispatch interceptor,
`RequestDispatcherServiceInterceptor`. Around every dispatched HTTP request it
checks the exclude-URL filter, then the client's sampling flag, then the
propagation headers. From these it continues an upstream trace, starts a new
one, or binds a not-sampled trace that only carries "do not sample" downstream.
For a sampled trace it records the root span: service type, RPC name, end
point, remote address and parent application. After dispatch it records the
bounded query string, the API and the handler's exception. Then it removes the
trace from the current-trace slot, ends the trace block and closes the trace.

Modules, leaf first:

- `Wrappers` (wrappers.dfy): `Option`, `Result`.
- `Text` (text.dfy): `indexOf` and ASCII `equalsIgnoreCase` on `seq<char>`.
- `NumberUtils` (number_utils.dfy): the lenient `parseLong`/`parseShort` and decimal text.
- `StringUtils` (string_utils.dfy): `drop`.
- `Http` (http.dfy): request, headers, query parameters.
- `RemoteAddress` (remote_address.dfy): the `Bypass` and `RealIpHeaderResolver` strategies and how one is chosen.
- `Propagation` (propagation.dfy): `TraceId`, `populateTraceIdFromRequest`, `samplingEnable`.
- `RequestParameters` (request_parameters.dfy): `getRequestParameter`.
- `Tracing` (tracing.dfy): the tracing context as a class. It holds the current-trace slot and an append-only event log of bindings, recorded fields, block begin/end, close and removal.
- `Interceptor` (interceptor.dfy): the interceptor class and the specification functions of `createTrace`, `before` and `after`.

The pure parts of the source are functions: the resolvers, trace-id extraction,
the sampling flag and `extracHostName`. `getRequestParameter` is a method with
a loop that appends to a local buffer. It is proved equal to a specification
function, and lemmas characterise that function. `createTrace`, `before`,
`after` and their helpers are methods on the interceptor class. Each one
changes the `TraceContext` object step by step. Each states its new slot and
log in terms of specification functions, and lemmas about those functions
state the lifecycle guarantees.

Calls into the agent library that are not part of this model:

- `NumberUtils.parseLong`/`parseShort` follow Java's `Long.parseLong`/`Short.parseShort` grammar: an optional sign, then ASCII decimal digits, range-checked. They return the default whenever the text is null, malformed or out of range.
- `StringUtils.drop` keeps the first `limit` characters and appends `...(<length>)`. The contracts rely only on two facts: a short string is unchanged, and a long one starts with its first `limit` characters.
- `SamplingFlagUtils.isSamplingFlag` is a total predicate on an optional string. Only `s0` disables sampling.
- `SpanId.NULL` is -1, and the code of `ServiceType.UNDEFINED` is -1.
- The tracing context's own decisions are inputs (`SamplerAnswer`): whether a continued or new trace can be sampled (`canSampled()`), and whether its span is the root (`isRoot()`).
- The wire names of the propagation headers are opaque keys. They are distinct from each other and from every plainly named header such as `Host`.

Behaviour of the code worth noting:

- The interceptor itself tests the transaction-id header only for null. A present but empty id is passed on to `traceContext.createTraceId`. That call is not part of this model; here it is a total constructor, so an empty id continues a trace.
- `after` acts on whatever trace the slot holds (`currentRawTraceObject`). It does not look up a trace scoped to the request. `Intercept` therefore starts from an empty slot. With a stale trace left in the slot, an excluded request would remove and close that trace.
- A trace whose `canSampled()` is false is removed from the slot and never closed. This holds both for the `disableSampling` handle and for a continued or new trace that the context declines to sample.

## Model

| member | source | states |
|---|---|---|
| `Text.IndexOf` | src/main/java/com/navercorp/pinpoint/plugin/resteasy/interceptor/RequestDispatcherServiceInterceptor.java:139 | -1 exactly when the character is absent; otherwise the index of its first occurrence |
| `Text.EqualsIgnoreCase` | src/main/java/com/navercorp/pinpoint/plugin/resteasy/interceptor/RequestDispatcherServiceInterceptor.java:135 | equal lengths and equal characters up to (ASCII) case, in both directions |
| `Text.SegmentBeforeUnique` | src/main/java/com/navercorp/pinpoint/plugin/resteasy/interceptor/RequestDispatcherServiceInterceptor.java:139-144 | the text before the first separator is determined uniquely by being a separator-free prefix followed by the separator or the end |
| `Text.SegmentBeforeWithoutSeparator` | src/main/java/com/navercorp/pinpoint/plugin/resteasy/interceptor/RequestDispatcherServiceInterceptor.java:140-141 | without a separator, the segment is the whole string |
| `NumberUtils.ParseLong` | src/main/java/com/navercorp/pinpoint/plugin/resteasy/interceptor/RequestDispatcherServiceInterceptor.java:291-292 | the parsed 64-bit value for well-formed in-range text, the default for null, malformed or out-of-range text; never fails |
| `NumberUtils.ParseShort` | src/main/java/com/navercorp/pinpoint/plugin/resteasy/interceptor/RequestDispatcherServiceInterceptor.java:293 | the same for 16-bit values |
| `NumberUtils.ParseShowInt` | src/main/java/com/navercorp/pinpoint/plugin/resteasy/interceptor/RequestDispatcherServiceInterceptor.java:291-293 | parsing the decimal text of any integer gives it back |
| `NumberUtils.ParseLongShowInt` | src/main/java/com/navercorp/pinpoint/plugin/resteasy/interceptor/RequestDispatcherServiceInterceptor.java:291-292 | parseLong reads every 64-bit value back from its text, whatever the default |
| `NumberUtils.ParseShortShowInt` | src/main/java/com/navercorp/pinpoint/plugin/resteasy/interceptor/RequestDispatcherServiceInterceptor.java:237 | parseShort reads every 16-bit value back from its text, whatever the default |
| `StringUtils.Drop` | src/main/java/com/navercorp/pinpoint/plugin/resteasy/interceptor/RequestDispatcherServiceInterceptor.java:329-333 | unchanged within the limit; otherwise longer than the limit and starting with the first `limit` characters |
| `RemoteAddress.NewRealIpHeaderResolver` | src/main/java/com/navercorp/pinpoint/plugin/resteasy/interceptor/RequestDispatcherServiceInterceptor.java:118-124 | fails with a null-pointer error exactly when the header name is null; otherwise keeps the name and the (possibly null) empty value |
| `RemoteAddress.DefaultRealIpHeaderResolver` | src/main/java/com/navercorp/pinpoint/plugin/resteasy/interceptor/RequestDispatcherServiceInterceptor.java:107-116 | the no-argument resolver is the two-argument one with `x-forwarded-for` and `unknown` |
| `RemoteAddress.SelectResolver` | src/main/java/com/navercorp/pinpoint/plugin/resteasy/interceptor/RequestDispatcherServiceInterceptor.java:62-68 | Bypass exactly when the configured header name is absent or empty; otherwise the real-ip resolver with that name and the configured empty value |
| `RemoteAddress.Resolve` | src/main/java/com/navercorp/pinpoint/plugin/resteasy/interceptor/RequestDispatcherServiceInterceptor.java:98-145 | Bypass gives `Host`; the real-ip resolver gives `Host` when its header is missing, empty or the empty value up to case, and otherwise a comma-free prefix of the header that ends at its first comma or its end, untrimmed |
| `RemoteAddress.ResolveWithoutComma` | src/main/java/com/navercorp/pinpoint/plugin/resteasy/interceptor/RequestDispatcherServiceInterceptor.java:139-141 | a present real-ip value without a comma is returned unchanged |
| `RemoteAddress.ResolveIsFirstSegment` | src/main/java/com/navercorp/pinpoint/plugin/resteasy/interceptor/RequestDispatcherServiceInterceptor.java:139-144 | a present real-ip value resolves to exactly its segment before the first comma |
| `RemoteAddress.ResolveFallsBackLikeBypass` | src/main/java/com/navercorp/pinpoint/plugin/resteasy/interceptor/RequestDispatcherServiceInterceptor.java:131-133 | with the real-ip header missing, the real-ip resolver answers as Bypass does |
| `RemoteAddress.ResolveProxyChainExample` | src/main/java/com/navercorp/pinpoint/plugin/resteasy/interceptor/RequestDispatcherServiceInterceptor.java:139-144 | `10.0.0.1, 10.0.0.2` resolves to `10.0.0.1` |
| `RemoteAddress.ResolveEmptyValueExample` | src/main/java/com/navercorp/pinpoint/plugin/resteasy/interceptor/RequestDispatcherServiceInterceptor.java:135-137 | `UNKNOWN` with empty value `unknown` falls back to the `Host` value |
| `Propagation.PopulateTraceIdFromRequest` | src/main/java/com/navercorp/pinpoint/plugin/resteasy/interceptor/RequestDispatcherServiceInterceptor.java:285-303 | none exactly when the transaction-id header is absent; otherwise that transaction id, with span ids parsed or `SpanIdNull` and flags parsed or 0, all within their widths |
| `Propagation.PopulateTraceIdRoundTrip` | src/main/java/com/navercorp/pinpoint/plugin/resteasy/interceptor/RequestDispatcherServiceInterceptor.java:288-295 | the headers an upstream node sends for a trace id are read back to that trace id, whatever other headers are present |
| `Propagation.MalformedParentSpanIdExample` | src/main/java/com/navercorp/pinpoint/plugin/resteasy/interceptor/RequestDispatcherServiceInterceptor.java:291 | a parent span id `not-a-number` degrades to `SpanIdNull` and the trace id is still produced |
| `Propagation.IsSamplingFlag` | src/main/java/com/navercorp/pinpoint/plugin/resteasy/interceptor/RequestDispatcherServiceInterceptor.java:311 | an absent flag allows sampling; sampling is refused exactly for the flag `s0` |
| `Propagation.SamplingEnable` | src/main/java/com/navercorp/pinpoint/plugin/resteasy/interceptor/RequestDispatcherServiceInterceptor.java:305-312 | a request without a sampling flag is sampled; it is not sampled exactly when the flag is `s0` |
| `RequestParameters.GetRequestParameter` | src/main/java/com/navercorp/pinpoint/plugin/resteasy/interceptor/RequestDispatcherServiceInterceptor.java:314-337 | the in-place buffer loop with its early return computes `RequestParameter` |
| `RequestParameters.RequestParameterShape` | src/main/java/com/navercorp/pinpoint/plugin/resteasy/interceptor/RequestDispatcherServiceInterceptor.java:320-336 | no parameters give the empty string; with no overflowing check the result is all entries, each `drop`ped `key=value` (`key=` without a value), joined by single `&`s; otherwise it is the entries before the first check where the text exceeds the total limit, then `&...` once, and nothing after |
| `Tracing.TraceContext.DisableSampling` | src/main/java/com/navercorp/pinpoint/plugin/resteasy/interceptor/RequestDispatcherServiceInterceptor.java:167 | binds a fresh trace that cannot be sampled |
| `Tracing.TraceContext.ContinueTraceObject` | src/main/java/com/navercorp/pinpoint/plugin/resteasy/interceptor/RequestDispatcherServiceInterceptor.java:177 | binds a fresh trace continuing the given trace id |
| `Tracing.TraceContext.NewTraceObject` | src/main/java/com/navercorp/pinpoint/plugin/resteasy/interceptor/RequestDispatcherServiceInterceptor.java:191 | binds a fresh, newly started trace |
| `Tracing.TraceContext.CurrentRawTraceObject` | src/main/java/com/navercorp/pinpoint/plugin/resteasy/interceptor/RequestDispatcherServiceInterceptor.java:248 | the trace in the slot, whether or not it can be sampled |
| `Tracing.TraceContext.RemoveTraceObject` | src/main/java/com/navercorp/pinpoint/plugin/resteasy/interceptor/RequestDispatcherServiceInterceptor.java:274 | empties the slot and logs the removal of the trace it held |
| `Interceptor.ExtractHostName` | src/main/java/com/navercorp/pinpoint/plugin/resteasy/interceptor/RequestDispatcherServiceInterceptor.java:344-350 | the colon-free prefix of `host` up to its first colon; all of `host` without a colon |
| `Interceptor.ParentInfoRecords` | src/main/java/com/navercorp/pinpoint/plugin/resteasy/interceptor/RequestDispatcherServiceInterceptor.java:226-240 | nothing exactly when the parent application name is absent; otherwise the acceptor host (agent host header, else `Host`) and the parent application with its type code, UNDEFINED when the type is missing or malformed |
| `Interceptor.CreateTracePrecedence` | src/main/java/com/navercorp/pinpoint/plugin/resteasy/interceptor/RequestDispatcherServiceInterceptor.java:150-205 | the precedence of `createTrace`: an excluded path gives no trace and no event whatever the headers; a disabling flag gives the not-sampled handle with nothing recorded and no trace id read; otherwise the trace continues the extracted trace id or starts a new one; root-span fields are recorded exactly when the trace can be sampled |
| `Interceptor.Attempted` | src/main/java/com/navercorp/pinpoint/plugin/resteasy/interceptor/RequestDispatcherServiceInterceptor.java:259-272 | an exception in the try block keeps only the recording calls before it |
| `Interceptor.AfterEventsCloseOnce` | src/main/java/com/navercorp/pinpoint/plugin/resteasy/interceptor/RequestDispatcherServiceInterceptor.java:248-276 | for the trace in the slot, `after` removes it once; it ends the block and closes exactly once, last, when the trace is sampled whatever recording throws; when it is not sampled it only removes |
| `Interceptor.BeforeEventsCounts` | src/main/java/com/navercorp/pinpoint/plugin/resteasy/interceptor/RequestDispatcherServiceInterceptor.java:79-89 | `before` begins one block for a sampled trace and none otherwise, and never ends, closes or removes |
| `Interceptor.RequestDispatcherServiceInterceptor.constructor` | src/main/java/com/navercorp/pinpoint/plugin/resteasy/interceptor/RequestDispatcherServiceInterceptor.java:56-71 | keeps the context and descriptor, takes the configured filter, and chooses the resolver by `SelectResolver` |
| `Interceptor.RequestDispatcherServiceInterceptor.Before` | src/main/java/com/navercorp/pinpoint/plugin/resteasy/interceptor/RequestDispatcherServiceInterceptor.java:73-96 | logs the events of `createTrace`, then a block begin with the RESTEasy method service type for a sampled trace only |
| `Interceptor.RequestDispatcherServiceInterceptor.CreateTrace` | src/main/java/com/navercorp/pinpoint/plugin/resteasy/interceptor/RequestDispatcherServiceInterceptor.java:150-205 | returns the trace and logs the events `CreateTraceSpec` gives; binds the trace it creates |
| `Interceptor.RequestDispatcherServiceInterceptor.RecordRootSpan` | src/main/java/com/navercorp/pinpoint/plugin/resteasy/interceptor/RequestDispatcherServiceInterceptor.java:207-224 | records service type, path, `Host`, the resolver's remote address, parent information for a non-root span, and the API, in that order |
| `Interceptor.RequestDispatcherServiceInterceptor.RecordParentInfo` | src/main/java/com/navercorp/pinpoint/plugin/resteasy/interceptor/RequestDispatcherServiceInterceptor.java:226-240 | records `ParentInfoRecords` of the headers |
| `Interceptor.RequestDispatcherServiceInterceptor.After` | src/main/java/com/navercorp/pinpoint/plugin/resteasy/interceptor/RequestDispatcherServiceInterceptor.java:242-277 | always leaves the slot empty; logs `AfterEvents` for the trace the slot held |
| `Interceptor.RequestDispatcherServiceInterceptor.RecordOutcome` | src/main/java/com/navercorp/pinpoint/plugin/resteasy/interceptor/RequestDispatcherServiceInterceptor.java:259-268 | records the non-empty query string (limits 64 and 512), the API and the exception, up to the call that throws |
| `Interceptor.RequestDispatcherServiceInterceptor.DeleteTrace` | src/main/java/com/navercorp/pinpoint/plugin/resteasy/interceptor/RequestDispatcherServiceInterceptor.java:339-342 | ends the block, then closes the trace |
| `Interceptor.RequestEventsCounts` | src/main/java/com/navercorp/pinpoint/plugin/resteasy/interceptor/RequestDispatcherServiceInterceptor.java:73-277 | over one request, `before` then `after`: an excluded request logs nothing; a created trace is removed once; begin, end and close each happen exactly once for a sampled trace and never otherwise; a not-sampled trace logs only its binding and removal |
| `Interceptor.RequestLogCounts` | src/main/java/com/navercorp/pinpoint/plugin/resteasy/interceptor/RequestDispatcherServiceInterceptor.java:73-277 | the counts of one request hold over the whole log when every earlier event belongs to an older trace: removal once, and block begin, end and close once exactly when sampled |
| `Interceptor.RequestDispatcherServiceInterceptor.Intercept` | src/main/java/com/navercorp/pinpoint/plugin/resteasy/interceptor/RequestDispatcherServiceInterceptor.java:73-277 | `before` then `after` from an empty slot logs exactly `RequestEvents` of the `createTrace` outcome and leaves the slot empty again; over the whole tracing-context log, the created trace is removed once and its block begun, ended and closed exactly once when sampled, never otherwise |

## Left out

- Logging and the `isDebug`/`isTrace` guards: they have no effect on behaviour.
- `traceContext.cacheApi(...)` in the constructor: it registers the API descriptor with the agent and has no effect on the per-request logic.
- `RestEasyPlugin.java` (bytecode transformation, callback registration, main-class detection): instrumentation plumbing. `RestEasyConfiguration.java` is not part of this model beyond its three outputs: the exclude filter, the optional real-ip header name and the optional empty value (`RestEasyConfig`).
- The concrete `ExcludePathFilter` matching: the filter is a given predicate on the path. URI parsing is out too: the path is a given string.
- Per-thread binding of the current trace: modelled as one explicit slot of one execution context. Concurrency is not modelled.
- The internals of `TraceContext`, `Trace` and the recorders: they are the abstract slot and event log. The context's sampling and root decisions are inputs. Its behaviour when a trace is created while one is already bound is not modelled (the new one is bound).
- Header lookup: one already-combined string per header name. Case-insensitive header names and the comma-joining of repeated headers are not modelled.
- `Text.EqualsIgnoreCase`: folds only ASCII letters; Java's Unicode case mapping is not modelled.
- `NumberUtils.ParseLong`, `NumberUtils.ParseShort`: accept only ASCII digits; Java's non-ASCII decimal digits are not modelled.
- `StringUtils.Drop`: lengths and the cut are counted in Unicode characters, not in Java's UTF-16 code units. A string with characters outside the Basic Multilingual Plane is cut later than Java cuts it, or not at all, and the marker shows its length in characters.
- `RequestParameters.GetRequestParameter`: the buffer length compared with the total limit is counted in Unicode characters, not UTF-16 code units. With characters outside the Basic Multilingual Plane the loop can stop later than Java's.
- `RequestParameters.RequestParameterShape`: "exceeds the total limit" is measured in Unicode characters, not UTF-16 code units, for the same reason.
- `Propagation.PopulateTraceIdFromRequest`: `traceContext.createTraceId` is modelled as the plain `TraceId` constructor, which is total. Its validation of the transaction id, and any exception it throws, are not modelled.
- Exceptions thrown inside `before`, that is inside `createTrace`, `createTraceId` or the root-span recorders. The model's calls cannot throw there; faults are modelled only in the try block of `after`. One consequence is not captured: if `recordRootSpan` throws after a sampled trace was bound, `before` swallows the exception and never begins a block, yet `after` still ends a block and closes the trace.
- The cast of `args[1]` to `HttpRequest`, the `target` and `result` arguments, and the re-raising of the handler's exception: the interceptor does not act on them. The exception is an input that is recorded.
- The query parameters' key-set iteration order: given as the order of the sequence.
