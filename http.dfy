/** The parts of an inbound RESTEasy request the interceptor reads. */
module Http {
  import opened Wrappers

  /** The agent's propagation headers. Their wire names are not part of this model:
      they are distinct keys, distinct from every plainly named header. */
  datatype PropagationHeader =
    | TraceIdHeader
    | ParentSpanIdHeader
    | SpanIdHeader
    | FlagsHeader
    | SampledHeader
    | ParentApplicationNameHeader
    | ParentApplicationTypeHeader
    | PinpointHostHeader

  datatype HeaderKey = Named(name: string) | Propagation(header: PropagationHeader)

  /** The `Host` header (`hostname:port`). */
  const Host: HeaderKey := Named("Host")

  /** One string value per header name, as `HttpHeaders.getHeaderString` returns it. */
  type Headers = map<HeaderKey, string>

  /** `getHeaderString(key)`: the header value, or null when the header is absent. */
  function GetHeaderString(headers: Headers, key: HeaderKey): Option<string> {
    if key in headers then Some(headers[key]) else None
  }

  /** One decoded query parameter: its name and its first value (null when it has none). */
  datatype QueryParam = QueryParam(key: string, first: Option<string>)

  /** A request: the path of its absolute URI, its headers, and its query parameters
      in the iteration order of their key set. */
  datatype HttpRequest = HttpRequest(path: string, headers: Headers, queryParameters: seq<QueryParam>)
}
