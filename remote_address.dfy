/** The two strategies that name the client of a request: the `Host` header itself,
    or a proxy's real-ip header with a fallback to `Host`. */
module RemoteAddress {
  import opened Wrappers
  import opened Http
  import opened Text

  const XForwardedFor: string := "x-forwarded-for"
  const XRealIp: string := "x-real-ip"
  const Unknown: string := "unknown"

  datatype RemoteAddressResolver =
    | Bypass
    | RealIpHeaderResolver(realIpHeaderName: string, emptyHeaderValue: Option<string>)

  /** What the `RealIpHeaderResolver` constructor throws. */
  datatype ConstructionError = NullPointer(message: string)

  /** `new RealIpHeaderResolver(name, emptyValue)`: refuses a null header name;
      the empty value may be null. */
  function NewRealIpHeaderResolver(name: Option<string>, emptyValue: Option<string>)
    : (r: Result<RemoteAddressResolver, ConstructionError>)
    ensures r.Failure? <==> name.None?
    ensures r.Success? ==> r.value.RealIpHeaderResolver?
    ensures r.Success? ==> r.value.realIpHeaderName == name.value && r.value.emptyHeaderValue == emptyValue
  {
    if name.None? then Failure(NullPointer("realIpHeaderName must not be null"))
    else Success(RealIpHeaderResolver(name.value, emptyValue))
  }

  /** `new RealIpHeaderResolver()`: reads `x-forwarded-for` and treats `unknown` as empty. */
  function DefaultRealIpHeaderResolver(): (r: RemoteAddressResolver)
    ensures NewRealIpHeaderResolver(Some(XForwardedFor), Some(Unknown)) == Success(r)
  {
    RealIpHeaderResolver(XForwardedFor, Some(Unknown))
  }

  /** The interceptor's choice of strategy from the configured real-ip header name
      and empty value. */
  function SelectResolver(realIpHeader: Option<string>, realIpEmptyValue: Option<string>)
    : (r: RemoteAddressResolver)
    ensures r.Bypass? <==> realIpHeader.None? || realIpHeader.value == ""
    ensures r.RealIpHeaderResolver? ==>
              r.realIpHeaderName == realIpHeader.value && r.emptyHeaderValue == realIpEmptyValue
  {
    if realIpHeader.None? || |realIpHeader.value| == 0 then Bypass
    else NewRealIpHeaderResolver(realIpHeader, realIpEmptyValue).value
  }

  /** The real-ip value counts as absent: missing, empty, or the configured empty value
      up to case. */
  predicate IsEmptyRealIp(realIp: Option<string>, emptyHeaderValue: Option<string>) {
    || realIp.None?
    || realIp.value == ""
    || (emptyHeaderValue.Some? && EqualsIgnoreCase(emptyHeaderValue.value, realIp.value))
  }

  /** `resolve(request)`. Bypass gives the `Host` header. The real-ip resolver gives
      `Host` when its header counts as absent, and otherwise the part of the header
      before its first comma, untrimmed. */
  function Resolve(resolver: RemoteAddressResolver, headers: Headers): (r: Option<string>)
    ensures resolver.Bypass? ==> r == GetHeaderString(headers, Host)
    ensures resolver.RealIpHeaderResolver? ==>
              var realIp := GetHeaderString(headers, Named(resolver.realIpHeaderName));
              if IsEmptyRealIp(realIp, resolver.emptyHeaderValue)
              then r == GetHeaderString(headers, Host)
              else r.Some? && IsSegmentBefore(r.value, realIp.value, ',')
  {
    match resolver
    case Bypass => GetHeaderString(headers, Host)
    case RealIpHeaderResolver(name, emptyHeaderValue) =>
      var realIp := GetHeaderString(headers, Named(name));
      if realIp.None? || |realIp.value| == 0 then GetHeaderString(headers, Host)
      else if emptyHeaderValue.Some? && EqualsIgnoreCase(emptyHeaderValue.value, realIp.value)
      then GetHeaderString(headers, Host)
      else
        var firstIndex := IndexOf(realIp.value, ',');
        if firstIndex == -1 then realIp
        else Some(realIp.value[..firstIndex])
  }

  /** A real-ip value without a comma is returned whole. */
  lemma ResolveWithoutComma(resolver: RemoteAddressResolver, headers: Headers)
    requires resolver.RealIpHeaderResolver?
    requires Named(resolver.realIpHeaderName) in headers
    requires ',' !in headers[Named(resolver.realIpHeaderName)]
    requires !IsEmptyRealIp(GetHeaderString(headers, Named(resolver.realIpHeaderName)), resolver.emptyHeaderValue)
    ensures Resolve(resolver, headers) == Some(headers[Named(resolver.realIpHeaderName)])
  {
    var r := Resolve(resolver, headers);
    SegmentBeforeWithoutSeparator(r.value, headers[Named(resolver.realIpHeaderName)], ',');
  }

  /** The real-ip resolver with no header configured in the request behaves as Bypass. */
  lemma ResolveFallsBackLikeBypass(name: string, emptyHeaderValue: Option<string>, headers: Headers)
    requires Named(name) !in headers
    ensures Resolve(RealIpHeaderResolver(name, emptyHeaderValue), headers) == Resolve(Bypass, headers)
  {
  }

  /** Whenever the real-ip value counts as present, the resolver's answer is the
      one segment before the first comma. */
  lemma ResolveIsFirstSegment(resolver: RemoteAddressResolver, headers: Headers, segment: string)
    requires resolver.RealIpHeaderResolver?
    requires Named(resolver.realIpHeaderName) in headers
    requires !IsEmptyRealIp(GetHeaderString(headers, Named(resolver.realIpHeaderName)), resolver.emptyHeaderValue)
    requires IsSegmentBefore(segment, headers[Named(resolver.realIpHeaderName)], ',')
    ensures Resolve(resolver, headers) == Some(segment)
  {
    var r := Resolve(resolver, headers);
    SegmentBeforeUnique(r.value, segment, headers[Named(resolver.realIpHeaderName)], ',');
  }

  /** A chained proxy list yields its first entry. */
  lemma ResolveProxyChainExample()
    ensures Resolve(RealIpHeaderResolver(XForwardedFor, Some(Unknown)),
                    map[Host := "api.example.com", Named(XForwardedFor) := "10.0.0.1, 10.0.0.2"])
            == Some("10.0.0.1")
  {
    var chain := "10.0.0.1, 10.0.0.2";
    var headers := map[Host := "api.example.com", Named(XForwardedFor) := chain];
    assert GetHeaderString(headers, Named(XForwardedFor)) == Some(chain);
    assert |Unknown| != |chain|;
    assert chain[..8] == "10.0.0.1" && chain[8] == ',';
    ResolveIsFirstSegment(RealIpHeaderResolver(XForwardedFor, Some(Unknown)), headers, "10.0.0.1");
  }

  /** The configured empty value, in any case, falls back to `Host`. */
  lemma ResolveEmptyValueExample()
    ensures Resolve(RealIpHeaderResolver(XForwardedFor, Some(Unknown)),
                    map[Host := "api.example.com", Named(XForwardedFor) := "UNKNOWN"])
            == Some("api.example.com")
  {
    assert EqualsIgnoreCase(Unknown, "UNKNOWN");
  }
}
