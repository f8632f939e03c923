/**
 * CORS response headers (src/index.ts:43, 46-57), named as in the CORS
 * protocol of section 3.2 of the WHATWG Fetch Standard.
 */
module Cors {
  import opened Wrappers
  import opened Strings
  import opened OriginAllowList

  const AllowMethodsHeader := "Access-Control-Allow-Methods"
  const AllowHeadersHeader := "Access-Control-Allow-Headers"
  const AllowOriginHeader := "Access-Control-Allow-Origin"

  const AllowedMethods := "GET, HEAD, POST, PUT, OPTIONS"
  const AllowedHeaders := "*"
  const AnyOrigin := "*"

  /** `CORS_ALLOW_ORIGIN` is a comma-separated list, entries kept untrimmed. */
  const ListSeparator: char := ','

  /**
   * The parsed allow-list: none when `CORS_ALLOW_ORIGIN` is unset or empty,
   * otherwise its comma-separated entries.
   */
  function SupportedDomains(corsAllowOrigin: Option<string>): (domains: Option<seq<string>>)
    ensures domains.None? <==> !Truthy(corsAllowOrigin)
    ensures domains.Some? ==> |domains.value| > 0 && Join(domains.value, ListSeparator) == corsAllowOrigin.value
    ensures domains.Some? ==> forall i :: 0 <= i < |domains.value| ==> ListSeparator !in domains.value[i]
  {
    if Truthy(corsAllowOrigin) then
      JoinSplit(corsAllowOrigin.value, ListSeparator);
      Some(Split(corsAllowOrigin.value, ListSeparator))
    else None
  }

  /** The value of `Access-Control-Allow-Origin`, or none when the header is left off. */
  function AllowOrigin(engine: RegexEngine, corsAllowOrigin: Option<string>, origin: Option<string>): (value: Option<string>)
    ensures !Truthy(corsAllowOrigin) ==> value == Some(AnyOrigin)
    ensures Truthy(corsAllowOrigin) ==>
      (value.Some? <==>
        (Truthy(origin) &&
         exists i :: 0 <= i < |SupportedDomains(corsAllowOrigin).value| &&
           EntryAccepts(engine, SupportedDomains(corsAllowOrigin).value[i], origin.value)))
    ensures Truthy(corsAllowOrigin) && value.Some? ==> value == origin
  {
    match SupportedDomains(corsAllowOrigin)
    case None => Some(AnyOrigin)
    case Some(domains) =>
      if Truthy(origin) && OriginAllowed(engine, origin.value, domains) then origin else None
  }

  /** The header set every response of the proxied and preflight paths carries. */
  function CorsHeaders(engine: RegexEngine, corsAllowOrigin: Option<string>, origin: Option<string>): (headers: map<string, string>)
    ensures AllowMethodsHeader in headers && headers[AllowMethodsHeader] == AllowedMethods
    ensures AllowHeadersHeader in headers && headers[AllowHeadersHeader] == AllowedHeaders
    ensures headers.Keys <= {AllowMethodsHeader, AllowHeadersHeader, AllowOriginHeader}
    ensures AllowOriginHeader in headers <==> AllowOrigin(engine, corsAllowOrigin, origin).Some?
    ensures AllowOriginHeader in headers ==> headers[AllowOriginHeader] == AllowOrigin(engine, corsAllowOrigin, origin).value
  {
    var fixed := map[AllowMethodsHeader := AllowedMethods, AllowHeadersHeader := AllowedHeaders];
    match AllowOrigin(engine, corsAllowOrigin, origin)
    case None => fixed
    case Some(v) => fixed[AllowOriginHeader := v]
  }

  /**
   * The handler's construction of `corsHeaders`: a record with the two fixed
   * headers, to which the allow-origin header is added afterwards.
   */
  method ComputeCorsHeaders(engine: RegexEngine, corsAllowOrigin: Option<string>, origin: Option<string>)
    returns (corsHeaders: map<string, string>)
    ensures corsHeaders == CorsHeaders(engine, corsAllowOrigin, origin)
  {
    var supportedDomains := SupportedDomains(corsAllowOrigin);
    corsHeaders := map[AllowMethodsHeader := AllowedMethods, AllowHeadersHeader := AllowedHeaders];
    if supportedDomains.Some? {
      if Truthy(origin) {
        var allowed := IsOriginAllowed(engine, origin.value, supportedDomains.value);
        if allowed {
          corsHeaders := corsHeaders[AllowOriginHeader := origin.value];
        }
      }
    } else {
      corsHeaders := corsHeaders[AllowOriginHeader := AnyOrigin];
    }
  }

  /** With no allow-list configured, the headers do not depend on the Origin header at all. */
  lemma UnrestrictedIgnoresOrigin(engine: RegexEngine, corsAllowOrigin: Option<string>, o1: Option<string>, o2: Option<string>)
    requires !Truthy(corsAllowOrigin)
    ensures CorsHeaders(engine, corsAllowOrigin, o1) == CorsHeaders(engine, corsAllowOrigin, o2)
    ensures CorsHeaders(engine, corsAllowOrigin, o1)[AllowOriginHeader] == AnyOrigin
  {
  }

  /** With an allow-list configured, an origin no entry accepts gets no allow-origin header. */
  lemma RejectedOriginGetsNoHeader(engine: RegexEngine, corsAllowOrigin: Option<string>, origin: string)
    requires Truthy(corsAllowOrigin)
    requires !OriginAllowed(engine, origin, Split(corsAllowOrigin.value, ListSeparator))
    ensures AllowOriginHeader !in CorsHeaders(engine, corsAllowOrigin, Some(origin))
  {
  }

  /**
   * Entries are not trimmed: in the list "a, b" the second entry is " b",
   * so the origin "b" is turned away, whatever the regex engine.
   */
  lemma UntrimmedEntries(engine: RegexEngine)
    ensures Split("a, b", ListSeparator) == ["a", " b"]
    ensures AllowOriginHeader !in CorsHeaders(engine, Some("a, b"), Some("b"))
  {
    SplitFreePrefix(" b", "", ListSeparator);
    assert " b" + "" == " b";
    assert Split(" b", ListSeparator) == [" b"];
    assert ", b"[0] == ListSeparator && ", b"[1..] == " b";
    assert Split(", b", ListSeparator) == ["", " b"];
    SplitFreePrefix("a", ", b", ListSeparator);
    assert "a" + ", b" == "a, b";
    assert "a" + "" == "a" && ["", " b"][1..] == [" b"];
  }
}
