/**
 * The request handler (src/index.ts:31-98) with the network left out: what it
 * answers by itself, and what it asks of the upstream provider.
 */
module Handler {
  import opened Wrappers
  import opened Strings
  import opened OriginAllowList
  import opened Cors
  import opened Upstream

  /** The worker's environment bindings. */
  datatype Env = Env(corsAllowOrigin: Option<string>, heliusApiKey: string, network: Option<string>)

  /**
   * What the handler reads from an inbound request: the method, the `Origin`
   * and `Upgrade` headers, the path and search string of its URL, and its
   * body as text.
   */
  datatype Request = Request(
    httpMethod: string,
    origin: Option<string>,
    upgrade: Option<string>,
    pathname: string,
    search: string,
    payload: string)

  /** The request built for the JSON-RPC path. */
  datatype ProxyRequest = ProxyRequest(url: string, httpMethod: string, body: Option<string>, headers: map<string, string>)

  /**
   * Which path a request takes. `Rejected` is the JSON-RPC path when building
   * the proxied request throws: the Fetch Standard's `Request` constructor
   * refuses a body on a `GET` or `HEAD` request with a TypeError, and the
   * invocation fails before any upstream call.
   */
  datatype Route =
    | Preflight
    | Passthrough(url: string)
    | Forward(proxy: ProxyRequest)
    | Rejected

  /**
   * The handler's result. `Respond` is answered without any upstream call.
   * `Relay` sends the inbound request itself to `url` and returns the
   * upstream response untouched. `RelayWithCors` sends `proxy` and returns the
   * upstream status and body under `headers` in place of the upstream's.
   * `Fail` is an invocation that throws, leaving the response to the platform.
   */
  datatype Outcome =
    | Respond(status: int, body: Option<string>, headers: map<string, string>)
    | Relay(url: string)
    | RelayWithCors(proxy: ProxyRequest, headers: map<string, string>)
    | Fail

  const OptionsMethod := "OPTIONS"
  const GetMethod := "GET"
  const HeadMethod := "HEAD"
  const WebSocketUpgrade := "websocket"
  const ContentTypeHeader := "Content-Type"
  const JsonContentType := "application/json"
  const ProxyMarkerHeader := "X-Helius-Cloudflare-Proxy"
  const ProxyMarkerValue := "true"

  /** The headers of every forwarded JSON-RPC request; none of the inbound headers are kept. */
  function ForcedHeaders(): (headers: map<string, string>)
    ensures headers.Keys == {ContentTypeHeader, ProxyMarkerHeader}
    ensures headers[ContentTypeHeader] == JsonContentType && headers[ProxyMarkerHeader] == ProxyMarkerValue
  {
    map[ContentTypeHeader := JsonContentType, ProxyMarkerHeader := ProxyMarkerValue]
  }

  /** `payload || null`: an empty body is sent as no body. */
  function ProxyBody(payload: string): (body: Option<string>)
    ensures body.None? <==> payload == ""
    ensures body.Some? ==> body.value == payload
  {
    if payload != "" then Some(payload) else None
  }

  /** The `Request` constructor throws for a `GET` or `HEAD` request given a body. */
  predicate BodyRefused(httpMethod: string, body: Option<string>)
    ensures BodyRefused(httpMethod, body) ==> body.Some? && (httpMethod == GetMethod || httpMethod == HeadMethod)
    ensures body.Some? && httpMethod == GetMethod ==> BodyRefused(httpMethod, body)
    ensures body.Some? && httpMethod == HeadMethod ==> BodyRefused(httpMethod, body)
  {
    body.Some? && httpMethod in {GetMethod, HeadMethod}
  }

  /**
   * The upgrade test as written. Its second disjunct adds nothing: every
   * value it admits is already truthy, so any non-empty header triggers it.
   */
  function UpgradeRequested(upgrade: Option<string>): (requested: bool)
    ensures requested <==> Truthy(upgrade)
  {
    Truthy(upgrade) || upgrade == Some(WebSocketUpgrade)
  }

  /**
   * The path a request takes: a preflight for `OPTIONS` whatever its headers,
   * a passthrough to the provider's root for any other request carrying a
   * non-empty `Upgrade` header, otherwise a JSON-RPC forward, which fails when
   * a `GET` or `HEAD` request carries a non-empty body.
   */
  function SelectRoute(env: Env, request: Request): (route: Route)
    ensures route.Preflight? <==> request.httpMethod == OptionsMethod
    ensures route.Passthrough? <==> request.httpMethod != OptionsMethod && Truthy(request.upgrade)
    ensures route.Passthrough? ==> route.url == ForwardUrl(Network(env.network), env.heliusApiKey, "/", "")
    ensures route.Rejected? <==>
      request.httpMethod != OptionsMethod && !Truthy(request.upgrade) &&
      (request.httpMethod == GetMethod || request.httpMethod == HeadMethod) && request.payload != ""
    ensures route.Forward? ==>
      route.proxy.url == ForwardUrl(Network(env.network), env.heliusApiKey, request.pathname, request.search) &&
      route.proxy.httpMethod == request.httpMethod &&
      route.proxy.body == ProxyBody(request.payload) &&
      route.proxy.headers == ForcedHeaders()
  {
    var network := Network(env.network);
    if request.httpMethod == OptionsMethod then Preflight
    else if UpgradeRequested(request.upgrade) then
      PassthroughIsBareForward(network, env.heliusApiKey);
      Passthrough(PassthroughUrl(network, env.heliusApiKey))
    else if BodyRefused(request.httpMethod, ProxyBody(request.payload)) then Rejected
    else
      Forward(ProxyRequest(
        ForwardUrl(network, env.heliusApiKey, request.pathname, request.search),
        request.httpMethod,
        ProxyBody(request.payload),
        ForcedHeaders()))
  }

  /**
   * One invocation of the handler. A preflight is answered with 200, no body
   * and exactly the CORS headers; an upgrade request is relayed as it came;
   * any other request is rebuilt and its response given the CORS headers,
   * unless rebuilding it throws.
   */
  method HandleRequest(engine: RegexEngine, env: Env, request: Request) returns (outcome: Outcome)
    ensures outcome.Respond? <==> request.httpMethod == OptionsMethod
    ensures outcome.Respond? ==>
      outcome.status == 200 && outcome.body.None? &&
      outcome.headers == CorsHeaders(engine, env.corsAllowOrigin, request.origin)
    ensures outcome.Relay? <==> SelectRoute(env, request).Passthrough?
    ensures outcome.Relay? ==> outcome.url == SelectRoute(env, request).url
    ensures outcome.RelayWithCors? <==> SelectRoute(env, request).Forward?
    ensures outcome.RelayWithCors? ==>
      outcome.proxy == SelectRoute(env, request).proxy &&
      outcome.headers == CorsHeaders(engine, env.corsAllowOrigin, request.origin)
    ensures outcome.Fail? <==> SelectRoute(env, request).Rejected?
  {
    var network := Network(env.network);
    var corsHeaders := ComputeCorsHeaders(engine, env.corsAllowOrigin, request.origin);

    if request.httpMethod == OptionsMethod {
      return Respond(200, None, corsHeaders);
    }

    var upgradeHeader := request.upgrade;
    if UpgradeRequested(upgradeHeader) {
      return Relay(PassthroughUrl(network, env.heliusApiKey));
    }

    var payload := request.payload;
    var body := ProxyBody(payload);
    if BodyRefused(request.httpMethod, body) {
      // new Request(...) throws a TypeError, which escapes the handler
      return Fail;
    }
    var proxyRequest := ProxyRequest(
      ForwardUrl(network, env.heliusApiKey, request.pathname, request.search),
      request.httpMethod,
      body,
      ForcedHeaders());
    return RelayWithCors(proxyRequest, corsHeaders);
  }

  /**
   * Every response the handler builds itself carries the fixed methods and
   * headers lists, whatever the configuration or the Origin header. Those
   * responses are `Respond` and `RelayWithCors`, whose headers HandleRequest
   * ensures are CorsHeaders of the request; this lemma reads the two fixed
   * entries off such an outcome.
   */
  lemma FixedCorsHeadersAlwaysPresent(engine: RegexEngine, env: Env, request: Request, outcome: Outcome)
    requires outcome.Respond? || outcome.RelayWithCors?
    requires outcome.headers == CorsHeaders(engine, env.corsAllowOrigin, request.origin)
    ensures outcome.headers[AllowMethodsHeader] == "GET, HEAD, POST, PUT, OPTIONS"
    ensures outcome.headers[AllowHeadersHeader] == "*"
  {
  }

  /** `Upgrade: websocket` on a non-`OPTIONS` request goes to the provider's root with the key. */
  lemma WebSocketGoesToRoot(env: Env, request: Request)
    requires request.httpMethod != OptionsMethod && request.upgrade == Some(WebSocketUpgrade)
    ensures SelectRoute(env, request) ==
      Passthrough(Scheme + Network(env.network) + UpstreamHost + "/?api-key=" + env.heliusApiKey)
  {
  }

  /** A `GET` with a body is not forwarded: the handler fails without calling upstream. */
  lemma GetWithBodyFails(env: Env, origin: Option<string>, pathname: string, search: string, payload: string)
    requires payload != ""
    ensures SelectRoute(env, Request(GetMethod, origin, None, pathname, search, payload)) == Rejected
  {
  }
}
