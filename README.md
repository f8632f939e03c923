# Helius RPC proxy: the decision layer of the edge handler

This project models the request handler of a Cloudflare Worker that proxies
JSON-RPC and WebSocket traffic to the Helius RPC provider. The worker injects
the API key on the server side and applies a configurable CORS policy. The
handler is one function, `src/index.ts`. The model keeps its decisions and
leaves out its network calls:

- **Origin allow-list matching** (`OriginAllowList`, file
  `origin_allow_list.dfy`). `isOriginAllowed` scans the configured entries.
  An entry starting with `@` is an ECMAScript regular expression with the `@`
  removed. It accepts when it compiles and finds a match anywhere in the
  origin. Any other entry accepts only the identical origin. A pattern that
  does not compile is skipped. The regex engine is a parameter
  (`RegexEngine`: whether a pattern compiles, whether it matches a string),
  so every result holds for any engine. The scan is given twice. The
  recursive function `OriginAllowed` is the specification. The method
  `IsOriginAllowed` is the source's `for` loop, with early returns and the
  `continue` of its `catch`, and is proved equal to that specification.
- **CORS header synthesis** (`Cors`, `cors.dfy`). `CORS_ALLOW_ORIGIN` is
  split on `,` without trimming, as JavaScript's `split` does (`Strings`,
  `strings.dfy`, proves the split loses nothing and inverts a join). The
  headers are the CORS response headers of section 3.2 of the WHATWG Fetch
  Standard. The method `ComputeCorsHeaders` builds the map step by step, as
  the handler mutates its record. The function `CorsHeaders` specifies it.
- **Upstream URLs** (`Upstream`, `upstream.dfy`). The network defaults to
  `devnet`. The passthrough target is the provider's root. The forward target
  keeps the path and puts the API key first in the query, then the request's
  own query joined by `&`.
- **Routing and the handler** (`Handler`, `handler.dfy`). `SelectRoute`
  decides between preflight, passthrough and forward. `HandleRequest` is the
  handler itself. It returns what it answers locally, or what it sends
  upstream and with which headers it relays the reply.

The handler keeps no state between invocations. Each one is a function of its
request and environment, so concurrent requests cannot interfere.

Three details of the code shape the model:

- `isOriginAllowed` always receives a string. The handler skips the call when
  the Origin header is absent or empty (`src/index.ts:52`), and `AllowOrigin`
  and `ComputeCorsHeaders` model that.
- The upgrade test is JavaScript truthiness, so an empty `Upgrade` value does
  not trigger the passthrough (`UpgradeRequested`).
- Building the proxied request (`src/index.ts:77-89`) throws when a `GET` or
  `HEAD` request carries a non-empty body, because the `Request` constructor
  of the WHATWG Fetch Standard refuses a body for those methods. The handler
  then fails without calling upstream; the model's `Rejected` route and
  `Fail` outcome stand for that.

## Model

| member | source | states |
|---|---|---|
| Strings.Truthy | src/index.ts:43-68 | the JavaScript truthiness test used at lines 43, 44, 52 and 68: false exactly for a missing value and the empty string |
| Strings.Split | src/index.ts:43 | `split(',')` yields at least one piece, and no piece contains a comma |
| Strings.JoinSplit | src/index.ts:43 | joining the pieces with `,` gives back the configured string, so splitting loses nothing |
| Strings.SplitJoin | src/index.ts:43 | comma-free entries joined by `,` split back into exactly those entries |
| OriginAllowList.EntryAccepts | src/index.ts:10-25 | one entry's decision: it accepts only if it is a pattern entry or the origin itself; a pattern that does not compile never accepts; a literal entry accepts its own text (AcceptanceByKind lifts this to the list) |
| OriginAllowList.OriginAllowed | src/index.ts:7-29 | the scan is true iff some entry accepts the origin; an empty list gives false |
| OriginAllowList.IsOriginAllowed | src/index.ts:7-29 | the loop with early `return true`, `continue` on a pattern that does not compile and a final `return false` gives exactly that verdict |
| OriginAllowList.AcceptanceByKind | src/index.ts:10-25 | accepted iff a non-`@` entry equals the origin, or an `@` entry's stripped pattern compiles and matches it; `@` entries are never compared as text |
| OriginAllowList.LiteralListIsMembership | src/index.ts:21-25 | with no `@` entries, acceptance is exact (case-sensitive) membership of the origin in the list |
| OriginAllowList.OriginAllowedAppend | src/index.ts:8-28 | the verdict over two concatenated lists is the disjunction of the verdicts, so entry order does not matter |
| OriginAllowList.InvalidPatternIsSkipped | src/index.ts:11-20 | an `@` entry whose pattern does not compile changes nothing: removing it leaves the verdict as it was, so it neither accepts nor stops later entries |
| Cors.SupportedDomains | src/index.ts:43 | no list iff `CORS_ALLOW_ORIGIN` is unset or empty; otherwise comma-free entries that join back to it |
| Cors.AllowOrigin | src/index.ts:50-57 | `*` when no list is configured; with a list, present iff the Origin header is non-empty and some entry accepts it, and then equal to that Origin |
| Cors.CorsHeaders | src/index.ts:46-57 | always the fixed methods and headers entries, no other keys than the three CORS names, and allow-origin exactly when `AllowOrigin` gives a value |
| Cors.ComputeCorsHeaders | src/index.ts:46-57 | the record built in place and extended afterwards equals `CorsHeaders` |
| Cors.UnrestrictedIgnoresOrigin | src/index.ts:55-57 | without a configured list, the headers are the same for every Origin and allow-origin is `*` |
| Cors.RejectedOriginGetsNoHeader | src/index.ts:50-54 | with a configured list, an origin no entry accepts gets no allow-origin header |
| Cors.UntrimmedEntries | src/index.ts:43 | entries are not trimmed: `a, b` splits into `a` and ` b`, and origin `b` gets no allow-origin header |
| Upstream.Network | src/index.ts:44 | `NETWORK` when set and non-empty, otherwise `devnet`; never empty |
| Upstream.SearchSuffix | src/index.ts:79 | empty iff the search string is empty; for a search string starting with `?`, it starts with `&` and, with that `&` turned back into `?`, is the search string |
| Upstream.ForwardUrl | src/index.ts:78-80 | starts with scheme, network, host, path and `?api-key=` plus the key; nothing follows for an empty search; otherwise `&` and the request's query, readable back |
| Upstream.ForwardUrlLayout | src/index.ts:78-80 | the forward URL is `https://{network}.helius-rpc.com{path}?api-key={key}`, followed by `&{query}` exactly when the search is `?{query}` |
| Upstream.PassthroughUrl | src/index.ts:70 | the keyed root: scheme, network and host, path `/`, and the API key as the only query; equal to the forward URL for `/` with no search (PassthroughIsBareForward) |
| Upstream.PassthroughIsBareForward | src/index.ts:70 | the passthrough target is the forward target for path `/` and an empty search |
| Upstream.DefaultNetworkExample | src/index.ts:78-80 | with `NETWORK` unset, path `/` and search `?foo=bar` go to `https://devnet.helius-rpc.com/?api-key={key}&foo=bar` |
| Handler.ForcedHeaders | src/index.ts:84-87 | forwarded requests carry exactly `Content-Type: application/json` and `X-Helius-Cloudflare-Proxy: true` |
| Handler.ProxyBody | src/index.ts:83 | no body iff the payload is empty, otherwise the payload |
| Handler.UpgradeRequested | src/index.ts:66-68 | the condition as written holds iff the `Upgrade` header is present and non-empty: its `=== 'websocket'` disjunct is dead |
| Handler.BodyRefused | src/index.ts:77-89 | the proxied request cannot be built exactly when it would carry a body with method `GET` or `HEAD` |
| Handler.SelectRoute | src/index.ts:59-89 | preflight iff the method is `OPTIONS`; otherwise passthrough iff `Upgrade` is non-empty, to the bare root URL; otherwise rejected iff a `GET` or `HEAD` carries a non-empty body, and else a forward with the request's method, its body and the forced headers |
| Handler.HandleRequest | src/index.ts:31-96 | `OPTIONS` gets status 200, no body and exactly the CORS headers, with no upstream request; upgrade requests are relayed verbatim to the root URL; the handler fails exactly on the rejected route; other requests are forwarded and their reply carries the CORS headers |
| Handler.GetWithBodyFails | src/index.ts:77-89 | a `GET` without an `Upgrade` header and with a non-empty body is rejected, not forwarded |
| Handler.FixedCorsHeadersAlwaysPresent | src/index.ts:46-49 | an outcome whose headers are the computed CORS headers, as HandleRequest ensures for both responses it builds, carries `Access-Control-Allow-Methods: GET, HEAD, POST, PUT, OPTIONS` and `Access-Control-Allow-Headers: *` |
| Handler.WebSocketGoesToRoot | src/index.ts:66-72 | a non-`OPTIONS` request with `Upgrade: websocket` goes to `https://{network}.helius-rpc.com/?api-key={key}` |

## Left out

- The `fetch` calls, the construction of `Response` objects, body streaming and `request.text()`: these are runtime I/O. The request body is an input (`payload`), and the outcome names what is sent and how the reply is relayed.
- Handler.SelectRoute, Handler.HandleRequest: the only failure of the `Request` constructor modelled is a body on `GET` or `HEAD`. A target URL that does not parse (a `NETWORK` value containing a space, say) or a method the Fetch Standard forbids (`CONNECT`, `TRACE`, `TRACK`) also makes it throw; the model forwards such requests, because URL parsing and method validation are not modelled.
- Relaying the upstream status and body, and the propagation of fetch failures: the code passes these through or lets them escape, with nothing to state beyond that.
- URL parsing by `new URL(...)`: `pathname` and `search` are inputs, taken as the WHATWG URL parser would give them.
- The regular-expression engine (`new RegExp`, `.test`): a foreign library. It is a parameter of every matching member, so each result holds for all engines.
- Method-name normalisation by the platform (`options` becoming `OPTIONS`): the model compares the method as received, like the code.
- A missing `HELIUS_API_KEY`: JavaScript would interpolate the text `undefined`; the model takes the key as a string.
- Worker registration, the supply of the environment, and concurrency between invocations: platform concerns; the handler shares no state.
