/** Upstream target URLs (src/index.ts:44, 70, 78-80). */
module Upstream {
  import opened Wrappers
  import opened Strings

  const DefaultNetwork := "devnet"
  const Scheme := "https://"
  const UpstreamHost := ".helius-rpc.com"
  const ApiKeyQuery := "?api-key="

  /** `NETWORK` when it is set and non-empty, `devnet` otherwise. */
  function Network(configured: Option<string>): (network: string)
    ensures network != ""
    ensures Truthy(configured) ==> network == configured.value
    ensures !Truthy(configured) ==> network == DefaultNetwork
  {
    if Truthy(configured) then configured.value else DefaultNetwork
  }

  /** Scheme and host of the provider for one network. */
  function UpstreamOrigin(network: string): string
  {
    Scheme + network + UpstreamHost
  }

  /** The root of the provider with only the API key as query: the target of an upgrade request. */
  function PassthroughUrl(network: string, apiKey: string): (url: string)
    ensures url == KeyedPath(network, apiKey, "/")
    ensures url[..|UpstreamOrigin(network)|] == UpstreamOrigin(network)
  {
    UpstreamOrigin(network) + "/" + ApiKeyQuery + apiKey
  }

  /**
   * What follows the API key: nothing for an empty search string, otherwise
   * `&` and the search string without its first character (the `?`).
   */
  function SearchSuffix(search: string): (suffix: string)
    ensures suffix == "" <==> search == ""
    ensures StartsWithChar(search, '?') ==> StartsWithChar(suffix, '&') && "?" + suffix[1..] == search
  {
    if search != "" then "&" + search[1..] else ""
  }

  /** Everything up to and including the API key, for a given path. */
  function KeyedPath(network: string, apiKey: string, pathname: string): string
  {
    UpstreamOrigin(network) + pathname + ApiKeyQuery + apiKey
  }

  /**
   * The target of a forwarded JSON-RPC request: the keyed path, and after it
   * nothing when the search string is empty, otherwise the request's own query,
   * readable back from what follows the `&`.
   */
  function ForwardUrl(network: string, apiKey: string, pathname: string, search: string): (url: string)
    ensures |KeyedPath(network, apiKey, pathname)| <= |url|
    ensures url[..|KeyedPath(network, apiKey, pathname)|] == KeyedPath(network, apiKey, pathname)
    ensures search == "" ==> url == KeyedPath(network, apiKey, pathname)
    ensures StartsWithChar(search, '?') ==>
      var n := |KeyedPath(network, apiKey, pathname)|;
      n < |url| && url[n] == '&' && "?" + url[n + 1..] == search
  {
    var keyed := KeyedPath(network, apiKey, pathname);
    var url := keyed + SearchSuffix(search);
    assert url[..|keyed|] == keyed;
    assert url[|keyed|..] == SearchSuffix(search);
    url
  }

  /**
   * The forward URL keeps the request's path, then carries the API key as
   * the first query parameter, then the request's own query, if any, joined
   * with `&`.
   */
  lemma ForwardUrlLayout(network: string, apiKey: string, pathname: string, query: string)
    ensures ForwardUrl(network, apiKey, pathname, "") == Scheme + network + UpstreamHost + pathname + "?api-key=" + apiKey
    ensures query != "" ==>
      ForwardUrl(network, apiKey, pathname, "?" + query) == Scheme + network + UpstreamHost + pathname + "?api-key=" + apiKey + "&" + query
  {
  }

  /** A forward of the root path with no query goes exactly where an upgrade request goes. */
  lemma PassthroughIsBareForward(network: string, apiKey: string)
    ensures PassthroughUrl(network, apiKey) == ForwardUrl(network, apiKey, "/", "")
  {
  }

  /** The target URL for the path `/` with the query `?foo=bar` on the default network. */
  lemma DefaultNetworkExample(apiKey: string)
    ensures ForwardUrl(Network(None), apiKey, "/", "?foo=bar") == "https://devnet.helius-rpc.com/?api-key=" + apiKey + "&foo=bar"
  {
    var root := Scheme + DefaultNetwork + UpstreamHost + "/" + "?api-key=";
    ForwardUrlLayout(DefaultNetwork, apiKey, "/", "foo=bar");
    assert "?" + "foo=bar" == "?foo=bar";
    assert ForwardUrl(DefaultNetwork, apiKey, "/", "?foo=bar") == root + apiKey + "&" + "foo=bar";
    DefaultRoot();
    JoinLiterals(root, apiKey, "&", "foo=bar");
  }

  /**
   * Proof helper for DefaultNetworkExample: the constant pieces of the
   * default-network root, spelled out. Kept apart so that the example's
   * proof stays small.
   */
  lemma DefaultRoot()
    ensures Scheme + DefaultNetwork + UpstreamHost + "/" + "?api-key=" == "https://devnet.helius-rpc.com/?api-key="
  {
  }

  /**
   * Proof helper for DefaultNetworkExample: regrouping a concatenation.
   * Kept apart so that the example's proof stays small.
   */
  lemma JoinLiterals(a: string, b: string, c: string, d: string)
    ensures a + b + c + d == a + b + (c + d)
  {
  }
}
