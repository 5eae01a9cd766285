/** The prerenderer's per-request helpers: one circuit host per HTTP request,
    kept in the request's item bag, and the absolute and base URIs the host is
    created with. The URI builder of the HTTP abstractions is taken to be
    plain concatenation of its parts. */
module Prerendering {

  /** The parts of an HTTP request the URIs are built from. `host` is already
      formatted with its port (`example.com:1234`); a non-empty `pathBase`
      or `path` starts with `/`, a non-empty `queryString` with `?`. */
  datatype Request = Request(scheme: string, host: string, pathBase: string, path: string, queryString: string)

  /** The absolute URI from its parts, in this order. */
  function BuildAbsolute(scheme: string, host: string, pathBase: string, path: string, query: string): (uri: string)
    ensures |uri| == |scheme| + 3 + |host| + |pathBase| + |path| + |query|
  {
    scheme + "://" + host + pathBase + path + query
  }

  /** The request's absolute URI: scheme, host, path base, path and query
      string. It is the origin and path base the base URI is built from,
      followed by the path and the query string. */
  function GetFullUri(request: Request): (uri: string)
    ensures uri == BuildAbsolute(request.scheme, request.host, request.pathBase, "", "")
                   + request.path + request.queryString
  {
    BuildAbsolute(request.scheme, request.host, request.pathBase, request.path, request.queryString)
  }

  predicate EndsWithSlash(s: string) {
    |s| > 0 && s[|s| - 1] == '/'
  }

  /** The request's base URI: scheme, host and path base, with one `/`
      appended when that does not already end in one. */
  function GetFullBaseUri(request: Request): (baseUri: string)
    ensures EndsWithSlash(baseUri)
  {
    var result := BuildAbsolute(request.scheme, request.host, request.pathBase, "", "");
    if !EndsWithSlash(result) then result + "/" else result
  }

  /** The base URI adds a `/` only where it is missing: it is the scheme,
      host and path base followed by at most one slash, and equals them
      exactly when they already end in one. */
  lemma BaseUriAppendsSlashOnlyWhenMissing(request: Request)
    ensures var built := BuildAbsolute(request.scheme, request.host, request.pathBase, "", "");
            && (EndsWithSlash(built) ==> GetFullBaseUri(request) == built)
            && (!EndsWithSlash(built) ==> GetFullBaseUri(request) == built + "/")
  {
  }

  /** The full URI lies under the base URI: when the path starts with `/`,
      the base URI is a prefix of the full URI. */
  lemma {:induction false} BaseUriIsPrefixOfFullUri(request: Request)
    requires |request.path| > 0 && request.path[0] == '/'
    ensures GetFullBaseUri(request) <= GetFullUri(request)
  {
    var built := BuildAbsolute(request.scheme, request.host, request.pathBase, "", "");
    var full := GetFullUri(request);
    assert full == built + request.path + request.queryString;
    if !EndsWithSlash(built) {
      assert full[..|built| + 1] == built + "/";
    } else {
      assert full[..|built|] == built;
    }
  }

  /** The request of the prerenderer's test with an empty path base. */
  lemma UrisWithEmptyPathBase()
    ensures var r := Request("https", "example.com:1234", "", "/some/path", "");
            GetFullUri(r) == "https://example.com:1234/some/path"
            && GetFullBaseUri(r) == "https://example.com:1234/"
  {
    var origin := "https" + "://" + "example.com:1234";
    assert origin == "https://example.com:1234";
    assert origin + "" + "/some/path" + "" == "https://example.com:1234/some/path";
    assert origin + "" + "" + "" == origin;
  }

  /** The request of the prerenderer's test with the path base `/my/dir`. */
  lemma UrisWithPathBase()
    ensures var r := Request("https", "example.com:1234", "/my/dir", "/some/path", "");
            GetFullUri(r) == "https://example.com:1234/my/dir/some/path"
            && GetFullBaseUri(r) == "https://example.com:1234/my/dir/"
  {
    var origin := "https" + "://" + "example.com:1234";
    assert origin == "https://example.com:1234";
    assert origin + "/my/dir" + "/some/path" + "" == "https://example.com:1234/my/dir/some/path";
    assert origin + "/my/dir" + "" + "" == "https://example.com:1234/my/dir";
  }

  /** A circuit host as the prerenderer creates it: with the offline client
      proxy and the URIs of the request it serves. */
  class CircuitHost {
    const offlineClient: bool
    const uriAbsolute: string
    const baseUriAbsolute: string

    constructor (offlineClient: bool, uriAbsolute: string, baseUriAbsolute: string)
      ensures this.offlineClient == offlineClient
      ensures this.uriAbsolute == uriAbsolute && this.baseUriAbsolute == baseUriAbsolute
    {
      this.offlineClient := offlineClient;
      this.uriAbsolute := uriAbsolute;
      this.baseUriAbsolute := baseUriAbsolute;
    }
  }

  /** Keys of the request's item bag: the prerenderer's private key for its
      host, or any other component's key. */
  datatype ItemKey = CircuitHostKey | OtherKey(name: string)

  /** The per-request state the prerenderer touches: the request, the item
      bag, and the objects registered for disposal with the response. */
  class HttpContext {
    const request: Request
    var items: map<ItemKey, CircuitHost>
    var registeredForDispose: seq<CircuitHost>

    constructor (request: Request)
      ensures this.request == request && items == map[] && registeredForDispose == []
    {
      this.request := request;
      items := map[];
      registeredForDispose := [];
    }
  }

  /** The circuit host of the request: the one already stored under the
      host key, or else a new host with the offline client and the
      request's URIs, stored under the key and registered for disposal. */
  method GetOrCreateCircuitHost(context: HttpContext) returns (host: CircuitHost)
    modifies context
    ensures CircuitHostKey in old(context.items) ==>
              && host == old(context.items)[CircuitHostKey]
              && context.items == old(context.items)
              && context.registeredForDispose == old(context.registeredForDispose)
    ensures CircuitHostKey !in old(context.items) ==>
              && fresh(host)
              && host.offlineClient
              && host.uriAbsolute == GetFullUri(context.request)
              && host.baseUriAbsolute == GetFullBaseUri(context.request)
              && context.items == old(context.items)[CircuitHostKey := host]
              && context.registeredForDispose == old(context.registeredForDispose) + [host]
  {
    if CircuitHostKey in context.items {
      return context.items[CircuitHostKey];
    }
    var result := new CircuitHost(true, GetFullUri(context.request), GetFullBaseUri(context.request));
    context.items := context.items[CircuitHostKey := result];
    context.registeredForDispose := context.registeredForDispose + [result];
    return result;
  }

  /** Two prerenders in one request share one host, created and registered
      for disposal at most once. */
  method GetOrCreateCircuitHostTwice(context: HttpContext) returns (first: CircuitHost, second: CircuitHost)
    modifies context
    ensures CircuitHostKey in context.items && first == second && context.items[CircuitHostKey] == first
    ensures |context.registeredForDispose| <= |old(context.registeredForDispose)| + 1
  {
    first := GetOrCreateCircuitHost(context);
    second := GetOrCreateCircuitHost(context);
  }
}
