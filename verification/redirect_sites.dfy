/**
 * The three places that turn a Host header into a redirect: the API's
 * `HandleRedirect` handler, the API server's middleware and the standalone
 * server's catch-all route. Given the same table they agree, and in a table
 * without duplicate domains each of them follows the one entry for the host.
 */
module RedirectSites {
  import opened Wrappers
  import opened HostRedirect
  import opened ProxyService
  import ProxyHandler
  import ApiServer
  import ProxyServer

  /**
   * The handler and the catch-all route give the same response, and the
   * middleware redirects exactly when they do, to the same place, unless
   * the path is reserved for the API or its documentation.
   */
  lemma SitesAgree(t: seq<Mapping>, host: string, path: string)
    ensures ProxyHandler.HandleRedirect(t, host, path) == ProxyServer.CatchAll(t, host, path)
    ensures !ApiServer.Bypassed(path) ==>
              (ApiServer.Middleware(t, host, path).RedirectAndAbort? <==> ProxyHandler.HandleRedirect(t, host, path).MovedPermanently?)
    ensures !ApiServer.Bypassed(path) && ApiServer.Middleware(t, host, path).RedirectAndAbort? ==>
              ApiServer.Middleware(t, host, path).location == ProxyHandler.HandleRedirect(t, host, path).location
  {
  }

  /** In a table without duplicates, the entry found for a domain is the one entry for it. */
  lemma LookupFindsTheEntry(t: seq<Mapping>, m: Mapping)
    requires UniqueDomains(t) && m in t
    ensures Lookup(t, m.domain) == Success(m)
  {
    var i :| 0 <= i < |t| && t[i] == m;
    var j := FindFirst(t, m.domain).value;
    assert t[j].domain == t[i].domain;
    assert j == i;
  }

  /**
   * In a table without duplicates, a request whose host (port stripped) is
   * some entry's domain is sent to that entry's destination by the handler,
   * by the catch-all route and, off the reserved paths, by the middleware.
   */
  lemma RedirectsToTheEntry(t: seq<Mapping>, m: Mapping, host: string, path: string)
    requires UniqueDomains(t) && m in t && StripPort(host) == m.domain
    ensures ProxyHandler.HandleRedirect(t, host, path) == MovedPermanently(Resolve(m.destination, path))
    ensures ProxyServer.CatchAll(t, host, path) == MovedPermanently(Resolve(m.destination, path))
    ensures !ApiServer.Bypassed(path) ==>
              ApiServer.Middleware(t, host, path) == ApiServer.RedirectAndAbort(Resolve(m.destination, path))
  {
    LookupFindsTheEntry(t, m);
  }
}
