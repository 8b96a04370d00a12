/**
 * The standalone redirect server (cmd/proxy/main.go). It keeps its own
 * append-only list of mappings: a domain can be added twice, and the catch-all
 * route follows the first entry for the host, so a later entry for the same
 * domain is never reached.
 */
module ProxyServer {
  import opened Wrappers
  import opened Environment
  import opened HostRedirect
  import opened ProxyService

  const DefaultProxyPort := "8082"

  /** `PROXY_PORT`, or 8082 when it is unset or empty. */
  function Port(env: Env): (r: string)
    ensures r != ""
    ensures Getenv(env, "PROXY_PORT") != "" ==> r == Getenv(env, "PROXY_PORT")
    ensures Getenv(env, "PROXY_PORT") == "" ==> r == DefaultProxyPort
  {
    GetenvOr(env, "PROXY_PORT", DefaultProxyPort)
  }

  /** The list the server starts with: the same single seed mapping as the store. */
  function InitialList(): (r: seq<Mapping>)
    ensures r == Seed()
  {
    [SeedMapping]
  }

  /** A status code and the list after the request. */
  datatype Reply = Reply(status: nat, list: seq<Mapping>)

  /**
   * `POST /api/mappings`: a body that does not parse, or one with an empty
   * domain or destination, gets 400 and no change; otherwise the mapping is
   * appended, even when its domain is already listed.
   */
  function PostMapping(list: seq<Mapping>, body: Option<Mapping>): (r: Reply)
    ensures r.status == 201 <==> body.Some? && body.value.domain != "" && body.value.destination != ""
    ensures r.status != 201 ==> r.status == 400 && r.list == list
    ensures r.status == 201 ==> r.list == list + [body.value]
  {
    match body
    case None => Reply(400, list)
    case Some(m) =>
      if m.domain == "" || m.destination == "" then Reply(400, list)
      else Reply(201, list + [m])
  }

  /** `GET /api/mappings`: the list as it stands. */
  function ListMappings(list: seq<Mapping>): (r: Reply)
    ensures r.status == 200 && r.list == list
  {
    Reply(200, list)
  }

  /** The catch-all route: a 301 for the first entry of the host, 404 when there is none. */
  function CatchAll(list: seq<Mapping>, host: string, path: string): (r: Response)
    ensures r.MovedPermanently? <==> HasDomain(list, StripPort(host))
    ensures r.JsonError? ==> r.code == 404
    ensures r.MovedPermanently? ==>
              r.location == Resolve(list[FindFirst(list, StripPort(host)).value].destination, path)
  {
    match Lookup(list, StripPort(host))
    case Failure(_) => JsonError(404)
    case Success(m) => MovedPermanently(Resolve(m.destination, path))
  }

  /** The catch-all route's range loop, as written. */
  method CatchAllLoop(list: seq<Mapping>, host: string, path: string) returns (r: Response)
    ensures r == CatchAll(list, host, path)
  {
    var h := host;
    if ':' in h {
      h := Text.BeforeFirst(h, ':');
    }
    var i := 0;
    while i < |list|
      invariant 0 <= i <= |list|
      invariant forall j :: 0 <= j < i ==> list[j].domain != h
    {
      if list[i].domain == h {
        assert FindFirst(list, h) == Some(i);
        return MovedPermanently(Resolve(list[i].destination, path));
      }
      i := i + 1;
    }
    return JsonError(404);
  }

  // ---------------------------------------------------------------------
  // Properties
  // ---------------------------------------------------------------------

  /** An entry appended for a domain already listed is never the first match of any lookup. */
  lemma FirstMatchUnchangedByAppend(list: seq<Mapping>, m: Mapping, d: string)
    requires HasDomain(list, m.domain)
    ensures FindFirst(list + [m], d) == FindFirst(list, d)
  {
    var l2 := list + [m];
    assert forall i :: 0 <= i < |list| ==> l2[i] == list[i];
    match FindFirst(list, d)
    case Some(j) =>
      assert l2[j].domain == d;
      assert forall i :: 0 <= i < j ==> l2[i].domain != d;
    case None =>
      assert d != m.domain;
      assert l2[|list|] == m;
      assert forall i :: 0 <= i < |l2| ==> l2[i].domain != d;
  }

  /** Posting a second entry for a listed domain changes no redirect. */
  lemma LaterEntryShadowed(list: seq<Mapping>, m: Mapping, host: string, path: string)
    requires HasDomain(list, m.domain) && m.domain != "" && m.destination != ""
    ensures PostMapping(list, Some(m)).status == 201
    ensures CatchAll(PostMapping(list, Some(m)).list, host, path) == CatchAll(list, host, path)
  {
    FirstMatchUnchangedByAppend(list, m, StripPort(host));
  }

  /** Posting keeps every earlier entry and adds one at the end, duplicates included. */
  lemma PostAppendsDuplicates(list: seq<Mapping>, m: Mapping)
    requires HasDomain(list, m.domain) && m.domain != "" && m.destination != ""
    ensures CountDomain(PostMapping(list, Some(m)).list, m.domain) == CountDomain(list, m.domain) + 1
  {
    CountAppend(list, m);
  }

  lemma {:induction false} CountAppend(t: seq<Mapping>, m: Mapping)
    ensures CountDomain(t + [m], m.domain) == CountDomain(t, m.domain) + 1
    decreases |t|
  {
    if |t| > 0 {
      assert (t + [m])[1..] == t[1..] + [m];
      CountAppend(t[1..], m);
    }
  }

  /**
   * Re-adding a listed domain with a new destination redirects to the new
   * destination through the service's store, but still to the old one
   * through this server's list.
   */
  lemma StoreAndListDisagreeOnReadd(t: seq<Mapping>, domain: string, older: string, newer: string, path: string)
    requires ':' !in domain && domain != "" && newer != ""
    requires Lookup(t, domain) == Success(Mapping(domain, older))
    ensures CatchAll(Upsert(t, Mapping(domain, newer)), domain, path) == MovedPermanently(Resolve(newer, path))
    ensures CatchAll(PostMapping(t, Some(Mapping(domain, newer))).list, domain, path)
            == MovedPermanently(Resolve(older, path))
  {
    LookupAfterUpsert(t, Mapping(domain, newer));
    LaterEntryShadowed(t, Mapping(domain, newer), domain, path);
  }
}
