/**
 * The HTTP face of the mapping store (internal/handlers/proxy_handler.go):
 * each handler is modelled by the status it answers with and the table it
 * leaves behind. Request decoding is reduced to its outcome: `None` for a
 * body that does not parse, otherwise the decoded mapping.
 */
module ProxyHandler {
  import opened Wrappers
  import opened HostRedirect
  import opened ProxyService
  import Text

  /** A status code and the table after the request. */
  datatype Reply = Reply(status: nat, table: seq<Mapping>)

  /** The listing: the mappings in insertion order and their count. */
  datatype Listing = Listing(status: nat, mappings: seq<Mapping>, total: nat)

  /**
   * Both fields carry `binding:"required"`, so the binder rejects a body that
   * does not parse and one whose domain or destination is empty.
   */
  predicate BindsMapping(body: Option<Mapping>) {
    body.Some? && body.value.domain != "" && body.value.destination != ""
  }

  /**
   * `AddMapping`: 400 and no change for a rejected body, otherwise 201 after
   * the store's add. The store's add never fails, so the 500 branch cannot be
   * taken.
   */
  function AddMapping(t: seq<Mapping>, body: Option<Mapping>): (r: Reply)
    ensures r.status == 201 <==> BindsMapping(body)
    ensures r.status != 201 ==> r.status == 400 && r.table == t
    ensures r.status == 201 ==> r.table == Upsert(t, body.value)
    ensures r.status == 201 ==> Lookup(r.table, body.value.domain) == Success(body.value)
  {
    if BindsMapping(body) then
      LookupAfterUpsert(t, body.value);
      Reply(201, Upsert(t, body.value))
    else Reply(400, t)
  }

  function GetMappings(t: seq<Mapping>): (r: Listing)
    ensures r.status == 200 && r.mappings == t && r.total == |r.mappings|
  {
    Listing(200, t, |t|)
  }

  /** `DeleteMapping`: 200 after removing the domain's entry, 404 and no change when it has none. */
  function DeleteMapping(t: seq<Mapping>, domain: string): (r: Reply)
    ensures r.status == 200 <==> HasDomain(t, domain)
    ensures r.status != 200 ==> r.status == 404 && r.table == t
    ensures r.status == 200 ==> |r.table| == |t| - 1 && r.table == Remove(t, domain).value
  {
    match Remove(t, domain)
    case Success(rest) => Reply(200, rest)
    case Failure(_) => Reply(404, t)
  }

  /**
   * `HandleRedirect`: 404 when the host (port stripped) has no mapping,
   * otherwise a 301 to the mapped destination resolved against the path.
   */
  function HandleRedirect(t: seq<Mapping>, host: string, path: string): (r: Response)
    ensures r.MovedPermanently? <==> HasDomain(t, StripPort(host))
    ensures r.JsonError? ==> r.code == 404
    ensures r.MovedPermanently? ==>
              r.location == Resolve(Lookup(t, StripPort(host)).value.destination, path)
  {
    match Lookup(t, StripPort(host))
    case Failure(_) => JsonError(404)
    case Success(m) => MovedPermanently(Resolve(m.destination, path))
  }

  // ---------------------------------------------------------------------
  // Properties across handlers
  // ---------------------------------------------------------------------

  /**
   * A mapping added through the API is followed at once, whatever port the
   * client connects on: the redirect goes to its destination resolved
   * against the path.
   */
  lemma AddedMappingRedirects(t: seq<Mapping>, domain: string, destination: string, port: string, path: string)
    requires domain != "" && destination != "" && ':' !in domain
    ensures AddMapping(t, Some(Mapping(domain, destination))).status == 201
    ensures HandleRedirect(AddMapping(t, Some(Mapping(domain, destination))).table, domain + ":" + port, path)
            == MovedPermanently(Resolve(destination, path))
  {
    StripPortAt(domain, port);
  }

  /** Once a domain is deleted from a duplicate-free table, requests for it get 404. */
  lemma DeletedDomainNotFound(t: seq<Mapping>, domain: string, path: string)
    requires UniqueDomains(t) && HasDomain(t, domain) && ':' !in domain
    ensures DeleteMapping(t, domain).status == 200
    ensures HandleRedirect(DeleteMapping(t, domain).table, domain, path) == JsonError(404)
  {
    RemoveForgets(t, domain);
  }

  /**
   * A request whose host is a mapped domain plus a port, for a path below
   * the root, is sent into the destination directory with a single slash
   * at the join.
   */
  lemma PortedHostIntoDirectory(m: Mapping, port: string, file: string)
    requires ':' !in m.domain && Text.HasSuffix(m.destination, "/") && file != ""
    ensures HandleRedirect([m], m.domain + ":" + port, "/" + file) == MovedPermanently(m.destination + file)
  {
    StripPortAt(m.domain, port);
    assert [m][0].domain == m.domain;
    assert ("/" + file)[1..] == file;
  }

  /**
   * The worked request: one mapping to a directory, a Host header with a
   * port, and a file path.
   */
  lemma PortedHostExample()
    ensures HandleRedirect([Mapping("a.example.com", "https://bucket.example/site/")],
                           "a.example.com:8080", "/index.html")
            == MovedPermanently("https://bucket.example/site/index.html")
  {
    var m := Mapping("a.example.com", "https://bucket.example/site/");
    assert Text.HasSuffix(m.destination, "/");
    assert m.domain + ":" + "8080" == "a.example.com:8080";
    assert "/" + "index.html" == "/index.html";
    assert m.destination + "index.html" == "https://bucket.example/site/index.html";
    PortedHostIntoDirectory(m, "8080", "index.html");
  }
}
