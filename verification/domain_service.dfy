/**
 * The domain service (internal/services/domain_service.go). Creating a
 * domain sends a fixed form built by hand: of the request
 * (`DomainCreateRequest`, internal/models/domain.go) only the name is used,
 * and only in the path.
 */
module DomainService {
  import opened Wrappers
  import opened Text
  import opened FormEncoder
  import opened GoCacheClient

  datatype DomainCreateRequest = DomainCreateRequest(name: string, origin: string, description: string, enabled: bool)

  /** Every operation reports a client failure as its own error and returns no result. */
  datatype DomainError = ClientFailure(cause: ClientError)

  const DomainPrefix := "/domain/"
  const DomainsPrefix := "/domains/"
  const ListPath := "/domain"

  /** The form every new domain is created with: a one-day cache, no WAF, CNAME mode. */
  function CreateBody(): (f: Form)
    ensures f.Keys == {"cache_ttl", "waf_status", "cdn_mode"}
    ensures CanonicalDigits(f["cache_ttl"]) && ParseNat(f["cache_ttl"]) == 24 * 60 * 60
    ensures f["waf_status"] == BoolText(false)
    ensures f["cdn_mode"] == "cname"
  {
    OneDay();
    assert "86400"[0] == '8';
    assert "cache_ttl"[0] != "waf_status"[0] && "cache_ttl"[1] != "cdn_mode"[1];
    map["cache_ttl" := "86400", "waf_status" := "false", "cdn_mode" := "cname"]
  }

  /** `86400` is a numeral for the number of seconds in a day. */
  lemma OneDay()
    ensures AllDigits("86400") && ParseNat("86400") == 24 * 60 * 60
  {
    var s1 := [] + ['8'];
    var s2 := s1 + ['6'];
    var s3 := s2 + ['4'];
    var s4 := s3 + ['0'];
    ParseNatSnoc([], '8');
    ParseNatSnoc(s1, '6');
    ParseNatSnoc(s2, '4');
    ParseNatSnoc(s3, '0');
    ParseNatSnoc(s4, '0');
    assert s4 + ['0'] == "86400";
  }

  /** And it is the text Go prints for that number: no other numeral of the value is canonical. */
  lemma OneDayText()
    ensures "86400" == FormatNat(24 * 60 * 60)
  {
    OneDay();
    var s := "86400";
    assert CanonicalDigits(s);
    FormatNatCanonical(s);
  }

  /** `CreateDomain`: the fixed form, posted to `/domain/{name}`. */
  function CreateDomain(c: Client, req: DomainCreateRequest): (r: Result<Request, DomainError>)
    ensures r.Success?
    ensures r.value.verb == POST && r.value.url == c.baseURL + DomainPrefix + req.name
    ensures r.value.header == AuthHeaders(c)
    ensures r.value.form == Some(CreateBody())
  {
    match Post(c, DomainPrefix + req.name, FormMap(CreateBody()))
    case Failure(e) => Failure(ClientFailure(e))
    case Success(q) => Success(q)
  }

  /** `DeleteDomain`: a DELETE of `/domains/{id}` without a body, the id in decimal. */
  function DeleteDomain(c: Client, domainID: int): (r: Request)
    ensures r.verb == DELETE && r.form.None?
    ensures HasPrefix(r.url, c.baseURL + DomainsPrefix) && r.url[|c.baseURL + DomainsPrefix|..] == FormatInt(domainID)
  {
    PrefixPairThenRest(c.baseURL, DomainsPrefix, FormatInt(domainID));
    DeleteSimple(c, DomainsPrefix + FormatInt(domainID))
  }

  function ListDomains(c: Client): (r: Request)
    requires CanGet(c)
    ensures r.verb == GET && r.url == c.baseURL + ListPath && r.form.None? && r.query == map[]
  {
    Get(c, ListPath)
  }

  // ---------------------------------------------------------------------
  // Properties
  // ---------------------------------------------------------------------

  /** Origin, description and the enabled flag never reach the upstream: only the name matters. */
  lemma OnlyNameSent(c: Client, a: DomainCreateRequest, b: DomainCreateRequest)
    ensures a.name == b.name <==> CreateDomain(c, a) == CreateDomain(c, b)
  {
    if CreateDomain(c, a) == CreateDomain(c, b) {
      var u := CreateDomain(c, a).value.url;
      assert u[|c.baseURL + DomainPrefix|..] == a.name;
      assert CreateDomain(c, b).value.url[|c.baseURL + DomainPrefix|..] == b.name;
    }
  }

  /** Creation and deletion use different collections: `/domain/...` against `/domains/...`. */
  lemma CreateAndDeletePathsDiffer(c: Client, req: DomainCreateRequest, id: int)
    ensures CreateDomain(c, req).value.url != DeleteDomain(c, id).url
  {
    var p := c.baseURL + DomainPrefix + req.name;
    var q := DeleteDomain(c, id).url;
    assert p[|c.baseURL| + 7] == '/';
    assert q[|c.baseURL| + 7] == 's';
  }
}
