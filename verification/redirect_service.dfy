/**
 * The redirect-rule service (internal/services/redirect_service.go) and the
 * rule it posts (internal/models/redirect.go). A rule lives under its
 * domain's path, and the domain is also one of the rule's own fields.
 */
module RedirectService {
  import opened Wrappers
  import opened Text
  import opened FormEncoder
  import opened GoCacheClient

  /** `RedirectCreateRequest`; `redirectType` is the status code to answer with (301 or 302). */
  datatype RedirectCreateRequest = RedirectCreateRequest(domain: string, source: string, destination: string, redirectType: int)

  const RedirectsPrefix := "/redirects/"

  function CreateFields(req: RedirectCreateRequest): seq<Field> {
    [ Field("Domain", true, "", "domain", Str(req.domain)),
      Field("Source", true, "", "source", Str(req.source)),
      Field("Destination", true, "", "destination", Str(req.destination)),
      Field("Type", true, "", "type", Int(req.redirectType)) ]
  }

  /**
   * The form a rule should produce: domain, source and destination when
   * non-empty, the redirect type always, in decimal.
   */
  function RuleForm(req: RedirectCreateRequest): (f: Form)
    ensures f.Keys <= {"domain", "source", "destination", "type"}
    ensures "domain" in f <==> req.domain != ""
    ensures "source" in f <==> req.source != ""
    ensures "destination" in f <==> req.destination != ""
    ensures "domain" in f ==> f["domain"] == req.domain
    ensures "source" in f ==> f["source"] == req.source
    ensures "destination" in f ==> f["destination"] == req.destination
    ensures "type" in f && IsNumeral(f["type"]) && ParseInt(f["type"]) == req.redirectType
  {
    assert |"domain"| == 6 && |"source"| == 6 && |"destination"| == 11 && |"type"| == 4;
    assert "domain"[0] != "source"[0];
    var f := StrEntry("domain", req.domain) + StrEntry("source", req.source)
             + StrEntry("destination", req.destination) + map["type" := FormatInt(req.redirectType)];
    assert f["type"] == FormatInt(req.redirectType);
    f
  }

  lemma CreateEncoding(req: RedirectCreateRequest)
    ensures EncodeFields(CreateFields(req)) == RuleForm(req)
  {
    var f0 := Field("Domain", true, "", "domain", Str(req.domain));
    var f1 := Field("Source", true, "", "source", Str(req.source));
    var f2 := Field("Destination", true, "", "destination", Str(req.destination));
    var f3 := Field("Type", true, "", "type", Int(req.redirectType));
    TaggedStr("Domain", "domain", req.domain);
    TaggedStr("Source", "source", req.source);
    TaggedStr("Destination", "destination", req.destination);
    TaggedInt("Type", "type", req.redirectType);
    EncodeFourAs(f0, f1, f2, f3, StrEntry("domain", req.domain), StrEntry("source", req.source),
                 StrEntry("destination", req.destination), map["type" := FormatInt(req.redirectType)]);
    RuleFormUnfolds(req);
  }

  lemma RuleFormUnfolds(req: RedirectCreateRequest)
    ensures RuleForm(req) == StrEntry("domain", req.domain) + StrEntry("source", req.source)
                             + StrEntry("destination", req.destination) + map["type" := FormatInt(req.redirectType)]
  {
  }

  // ---------------------------------------------------------------------
  // Service operations
  // ---------------------------------------------------------------------

  /** `/redirects/{domain}`. */
  function RulesPath(domain: string): (r: string)
    ensures HasPrefix(r, RedirectsPrefix) && r[|RedirectsPrefix|..] == domain
  {
    PrefixThenRest(RedirectsPrefix, domain);
    RedirectsPrefix + domain
  }

  /** `/redirects/{domain}/{id}`, the id in decimal. */
  function RulePath(domain: string, id: int): (r: string)
    ensures HasPrefix(r, RulesPath(domain)) && r[|RulesPath(domain)|..] == "/" + FormatInt(id)
  {
    var p := RulesPath(domain);
    var q := "/" + FormatInt(id);
    PrefixThenRest(p, q);
    p + q
  }

  /**
   * `CreateRedirect`: the rule, passed by pointer, is posted to its
   * domain's path and encoded field by field.
   */
  function CreateRedirect(c: Client, req: RedirectCreateRequest): (r: Result<Request, ClientError>)
    ensures r.Success?
    ensures r.value.verb == POST && r.value.url == c.baseURL + RulesPath(req.domain)
    ensures r.value.header == AuthHeaders(c)
    ensures r.value.form == Some(RuleForm(req))
  {
    var body := Pointer(Record(CreateFields(req)));
    CreateEncoding(req);
    assert Encode(body) == Success(RuleForm(req));
    Post(c, RulesPath(req.domain), body)
  }

  function ListRedirects(c: Client, domain: string): (r: Request)
    requires CanGet(c)
    ensures r.verb == GET && r.url == c.baseURL + RulesPath(domain) && r.form.None?
  {
    Get(c, RulesPath(domain))
  }

  function DeleteRedirect(c: Client, domain: string, id: int): (r: Request)
    ensures r.verb == DELETE && r.url == c.baseURL + RulePath(domain, id) && r.form.None?
  {
    DeleteSimple(c, RulePath(domain, id))
  }

  // ---------------------------------------------------------------------
  // Properties
  // ---------------------------------------------------------------------

  /**
   * A rule with a domain carries it twice: once as the last segment of the
   * path and once under the `domain` key of the form. The form gives back
   * the whole rule.
   */
  lemma DomainInPathAndForm(c: Client, req: RedirectCreateRequest)
    requires req.domain != "" && req.source != "" && req.destination != ""
    ensures var q := CreateRedirect(c, req).value;
            && q.url[|c.baseURL + RedirectsPrefix|..] == q.form.value["domain"]
            && RedirectCreateRequest(q.form.value["domain"], q.form.value["source"],
                 q.form.value["destination"], ParseInt(q.form.value["type"])) == req
  {
    var q := CreateRedirect(c, req).value;
    assert q.url == (c.baseURL + RedirectsPrefix) + req.domain;
  }

  /** Creating and listing address the same path; a deletion addresses a path one segment below it. */
  lemma DeleteBelowList(domain: string, id: int)
    ensures HasPrefix(RulePath(domain, id), RulesPath(domain) + "/")
  {
  }
}
