/**
 * The DNS service (internal/services/dns_service.go) and the records it sends
 * (internal/models/dns.go). Listing and creating address a zone by its
 * domain name and refuse an empty one before any request; reading, updating
 * and deleting address a record by its numeric id.
 */
module DnsService {
  import opened Wrappers
  import opened Text
  import opened FormEncoder
  import opened GoCacheClient

  /** `DNSCreateRequest`: the record plus the zone it goes into, which is never serialised. */
  datatype DnsCreateRequest = DnsCreateRequest(name: string, recordType: string, content: string, ttl: int, cloud: int, domain: string)

  /** `DNSUpdateRequest`: the same record fields, without the zone. */
  datatype DnsUpdateRequest = DnsUpdateRequest(name: string, recordType: string, content: string, ttl: int, cloud: int)

  datatype DnsError =
    | EmptyDomain
    | ClientFailure(cause: ClientError)

  const DnsPrefix := "/dns/"

  /** The record part of a create request. */
  function RecordOf(req: DnsCreateRequest): (u: DnsUpdateRequest)
    ensures u.name == req.name && u.recordType == req.recordType && u.content == req.content
    ensures u.ttl == req.ttl && u.cloud == req.cloud
  {
    DnsUpdateRequest(req.name, req.recordType, req.content, req.ttl, req.cloud)
  }

  // ---------------------------------------------------------------------
  // The records as field tables
  // ---------------------------------------------------------------------

  function UpdateFields(u: DnsUpdateRequest): seq<Field> {
    [ Field("Name", true, "", "name", Str(u.name)),
      Field("Type", true, "", "type", Str(u.recordType)),
      Field("Content", true, "", "content", Str(u.content)),
      Field("TTL", true, "", "ttl", Int(u.ttl)),
      Field("Cloud", true, "", "cloud", Int(u.cloud)) ]
  }

  /** The zone field, tagged `json:"-"`. */
  function DomainField(domain: string): Field {
    Field("Domain", true, "", "-", Str(domain))
  }

  function CreateFields(req: DnsCreateRequest): seq<Field> {
    UpdateFields(RecordOf(req)) + [DomainField(req.domain)]
  }

  /**
   * The form a DNS record should produce: name, type and content when
   * non-empty, the TTL and the cloud flag always, in decimal.
   */
  function RecordForm(u: DnsUpdateRequest): (f: Form)
    ensures f.Keys <= {"name", "type", "content", "ttl", "cloud"}
    ensures "name" in f <==> u.name != ""
    ensures "type" in f <==> u.recordType != ""
    ensures "content" in f <==> u.content != ""
    ensures "name" in f ==> f["name"] == u.name
    ensures "type" in f ==> f["type"] == u.recordType
    ensures "content" in f ==> f["content"] == u.content
    ensures "ttl" in f && IsNumeral(f["ttl"]) && ParseInt(f["ttl"]) == u.ttl
    ensures "cloud" in f && IsNumeral(f["cloud"]) && ParseInt(f["cloud"]) == u.cloud
  {
    RecordKeysDistinct();
    var t := TextEntries(u);
    var f := t + map["ttl" := FormatInt(u.ttl)] + map["cloud" := FormatInt(u.cloud)];
    assert f["ttl"] == FormatInt(u.ttl);
    f
  }

  /** The three text fields of a record, each sent only when non-empty. */
  function TextEntries(u: DnsUpdateRequest): (f: Form)
    ensures f.Keys <= {"name", "type", "content"}
    ensures "name" in f <==> u.name != ""
    ensures "type" in f <==> u.recordType != ""
    ensures "content" in f <==> u.content != ""
    ensures "name" in f ==> f["name"] == u.name
    ensures "type" in f ==> f["type"] == u.recordType
    ensures "content" in f ==> f["content"] == u.content
  {
    RecordKeysDistinct();
    StrEntry("name", u.name) + StrEntry("type", u.recordType) + StrEntry("content", u.content)
  }

  /** The five keys of a record are different strings, and each is a plain tag. */
  lemma RecordKeysDistinct()
    ensures "name" != "type" && "name" != "content" && "name" != "ttl" && "name" != "cloud"
    ensures "type" != "content" && "type" != "ttl" && "type" != "cloud"
    ensures "content" != "ttl" && "content" != "cloud" && "ttl" != "cloud"
    ensures PlainTag("name") && PlainTag("type") && PlainTag("content") && PlainTag("ttl") && PlainTag("cloud")
  {
    assert |"content"| == 7 && |"cloud"| == 5 && |"ttl"| == 3 && |"name"| == 4;
    assert "name"[0] != "type"[0];
  }

  /** The update record encodes to the record form. */
  lemma UpdateEncoding(u: DnsUpdateRequest)
    ensures EncodeFields(UpdateFields(u)) == RecordForm(u)
  {
    var f0 := Field("Name", true, "", "name", Str(u.name));
    var f1 := Field("Type", true, "", "type", Str(u.recordType));
    var f2 := Field("Content", true, "", "content", Str(u.content));
    var f3 := Field("TTL", true, "", "ttl", Int(u.ttl));
    var f4 := Field("Cloud", true, "", "cloud", Int(u.cloud));
    RecordKeysDistinct();
    TaggedStr("Name", "name", u.name);
    TaggedStr("Type", "type", u.recordType);
    TaggedStr("Content", "content", u.content);
    TaggedInt("TTL", "ttl", u.ttl);
    TaggedInt("Cloud", "cloud", u.cloud);
    EncodeFourAs(f0, f1, f2, f3, StrEntry("name", u.name), StrEntry("type", u.recordType),
                 StrEntry("content", u.content), map["ttl" := FormatInt(u.ttl)]);
    EncodeFieldsSnoc([f0, f1, f2, f3], f4);
    assert [f0, f1, f2, f3] + [f4] == [f0, f1, f2, f3, f4];
    RecordFormUnfolds(u);
  }

  lemma RecordFormUnfolds(u: DnsUpdateRequest)
    ensures RecordForm(u) == StrEntry("name", u.name) + StrEntry("type", u.recordType) + StrEntry("content", u.content)
                             + map["ttl" := FormatInt(u.ttl)] + map["cloud" := FormatInt(u.cloud)]
  {
  }

  /** The create record encodes to the same form: its zone field contributes nothing. */
  lemma CreateEncoding(req: DnsCreateRequest)
    ensures EncodeFields(CreateFields(req)) == RecordForm(RecordOf(req))
  {
    var d := DomainField(req.domain);
    DashTagged(d);
    SilentLast(UpdateFields(RecordOf(req)), d);
    UpdateEncoding(RecordOf(req));
  }

  // ---------------------------------------------------------------------
  // Service operations
  // ---------------------------------------------------------------------

  /** `/dns/{id}`, the id in decimal. */
  function RecordPath(id: int): (r: string)
    ensures HasPrefix(r, DnsPrefix) && r[|DnsPrefix|..] == FormatInt(id)
  {
    PrefixThenRest(DnsPrefix, FormatInt(id));
    DnsPrefix + FormatInt(id)
  }

  /** `ListDNS`: an empty domain fails before any request; otherwise a GET of `/dns/{domain}`. */
  function ListDNS(c: Client, domain: string): (r: Result<Request, DnsError>)
    requires domain != "" ==> CanGet(c)
    ensures r.Failure? <==> domain == ""
    ensures r.Failure? ==> r.error == EmptyDomain
    ensures r.Success? ==> r.value.verb == GET && r.value.url == c.baseURL + DnsPrefix + domain && r.value.form.None?
  {
    if domain == "" then Failure(EmptyDomain)
    else Success(Get(c, DnsPrefix + domain))
  }

  function GetDNS(c: Client, id: int): (r: Request)
    requires CanGet(c)
    ensures r.verb == GET && r.url == c.baseURL + RecordPath(id) && r.form.None?
  {
    Get(c, RecordPath(id))
  }

  /**
   * `CreateDNS`: an empty zone fails before any request; otherwise the
   * record is posted to `/dns/{domain}`, encoded field by field.
   */
  function CreateDNS(c: Client, req: DnsCreateRequest): (r: Result<Request, DnsError>)
    ensures r.Failure? <==> req.domain == ""
    ensures r.Failure? ==> r.error == EmptyDomain
    ensures r.Success? ==>
              && r.value.verb == POST
              && r.value.header == AuthHeaders(c)
              && r.value.url == c.baseURL + DnsPrefix + req.domain
              && r.value.form == Some(RecordForm(RecordOf(req)))
  {
    if req.domain == "" then Failure(EmptyDomain)
    else
      var body := Record(CreateFields(req));
      CreateEncoding(req);
      assert Encode(body) == Success(RecordForm(RecordOf(req)));
      assert c.baseURL + (DnsPrefix + req.domain) == c.baseURL + DnsPrefix + req.domain;
      match Post(c, DnsPrefix + req.domain, body)
      case Failure(e) => Failure(ClientFailure(e))
      case Success(q) => Success(q)
  }

  /** `UpdateDNS`: the record is sent by `Put` to `/dns/{id}`. */
  function UpdateDNS(c: Client, id: int, u: DnsUpdateRequest): (r: Result<Request, DnsError>)
    ensures r.Success?
    ensures r.value.verb == PUT && r.value.url == c.baseURL + RecordPath(id)
    ensures r.value.header == AuthHeaders(c)
    ensures r.value.form == Some(RecordForm(u))
  {
    var body := Record(UpdateFields(u));
    UpdateEncoding(u);
    assert Encode(body) == Success(RecordForm(u));
    match Put(c, RecordPath(id), body)
    case Failure(e) => Failure(ClientFailure(e))
    case Success(q) => Success(q)
  }

  /** `DeleteDNS`: a DELETE of `/dns/{id}` without a body. */
  function DeleteDNS(c: Client, id: int): (r: Request)
    ensures r.verb == DELETE && r.url == c.baseURL + RecordPath(id) && r.form.None?
  {
    DeleteSimple(c, RecordPath(id))
  }

  // ---------------------------------------------------------------------
  // Properties
  // ---------------------------------------------------------------------

  /** Creating and then updating with the same record sends the same form. */
  lemma CreateAndUpdateAgree(c: Client, req: DnsCreateRequest, id: int)
    requires req.domain != ""
    ensures CreateDNS(c, req).value.form == UpdateDNS(c, id, RecordOf(req)).value.form
  {
  }

  /** The zone only reaches the path: two requests differing only in their zone send the same form. */
  lemma ZoneNeverInForm(c: Client, req: DnsCreateRequest, other: string)
    requires req.domain != "" && other != ""
    ensures CreateDNS(c, req).value.form == CreateDNS(c, req.(domain := other)).value.form
    ensures CreateDNS(c, req).value.url != CreateDNS(c, req.(domain := other)).value.url <==> req.domain != other
  {
    if req.domain != other {
      var u1 := c.baseURL + DnsPrefix + req.domain;
      var u2 := c.baseURL + DnsPrefix + other;
      assert u1[|c.baseURL + DnsPrefix|..] == req.domain;
      assert u2[|c.baseURL + DnsPrefix|..] == other;
    }
  }

  /** The encoded form gives back the record's TTL and cloud flag, and its non-empty strings. */
  lemma RecordFormRoundTrip(u: DnsUpdateRequest)
    requires u.name != "" && u.recordType != "" && u.content != ""
    ensures var f := RecordForm(u);
            DnsUpdateRequest(f["name"], f["type"], f["content"], ParseInt(f["ttl"]), ParseInt(f["cloud"])) == u
  {
  }
}
