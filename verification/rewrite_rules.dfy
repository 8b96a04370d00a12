/**
 * Rewrite smart rules (internal/services/smart_rule_rewrite_service.go,
 * request types in internal/models/smart_rule.go).
 *
 * The service does not hand its request struct to the client's encoder: it
 * builds the form by hand under the key names the upstream API expects,
 * which differ from the struct's own `form` tags. This module models that
 * hand-built form, the endpoints, and the simplified rule built from four
 * inputs.
 */
module SmartRuleRewrite {
  import opened Wrappers
  import opened Text
  import opened FormEncoder
  import opened GoCacheClient
  import opened Markdown

  /** The conditions of a rule. `request` is the older spelling of `requestURI`. */
  datatype RuleMatch = RuleMatch(
    requestURI: string,
    request: string,
    requestMethods: seq<string>,
    deviceTypes: seq<string>,
    host: string)

  datatype RuleAction = RuleAction(
    redirectType: string,
    redirectTo: string,
    rewriteURI: string,
    rewriteHost: string,
    destination: string,
    crossOrigin: string)

  /** A rule to create or update; `domain` only selects the endpoint. */
  datatype RewriteRequest = RewriteRequest(matching: RuleMatch, action: RuleAction, domain: string)

  /** The four inputs of a simplified rule. */
  datatype SimplifiedRequest = SimplifiedRequest(
    domain: string,
    parentDomain: string,
    bucketURL: string,
    accountID: string)

  const RequestURIKey := "match[request_uri]"
  const RequestMethodKey := "match[request_method][]"
  const DeviceTypeKey := "match[device_type]"
  const RedirectTypeKey := "action[redirect_type]"
  const RedirectToKey := "action[redirect_to]"
  const SetURIKey := "action[set_uri]"
  const SetHostKey := "action[set_host]"
  const BackendKey := "action[backend]"
  const CorsKey := "action[cors]"
  const SslModeKey := "action[ssl_mode]"
  /** The key the struct's tag would give the host; the hand-built form never uses it. */
  const HostKey := "match[host]"

  /** The keys other than the numbered device-type keys. */
  const FixedKeys: set<string> :=
    {RequestURIKey, RequestMethodKey, RedirectTypeKey, RedirectToKey, SetURIKey, SetHostKey, BackendKey, CorsKey}

  /** `form[key] = value`, done only when the value is non-empty. */
  function WithEntry(form: Form, key: string, value: string): (r: Form)
    ensures value == "" ==> r == form
    ensures value != "" ==> r == form[key := value]
  {
    if value == "" then form else form[key := value]
  }

  /** The loop that writes every element of `values` under the same key, in order. */
  function WriteEach(form: Form, key: string, values: seq<string>): Form
    decreases |values|
  {
    if |values| == 0 then form else WriteEach(form[key := values[0]], key, values[1..])
  }

  /** Writing several values under one key keeps only the last of them. */
  lemma {:induction false} WriteEachLastWins(form: Form, key: string, values: seq<string>)
    ensures |values| == 0 ==> WriteEach(form, key, values) == form
    ensures |values| > 0 ==> WriteEach(form, key, values) == form[key := values[|values| - 1]]
    decreases |values|
  {
    if |values| > 1 {
      WriteEachLastWins(form[key := values[0]], key, values[1..]);
      assert form[key := values[0]][key := values[|values| - 1]] == form[key := values[|values| - 1]];
    }
  }

  /** The URI condition sent: `requestURI`, or `request` when `requestURI` is empty. */
  function MatchURI(m: RuleMatch): (r: string)
    ensures m.requestURI != "" ==> r == m.requestURI
    ensures m.requestURI == "" ==> r == m.request
  {
    if m.requestURI != "" then m.requestURI else m.request
  }

  /**
   * The device types under `match[device_type][i]`, one per element, empty
   * strings included: the same numbering the client's encoder gives a slice
   * of strings.
   */
  function DeviceForm(types: seq<string>): (r: Form)
    ensures r.Keys <= IndexedKeys(DeviceTypeKey, |types|)
    ensures forall i :: 0 <= i < |types| ==> IndexedKey(DeviceTypeKey, i) in r
    ensures forall i :: 0 <= i < |types| ==> r[IndexedKey(DeviceTypeKey, i)] == types[i]
  {
    SliceFormEntries(DeviceTypeKey, AsValues(types));
    SliceForm(DeviceTypeKey, AsValues(types))
  }

  /** No numbered device-type key coincides with a fixed key, the ssl key or the host key. */
  lemma DeviceKeysDistinct(n: nat, k: string)
    requires k in IndexedKeys(DeviceTypeKey, n)
    ensures k !in FixedKeys && k != SslModeKey && k != HostKey
  {
    IndexedKeysPrefix(DeviceTypeKey, n, k);
    assert k[6] == 'd' && k[7] == 'e';
  }

  const ActionKeys: set<string> := {RedirectTypeKey, RedirectToKey, SetURIKey, SetHostKey, BackendKey, CorsKey}

  /** The match keys and the action keys are different strings. */
  lemma MatchActionKeysDisjoint()
    ensures {RequestURIKey, RequestMethodKey} !! ActionKeys
    ensures SslModeKey !in FixedKeys && HostKey !in FixedKeys
  {
    ActionKeysStartWithA();
    assert RequestURIKey[0] == 'm' && RequestMethodKey[0] == 'm';
    SslModeNotFixed();
    HostNotFixed();
  }

  lemma ActionKeysStartWithA()
    ensures forall k :: k in ActionKeys ==> |k| > 0 && k[0] == 'a'
  {
  }

  /** The six action keys are six different strings. */
  lemma ActionKeysDistinct()
    ensures RedirectTypeKey != RedirectToKey && RedirectTypeKey != SetURIKey && RedirectTypeKey != SetHostKey
    ensures RedirectTypeKey != BackendKey && RedirectTypeKey != CorsKey
    ensures RedirectToKey != SetURIKey && RedirectToKey != SetHostKey && RedirectToKey != BackendKey && RedirectToKey != CorsKey
    ensures SetURIKey != SetHostKey && SetURIKey != BackendKey && SetURIKey != CorsKey
    ensures SetHostKey != BackendKey && SetHostKey != CorsKey && BackendKey != CorsKey
  {
    assert |RedirectTypeKey| == 21 && |RedirectToKey| == 19 && |SetHostKey| == 16 && |CorsKey| == 12;
    assert |SetURIKey| == 15 && |BackendKey| == 15 && SetURIKey[7] != BackendKey[7];
  }

  lemma SslModeNotFixed()
    ensures SslModeKey !in FixedKeys
  {
    assert |SslModeKey| == 16 && SslModeKey[8] == 's';
    assert |SetHostKey| == 16 && SetHostKey[8] == 'e';
    assert |RequestURIKey| == 18 && |RequestMethodKey| == 23 && |RedirectTypeKey| == 21;
    assert |RedirectToKey| == 19 && |SetURIKey| == 15 && |BackendKey| == 15 && |CorsKey| == 12;
  }

  lemma HostNotFixed()
    ensures HostKey !in FixedKeys
  {
    assert |HostKey| == 11;
    assert |RequestURIKey| == 18 && |RequestMethodKey| == 23 && |RedirectTypeKey| == 21 && |SetHostKey| == 16;
    assert |RedirectToKey| == 19 && |SetURIKey| == 15 && |BackendKey| == 15 && |CorsKey| == 12;
  }

  /** The match entries: the URI condition and the last of the methods. */
  function MatchEntries(m: RuleMatch): (r: Form)
    ensures r.Keys <= {RequestURIKey, RequestMethodKey}
    ensures RequestURIKey in r <==> m.requestURI != "" || m.request != ""
    ensures RequestURIKey in r ==> r[RequestURIKey] == MatchURI(m)
    ensures RequestMethodKey in r <==> |m.requestMethods| > 0
    ensures |m.requestMethods| > 0 ==> r[RequestMethodKey] == m.requestMethods[|m.requestMethods| - 1]
  {
    var f0 := WithEntry(map[], RequestURIKey, MatchURI(m));
    WriteEachLastWins(f0, RequestMethodKey, m.requestMethods);
    WriteEach(f0, RequestMethodKey, m.requestMethods)
  }

  /** The action entries, each present only when its value is non-empty; the CORS origin cleaned. */
  function ActionEntries(a: RuleAction): (r: Form)
    ensures r.Keys <= ActionKeys
    ensures RedirectTypeKey in r <==> a.redirectType != ""
    ensures RedirectTypeKey in r ==> r[RedirectTypeKey] == a.redirectType
    ensures RedirectToKey in r <==> a.redirectTo != ""
    ensures RedirectToKey in r ==> r[RedirectToKey] == a.redirectTo
    ensures SetURIKey in r <==> a.rewriteURI != ""
    ensures SetURIKey in r ==> r[SetURIKey] == a.rewriteURI
    ensures SetHostKey in r <==> a.rewriteHost != ""
    ensures SetHostKey in r ==> r[SetHostKey] == a.rewriteHost
    ensures BackendKey in r <==> a.destination != ""
    ensures BackendKey in r ==> r[BackendKey] == a.destination
    ensures CorsKey in r <==> a.crossOrigin != ""
    ensures CorsKey in r ==> r[CorsKey] == ExtractURL(a.crossOrigin)
  {
    ActionKeysDistinct();
    var f5 := RewriteEntries(a);
    var f6 := WithEntry(f5, BackendKey, a.destination);
    if a.crossOrigin != "" then f6[CorsKey := ExtractURL(a.crossOrigin)] else f6
  }

  /** The first four action entries: the redirect pair, then the URI and host rewrites. */
  function RewriteEntries(a: RuleAction): (r: Form)
    ensures r.Keys <= {RedirectTypeKey, RedirectToKey, SetURIKey, SetHostKey}
    ensures RedirectTypeKey in r <==> a.redirectType != ""
    ensures RedirectTypeKey in r ==> r[RedirectTypeKey] == a.redirectType
    ensures RedirectToKey in r <==> a.redirectTo != ""
    ensures RedirectToKey in r ==> r[RedirectToKey] == a.redirectTo
    ensures SetURIKey in r <==> a.rewriteURI != ""
    ensures SetURIKey in r ==> r[SetURIKey] == a.rewriteURI
    ensures SetHostKey in r <==> a.rewriteHost != ""
    ensures SetHostKey in r ==> r[SetHostKey] == a.rewriteHost
  {
    ActionKeysDistinct();
    var f3 := RedirectEntries(a);
    var f4 := WithEntry(f3, SetURIKey, a.rewriteURI);
    WithEntry(f4, SetHostKey, a.rewriteHost)
  }

  /** The redirect pair of the action entries. */
  function RedirectEntries(a: RuleAction): (r: Form)
    ensures r.Keys <= {RedirectTypeKey, RedirectToKey}
    ensures RedirectTypeKey in r <==> a.redirectType != ""
    ensures RedirectTypeKey in r ==> r[RedirectTypeKey] == a.redirectType
    ensures RedirectToKey in r <==> a.redirectTo != ""
    ensures RedirectToKey in r ==> r[RedirectToKey] == a.redirectTo
  {
    ActionKeysDistinct();
    var f2 := WithEntry(map[], RedirectTypeKey, a.redirectType);
    WithEntry(f2, RedirectToKey, a.redirectTo)
  }

  /**
   * The form both create and update send: the numbered device types, the
   * match entries and the action entries. The service writes them all into
   * one map; their keys never collide, so the map is the union of the three
   * parts. The host condition is never sent.
   */
  function RuleForm(m: RuleMatch, a: RuleAction): (r: Form)
    ensures r.Keys <= FixedKeys + IndexedKeys(DeviceTypeKey, |m.deviceTypes|)
    ensures SslModeKey !in r && HostKey !in r
    ensures forall k :: k in MatchEntries(m) ==> k in r && r[k] == MatchEntries(m)[k]
    ensures forall k :: k in ActionEntries(a) ==> k in r && r[k] == ActionEntries(a)[k]
    ensures forall k :: k in FixedKeys && k !in MatchEntries(m) && k !in ActionEntries(a) ==> k !in r
    ensures forall i :: 0 <= i < |m.deviceTypes| ==>
              IndexedKey(DeviceTypeKey, i) in r && r[IndexedKey(DeviceTypeKey, i)] == m.deviceTypes[i]
  {
    var devices := DeviceForm(m.deviceTypes);
    ThreePartsApart(devices, MatchEntries(m), ActionEntries(a), |m.deviceTypes|);
    devices + MatchEntries(m) + ActionEntries(a)
  }

  /**
   * Numbered device keys, match keys and action keys are pairwise different,
   * so their union keeps every part's entries and has no others.
   */
  lemma ThreePartsApart(devices: Form, me: Form, ae: Form, n: nat)
    requires devices.Keys <= IndexedKeys(DeviceTypeKey, n)
    requires me.Keys <= {RequestURIKey, RequestMethodKey} && ae.Keys <= ActionKeys
    ensures (devices + me + ae).Keys <= FixedKeys + IndexedKeys(DeviceTypeKey, n)
    ensures SslModeKey !in devices + me + ae && HostKey !in devices + me + ae
    ensures forall k :: k in me ==> k in devices + me + ae && (devices + me + ae)[k] == me[k]
    ensures forall k :: k in ae ==> k in devices + me + ae && (devices + me + ae)[k] == ae[k]
    ensures forall k :: k in FixedKeys && k !in me && k !in ae ==> k !in devices + me + ae
    ensures forall k :: k in devices ==> k in devices + me + ae && (devices + me + ae)[k] == devices[k]
  {
    MatchActionKeysDisjoint();
    forall k | k in devices
      ensures k !in FixedKeys && k != SslModeKey && k != HostKey
    {
      DeviceKeysDistinct(n, k);
    }
  }

  /** `CreateRewriteRule`'s form: the rule form plus a fixed `partial` SSL mode. */
  function CreateForm(req: RewriteRequest): (r: Form)
    ensures SslModeKey in r && r[SslModeKey] == "partial"
    ensures forall k :: k != SslModeKey ==> (k in r <==> k in RuleForm(req.matching, req.action))
    ensures forall k :: k in r && k != SslModeKey ==> r[k] == RuleForm(req.matching, req.action)[k]
  {
    RuleForm(req.matching, req.action)[SslModeKey := "partial"]
  }

  /** `UpdateRewriteRule`'s form: the rule form alone, with no SSL mode. */
  function UpdateForm(req: RewriteRequest): (r: Form)
    ensures SslModeKey !in r
    ensures r == RuleForm(req.matching, req.action)
  {
    RuleForm(req.matching, req.action)
  }

  /** Create and update send the same form except for the SSL mode, which only create sets. */
  lemma CreateIsUpdatePlusSslMode(req: RewriteRequest)
    ensures CreateForm(req) - {SslModeKey} == UpdateForm(req)
    ensures CreateForm(req) == UpdateForm(req)[SslModeKey := "partial"]
  {
    assert CreateForm(req).Keys - {SslModeKey} == UpdateForm(req).Keys;
  }

  /** The host condition has no effect on what is sent. */
  lemma HostNeverSent(m: RuleMatch, a: RuleAction, host: string)
    ensures RuleForm(m.(host := host), a) == RuleForm(m, a)
    ensures HostKey !in RuleForm(m, a)
  {
  }

  /**
   * Given to the client's generic encoder, the request struct would produce
   * an empty form: `Match` and `Action` are nested structs, which the encoder
   * skips, and `Domain` is tagged `json:"-"`.
   */
  function RequestRecord(req: RewriteRequest): Body {
    Record([
      Field("Match", true, "", "match", Composite),
      Field("Action", true, "", "action", Composite),
      Field("Domain", true, "", "-", Str(req.domain))])
  }

  lemma StructEncodingIsEmpty(req: RewriteRequest)
    ensures Encode(RequestRecord(req)) == Success(map[])
  {
    var fs := RequestRecord(req).fields;
    assert WireName(fs[2]) == "-";
    assert forall i :: 0 <= i < |fs| ==> FieldForm(fs[i]) == map[];
    AllSilent(fs);
  }

  // ---------------------------------------------------------------------
  // Endpoints and requests
  // ---------------------------------------------------------------------

  function RulesPath(domain: string): (r: string)
    ensures HasPrefix(r, "/rules/settings/") && r[|"/rules/settings/"|..] == domain
  {
    PrefixThenRest("/rules/settings/", domain);
    "/rules/settings/" + domain
  }

  function RulePath(domain: string, id: string): (r: string)
    ensures HasPrefix(r, RulesPath(domain)) && r[|RulesPath(domain)|..] == "/" + id
  {
    PrefixThenRest(RulesPath(domain), "/" + id);
    RulesPath(domain) + ("/" + id)
  }

  /** `CreateRewriteRule`: a POST of the create form to the rule domain's endpoint; it cannot fail before sending. */
  function CreateRewriteRule(c: Client, req: RewriteRequest): (r: Result<Request, ClientError>)
    ensures r.Success?
    ensures r.value.verb == POST && r.value.url == c.baseURL + RulesPath(req.domain)
    ensures r.value.header == AuthHeaders(c)
    ensures r.value.form == Some(CreateForm(req))
  {
    Post(c, RulesPath(req.domain), FormMap(CreateForm(req)))
  }

  function ListRewriteRules(c: Client, domain: string): (r: Request)
    requires CanGet(c)
    ensures r.verb == GET && r.url == c.baseURL + RulesPath(domain) && r.form == None
  {
    Get(c, RulesPath(domain))
  }

  function DeleteRewriteRule(c: Client, domain: string, id: string): (r: Request)
    ensures r.verb == DELETE && r.url == c.baseURL + RulePath(domain, id) && r.form == None
  {
    DeleteSimple(c, RulePath(domain, id))
  }

  /**
   * `UpdateRewriteRule`: a PUT of the update form; the endpoint comes from
   * the `domain` argument, not from the request's own domain.
   */
  function UpdateRewriteRule(c: Client, domain: string, id: string, req: RewriteRequest): (r: Result<Request, ClientError>)
    ensures r.Success?
    ensures r.value.verb == PUT && r.value.url == c.baseURL + RulePath(domain, id)
    ensures r.value.header == AuthHeaders(c)
    ensures r.value.form == Some(UpdateForm(req))
  {
    Put(c, RulePath(domain, id), FormMap(UpdateForm(req)))
  }

  // ---------------------------------------------------------------------
  // Simplified rules
  // ---------------------------------------------------------------------

  /** The CORS origin of a subdomain: kept when it has a scheme, else given `http://`. */
  function CorsOrigin(domain: string): (r: string)
    ensures HasPrefix(r, "http://") || HasPrefix(r, "https://")
    ensures HasSuffix(r, domain)
    ensures (HasPrefix(domain, "http://") || HasPrefix(domain, "https://")) ==> r == domain
    ensures !(HasPrefix(domain, "http://") || HasPrefix(domain, "https://")) ==> r == "http://" + domain
  {
    if HasPrefix(domain, "http://") || HasPrefix(domain, "https://") then domain
    else
      var r := "http://" + domain;
      assert r[|r| - |domain|..] == domain;
      r
  }

  /** Adding the scheme twice changes nothing more. */
  lemma CorsOriginIdempotent(domain: string)
    ensures CorsOrigin(CorsOrigin(domain)) == CorsOrigin(domain)
  {
  }

  /**
   * The full rule behind a simplified request: created on the parent domain,
   * matching every URI, rewriting it under the account's folder and sending
   * it to the bucket, with CORS opened to the subdomain.
   */
  function SimplifiedRule(s: SimplifiedRequest): (r: RewriteRequest)
    ensures r.domain == s.parentDomain
    ensures r.matching.requestURI == "/*" && r.matching.host == s.domain
    ensures r.matching.requestMethods == [] && r.matching.deviceTypes == []
    ensures r.action.crossOrigin == CorsOrigin(s.domain)
    ensures r.action.rewriteURI == "/" + s.accountID + "/$1"
    ensures r.action.rewriteHost == s.bucketURL && r.action.destination == s.bucketURL
    ensures r.action.redirectType == "" && r.action.redirectTo == ""
  {
    RewriteRequest(
      RuleMatch("/*", "", [], [], s.domain),
      RuleAction("", "", "/" + s.accountID + "/$1", s.bucketURL, s.bucketURL, CorsOrigin(s.domain)),
      s.parentDomain)
  }

  function CreateSimplifiedRule(c: Client, s: SimplifiedRequest): (r: Result<Request, ClientError>)
    ensures r.Success? && r.value.url == c.baseURL + RulesPath(s.parentDomain)
    ensures r.value.verb == POST && r.value.header == AuthHeaders(c)
    ensures r.value.form == Some(CreateForm(SimplifiedRule(s)))
  {
    CreateRewriteRule(c, SimplifiedRule(s))
  }

  /**
   * What a simplified rule sends: the match-all URI condition, the account's rewrite
   * path, the bucket as host and backend, the CORS origin, the SSL mode, and
   * nothing else; the subdomain reaches the form only through the CORS origin.
   */
  lemma SimplifiedRuleForm(s: SimplifiedRequest)
    requires s.bucketURL != "" && '[' !in s.domain && ']' !in s.domain
    ensures CreateForm(SimplifiedRule(s)) ==
              map[RequestURIKey := "/*", SetURIKey := "/" + s.accountID + "/$1",
                  SetHostKey := s.bucketURL, BackendKey := s.bucketURL,
                  CorsKey := CorsOrigin(s.domain), SslModeKey := "partial"]
  {
    var req := SimplifiedRule(s);
    CreateFormUnfolds(req);
    SimplifiedRuleParts(s);
    WithSslMode("/" + s.accountID + "/$1", s.bucketURL, CorsOrigin(s.domain));
  }

  lemma CreateFormUnfolds(req: RewriteRequest)
    ensures CreateForm(req) == RuleForm(req.matching, req.action)[SslModeKey := "partial"]
  {
  }

  /** Adding the SSL mode to the simplified entries gives the six-entry form. */
  lemma WithSslMode(uri: string, bucket: string, cors: string)
    ensures (map[RequestURIKey := "/*"] + map[SetURIKey := uri, SetHostKey := bucket, BackendKey := bucket, CorsKey := cors])[SslModeKey := "partial"]
            == map[RequestURIKey := "/*", SetURIKey := uri, SetHostKey := bucket,
                   BackendKey := bucket, CorsKey := cors, SslModeKey := "partial"]
  {
  }

  /** The rule form of a simplified rule: no device types, so just its match and action entries. */
  lemma SimplifiedRuleParts(s: SimplifiedRequest)
    requires s.bucketURL != "" && '[' !in s.domain && ']' !in s.domain
    ensures RuleForm(SimplifiedRule(s).matching, SimplifiedRule(s).action) ==
              map[RequestURIKey := "/*"]
              + map[SetURIKey := "/" + s.accountID + "/$1", SetHostKey := s.bucketURL,
                    BackendKey := s.bucketURL, CorsKey := CorsOrigin(s.domain)]
  {
    var m := SimplifiedRule(s).matching;
    var a := SimplifiedRule(s).action;
    RuleFormUnfolds(m, a);
    NoDevices();
    SimplifiedEntries(s);
    NoDevicesUnion(DeviceForm(m.deviceTypes), MatchEntries(m), ActionEntries(a));
  }

  lemma NoDevicesUnion(d: Form, me: Form, ae: Form)
    requires d == map[]
    ensures d + me + ae == me + ae
  {
    assert d + me == me;
  }

  lemma RuleFormUnfolds(m: RuleMatch, a: RuleAction)
    ensures RuleForm(m, a) == DeviceForm(m.deviceTypes) + MatchEntries(m) + ActionEntries(a)
  {
  }

  /** A rule without device types sends no device entries. */
  lemma NoDevices()
    ensures DeviceForm([]) == map[]
  {
    assert IndexedKeys(DeviceTypeKey, 0) == {};
  }

  /** The match and action entries of a simplified rule, written out. */
  lemma SimplifiedEntries(s: SimplifiedRequest)
    requires s.bucketURL != "" && '[' !in s.domain && ']' !in s.domain
    ensures MatchEntries(SimplifiedRule(s).matching) == map[RequestURIKey := "/*"]
    ensures ActionEntries(SimplifiedRule(s).action) ==
              map[SetURIKey := "/" + s.accountID + "/$1", SetHostKey := s.bucketURL,
                  BackendKey := s.bucketURL, CorsKey := CorsOrigin(s.domain)]
  {
    var cors := CorsOrigin(s.domain);
    assert '[' !in cors && ']' !in cors by {
      if !(HasPrefix(s.domain, "http://") || HasPrefix(s.domain, "https://")) {
        assert forall i :: 7 <= i < |cors| ==> cors[i] == s.domain[i - 7];
      }
    }
  }

}
