/**
 * The smart-rule service (internal/services/smartrule_service.go) and the
 * request records it sends (internal/models/smartrules.go). Unlike the
 * rewrite-rule service, it hands its records to the client's encoder, so
 * what reaches the upstream is whatever the field walk makes of them.
 */
module SmartRuleService {
  import opened Wrappers
  import opened Text
  import opened FormEncoder
  import opened GoCacheClient

  /** One step of a smart rule: an action type and its argument. */
  datatype RuleAction = RuleAction(kind: string, value: string)

  datatype SmartRuleCreate = SmartRuleCreate(
    domainID: int,
    name: string,
    description: string,
    origin: string,
    path: string,
    actions: seq<RuleAction>,
    customDomain: string)

  datatype SmartRuleUpdate = SmartRuleUpdate(name: string, description: string, origin: string, path: string)

  /** The wrapper request for a rule that serves a folder of an S3 bucket. */
  datatype S3RuleRequest = S3RuleRequest(
    domainID: int,
    s3Bucket: string,
    userFolder: string,
    name: string,
    description: string,
    customDomain: string)

  // ---------------------------------------------------------------------
  // Endpoints
  // ---------------------------------------------------------------------

  const DomainsPrefix := "/domains/"
  const RulesSuffix := "/smart-rules"

  /** `/domains/{id}/smart-rules`, the id in decimal. */
  function RulesPath(domainID: int): (r: string)
    ensures HasPrefix(r, DomainsPrefix) && HasSuffix(r, RulesSuffix)
    ensures |r| == |DomainsPrefix| + |FormatInt(domainID)| + |RulesSuffix|
    ensures r[|DomainsPrefix|..|r| - |RulesSuffix|] == FormatInt(domainID)
  {
    var r := DomainsPrefix + FormatInt(domainID) + RulesSuffix;
    assert r[|r| - |RulesSuffix|..] == RulesSuffix;
    r
  }

  /** `/domains/{id}/smart-rules/{rule}`, both ids in decimal. */
  function RulePath(domainID: int, ruleID: int): (r: string)
    ensures HasPrefix(r, RulesPath(domainID)) && r[|RulesPath(domainID)|..] == "/" + FormatInt(ruleID)
  {
    PrefixThenRest(RulesPath(domainID), "/" + FormatInt(ruleID));
    RulesPath(domainID) + ("/" + FormatInt(ruleID))
  }

  /** Different (domain, rule) pairs never share an endpoint. */
  lemma RulePathInjective(d1: int, r1: int, d2: int, r2: int)
    requires RulePath(d1, r1) == RulePath(d2, r2)
    ensures d1 == d2 && r1 == r2
  {
    var q1 := RulesSuffix + "/" + FormatInt(r1);
    var q2 := RulesSuffix + "/" + FormatInt(r2);
    RulePathPieces(d1, r1, d2, r2);
    assert FormatInt(r1) == q1[|RulesSuffix| + 1..];
    assert FormatInt(r2) == q2[|RulesSuffix| + 1..];
  }

  lemma RulePathShape(d: int, r: int)
    ensures RulePath(d, r) == DomainsPrefix + FormatInt(d) + (RulesSuffix + "/" + FormatInt(r))
  {
  }

  /** The domain numeral ends at the first `/` after the prefix; the rest follows it. */
  lemma RulePathPieces(d1: int, r1: int, d2: int, r2: int)
    requires RulePath(d1, r1) == RulePath(d2, r2)
    ensures FormatInt(d1) == FormatInt(d2)
    ensures RulesSuffix + "/" + FormatInt(r1) == RulesSuffix + "/" + FormatInt(r2)
  {
    var a1, a2 := FormatInt(d1), FormatInt(d2);
    var q1 := RulesSuffix + "/" + FormatInt(r1);
    var q2 := RulesSuffix + "/" + FormatInt(r2);
    assert RulePath(d1, r1) == DomainsPrefix + a1 + q1 by {
      RulePathShape(d1, r1);
    }
    assert RulePath(d2, r2) == DomainsPrefix + a2 + q2 by {
      RulePathShape(d2, r2);
    }
    NumeralChars(a1, '/');
    NumeralChars(a2, '/');
    CutAtFirst(DomainsPrefix, a1, q1, a2, q2, '/');
  }

  // ---------------------------------------------------------------------
  // Deriving an S3 rule
  // ---------------------------------------------------------------------

  /**
   * The origin of an S3 rule: bucket, `/`, folder, `/`. Bucket and folder
   * can be read back from it.
   */
  function S3Origin(bucket: string, folder: string): (r: string)
    ensures HasPrefix(r, bucket + "/") && HasSuffix(r, "/")
    ensures |r| == |bucket| + |folder| + 2
    ensures r[|bucket| + 1..|r| - 1] == folder
  {
    var r := bucket + "/" + folder + "/";
    assert r[|bucket| + 1..|r| - 1] == folder;
    r
  }

  /**
   * The folder segment a default rule name is made from: the last
   * `/`-separated piece, or the one before it when the folder ends in `/`.
   * It is a whole segment of the folder: no `/` inside, it ends the folder
   * (before the trailing `/`, if any), and it starts the folder or follows
   * a `/`.
   */
  function FolderLabel(folder: string): (r: string)
    ensures '/' !in r
    ensures HasSuffix(folder, "/") ==>
              HasSuffix(folder, r + "/") && (|r| + 1 == |folder| || folder[|folder| - |r| - 2] == '/')
    ensures !HasSuffix(folder, "/") ==>
              HasSuffix(folder, r) && (|r| == |folder| || folder[|folder| - |r| - 1] == '/')
  {
    var parts := SplitOn(folder, '/');
    var n := |parts|;
    SplitJoin(folder, '/');
    if parts[n - 1] == "" && n > 1 then
      SplitPiecesFree(folder, '/', n - 2);
      PieceBeforeLastEnds(parts, '/');
      parts[n - 2]
    else
      SplitPiecesFree(folder, '/', n - 1);
      LastPieceEnds(parts, '/');
      parts[n - 1]
  }

  function DefaultName(folder: string): (r: string)
    ensures HasPrefix(r, "S3-") && r[3..] == FolderLabel(folder)
  {
    "S3-" + FolderLabel(folder)
  }

  /** A folder without `/` names the rule by itself. */
  lemma DefaultNameFlat(folder: string)
    requires '/' !in folder
    ensures DefaultName(folder) == "S3-" + folder
  {
    SplitWithout(folder, '/');
  }

  /** A nested folder is named after its last segment. */
  lemma DefaultNameNested(parent: string, leaf: string)
    requires '/' !in leaf && leaf != ""
    ensures DefaultName(parent + "/" + leaf) == "S3-" + leaf
  {
    SplitAround(parent, leaf, '/');
    SplitWithout(leaf, '/');
    assert parent + "/" + leaf == parent + ['/'] + leaf;
  }

  /** A trailing `/` is looked through: the segment before it names the rule. */
  lemma DefaultNameTrailingSlash(parent: string, leaf: string)
    requires '/' !in leaf
    ensures DefaultName(parent + "/" + leaf + "/") == "S3-" + leaf
  {
    var s := parent + "/" + leaf + "/";
    assert s == parent + ['/'] + (leaf + ['/'] + "");
    SplitAround(leaf, "", '/');
    SplitAround(parent, leaf + ['/'] + "", '/');
    SplitWithout(leaf, '/');
    SplitWithout("", '/');
    var parts := SplitOn(s, '/');
    assert parts[|parts| - 1] == "" && parts[|parts| - 2] == leaf;
  }

  /** A single segment with a trailing `/` names the rule by itself. */
  lemma DefaultNameSingleTrailing(leaf: string)
    requires '/' !in leaf
    ensures DefaultName(leaf + "/") == "S3-" + leaf
  {
    var folder := leaf + "/";
    var r := FolderLabel(folder);
    assert HasSuffix(folder, "/");
    assert r == folder[..|folder| - 1];
  }

  /** The four actions of an S3 rule, in the order they are sent. */
  function S3Actions(req: S3RuleRequest): (r: seq<RuleAction>)
    ensures |r| == 4
    ensures r[0] == RuleAction("set_cors", req.customDomain)
    ensures r[1] == RuleAction("rewrite_uri", "/" + req.userFolder + "/$1")
    ensures r[2] == RuleAction("set_host_header", req.s3Bucket)
    ensures r[3] == RuleAction("set_origin", req.s3Bucket)
  {
    [ RuleAction("set_cors", req.customDomain),
      RuleAction("rewrite_uri", "/" + req.userFolder + "/$1"),
      RuleAction("set_host_header", req.s3Bucket),
      RuleAction("set_origin", req.s3Bucket) ]
  }

  /**
   * `CreateS3SmartRule`'s record: the given name or a derived one, the S3
   * origin, path `/` and the four actions. The custom domain is used by the
   * CORS action only; the record's own custom-domain field stays empty.
   */
  function BuildS3Rule(req: S3RuleRequest): (r: SmartRuleCreate)
    ensures r.domainID == req.domainID && r.description == req.description
    ensures req.name != "" ==> r.name == req.name
    ensures req.name == "" ==> r.name == DefaultName(req.userFolder)
    ensures r.name != ""
    ensures r.origin == S3Origin(req.s3Bucket, req.userFolder) && r.path == "/"
    ensures r.actions == S3Actions(req)
    ensures r.customDomain == ""
  {
    var name := if req.name != "" then req.name else DefaultName(req.userFolder);
    SmartRuleCreate(req.domainID, name, req.description, S3Origin(req.s3Bucket, req.userFolder), "/", S3Actions(req), "")
  }

  // ---------------------------------------------------------------------
  // The records as the encoder sees them
  // ---------------------------------------------------------------------

  /** A slice of action structs as the encoder sees it: one composite element per action. */
  function StructItems(actions: seq<RuleAction>): (r: seq<Value>)
    ensures |r| == |actions|
    ensures forall j :: 0 <= j < |r| ==> r[j].Composite?
  {
    seq(|actions|, j => Composite)
  }

  /** The four string fields a create record shares with an update record. */
  function SharedPart(r: SmartRuleCreate): SmartRuleUpdate {
    SmartRuleUpdate(r.name, r.description, r.origin, r.path)
  }

  /**
   * The field table of the create record, in declaration order: the domain
   * id, the four fields shared with the update record, the actions and the
   * custom domain. Every field is exported and json-tagged.
   */
  function CreateFields(r: SmartRuleCreate): seq<Field> {
    IdFields(r.domainID) + UpdateFields(SharedPart(r)) + TrailingFields(r.actions, r.customDomain)
  }

  function IdFields(domainID: int): seq<Field> {
    [Field("DomainID", true, "", "domain_id", Int(domainID))]
  }

  function TrailingFields(actions: seq<RuleAction>, customDomain: string): seq<Field> {
    [ Field("Actions", true, "", "actions", Slice(StructItems(actions))),
      Field("CustomDomain", true, "", "custom_domain", Str(customDomain)) ]
  }

  function UpdateFields(u: SmartRuleUpdate): seq<Field> {
    [ Field("Name", true, "", "name", Str(u.name)),
      Field("Description", true, "", "description", Str(u.description)),
      Field("Origin", true, "", "origin", Str(u.origin)),
      Field("Path", true, "", "path", Str(u.path)) ]
  }

  /** The form an update record should produce: each string under its tag when non-empty. */
  function UpdateForm(u: SmartRuleUpdate): (f: Form)
    ensures f.Keys <= {"name", "description", "origin", "path"}
    ensures forall k :: k in f ==> f[k] != ""
  {
    StrEntry("name", u.name) + StrEntry("description", u.description)
      + StrEntry("origin", u.origin) + StrEntry("path", u.path)
  }

  /**
   * The form a create record should produce: the domain id always, the
   * strings when non-empty, and nothing at all for the actions.
   */
  function CreateForm(r: SmartRuleCreate): (f: Form)
    ensures "domain_id" in f && f["domain_id"] == FormatInt(r.domainID)
    ensures f.Keys <= {"domain_id", "name", "description", "origin", "path", "custom_domain"}
    ensures "actions" !in f
  {
    var id := map["domain_id" := FormatInt(r.domainID)];
    var u := UpdateForm(SharedPart(r));
    var cd := StrEntry("custom_domain", r.customDomain);
    KeysApart(id, u, cd);
    id + u + cd
  }

  /** Neither the id key nor the actions key is among the string keys. */
  lemma KeysApart(id: Form, u: Form, cd: Form)
    requires id.Keys == {"domain_id"}
    requires u.Keys <= {"name", "description", "origin", "path"}
    requires cd.Keys <= {"custom_domain"}
    ensures "domain_id" !in u + cd && "actions" !in id + u + cd
    ensures (id + u + cd).Keys <= {"domain_id", "name", "description", "origin", "path", "custom_domain"}
  {
    assert |"domain_id"| == 9 && |"actions"| == 7 && |"custom_domain"| == 13;
    assert |"name"| == 4 && |"description"| == 11 && |"origin"| == 6 && |"path"| == 4;
  }

  /** The encoder turns the create record into exactly the expected form. */
  lemma CreateEncoding(r: SmartRuleCreate)
    ensures EncodeFields(CreateFields(r)) == CreateForm(r)
  {
    var head, shared, tail := IdFields(r.domainID), UpdateFields(SharedPart(r)), TrailingFields(r.actions, r.customDomain);
    IdEncoding(r.domainID);
    UpdateEncoding(SharedPart(r));
    TrailingEncoding(r.actions, r.customDomain);
    EncodeConcat(head, shared);
    EncodeConcat(head + shared, tail);
  }

  lemma IdEncoding(domainID: int)
    ensures EncodeFields(IdFields(domainID)) == map["domain_id" := FormatInt(domainID)]
  {
    assert IdFields(domainID)[..0] == [];
    TaggedInt("DomainID", "domain_id", domainID);
  }

  /** The actions add nothing; the custom domain is sent when non-empty. */
  lemma TrailingEncoding(actions: seq<RuleAction>, customDomain: string)
    ensures EncodeFields(TrailingFields(actions, customDomain)) == StrEntry("custom_domain", customDomain)
  {
    var a := Field("Actions", true, "", "actions", Slice(StructItems(actions)));
    var cd := Field("CustomDomain", true, "", "custom_domain", Str(customDomain));
    assert FieldForm(cd) == StrEntry("custom_domain", customDomain) by {
      TaggedStr("CustomDomain", "custom_domain", customDomain);
    }
    assert FieldForm(a) == map[] by {
      StructSliceSilent(a);
    }
    EncodeTwo(a, cd);
  }

  lemma UpdateEncoding(u: SmartRuleUpdate)
    ensures EncodeFields(UpdateFields(u)) == UpdateForm(u)
  {
    var f0 := Field("Name", true, "", "name", Str(u.name));
    var f1 := Field("Description", true, "", "description", Str(u.description));
    var f2 := Field("Origin", true, "", "origin", Str(u.origin));
    var f3 := Field("Path", true, "", "path", Str(u.path));
    assert FieldForm(f0) == StrEntry("name", u.name) by {
      TaggedStr("Name", "name", u.name);
    }
    assert FieldForm(f1) == StrEntry("description", u.description) by {
      TaggedStr("Description", "description", u.description);
    }
    assert FieldForm(f2) == StrEntry("origin", u.origin) by {
      TaggedStr("Origin", "origin", u.origin);
    }
    assert FieldForm(f3) == StrEntry("path", u.path) by {
      TaggedStr("Path", "path", u.path);
    }
    EncodeFour(f0, f1, f2, f3);
  }

  // ---------------------------------------------------------------------
  // Service operations
  // ---------------------------------------------------------------------

  function ListSmartRules(c: Client, domainID: int): (r: Request)
    requires CanGet(c)
    ensures r.verb == GET && r.url == c.baseURL + RulesPath(domainID) && r.form == None
  {
    Get(c, RulesPath(domainID))
  }

  function GetSmartRule(c: Client, domainID: int, ruleID: int): (r: Request)
    requires CanGet(c)
    ensures r.verb == GET && r.url == c.baseURL + RulePath(domainID, ruleID) && r.form == None
  {
    Get(c, RulePath(domainID, ruleID))
  }

  /** `CreateSmartRule`: the record is posted to its domain's rule list and encoded field by field. */
  function CreateSmartRule(c: Client, rule: SmartRuleCreate): (r: Result<Request, ClientError>)
    ensures r.Success?
    ensures r.value.verb == POST && r.value.url == c.baseURL + RulesPath(rule.domainID)
    ensures r.value.header == AuthHeaders(c)
    ensures r.value.form == Some(CreateForm(rule))
  {
    CreateEncoding(rule);
    Post(c, RulesPath(rule.domainID), Record(CreateFields(rule)))
  }

  /**
   * `CreateS3SmartRule`: the derived rule is posted to the domain's rule
   * list. What is sent is the domain id, the name, the description when it
   * is non-empty, the origin and path `/`; none of the four actions and not
   * the custom domain reach the upstream.
   */
  function CreateS3SmartRule(c: Client, req: S3RuleRequest): (r: Result<Request, ClientError>)
    ensures r.Success?
    ensures r.value.verb == POST && r.value.url == c.baseURL + RulesPath(req.domainID)
    ensures r.value.header == AuthHeaders(c)
    ensures r.value.form == Some(S3Form(req))
  {
    S3CreateForm(req);
    CreateSmartRule(c, BuildS3Rule(req))
  }

  function UpdateSmartRule(c: Client, domainID: int, ruleID: int, u: SmartRuleUpdate): (r: Result<Request, ClientError>)
    ensures r.Success?
    ensures r.value.verb == PUT && r.value.url == c.baseURL + RulePath(domainID, ruleID)
    ensures r.value.header == AuthHeaders(c)
    ensures r.value.form == Some(UpdateForm(u))
  {
    UpdateEncoding(u);
    Put(c, RulePath(domainID, ruleID), Record(UpdateFields(u)))
  }

  function DeleteSmartRule(c: Client, domainID: int, ruleID: int): (r: Request)
    ensures r.verb == DELETE && r.url == c.baseURL + RulePath(domainID, ruleID) && r.form == None
  {
    DeleteSimple(c, RulePath(domainID, ruleID))
  }

  // ---------------------------------------------------------------------
  // Properties
  // ---------------------------------------------------------------------

  /** The form of an S3 rule, entry by entry. */
  function S3Form(req: S3RuleRequest): Form {
    map["domain_id" := FormatInt(req.domainID)]
    + map["name" := BuildS3Rule(req).name]
    + StrEntry("description", req.description)
    + map["origin" := S3Origin(req.s3Bucket, req.userFolder)]
    + map["path" := "/"]
  }

  /** The derived rule's create form is exactly the five S3 entries. */
  lemma S3CreateForm(req: S3RuleRequest)
    ensures CreateForm(BuildS3Rule(req)) == S3Form(req)
  {
    var r := BuildS3Rule(req);
    assert StrEntry("name", r.name) == map["name" := r.name];
    assert StrEntry("origin", r.origin) == map["origin" := r.origin] by {
      assert |r.origin| >= 2;
    }
    assert StrEntry("path", "/") == map["path" := "/"];
    assert StrEntry("custom_domain", "") == map[];
    var id := map["domain_id" := FormatInt(req.domainID)];
    var n, d, o, p := StrEntry("name", r.name), StrEntry("description", r.description),
                      StrEntry("origin", r.origin), StrEntry("path", r.path);
    assert CreateForm(r) == id + (((n + d) + o) + p) + map[];
    UnionAssoc(id, (n + d) + o, p);
    UnionAssoc(id, n + d, o);
    UnionAssoc(id, n, d);
    var m := id + (((n + d) + o) + p);
    assert m + map[] == m;
    assert CreateForm(r) == (((id + n) + d) + o) + p;
  }

  /** A create record without a custom domain sends its id plus exactly the update form of its strings. */
  lemma CreateExtendsUpdate(r: SmartRuleCreate)
    requires r.customDomain == ""
    ensures CreateForm(r) == map["domain_id" := FormatInt(r.domainID)]
                             + UpdateForm(SmartRuleUpdate(r.name, r.description, r.origin, r.path))
  {
  }
}
