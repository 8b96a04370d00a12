# poc-gocache in Dafny

poc-gocache is a small Go back end in front of the GoCache CDN API. It
exposes a REST API for DNS records, domains, cache purges, redirect rules and
"smart rules", and it forwards each call to the upstream as a form-encoded
request. It also keeps an in-memory table of host → destination mappings and
uses it to answer requests for mapped hosts with a 301 redirect.

This project models the logic underneath, as pure functions over immutable
values:

- **The form encoder and request assembly** (`pkg/gocache/client.go`).
  - Go reflection over a tagged struct becomes an explicit sequence of field
    descriptors: name, exported flag, `form` tag, `json` tag and value.
  - The encoder is one function, `FormEncoder.Encode`.
  - `doRequest` and `Put` contain the field walk twice; both are modelled
    through `Encode`, and `PutAgreesWithDoRequest` shows they agree.
  - A request is a value: verb, URL, headers, query and form.
- **The mapping store** (`internal/services/proxy_service.go`).
  - An ordered `seq` of mappings with upsert, lookup, copy-out listing and
    order-preserving delete.
  - A class `Store` mirrors the Go methods and their loops.
- **The separate append-only list** of the standalone redirect server
  (`cmd/proxy/main.go`), contrasted with the store.
- **The redirect resolver and port stripping** (`HostRedirect`), shared by
  all three places that redirect: the API handler, the API server's
  middleware and the standalone server's catch-all route.
  `RedirectSites` proves the three agree.
- **The hand-built rewrite-rule forms** (`smart_rule_rewrite_service.go`).
  This includes the Markdown-link URL extractor, modelled as a leftmost-match
  scanner.
- **The S3 smart-rule derivation** (`smartrule_service.go`).
- **The request shaping of the cache, DNS, redirect and domain services**:
  endpoints, pre-call validation and the forms their model structs encode to.

Strings are `seq<char>`. Go's `strings.Split`, `strconv.FormatInt` and
`fmt`'s `%d` are written out in `Text`, with their parsing inverses. Forms
are `map<string, string>`. Go writes a form key by key, and a later write to
the same key wins. The model states this as a right-biased map union `+`.

Integer, unsigned and boolean fields are always sent, zero values included.
Among scalar fields, only an empty string is left out.

A few behaviours of the code are easy to miss:

- **Host stripping.** The host is cut at its first `:`, not just before a
  trailing `:port`.
- **`NewClient` errors.** It reports two distinct errors. The empty base URL
  is checked first.
- **The standalone server.** It appends duplicate domains instead of
  updating them.

## Model

| member | source | states |
|---|---|---|
| FormEncoder.WireName | pkg/gocache/client.go:143-155 | the `form` tag wins; otherwise the `json` tag up to its first comma; otherwise the field name |
| FormEncoder.Render | pkg/gocache/client.go:165-177 | exactly the scalar kinds have a text form, and decoding that text gives the value back (base-10 integers, `true`/`false`) |
| FormEncoder.IndexedKeyInjective | pkg/gocache/client.go:184 | two indices give the same `name[i]` key only if they are equal |
| FormEncoder.SliceFormEntries | pkg/gocache/client.go:178-194 | a slice of n items yields only keys `name[0]`…`name[n-1]`; `name[j]` is present iff item j is a scalar, and it holds that item's text; the number of keys is the number of scalar items |
| FormEncoder.StringsAllRendered | pkg/gocache/client.go:183-184 | string elements are sent even when empty, so a slice of strings yields one key per element |
| FormEncoder.FieldForm | pkg/gocache/client.go:139-195 | a skipped field (unexported or named `-`) contributes nothing; an empty string and a nested struct contribute nothing; a slice contributes its indexed keys; any other scalar contributes one key under its wire name whose text decodes back to the value |
| FormEncoder.EncodedKeys | pkg/gocache/client.go:135-196 | a key is in the encoded form iff some field contributes it |
| FormEncoder.LastWriterWins | pkg/gocache/client.go:135-196 | when several fields write one key, the form holds the value of the last of them |
| FormEncoder.Encode | pkg/gocache/client.go:116-132 | a string map is passed through unchanged; a struct or a pointer to a struct is encoded field by field; any other body fails with InvalidBodyKind |
| FormEncoder.EncodeConcat | pkg/gocache/client.go:135-196 | encoding two field lists one after the other is the union of their forms, the later one winning |
| FormEncoder.SilentFieldDropped | pkg/gocache/client.go:135-196 | a field that contributes nothing can be removed from the struct without changing the form |
| FormEncoder.SkippedFieldIrrelevant | pkg/gocache/client.go:139-141 | an unexported or `-` field never affects the form, whatever its value |
| FormEncoder.DashNeverSent | pkg/gocache/client.go:157-160 | no encoded form contains the key `-` |
| FormEncoder.DashTagged | pkg/gocache/client.go:157-160 | a field whose json tag is `-` and which has no form tag contributes nothing |
| FormEncoder.TaggedStr | pkg/gocache/client.go:166-169 | a plain-tagged string field contributes its tag → value, and only when the value is non-empty |
| FormEncoder.TaggedInt | pkg/gocache/client.go:170-171 | a plain-tagged int field always contributes its tag → base-10 text |
| FormEncoder.StructSliceSilent | pkg/gocache/client.go:180-193 | a slice whose elements are all structs contributes no key |
| FormEncoder.RenderRoundTrip | pkg/gocache/client.go:165-177 | every scalar renders, and its text decodes back to the same value |
| FormEncoder.PutItems | pkg/gocache/client.go:180-194 | the element loop adds exactly the slice's indexed entries to the form it starts from |
| FormEncoder.PutField | pkg/gocache/client.go:162-195 | one pass of the kind switch adds exactly the field's contribution |
| FormEncoder.EncodeRecord | pkg/gocache/client.go:134-199 | the field loop produces the encoded form of the struct |
| Text.FormatInt | pkg/gocache/client.go:171 | the base-10 text of an integer: a numeral that parses back to it, with `-` exactly for negative values and no leading zero |
| Text.FormatNat | pkg/gocache/client.go:173 | the base-10 text of an unsigned value: all digits, parsing back to it, with no leading zero unless it is `0` |
| Text.FormatNatCanonical | pkg/gocache/client.go:171-173 | a digit string without a leading zero is exactly the text printed for its value, so the printed decimal is the only canonical one |
| Text.Utf8Length | pkg/gocache/client.go:87 | Go's byte length of a string: between one and four bytes per character |
| Text.Utf8LengthAscii | pkg/gocache/client.go:87 | the byte length equals the character count iff every character is ASCII |
| Text.BeforeFirst | internal/handlers/proxy_handler.go:88-90 | element 0 of a split on `c` is a prefix without `c`, followed by `c` when shorter, and the whole string when `c` does not occur |
| GoCacheClient.NewClient | pkg/gocache/client.go:23-55 | succeeds iff the base URL and the key are both non-empty, checks the base URL first, and stores both unchanged |
| GoCacheClient.AuthHeaders | pkg/gocache/client.go:58-61 | the only header is `GoCache-Token`, carrying the raw key |
| GoCacheClient.Prepare | pkg/gocache/client.go:107-114 | the URL is the base URL followed by the endpoint with no normalisation; the token header is set |
| GoCacheClient.GetWithQueryParams | pkg/gocache/client.go:69-99 | a GET of base ++ endpoint with the token header, the given query parameters (none when nil) and no body; it requires a key of at least five bytes in UTF-8 |
| GoCacheClient.Get | pkg/gocache/client.go:64-66 | a GET without query parameters or body |
| GoCacheClient.BodyMethod | pkg/gocache/client.go:206-217 | exactly POST, DELETE, PUT and PATCH are accepted |
| GoCacheClient.DoRequest | pkg/gocache/client.go:107-224 | succeeds iff the body encodes and the method is one of the four; an unencodable body fails before the method is looked at; on success the request carries the encoded form |
| GoCacheClient.Post | pkg/gocache/client.go:102-104 | a POST of base ++ endpoint, succeeding iff the body encodes; it carries the GoCache-Token header, no query and the encoded form |
| GoCacheClient.Put | pkg/gocache/client.go:227-329 | a PUT of base ++ endpoint, succeeding iff the body encodes |
| GoCacheClient.Delete | pkg/gocache/client.go:332-334 | a DELETE of base ++ endpoint with a body, succeeding iff the body encodes; it carries the GoCache-Token header, no query and the encoded form |
| GoCacheClient.DeleteSimple | pkg/gocache/client.go:337-351 | a DELETE of base ++ endpoint with the token header, no query and no body |
| GoCacheClient.PutAgreesWithDoRequest | pkg/gocache/client.go:227-329 | `Put`'s own copy of the encoder gives the same request as `doRequest` with `PUT` |
| GoCacheClient.FormMapSentUnchanged | pkg/gocache/client.go:116-119 | a string-map body is sent as the form exactly |
| GoCacheClient.NewClientAdmitsShortKeys | pkg/gocache/client.go:87 | a client with a key of one to four bytes is built, yet it cannot issue a GET |
| GoCacheClient.AsciiKeyCanGet | pkg/gocache/client.go:87 | for an ASCII key, a GET is possible iff the key has at least five characters |
| GoCacheClient.MultiByteKeyCanGet | pkg/gocache/client.go:87 | the slice counts bytes: a key of three two-byte characters builds and can GET |
| ProxyService.FindFirst | internal/services/proxy_service.go:57-61 | the position of the first entry for the domain, and none iff no entry has it |
| ProxyService.Upsert | internal/services/proxy_service.go:32-50 | an existing domain's first entry is replaced in place (same length, other entries untouched); a new domain is appended |
| ProxyService.Lookup | internal/services/proxy_service.go:53-64 | succeeds iff some entry has exactly that domain, returning the first such entry in table order (in a duplicate-free table, the only one); NotFound otherwise |
| ProxyService.Remove | internal/services/proxy_service.go:79-93 | succeeds iff the domain is present; the table loses exactly that entry (one shorter, same multiset minus it); NotFound otherwise |
| ProxyService.RemoveKeepsOrder | internal/services/proxy_service.go:83-89 | the entries before the removed one stay put and those after it move one place down |
| ProxyService.SeedUnique | internal/services/proxy_service.go:18-29 | a new store holds exactly the one seed mapping |
| ProxyService.LookupAfterUpsert | internal/services/proxy_service.go:32-64 | after adding a mapping, looking up its domain returns it: the last write wins |
| ProxyService.LookupOtherAfterUpsert | internal/services/proxy_service.go:32-64 | adding a mapping changes no lookup of another domain |
| ProxyService.UpsertPreservesUnique | internal/services/proxy_service.go:36-49 | adding keeps the domains pairwise distinct |
| ProxyService.UpsertIdempotent | internal/services/proxy_service.go:37-43 | adding the same mapping twice is the same as adding it once |
| ProxyService.CountUnique | internal/services/proxy_service.go:37-47 | in a duplicate-free table a domain has one entry or none |
| ProxyService.UpsertTwiceKeepsOneEntry | internal/services/proxy_service.go:36-43 | adding a host twice leaves one entry for it, holding the second destination |
| ProxyService.RemoveForgets | internal/services/proxy_service.go:83-89 | deleting keeps the domains distinct, and the deleted domain is no longer found |
| ProxyService.LookupOtherAfterRemove | internal/services/proxy_service.go:79-93 | deleting a domain changes no lookup of another domain |
| ProxyService.FindIndex | internal/services/proxy_service.go:57-61 | the scanning loop finds an entry iff the domain is present, and stops at the first one |
| ProxyService.Store.GetMapping | internal/services/proxy_service.go:53-64 | the store's loop answers as `Lookup` on its table; in a valid store the entry returned is the only one for the domain |
| ProxyService.Store.GetAllMappings | internal/services/proxy_service.go:67-76 | the copy equals the table, in order |
| HostRedirect.StripPort | internal/handlers/proxy_handler.go:88-90 | the result is a prefix of the host without `:`, cut just before the first `:`, and is the host itself iff it has no `:` |
| HostRedirect.Resolve | internal/handlers/proxy_handler.go:99-108 | the destination is a prefix of the result; for path `/` the result is the destination; otherwise exactly one leading `/` is dropped iff the destination ends in `/` and the path starts with `/`, and the path is appended whole in every other case |
| HostRedirect.NoDoubleSlashAtJoin | internal/handlers/proxy_handler.go:104-106 | when the destination ends in `/` and the path starts with one `/`, no `//` appears at the join |
| HostRedirect.ResolveLength | internal/handlers/proxy_handler.go:99-108 | the result's length is the destination's plus the path's, minus one when a slash was dropped, minus the path's when the path is `/` |
| HostRedirect.StripPortAt | internal/handlers/proxy_handler.go:88-90 | a host `name:rest` becomes `name` |
| HostRedirect.ResolveExamples | internal/handlers/proxy_handler.go:101-108 | the three worked cases: root path, directory destination, destination without a trailing slash |
| ProxyHandler.AddMapping | internal/handlers/proxy_handler.go:26-49 | 201 iff the body binds with both fields non-empty, after which the domain resolves to the new mapping; otherwise 400 and the table is unchanged |
| ProxyHandler.GetMappings | internal/handlers/proxy_handler.go:52-60 | 200 with the table in order and its length as the total |
| ProxyHandler.DeleteMapping | internal/handlers/proxy_handler.go:63-78 | 200 iff the domain is present, with the entry removed; 404 and no change otherwise |
| ProxyHandler.HandleRedirect | internal/handlers/proxy_handler.go:81-112 | a 301 iff the host, port stripped, has a mapping, to its destination resolved against the path; 404 otherwise |
| ProxyHandler.AddedMappingRedirects | internal/handlers/proxy_handler.go:26-112 | a mapping just added is followed for its host on any port |
| ProxyHandler.DeletedDomainNotFound | internal/handlers/proxy_handler.go:63-97 | once a domain is deleted from a duplicate-free table, its requests get 404 |
| ProxyHandler.PortedHostIntoDirectory | internal/handlers/proxy_handler.go:88-111 | `host:port` and a path `/file` under a destination ending in `/` redirect to the destination followed by `file` |
| ProxyHandler.PortedHostExample | internal/handlers/proxy_handler.go:81-112 | `a.example.com:8080` and `/index.html` with destination `https://bucket.example/site/` redirect to `https://bucket.example/site/index.html` |
| Environment.Getenv | cmd/api/main.go:43 | an unset variable reads as the empty string |
| Environment.GetenvOr | cmd/api/main.go:43-46 | the variable's value, or the default when it is unset or empty |
| ApiServer.LoadConfig | cmd/api/main.go:43-57 | succeeds iff the API key is set and non-empty; the port defaults to 8081 and the API URL to the public endpoint |
| ApiServer.ConfiguredClientBuilds | cmd/api/main.go:59-63 | with a loaded configuration, building the client never fails |
| ApiServer.Middleware | cmd/api/main.go:91-131 | `/api/` and `/swagger/` paths continue; otherwise a redirect-and-abort iff the port-stripped host is mapped, to the resolved destination; a miss continues instead of answering 404 |
| ApiServer.ApiPathsNeverRedirected | cmd/api/main.go:93-97 | any `/api/…` path reaches the API, even for a mapped host |
| ProxyServer.Port | cmd/proxy/main.go:27-30 | `PROXY_PORT`, or 8082 when it is unset or empty |
| ProxyServer.InitialList | cmd/proxy/main.go:33-39 | the list starts with the same single mapping as the store |
| ProxyServer.PostMapping | cmd/proxy/main.go:49-65 | 201 iff the body parses and both fields are non-empty, and then the mapping is appended; 400 and no change otherwise |
| ProxyServer.ListMappings | cmd/proxy/main.go:68-70 | 200 with the list as it stands |
| ProxyServer.CatchAll | cmd/proxy/main.go:73-106 | a 301 iff some entry has the port-stripped host, to the destination of the first such entry resolved against the path; 404 otherwise |
| ProxyServer.CatchAllLoop | cmd/proxy/main.go:80-105 | the range loop answers as `CatchAll` |
| ProxyServer.FirstMatchUnchangedByAppend | cmd/proxy/main.go:85-86 | appending an entry for a listed domain changes no first match |
| ProxyServer.LaterEntryShadowed | cmd/proxy/main.go:63 | posting a second entry for a listed domain is accepted but changes no redirect |
| ProxyServer.PostAppendsDuplicates | cmd/proxy/main.go:63 | posting a listed domain adds one more entry for it |
| ProxyServer.StoreAndListDisagreeOnReadd | cmd/proxy/main.go:63 | re-adding a domain with a new destination moves the store's redirect to the new destination but leaves the list's on the old one |
| RedirectSites.SitesAgree | cmd/api/main.go:117-126 | the handler and the catch-all route give the same response, and off the reserved paths the middleware redirects exactly when they do, to the same place |
| RedirectSites.LookupFindsTheEntry | internal/services/proxy_service.go:57-61 | in a duplicate-free table, lookup returns the one entry for the domain |
| RedirectSites.RedirectsToTheEntry | internal/handlers/proxy_handler.go:93-111 | in a duplicate-free table, all three sites send a mapped host to that entry's destination |
| Markdown.MatchAt | internal/services/smart_rule_rewrite_service.go:39-40 | a `[text](url)` match starting at i gives its url part, and any result is such a match |
| Markdown.FirstLink | internal/services/smart_rule_rewrite_service.go:40-44 | the leftmost position where a link matches, none iff no position matches |
| Markdown.SeparatorFrom | internal/services/smart_rule_rewrite_service.go:48 | the first `](` at or after `from`, none iff there is none |
| Markdown.SecondPiece | internal/services/smart_rule_rewrite_service.go:47-50 | element 1 of the split on `](`: the text after the first separator up to the next one, none iff there is no separator |
| Markdown.DropClosingParen | internal/services/smart_rule_rewrite_service.go:51-53 | one trailing `)` is removed, and nothing else changes |
| Markdown.ExtractURL | internal/services/smart_rule_rewrite_service.go:32-60 | text with neither `[` nor `]` is returned unchanged; otherwise the url of the leftmost link match; failing that, the text after the first `](` up to the next one, less one trailing `)`; text without `](` is returned unchanged |
| Markdown.NoSeparatorNoMatch | internal/services/smart_rule_rewrite_service.go:39-41 | without `](` nothing matches the link pattern |
| Markdown.LinkNeedsSeparator | internal/services/smart_rule_rewrite_service.go:39-43 | whenever the link pattern matches, the text contains `](` |
| Markdown.NoSeparatorKept | internal/services/smart_rule_rewrite_service.go:58-59 | input without `](` comes back unchanged |
| Markdown.LeftmostLinkWins | internal/services/smart_rule_rewrite_service.go:39-44 | the leftmost match decides the result |
| Markdown.ExtractLinkRoundTrip | internal/services/smart_rule_rewrite_service.go:39-44 | `[text](url)` gives back `url` |
| Markdown.UnclosedHasNoMatch | internal/services/smart_rule_rewrite_service.go:39-41 | a link missing its closing `)` does not match the pattern |
| Markdown.UnclosedSecondPiece | internal/services/smart_rule_rewrite_service.go:47-50 | for such a link the fallback split yields the url |
| Markdown.ExtractUnclosedLink | internal/services/smart_rule_rewrite_service.go:46-56 | a link missing its `)` still yields its url through the fallback |
| SmartRuleRewrite.WithEntry | internal/services/smart_rule_rewrite_service.go:92-98 | a key is written only for a non-empty value |
| SmartRuleRewrite.WriteEachLastWins | internal/services/smart_rule_rewrite_service.go:79-84 | writing every method under one key leaves only the last |
| SmartRuleRewrite.MatchURI | internal/services/smart_rule_rewrite_service.go:71-76 | RequestURI when non-empty, else Request |
| SmartRuleRewrite.DeviceForm | internal/services/smart_rule_rewrite_service.go:87-89 | device type i is under `match[device_type][i]`, and no other key is written |
| SmartRuleRewrite.DeviceKeysDistinct | internal/services/smart_rule_rewrite_service.go:87-89 | no device-type key collides with a fixed key, the SSL key or the host key |
| SmartRuleRewrite.MatchActionKeysDisjoint | internal/services/smart_rule_rewrite_service.go:71-120 | match keys and action keys never collide |
| SmartRuleRewrite.MatchEntries | internal/services/smart_rule_rewrite_service.go:71-84 | `match[request_uri]` is present iff RequestURI or Request is non-empty, holding the preferred one; the method key is present iff there are methods, holding the last |
| SmartRuleRewrite.ActionEntries | internal/services/smart_rule_rewrite_service.go:92-120 | each action key is present iff its field is non-empty, under its renamed key; `action[cors]` holds the extracted URL |
| SmartRuleRewrite.RuleForm | internal/services/smart_rule_rewrite_service.go:68-120 | the shared form holds exactly the match, device and action entries, and never the SSL or host key |
| SmartRuleRewrite.CreateForm | internal/services/smart_rule_rewrite_service.go:68-123 | the shared form plus `action[ssl_mode]` = `partial` |
| SmartRuleRewrite.UpdateForm | internal/services/smart_rule_rewrite_service.go:253-303 | the shared form, without an SSL mode |
| SmartRuleRewrite.CreateIsUpdatePlusSslMode | internal/services/smart_rule_rewrite_service.go:123 | create and update differ only by the SSL mode entry |
| SmartRuleRewrite.HostNeverSent | internal/services/smart_rule_rewrite_service.go:68-123 | Match.Host never reaches the form |
| SmartRuleRewrite.StructEncodingIsEmpty | internal/models/smart_rule.go:37-41 | passed to the generic encoder, the request struct would send an empty form: its parts are structs and its domain is tagged `-` |
| SmartRuleRewrite.CreateRewriteRule | internal/services/smart_rule_rewrite_service.go:63-150 | a POST of the create form to `/rules/settings/{domain}`, with the token header |
| SmartRuleRewrite.ListRewriteRules | internal/services/smart_rule_rewrite_service.go:153-177 | a GET of `/rules/settings/{domain}` without a body |
| SmartRuleRewrite.DeleteRewriteRule | internal/services/smart_rule_rewrite_service.go:180-204 | a body-less DELETE of `/rules/settings/{domain}/{id}` |
| SmartRuleRewrite.UpdateRewriteRule | internal/services/smart_rule_rewrite_service.go:249-326 | a PUT of the update form to `/rules/settings/{domain}/{id}`, with the token header |
| SmartRuleRewrite.RulesPath | internal/services/smart_rule_rewrite_service.go:128 | `/rules/settings/` followed by the domain |
| SmartRuleRewrite.RulePath | internal/services/smart_rule_rewrite_service.go:185 | the rules path followed by `/` and the id |
| SmartRuleRewrite.CorsOrigin | internal/services/smart_rule_rewrite_service.go:212-215 | an `http://` or `https://` origin is kept; any other gets `http://` in front |
| SmartRuleRewrite.CorsOriginIdempotent | internal/services/smart_rule_rewrite_service.go:212-215 | normalising twice is normalising once |
| SmartRuleRewrite.SimplifiedRule | internal/services/smart_rule_rewrite_service.go:221-235 | the full request targets the parent domain, matches `/*` on the subdomain host, and rewrites to `/{account}/$1` on the bucket |
| SmartRuleRewrite.CreateSimplifiedRule | internal/services/smart_rule_rewrite_service.go:207-246 | the simplified request is posted as that full request, with the token header |
| SmartRuleRewrite.SimplifiedRuleForm | internal/services/smart_rule_rewrite_service.go:207-246 | the exact form sent: `/*`, the URI rewrite, the bucket as host and backend, the CORS origin and SSL mode `partial` |
| SmartRuleService.RulesPath | internal/services/smartrule_service.go:25 | `/domains/{id}/smart-rules`, the id in decimal and recoverable from the path |
| SmartRuleService.RulePath | internal/services/smartrule_service.go:38 | the rules path followed by `/` and the rule id in decimal |
| SmartRuleService.RulePathInjective | internal/services/smartrule_service.go:38 | two rule paths are equal only for equal domain and rule ids |
| SmartRuleService.S3Origin | internal/services/smartrule_service.go:65 | bucket, `/`, folder, `/`, with the folder recoverable |
| SmartRuleService.FolderLabel | internal/services/smartrule_service.go:70-74 | a whole `/`-free segment: it ends the folder, before the trailing `/` when there is one, and it starts the folder or follows a `/` |
| SmartRuleService.DefaultName | internal/services/smartrule_service.go:68-76 | `S3-` followed by the folder label |
| SmartRuleService.DefaultNameFlat | internal/services/smartrule_service.go:70-75 | a folder without `/` names the rule by itself |
| SmartRuleService.DefaultNameNested | internal/services/smartrule_service.go:70-75 | a nested folder is named after its last segment |
| SmartRuleService.DefaultNameTrailingSlash | internal/services/smartrule_service.go:70-75 | a trailing `/` is looked through, to the segment before it |
| SmartRuleService.DefaultNameSingleTrailing | internal/services/smartrule_service.go:70-75 | a single segment followed by `/` names the rule by itself |
| SmartRuleService.S3Actions | internal/services/smartrule_service.go:79-96 | exactly four actions in order: set_cors, rewrite_uri `/{folder}/$1`, set_host_header and set_origin on the bucket |
| SmartRuleService.BuildS3Rule | internal/services/smartrule_service.go:99-106 | keeps the domain id and description, a non-empty name or else the default name, the S3 origin, path `/` and the four actions |
| SmartRuleService.UpdateForm | internal/models/smartrules.go:50-55 | only the four text fields, each only when non-empty |
| SmartRuleService.CreateForm | internal/models/smartrules.go:29-37 | the domain id always, the text fields when non-empty, and never the actions |
| SmartRuleService.CreateEncoding | internal/models/smartrules.go:29-37 | the create struct encodes to the create form |
| SmartRuleService.UpdateEncoding | internal/models/smartrules.go:50-55 | the update struct encodes to the update form |
| SmartRuleService.TrailingEncoding | internal/models/smartrules.go:35-36 | the struct-element actions slice sends nothing; only the custom domain may be sent |
| SmartRuleService.ListSmartRules | internal/services/smartrule_service.go:24-34 | a GET of the rules path without a body |
| SmartRuleService.GetSmartRule | internal/services/smartrule_service.go:37-47 | a GET of the rule path without a body |
| SmartRuleService.CreateSmartRule | internal/services/smartrule_service.go:50-60 | a POST of the create form to the rules path, with the token header |
| SmartRuleService.CreateS3SmartRule | internal/services/smartrule_service.go:63-109 | always sends a POST to the domain's rule list with the token header; the form holds the domain id, the name, the description when non-empty, the origin and path `/`, and neither the actions nor the custom domain |
| SmartRuleService.UpdateSmartRule | internal/services/smartrule_service.go:112-122 | a PUT of the update form to the rule path, with the token header |
| SmartRuleService.DeleteSmartRule | internal/services/smartrule_service.go:125-135 | a body-less DELETE of the rule path |
| SmartRuleService.S3CreateForm | internal/services/smartrule_service.go:99-108 | the derived rule's create form is exactly those five entries: the actions and the empty custom domain contribute nothing |
| SmartRuleService.CreateExtendsUpdate | internal/models/smartrules.go:29-55 | without a custom domain, the create form is the id plus the update form |
| CacheService.PurgeAllCache | internal/services/cache_service.go:23-35 | a body-less DELETE of `/cache/{domain}` followed by `/all` |
| CacheService.UrlEntries | internal/services/cache_service.go:50-52 | URL i is under `urls[i]`, one key per URL, and no other key |
| CacheService.ContentTypeNotIndexed | internal/services/cache_service.go:44-51 | no numbered URL key is the content-type key |
| CacheService.PurgeBody | internal/services/cache_service.go:44-52 | `content-type` = `*` plus one numbered entry per URL: exactly n + 1 keys |
| CacheService.PurgeBodyLoop | internal/services/cache_service.go:44-52 | the loop builds that body |
| CacheService.PurgeUrls | internal/services/cache_service.go:38-60 | the body is sent unchanged by DELETE to `/cache/{domain}`, with the token header |
| CacheService.PurgeBodyRoundTrip | internal/services/cache_service.go:50-52 | reading `urls[0]`, `urls[1]`, … back from the body gives the URLs in order |
| CacheService.PurgeEndpointIgnoresUrls | internal/services/cache_service.go:40-54 | the endpoint does not depend on the URLs, and two purges send the same body iff their URL lists are equal |
| DnsService.RecordOf | internal/models/dns.go:31-47 | the create request's record part carries the same five fields |
| DnsService.RecordForm | internal/models/dns.go:41-47 | name, type and content when non-empty; TTL and cloud always, as numerals of their values |
| DnsService.UpdateEncoding | internal/models/dns.go:41-47 | the update struct encodes to the record form |
| DnsService.CreateEncoding | internal/models/dns.go:31-38 | the create struct encodes to the same form: its `-` domain field sends nothing |
| DnsService.RecordPath | internal/services/dns_service.go:43 | `/dns/` followed by the id in decimal |
| DnsService.ListDNS | internal/services/dns_service.go:23-38 | an empty domain fails before any request; otherwise a GET of `/dns/{domain}` |
| DnsService.GetDNS | internal/services/dns_service.go:41-52 | a GET of `/dns/{id}` |
| DnsService.CreateDNS | internal/services/dns_service.go:55-70 | an empty domain fails before any request; otherwise a POST of the record form to `/dns/{domain}`, with the token header |
| DnsService.UpdateDNS | internal/services/dns_service.go:73-84 | a PUT of the record form to `/dns/{id}`, with the token header |
| DnsService.DeleteDNS | internal/services/dns_service.go:87-98 | a body-less DELETE of `/dns/{id}` |
| DnsService.CreateAndUpdateAgree | internal/services/dns_service.go:55-84 | create and update send the same form for the same record |
| DnsService.ZoneNeverInForm | internal/models/dns.go:37 | the zone changes only the URL, never the form |
| DnsService.RecordFormRoundTrip | internal/models/dns.go:41-47 | the form gives back the whole record when its strings are non-empty |
| RedirectService.RuleForm | internal/models/redirect.go:13-18 | domain, source and destination when non-empty; the type always, as a numeral of its value |
| RedirectService.CreateEncoding | internal/models/redirect.go:13-18 | the request struct encodes to the rule form |
| RedirectService.RulesPath | internal/services/redirect_service.go:28 | `/redirects/` followed by the domain |
| RedirectService.RulePath | internal/services/redirect_service.go:60 | the rules path followed by `/` and the id in decimal |
| RedirectService.CreateRedirect | internal/services/redirect_service.go:24-38 | a POST of the rule form to the domain's path, with the token header |
| RedirectService.ListRedirects | internal/services/redirect_service.go:41-54 | a GET of the domain's path without a body |
| RedirectService.DeleteRedirect | internal/services/redirect_service.go:57-70 | a body-less DELETE of the rule's path |
| RedirectService.DomainInPathAndForm | internal/services/redirect_service.go:28-31 | the domain is both the last path segment and the form's `domain`, and the form gives back the whole rule |
| RedirectService.DeleteBelowList | internal/services/redirect_service.go:44-60 | a rule's path lies one segment below its domain's path |
| DomainService.CreateBody | internal/services/domain_service.go:25-29 | exactly `cache_ttl` = one day in seconds as a numeral without leading zeros, `waf_status` = `false`, `cdn_mode` = `cname` |
| DomainService.OneDay | internal/services/domain_service.go:26 | `86400` is the numeral of 24 × 60 × 60 |
| DomainService.OneDayText | internal/services/domain_service.go:26 | `86400` is the text Go prints for 24 × 60 × 60 |
| DomainService.CreateDomain | internal/services/domain_service.go:21-36 | a POST of the fixed form to `/domain/{name}`, with the token header |
| DomainService.DeleteDomain | internal/services/domain_service.go:39-47 | a body-less DELETE of `/domains/` followed by the id in decimal |
| DomainService.ListDomains | internal/services/domain_service.go:50-60 | a GET of `/domain` without query or body |
| DomainService.OnlyNameSent | internal/services/domain_service.go:21-31 | two creations send the same request iff the names agree: origin, description and the enabled flag never reach the upstream |
| DomainService.CreateAndDeletePathsDiffer | internal/services/domain_service.go:23-41 | creation and deletion never address the same URL |

## Left out

- The HTTP transport is not modelled. This covers resty, timeouts, retries and backoff, debug hooks and all logging. Operations return the request they would send, not a response.
- Decoding upstream JSON responses into result containers is not modelled.
- Checks on upstream status codes, such as the non-200 errors of the rewrite-rule service, are not modelled. So is error wrapping with `fmt.Errorf`.
- Each operation's error result on a client failure is modelled only as far as the client can fail before sending: an unencodable body or an unsupported method.
- Float fields: `FormatFloat` is floating-point text, and no request struct in the repository has a float field.
- Fixed-width integers: Go `int` and `uint` are modelled as unbounded integers. Base-10 formatting is the same at any width the structs use.
- The read/write mutex of the mapping store: the store is modelled sequentially.
- ProxyServer: the standalone list is modelled sequentially, each request as one atomic step. The Go handlers read and append the captured slice from concurrent requests without a lock, so an append can be lost or a read can see a partly updated slice; none of that is modelled.
- ProxyService.Store.AddMapping: its contract uses `old()`, because it updates the store's table in place. The pure `Upsert` carries the counted contract. It keeps the store valid: no domain appears twice.
- ProxyService.Store.DeleteMapping: its contract uses `old()` for the same reason. The pure `Remove` carries the counted contract. It also keeps the store valid.
- The Go regular expression in `extractURLFromMarkdown` is replaced by a scanner for the leftmost `[` non-`]`* `](` non-`)`* `)` match.
- The gin handlers for DNS, cache, domain, redirect and rewrite rules are not modelled. They only bind requests and relay status codes.
- Router wiring, Swagger and `.env` loading in the two entry points are not modelled. A fatal start-up is modelled as a failed configuration.
- `GetClient` is not modelled: it is a plain accessor.
- `cmd/test_create_domain.go` is not modelled. It is a manual script with fixed credentials.
- CacheService.PurgeUrls: the domain is a separate argument. The code reads `req.Domain`, but its request type `CachePurgeRequest` has no such field.
- DnsService.DeleteDNS: modelled as a body-less DELETE. The code calls the three-argument `Delete` with two arguments.
- ProxyHandler.AddMapping: the 500 branch is not modelled, because the store's `AddMapping` never returns an error. Binding is reduced to its outcome: no mapping, or a mapping with both required fields checked.
- GoCacheClient.GetWithQueryParams: requires a key of at least five bytes, counted in UTF-8 as Go's `len` does. The code logs `apiKey[:5]`, which panics on a shorter key, while `NewClient` accepts any non-empty key (see `NewClientAdmitsShortKeys`). Keys holding bytes that are not valid UTF-8 are outside the model, whose strings are sequences of Unicode characters.
- GoCacheClient.Get: the same five-byte requirement, for the same reason. Every service operation that issues a GET inherits it.
