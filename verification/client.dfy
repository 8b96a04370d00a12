/**
 * The upstream API client (pkg/gocache/client.go): construction, the
 * authentication header, URL formation and the verb methods.
 *
 * A verb method is modelled by the request it would hand to the HTTP library,
 * or by the error it returns before any request is made. The transport
 * itself (timeout, retries, JSON decoding of the reply) is not modelled.
 */
module GoCacheClient {
  import opened Wrappers
  import opened Text
  import opened FormEncoder

  /** The header that carries the raw API key on every request. */
  const TokenHeader := "GoCache-Token"

  datatype Client = Client(baseURL: string, apiKey: string)

  datatype Method = GET | POST | PUT | PATCH | DELETE

  datatype ClientError =
    | EmptyBaseURL
    | EmptyAPIKey
    | InvalidBody(reason: EncodeError)
    | UnsupportedMethod(verb: string)

  /** What is sent upstream: verb, full URL, headers, query parameters and the form body, if any. */
  datatype Request = Request(
    verb: Method,
    url: string,
    header: map<string, string>,
    query: map<string, string>,
    form: Option<Form>)

  /** The verb as the name `doRequest` switches on. */
  function MethodName(m: Method): string {
    match m
    case GET => "GET"
    case POST => "POST"
    case PUT => "PUT"
    case PATCH => "PATCH"
    case DELETE => "DELETE"
  }

  /** The verbs `doRequest` accepts, by name. */
  function BodyMethod(name: string): (r: Option<Method>)
    ensures r.Some? <==> name in {"POST", "DELETE", "PUT", "PATCH"}
    ensures r.Some? ==> MethodName(r.value) == name && r.value != GET
  {
    if name == "POST" then Some(POST)
    else if name == "DELETE" then Some(DELETE)
    else if name == "PUT" then Some(PUT)
    else if name == "PATCH" then Some(PATCH)
    else None
  }

  /**
   * `NewClient`: the base URL is checked first, then the key; a client that
   * is built keeps both exactly as given.
   */
  function NewClient(baseURL: string, apiKey: string): (r: Result<Client, ClientError>)
    ensures r.Success? <==> baseURL != "" && apiKey != ""
    ensures baseURL == "" ==> r == Failure(EmptyBaseURL)
    ensures baseURL != "" && apiKey == "" ==> r == Failure(EmptyAPIKey)
    ensures r.Success? ==> r.value.baseURL == baseURL && r.value.apiKey == apiKey
  {
    if baseURL == "" then Failure(EmptyBaseURL)
    else if apiKey == "" then Failure(EmptyAPIKey)
    else Success(Client(baseURL, apiKey))
  }

  /** `setAuthHeaders`: the only header the client sets. */
  function AuthHeaders(c: Client): (h: map<string, string>)
    ensures h.Keys == {TokenHeader} && h[TokenHeader] == c.apiKey
  {
    map[TokenHeader := c.apiKey]
  }

  /**
   * The request every verb starts from: the URL is the base URL followed
   * directly by the endpoint, with no slash added or removed.
   */
  function Prepare(c: Client, m: Method, endpoint: string): (r: Request)
    ensures HasPrefix(r.url, c.baseURL) && r.url[|c.baseURL|..] == endpoint
    ensures r.verb == m && r.header == AuthHeaders(c)
    ensures r.query == map[] && r.form == None
  {
    Request(m, c.baseURL + endpoint, AuthHeaders(c), map[], None)
  }

  /**
   * `GetWithQueryParams` logs `apiKey[:5]`, a byte slice, which panics for a
   * key shorter than five bytes, so a GET needs a key of at least five bytes.
   */
  predicate CanGet(c: Client) {
    Utf8Length(c.apiKey) >= 5
  }

  function GetWithQueryParams(c: Client, endpoint: string, query: Option<map<string, string>>): (r: Request)
    requires CanGet(c)
    ensures r.verb == GET && r.url == c.baseURL + endpoint && r.header == AuthHeaders(c)
    ensures r.form == None
    ensures query.Some? ==> r.query == query.value
    ensures query.None? ==> r.query == map[]
  {
    var base := Prepare(c, GET, endpoint);
    if query.Some? then base.(query := query.value) else base
  }

  /** `Get`: a GET without query parameters. */
  function Get(c: Client, endpoint: string): (r: Request)
    requires CanGet(c)
    ensures r.verb == GET && r.url == c.baseURL + endpoint && r.header == AuthHeaders(c)
    ensures r.query == map[] && r.form == None
  {
    GetWithQueryParams(c, endpoint, None)
  }

  /**
   * `doRequest`: the body is encoded first (a body of the wrong kind fails
   * even when the verb is also wrong), then the verb is dispatched; only
   * POST, DELETE, PUT and PATCH are accepted.
   */
  function DoRequest(c: Client, verb: string, endpoint: string, body: Body): (r: Result<Request, ClientError>)
    ensures r.Success? <==> Encode(body).Success? && verb in {"POST", "DELETE", "PUT", "PATCH"}
    ensures Encode(body).Failure? ==> r == Failure(InvalidBody(InvalidBodyKind))
    ensures Encode(body).Success? && verb !in {"POST", "DELETE", "PUT", "PATCH"} ==>
              r == Failure(UnsupportedMethod(verb))
    ensures r.Success? ==>
              && MethodName(r.value.verb) == verb
              && r.value.url == c.baseURL + endpoint
              && r.value.header == AuthHeaders(c)
              && r.value.query == map[]
              && r.value.form == Some(Encode(body).value)
  {
    match Encode(body)
    case Failure(e) => Failure(InvalidBody(e))
    case Success(form) =>
      match BodyMethod(verb)
      case None => Failure(UnsupportedMethod(verb))
      case Some(m) => Success(Prepare(c, m, endpoint).(form := Some(form)))
  }

  function Post(c: Client, endpoint: string, body: Body): (r: Result<Request, ClientError>)
    ensures r.Success? <==> Encode(body).Success?
    ensures r.Success? ==> r.value.verb == POST && r.value.url == c.baseURL + endpoint
                           && r.value.header == AuthHeaders(c) && r.value.query == map[]
                           && r.value.form == Some(Encode(body).value)
  {
    DoRequest(c, "POST", endpoint, body)
  }

  function Delete(c: Client, endpoint: string, body: Body): (r: Result<Request, ClientError>)
    ensures r.Success? <==> Encode(body).Success?
    ensures r.Success? ==> r.value.verb == DELETE && r.value.url == c.baseURL + endpoint
                           && r.value.header == AuthHeaders(c) && r.value.query == map[]
                           && r.value.form == Some(Encode(body).value)
  {
    DoRequest(c, "DELETE", endpoint, body)
  }

  /**
   * `Put` does not go through `doRequest`: it carries its own copy of the
   * field walk, modelled by the same encoder.
   */
  function Put(c: Client, endpoint: string, body: Body): (r: Result<Request, ClientError>)
    ensures r.Success? <==> Encode(body).Success?
    ensures r.Success? ==> r.value.verb == PUT && r.value.url == c.baseURL + endpoint
                           && r.value.header == AuthHeaders(c) && r.value.query == map[]
                           && r.value.form == Some(Encode(body).value)
  {
    match Encode(body)
    case Failure(e) => Failure(InvalidBody(e))
    case Success(form) => Success(Prepare(c, PUT, endpoint).(form := Some(form)))
  }

  /** `DeleteSimple`: a DELETE with no body at all. */
  function DeleteSimple(c: Client, endpoint: string): (r: Request)
    ensures r.verb == DELETE && r.url == c.baseURL + endpoint && r.header == AuthHeaders(c)
    ensures r.query == map[] && r.form == None
  {
    Prepare(c, DELETE, endpoint)
  }

  // ---------------------------------------------------------------------
  // Properties
  // ---------------------------------------------------------------------

  /** The hand-copied `Put` behaves exactly like `doRequest` with verb "PUT". */
  lemma PutAgreesWithDoRequest(c: Client, endpoint: string, body: Body)
    ensures Put(c, endpoint, body) == DoRequest(c, "PUT", endpoint, body)
  {
  }

  /** A string map given as body is sent as the form unchanged, by every verb that takes a body. */
  lemma FormMapSentUnchanged(c: Client, endpoint: string, m: Form, verb: string)
    requires verb in {"POST", "DELETE", "PUT", "PATCH"}
    ensures DoRequest(c, verb, endpoint, FormMap(m)).Success?
    ensures DoRequest(c, verb, endpoint, FormMap(m)).value.form == Some(m)
    ensures Put(c, endpoint, FormMap(m)).value.form == Some(m)
  {
  }

  /**
   * `NewClient` only rejects an empty key, so it builds clients whose key is
   * too short for a GET: any client with a key of one to four bytes panics
   * on its first GET.
   */
  lemma NewClientAdmitsShortKeys(baseURL: string, apiKey: string)
    requires baseURL != "" && 1 <= Utf8Length(apiKey) < 5
    ensures NewClient(baseURL, apiKey).Success?
    ensures !CanGet(NewClient(baseURL, apiKey).value)
  {
  }

  /** An ASCII key can GET iff it has at least five characters. */
  lemma AsciiKeyCanGet(c: Client)
    requires forall i :: 0 <= i < |c.apiKey| ==> c.apiKey[i] as int < 0x80
    ensures CanGet(c) <==> |c.apiKey| >= 5
  {
    Utf8LengthAscii(c.apiKey);
  }

  /** The slice counts bytes: a key of three two-byte characters is long enough. */
  lemma MultiByteKeyCanGet()
    ensures NewClient("https://api", "\U{e9}\U{e9}\U{e9}").Success?
    ensures CanGet(NewClient("https://api", "\U{e9}\U{e9}\U{e9}").value)
  {
    var k := "\U{e9}\U{e9}\U{e9}";
    assert k[..2][..1] == k[..1];
    assert Utf8Length(k[..1]) == 2;
    assert Utf8Length(k[..2]) == 4;
    assert k[..3] == k;
  }
}
