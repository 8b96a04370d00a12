/**
 * Process environment as the two entry points read it: `os.Getenv` yields
 * the empty string for an unset variable, and an empty value means "use the
 * default".
 */
module Environment {

  type Env = map<string, string>

  function Getenv(env: Env, name: string): (r: string)
    ensures name in env ==> r == env[name]
    ensures name !in env ==> r == ""
  {
    if name in env then env[name] else ""
  }

  /** The variable's value, or `default` when it is unset or empty. */
  function GetenvOr(env: Env, name: string, default: string): (r: string)
    ensures default != "" ==> r != ""
    ensures Getenv(env, name) != "" ==> r == Getenv(env, name)
    ensures Getenv(env, name) == "" ==> r == default
  {
    var v := Getenv(env, name);
    if v == "" then default else v
  }
}

/**
 * The API server's start-up configuration and its redirect middleware
 * (cmd/api/main.go).
 */
module ApiServer {
  import opened Wrappers
  import opened Text
  import opened Environment
  import opened HostRedirect
  import opened ProxyService
  import GoCacheClient

  const DefaultPort := "8081"
  const DefaultAPIURL := "https://api.gocache.com.br/v1"

  datatype Config = Config(port: string, apiURL: string, apiKey: string)

  /** The only start-up condition that stops the process: a missing API key. */
  datatype ConfigError = MissingAPIKey

  /**
   * `PORT` and `GOCACHE_API_URL` fall back to their defaults; an unset or
   * empty `GOCACHE_API_KEY` is fatal.
   */
  function LoadConfig(env: Env): (r: Result<Config, ConfigError>)
    ensures r.Success? <==> Getenv(env, "GOCACHE_API_KEY") != ""
    ensures r.Failure? ==> r.error == MissingAPIKey
    ensures r.Success? ==> r.value.apiKey == Getenv(env, "GOCACHE_API_KEY")
    ensures r.Success? ==> r.value.port == GetenvOr(env, "PORT", DefaultPort)
    ensures r.Success? ==> r.value.apiURL == GetenvOr(env, "GOCACHE_API_URL", DefaultAPIURL)
  {
    var port := GetenvOr(env, "PORT", DefaultPort);
    var apiKey := Getenv(env, "GOCACHE_API_KEY");
    if apiKey == "" then Failure(MissingAPIKey)
    else Success(Config(port, GetenvOr(env, "GOCACHE_API_URL", DefaultAPIURL), apiKey))
  }

  /**
   * With a configuration loaded, building the client cannot fail: the
   * fatal branch after `NewClient` is never taken.
   */
  lemma ConfiguredClientBuilds(env: Env)
    requires LoadConfig(env).Success?
    ensures GoCacheClient.NewClient(LoadConfig(env).value.apiURL, LoadConfig(env).value.apiKey).Success?
  {
    assert DefaultAPIURL != "";
  }

  /** What the middleware does with a request. */
  datatype Outcome =
    | Next
    | RedirectAndAbort(location: string)

  /** Requests for the API and for the documentation are never redirected. */
  predicate Bypassed(path: string) {
    HasPrefix(path, "/api/") || HasPrefix(path, "/swagger/")
  }

  /**
   * The domain-redirect middleware: an API or documentation path, or a host
   * without a mapping, continues down the chain; a mapped host gets a 301
   * to the resolved destination and the chain stops.
   */
  function Middleware(t: seq<Mapping>, host: string, path: string): (r: Outcome)
    ensures Bypassed(path) ==> r == Next
    ensures r.RedirectAndAbort? <==> !Bypassed(path) && HasDomain(t, StripPort(host))
    ensures r.RedirectAndAbort? ==>
              r.location == Resolve(Lookup(t, StripPort(host)).value.destination, path)
  {
    if Bypassed(path) then Next
    else
      match Lookup(t, StripPort(host))
      case Failure(_) => Next
      case Success(m) => RedirectAndAbort(Resolve(m.destination, path))
  }

  /** Even a mapped host reaches the API when the path is under `/api/`. */
  lemma ApiPathsNeverRedirected(t: seq<Mapping>, host: string, rest: string)
    ensures Middleware(t, host, "/api/" + rest) == Next
  {
    assert HasPrefix("/api/" + rest, "/api/");
  }
}
