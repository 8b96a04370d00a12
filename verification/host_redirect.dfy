/**
 * Host normalisation and redirect resolution. The same few lines appear three
 * times in the repository (internal/handlers/proxy_handler.go, the middleware
 * of cmd/api/main.go and the catch-all route of cmd/proxy/main.go); they are
 * defined once here and the three call sites are modelled on top of them.
 */
module HostRedirect {
  import opened Text

  /** The HTTP outcome of a redirect lookup. */
  datatype Response =
    | MovedPermanently(location: string)
    | JsonError(code: nat)

  function StatusCode(r: Response): nat {
    match r
    case MovedPermanently(_) => 301
    case JsonError(code) => code
  }

  /**
   * The Host header without its port: everything from the first `:` on is
   * dropped; a host without `:` is kept as it is.
   */
  function StripPort(host: string): (r: string)
    ensures r <= host && ':' !in r
    ensures |r| < |host| ==> host[|r|] == ':'
    ensures ':' !in host <==> r == host
  {
    if ':' in host then BeforeFirst(host, ':') else host
  }

  /**
   * The redirect target for a mapped destination and the request path. The
   * root path leaves the destination untouched; any other path is appended,
   * minus one leading `/` when the destination already ends in `/`.
   */
  function Resolve(destination: string, path: string): (r: string)
    ensures destination <= r
    ensures path == "/" ==> r == destination
    ensures path != "/" ==>
              (("/" + r[|destination|..] == path) <==> (HasSuffix(destination, "/") && HasPrefix(path, "/")))
    ensures path != "/" && !(HasSuffix(destination, "/") && HasPrefix(path, "/")) ==>
              r[|destination|..] == path
  {
    if path == "/" then destination
    else if HasSuffix(destination, "/") && HasPrefix(path, "/") then
      var r := destination + path[1..];
      assert r[|destination|..] == path[1..];
      assert path == [path[0]] + path[1..];
      r
    else
      var r := destination + path;
      assert r[|destination|..] == path;
      r
  }

  /**
   * The join never doubles the slash: when the destination ends in `/` and
   * the path starts with exactly one `/`, the character after the
   * destination is not a `/`.
   */
  lemma NoDoubleSlashAtJoin(destination: string, path: string)
    requires path != "/" && HasSuffix(destination, "/")
    requires HasPrefix(path, "/") && !HasPrefix(path, "//")
    ensures |Resolve(destination, path)| > |destination| ==> Resolve(destination, path)[|destination|] != '/'
  {
    var r := Resolve(destination, path);
    assert "/" + r[|destination|..] == path;
    if |r| > |destination| {
      assert path[..2] == "/" + [r[|destination|]];
    }
  }

  /** The length of the target: the destination, plus the path less any dropped slash. */
  lemma ResolveLength(destination: string, path: string)
    ensures |Resolve(destination, path)| ==
              |destination| + (if path == "/" then 0
                               else if HasSuffix(destination, "/") && HasPrefix(path, "/") then |path| - 1
                               else |path|)
  {
    var r := Resolve(destination, path);
    if path != "/" && HasSuffix(destination, "/") && HasPrefix(path, "/") {
      assert |"/" + r[|destination|..]| == |path|;
    }
  }

  /** The port is dropped at the first `:`, whatever follows it. */
  lemma StripPortAt(name: string, rest: string)
    requires ':' !in name
    ensures StripPort(name + ":" + rest) == name
  {
    var h := name + ":" + rest;
    var r := StripPort(h);
    assert h[|name|] == ':';
    assert forall i :: 0 <= i < |name| ==> h[i] == name[i];
    assert r == h[..|r|];
    assert h[..|name|] == name;
  }

  /** The worked examples of the redirect contract, with and without a trailing slash. */
  lemma ResolveExamples()
    ensures Resolve("https://cdn.example/", "/") == "https://cdn.example/"
    ensures Resolve("https://cdn.example/", "/a/b") == "https://cdn.example/a/b"
    ensures Resolve("https://cdn.example", "/a/b") == "https://cdn.example/a/b"
  {
    assert HasSuffix("https://cdn.example/", "/");
    assert HasPrefix("/a/b", "/");
    assert !HasSuffix("https://cdn.example", "/");
  }
}
