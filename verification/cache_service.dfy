/**
 * The cache service (internal/services/cache_service.go): purging the whole
 * cache of a domain, or a list of URLs of one domain (wildcards allowed).
 *
 * `PurgeUrls` reads the domain from its request, whose model type
 * (`CachePurgeRequest`) has no such field; the domain is taken here as a
 * separate argument.
 */
module CacheService {
  import opened Wrappers
  import opened Text
  import opened FormEncoder
  import opened GoCacheClient

  const ContentTypeKey := "content-type"
  const UrlsKey := "urls"

  /** `PurgeAllCache`: a DELETE without a body to `/cache/{domain}/all`. */
  function PurgeAllCache(c: Client, domain: string): (r: Request)
    ensures r.verb == DELETE && r.form.None? && r.header == AuthHeaders(c)
    ensures HasPrefix(r.url, c.baseURL + "/cache/" + domain)
    ensures r.url[|c.baseURL + "/cache/" + domain|..] == "/all"
  {
    var r := DeleteSimple(c, "/cache/" + domain + "/all");
    assert r.url == (c.baseURL + "/cache/" + domain) + "/all";
    PrefixThenRest(c.baseURL + "/cache/" + domain, "/all");
    r
  }

  /** The numbered URL entries: element `i` under `urls[i]`, empty strings included. */
  function UrlEntries(urls: seq<string>): (r: Form)
    ensures r.Keys <= IndexedKeys(UrlsKey, |urls|)
    ensures forall i :: 0 <= i < |urls| ==> IndexedKey(UrlsKey, i) in r && r[IndexedKey(UrlsKey, i)] == urls[i]
    ensures |r| == |urls|
  {
    SliceFormEntries(UrlsKey, AsValues(urls));
    StringsAllRendered(urls);
    SliceForm(UrlsKey, AsValues(urls))
  }

  /** No numbered URL key is the content-type key. */
  lemma ContentTypeNotIndexed(n: nat)
    ensures ContentTypeKey !in IndexedKeys(UrlsKey, n)
  {
    forall k | k in IndexedKeys(UrlsKey, n)
      ensures k != ContentTypeKey
    {
      IndexedKeysPrefix(UrlsKey, n, k);
      assert k[0] == 'u';
    }
  }

  /**
   * The body `PurgeUrls` sends: a wildcard content type and one numbered
   * entry per URL, in order, and nothing else.
   */
  function PurgeBody(urls: seq<string>): (r: Form)
    ensures ContentTypeKey in r && r[ContentTypeKey] == "*"
    ensures forall i :: 0 <= i < |urls| ==> IndexedKey(UrlsKey, i) in r && r[IndexedKey(UrlsKey, i)] == urls[i]
    ensures r.Keys <= {ContentTypeKey} + IndexedKeys(UrlsKey, |urls|)
    ensures |r| == |urls| + 1
  {
    var entries := UrlEntries(urls);
    ContentTypeNotIndexed(|urls|);
    assert ContentTypeKey !in entries;
    map[ContentTypeKey := "*"] + entries
  }

  /** The body as the service builds it: the fixed entry first, then one write per URL. */
  method PurgeBodyLoop(urls: seq<string>) returns (body: Form)
    ensures body == PurgeBody(urls)
  {
    var base := map[ContentTypeKey := "*"];
    var items := AsValues(urls);
    body := base;
    var i := 0;
    while i < |urls|
      invariant 0 <= i <= |urls|
      invariant body == base + SliceForm(UrlsKey, items[..i])
    {
      SliceFormStep(base, UrlsKey, items, i);
      assert Render(items[i]) == Some(urls[i]);
      body := body[IndexedKey(UrlsKey, i) := urls[i]];
      i := i + 1;
    }
    assert items[..i] == items;
  }

  /** `PurgeUrls`: the body above, sent unchanged by DELETE to `/cache/{domain}`. */
  function PurgeUrls(c: Client, domain: string, urls: seq<string>): (r: Result<Request, ClientError>)
    ensures r.Success?
    ensures r.value.verb == DELETE && r.value.url == c.baseURL + "/cache/" + domain
    ensures r.value.header == AuthHeaders(c)
    ensures r.value.form == Some(PurgeBody(urls))
  {
    Delete(c, "/cache/" + domain, FormMap(PurgeBody(urls)))
  }

  // ---------------------------------------------------------------------
  // Properties
  // ---------------------------------------------------------------------

  /**
   * The receiving side's reading of a purge body: `urls[i]`, `urls[i+1]`,
   * ... for as long as they are present. No form holds more numbered keys
   * than entries, so the run is bounded by the size of the form.
   */
  function UrlsFrom(form: Form, i: nat): seq<string>
    decreases |form| - i
  {
    if i < |form| && IndexedKey(UrlsKey, i) in form then [form[IndexedKey(UrlsKey, i)]] + UrlsFrom(form, i + 1)
    else []
  }

  lemma {:induction false} UrlsFromSuffix(urls: seq<string>, i: nat)
    requires i <= |urls|
    ensures UrlsFrom(PurgeBody(urls), i) == urls[i..]
    decreases |urls| - i
  {
    var body := PurgeBody(urls);
    if i < |urls| {
      UrlsFromSuffix(urls, i + 1);
      SuffixCons(urls, i);
    } else {
      IndexedKeysBelow(UrlsKey, |urls|, i);
      assert IndexedKey(UrlsKey, i) != ContentTypeKey by {
        IndexedKeyShape(UrlsKey, i);
      }
      assert IndexedKey(UrlsKey, i) !in body;
    }
  }

  /** Reading the numbered entries of a purge body gives back the URLs, in order. */
  lemma PurgeBodyRoundTrip(urls: seq<string>)
    ensures UrlsFrom(PurgeBody(urls), 0) == urls
  {
    UrlsFromSuffix(urls, 0);
  }

  /** Whatever the URLs, the purge targets the domain's own endpoint, and the URLs never reach the path. */
  lemma PurgeEndpointIgnoresUrls(c: Client, domain: string, u1: seq<string>, u2: seq<string>)
    ensures PurgeUrls(c, domain, u1).value.url == PurgeUrls(c, domain, u2).value.url
    ensures PurgeUrls(c, domain, u1).value.form == PurgeUrls(c, domain, u2).value.form <==> u1 == u2
  {
    if PurgeBody(u1) == PurgeBody(u2) {
      PurgeBodyRoundTrip(u1);
      PurgeBodyRoundTrip(u2);
    }
  }
}
