/**
 * The browser's CacheStorage and Cache interfaces (W3C Service Workers
 * specification), as values: a storage maps cache names to caches, a cache
 * maps absolute request URLs to captured responses. The network is an oracle
 * the caller supplies.
 */
module CacheStorage {
  import opened Wrappers
  import opened Text
  import opened Collections

  type Url = string

  /** A captured response: status code, status text and body. */
  datatype Response = Response(status: int, statusText: string, body: string) {
    /** `response.ok`: the status is in the range 200-299. */
    predicate Ok() {
      200 <= status <= 299
    }
  }

  /** What `fetch` gives: a response of any status, or a rejected promise. */
  datatype Fetched = Reached(response: Response) | NetworkFailure

  /** The network, as an oracle from URL to the outcome of fetching it with GET. */
  type Network = Url -> Fetched

  type Cache = map<Url, Response>

  type Storage = map<string, Cache>

  /** `request.mode`: only "navigate" matters to the workers. */
  datatype Mode = Navigate | Subresource

  /** A request intercepted by a worker; `origin` is the origin of `url`. */
  datatype Request = Request(url: Url, origin: string, mode: Mode, httpMethod: string)

  /**
   * Resolving a relative reference against a base that is the origin's root
   * (ends in "/"): a leading "./" or "/" names the root, anything else is
   * appended to it.
   */
  function Resolve(root: Url, ref: string): (u: Url)
    ensures StartsWith(u, root)
  {
    if StartsWith(ref, "./") then root + ref[2..]
    else if StartsWith(ref, "/") then root + ref[1..]
    else root + ref
  }

  /** `caches.open(name)`: the named cache, created empty if it does not exist yet. */
  function Open(s: Storage, name: string): (r: Storage)
    ensures name in r && r.Keys == s.Keys + {name}
    ensures name in s ==> r == s
    ensures name !in s ==> r[name] == map[] && forall k :: k in s ==> r[k] == s[k]
  {
    if name in s then s else s[name := map[]]
  }

  /** Storing a cache under a name makes opening it beforehand irrelevant. */
  lemma OpenThenStore(s: Storage, name: string, c: Cache)
    ensures Open(s, name)[name := c] == s[name := c]
  {
  }

  /** `cache.match(url)` with a URL string, which stands for a GET request. */
  function MatchUrl(c: Cache, url: Url): (r: Option<Response>)
    ensures r.Some? <==> url in c
    ensures r.Some? ==> r.value == c[url]
  {
    if url in c then Some(c[url]) else None
  }

  /** `cache.match(request)`: a request other than GET never matches. */
  function MatchRequest(c: Cache, req: Request): (r: Option<Response>)
    ensures r.Some? <==> req.httpMethod == "GET" && req.url in c
    ensures r.Some? ==> r.value == c[req.url]
  {
    if req.httpMethod == "GET" then MatchUrl(c, req.url) else None
  }

  /** A response `cache.put` and `cache.addAll` accept: not a partial (206) response. */
  predicate Storable(r: Response) {
    r.status != 206
  }

  /**
   * `cache.put(url, response)`: the entry for `url` is overwritten; a partial
   * response is refused and leaves the cache as it was.
   */
  function Put(c: Cache, url: Url, resp: Response): (r: Cache)
    ensures Storable(resp) ==> url in r && r[url] == resp && r.Keys == c.Keys + {url}
    ensures forall k :: k in c && k != url ==> k in r && r[k] == c[k]
    ensures !Storable(resp) ==> r == c
  {
    if Storable(resp) then c[url := resp] else c
  }

  /** Every URL fetches to an ok, storable response. */
  predicate AllFetchable(urls: seq<Url>, net: Network) {
    forall i :: 0 <= i < |urls| ==> net(urls[i]).Reached? && net(urls[i]).response.Ok() && Storable(net(urls[i]).response)
  }

  /** Stores every fetched response in turn. */
  function PutAll(c: Cache, urls: seq<Url>, net: Network): (r: Cache)
    requires AllFetchable(urls, net)
    ensures forall k :: k in r <==> k in c || k in urls
    ensures forall i :: 0 <= i < |urls| ==> r[urls[i]] == net(urls[i]).response
    ensures forall k :: k in c && k !in urls ==> r[k] == c[k]
    decreases |urls|
  {
    if |urls| == 0 then c
    else
      var u := urls[0];
      var r := PutAll(c[u := net(u).response], urls[1..], net);
      assert forall k :: k in urls <==> k == u || k in urls[1..];
      assert u in urls[1..] ==> r[u] == net(u).response by {
        if u in urls[1..] {
          var j :| 0 <= j < |urls[1..]| && urls[1..][j] == u;
        }
      }
      r
  }

  /**
   * `cache.addAll(urls)`: fetches every URL and stores all the responses, or
   * rejects and stores none. It rejects when a fetch fails, when a response
   * is not ok or is partial, and when the list names one URL twice.
   */
  function AddAll(c: Cache, urls: seq<Url>, net: Network): (r: Option<Cache>)
    ensures r.Some? <==> Distinct(urls) && AllFetchable(urls, net)
    ensures r.Some? ==> forall k :: k in r.value <==> k in c || k in urls
    ensures r.Some? ==> forall i :: 0 <= i < |urls| ==> r.value[urls[i]] == net(urls[i]).response
    ensures r.Some? ==> forall k :: k in c && k !in urls ==> r.value[k] == c[k]
  {
    if Distinct(urls) && AllFetchable(urls, net) then Some(PutAll(c, urls, net)) else None
  }

  /** Installing twice over a reliable network caches the same contents as installing once. */
  lemma AddAllIdempotent(c: Cache, urls: seq<Url>, net: Network)
    requires AddAll(c, urls, net).Some?
    ensures AddAll(AddAll(c, urls, net).value, urls, net) == AddAll(c, urls, net)
  {
    var once := AddAll(c, urls, net).value;
    var twice := AddAll(once, urls, net).value;
    assert twice.Keys == once.Keys;
    forall k | k in once
      ensures twice[k] == once[k]
    {
      if k in urls {
        var i :| 0 <= i < |urls| && urls[i] == k;
      }
    }
    assert twice == once;
  }

  /** A cache of an older generation: it carries the prefix but is not the current one. */
  predicate Obsolete(name: string, prefix: string, current: string) {
    StartsWith(name, prefix) && name != current
  }

  /**
   * What activation leaves: every cache whose name carries `prefix` is deleted
   * unless it is `current`; every other cache is kept untouched.
   */
  function Purge(s: Storage, prefix: string, current: string): (r: Storage)
    ensures forall k :: k in r <==> k in s && !Obsolete(k, prefix, current)
    ensures forall k :: k in r ==> r[k] == s[k]
  {
    map k | k in s && !Obsolete(k, prefix, current) :: s[k]
  }

  /**
   * After purging, the current generation (when it exists) is the only cache
   * with the prefix, and every cache with another prefix survives.
   */
  lemma SingleLiveGeneration(s: Storage, prefix: string, current: string)
    requires StartsWith(current, prefix)
    ensures current in s ==> (set k | k in Purge(s, prefix, current) && StartsWith(k, prefix)) == {current}
    ensures current !in s ==> (set k | k in Purge(s, prefix, current) && StartsWith(k, prefix)) == {}
    ensures forall k :: k in s && !StartsWith(k, prefix) ==> k in Purge(s, prefix, current)
  {
  }
}
