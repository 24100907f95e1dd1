/**
 * The current revision of the offline-caching worker (cache generation
 * "turboscout-cache-v4"). The shell is precached with one atomic `addAll`
 * whose failure rejects the install; the manifest-driven asset precache is
 * best effort; navigations fall back to the cached root document and then to
 * a 503 page; other requests are served cache-first and cached lazily.
 */
module ServiceWorkerV4 {
  import opened Wrappers
  import opened Text
  import opened Collections
  import opened CacheStorage
  import opened WorkerEvents

  const CACHE_PREFIX: string := "turboscout-cache"
  const CACHE_VERSION: string := "v4"
  const CACHE_NAME: string := CACHE_PREFIX + "-" + CACHE_VERSION
  const MANIFEST_URL: string := "asset-manifest.json"

  /** `abs(path)`: `path` resolved against the registration scope. */
  function Abs(scope: Url, path: string): (u: Url)
    ensures StartsWith(u, scope)
    ensures StartsWith(path, "./") ==> u == scope + path[2..]
    ensures !StartsWith(path, "./") && StartsWith(path, "/") ==> u == scope + path[1..]
    ensures !StartsWith(path, "./") && !StartsWith(path, "/") ==> u == scope + path
  {
    Resolve(scope, path)
  }

  /** The shell: the application root, the root document and the manifest document. */
  function ShellUrls(scope: Url): (r: seq<Url>)
    ensures |r| == 3 && Distinct(r)
    ensures r[0] == scope && r[1] == scope + "index.html" && r[2] == scope + MANIFEST_URL
  {
    [Abs(scope, "./"), Abs(scope, "./index.html"), Abs(scope, "./" + MANIFEST_URL)]
  }

  /** `.filter(Boolean)`: the truthy values, in order. */
  function KeepTruthy(vs: seq<JsonValue>): (r: seq<JsonValue>)
    ensures forall v :: v in r <==> v in vs && Truthy(v)
    ensures Subsequence(r, vs)
    ensures |r| <= |vs|
  {
    if |vs| == 0 then []
    else
      assert vs == [vs[0]] + vs[1..];
      if Truthy(vs[0]) then [vs[0]] + KeepTruthy(vs[1..])
      else KeepTruthy(vs[1..])
  }

  /** `.filter(Boolean)` keeps every occurrence of a truthy value and none of the others. */
  lemma {:induction false} KeepTruthyCounts(vs: seq<JsonValue>)
    ensures forall v :: multiset(KeepTruthy(vs))[v] == (if Truthy(v) then multiset(vs)[v] else 0)
  {
    if |vs| > 0 {
      KeepTruthyCounts(vs[1..]);
      assert vs == [vs[0]] + vs[1..];
    }
  }

  /** `.map((u) => new URL(u, self.location.origin).toString())`. */
  function ResolveAll(root: Url, vs: seq<JsonValue>): (r: seq<Url>)
    ensures |r| == |vs|
    ensures forall i :: 0 <= i < |vs| ==> r[i] == Resolve(root, JsText(vs[i]))
  {
    if |vs| == 0 then [] else [Resolve(root, JsText(vs[0]))] + ResolveAll(root, vs[1..])
  }

  /**
   * The asset precache list as written: the manifest's values deduplicated
   * as raw JSON values, then falsy ones dropped, then each resolved against
   * the origin.
   */
  function PrecacheUrls(m: Manifest, root: Url): seq<Url> {
    ResolveAll(root, KeepTruthy(Dedup(m.files + m.entrypoints)))
  }

  /**
   * The list names exactly the resolved truthy values of `files` and
   * `entrypoints`, and is never longer than the two together.
   */
  lemma PrecacheUrlsMembers(m: Manifest, root: Url)
    ensures |PrecacheUrls(m, root)| <= |m.files| + |m.entrypoints|
    ensures forall v :: v in m.files + m.entrypoints && Truthy(v) ==> Resolve(root, JsText(v)) in PrecacheUrls(m, root)
    ensures forall u :: u in PrecacheUrls(m, root) ==>
              exists v :: v in m.files + m.entrypoints && Truthy(v) && u == Resolve(root, JsText(v))
  {
    var all := m.files + m.entrypoints;
    var kept := KeepTruthy(Dedup(all));
    var urls := ResolveAll(root, kept);
    assert urls == PrecacheUrls(m, root);
    forall v | v in all && Truthy(v)
      ensures Resolve(root, JsText(v)) in urls
    {
      assert v in kept;
      var i :| 0 <= i < |kept| && kept[i] == v;
      assert urls[i] == Resolve(root, JsText(v));
    }
    forall u | u in urls
      ensures exists v :: v in all && Truthy(v) && u == Resolve(root, JsText(v))
    {
      var i :| 0 <= i < |urls| && urls[i] == u;
      var v := kept[i];
      assert v in kept;
      assert v in all && Truthy(v) && u == Resolve(root, JsText(v));
    }
  }

  /** The manifest shape the build tool writes: a `files` value rooted at "/", a relative entry point. */
  const TWO_SPELLINGS: Manifest := Manifest([JString("/static/js/main.js")], [JString("static/js/main.js")])

  lemma DedupKeepsTwoSpellings()
    ensures KeepTruthy(Dedup(TWO_SPELLINGS.files + TWO_SPELLINGS.entrypoints)) == TWO_SPELLINGS.files + TWO_SPELLINGS.entrypoints
  {
    var a, b := TWO_SPELLINGS.files[0], TWO_SPELLINGS.entrypoints[0];
    assert a != b by { assert a.s[0] != b.s[0]; }
    assert TWO_SPELLINGS.files + TWO_SPELLINGS.entrypoints == [a, b];
    assert Dedup([a, b]) == [a, b] by {
      assert [a, b][..1] == [a];
      assert Dedup([a]) == [a] by { assert [a][..0] == []; }
    }
    assert KeepTruthy([a, b]) == [a, b] by {
      assert [a, b][1..] == [b];
      assert KeepTruthy([b]) == [b] by { assert [b][1..] == []; }
    }
  }

  lemma TwoSpellingsResolveAlike(root: Url)
    ensures Resolve(root, "/static/js/main.js") == Resolve(root, "static/js/main.js")
  {
    var a, b := "/static/js/main.js", "static/js/main.js";
    assert !StartsWith(a, "./") by { assert a[1] != '/'; }
    assert StartsWith(a, "/");
    assert a[1..] == b;
    assert !StartsWith(b, "./") by { assert b[0] != '.'; }
    assert !StartsWith(b, "/") by { assert b[0] != '/'; }
  }

  /**
   * A manifest in the shape the build tool writes names one asset in two
   * spellings. They stay distinct through the raw-value deduplication and
   * resolve to the same URL, so `addAll` is handed that URL twice and
   * rejects whatever the network does.
   */
  lemma PrecacheUrlsRepeatsAsset(root: Url, c: Cache, net: Network)
    ensures !Distinct(PrecacheUrls(TWO_SPELLINGS, root))
    ensures AddAll(c, PrecacheUrls(TWO_SPELLINGS, root), net).None?
  {
    DedupKeepsTwoSpellings();
    TwoSpellingsResolveAlike(root);
    var r := PrecacheUrls(TWO_SPELLINGS, root);
    assert |r| == 2 && r[0] == r[1];
  }

  /**
   * The precache list deduplicated after resolution, so that two spellings
   * of one asset give one URL: it names the same URLs as the list as
   * written, never names one twice, and is cached in full whenever the
   * network serves every one of them.
   */
  function PrecacheUrlsDeduped(m: Manifest, root: Url): (r: seq<Url>)
    ensures Distinct(r)
    ensures forall u :: u in r <==> u in PrecacheUrls(m, root)
    ensures forall c: Cache, net: Network :: AllFetchable(r, net) ==> AddAll(c, r, net).Some?
  {
    Dedup(PrecacheUrls(m, root))
  }

  /**
   * What the best-effort step leaves in the cache, with the list as
   * written: every asset when the list names no URL twice and the network
   * serves them all, else `c` as it was; no other entry is added or changed.
   */
  function AfterAssetPrecache(c: Cache, root: Url, net: Network, read: ManifestRead): (r: Cache)
    ensures c.Keys <= r.Keys
    ensures !read.Parsed? ==> r == c
    ensures read.Parsed? && Distinct(PrecacheUrls(read.manifest, root)) && AllFetchable(PrecacheUrls(read.manifest, root), net) ==>
              forall u :: u in PrecacheUrls(read.manifest, root) ==> u in r && r[u] == net(u).response
    ensures read.Parsed? && !(Distinct(PrecacheUrls(read.manifest, root)) && AllFetchable(PrecacheUrls(read.manifest, root), net)) ==>
              r == c
    ensures forall u :: u in r ==> u in c || (read.Parsed? && u in PrecacheUrls(read.manifest, root))
    ensures forall u :: u in c && !(read.Parsed? && u in PrecacheUrls(read.manifest, root)) ==> r[u] == c[u]
  {
    match read
    case Parsed(m) =>
      (match AddAll(c, PrecacheUrls(m, root), net)
       case Some(c') => c'
       case None => c)
    case _ => c
  }

  /**
   * The best-effort asset step of the install handler: a manifest that could
   * not be read, or an `addAll` that rejects, leaves the cache as it was.
   */
  method PrecacheAssets(cache: Cache, root: Url, net: Network, read: ManifestRead) returns (r: Cache)
    ensures r == AfterAssetPrecache(cache, root, net, read)
  {
    r := cache;
    match read {
      case Parsed(m) =>
        var urlsToCache := PrecacheUrls(m, root);
        var assets := AddAll(cache, urlsToCache, net);
        if assets.Some? {
          r := assets.value;
        }
      case _ =>
    }
  }

  /**
   * For the build tool's manifest the asset step as written caches nothing,
   * whatever the network serves.
   */
  lemma TwoSpellingsNotPrecached(c: Cache, root: Url, net: Network)
    ensures AfterAssetPrecache(c, root, net, Parsed(TWO_SPELLINGS)) == c
  {
    PrecacheUrlsRepeatsAsset(root, c, net);
  }

  /**
   * The asset step with the list deduplicated after resolution: every asset
   * is cached whenever the network serves them all, else `c` is as it was;
   * no other entry is added or changed.
   */
  function AfterAssetPrecacheDeduped(c: Cache, root: Url, net: Network, read: ManifestRead): (r: Cache)
    ensures c.Keys <= r.Keys
    ensures !read.Parsed? ==> r == c
    ensures read.Parsed? && AllFetchable(PrecacheUrlsDeduped(read.manifest, root), net) ==>
              forall u :: u in PrecacheUrls(read.manifest, root) ==> u in r && r[u] == net(u).response
    ensures read.Parsed? && !AllFetchable(PrecacheUrlsDeduped(read.manifest, root), net) ==> r == c
    ensures forall u :: u in r ==> u in c || (read.Parsed? && u in PrecacheUrls(read.manifest, root))
    ensures forall u :: u in c && !(read.Parsed? && u in PrecacheUrls(read.manifest, root)) ==> r[u] == c[u]
  {
    match read
    case Parsed(m) =>
      (match AddAll(c, PrecacheUrlsDeduped(m, root), net)
       case Some(c') => c'
       case None => c)
    case _ => c
  }

  /**
   * With the corrected list, the build tool's manifest has its asset cached
   * whenever the network serves it.
   */
  lemma TwoSpellingsPrecachedDeduped(c: Cache, root: Url, net: Network)
    requires AllFetchable(PrecacheUrlsDeduped(TWO_SPELLINGS, root), net)
    ensures Resolve(root, "static/js/main.js") in AfterAssetPrecacheDeduped(c, root, net, Parsed(TWO_SPELLINGS))
  {
    DedupKeepsTwoSpellings();
    TwoSpellingsResolveAlike(root);
    assert TWO_SPELLINGS.entrypoints[0] in TWO_SPELLINGS.files + TWO_SPELLINGS.entrypoints;
    PrecacheUrlsMembers(TWO_SPELLINGS, root);
  }

  class Worker {
    /** `self.location.origin`. */
    const origin: string
    /** The registration scope: the origin's root, so `abs` and `new URL(u, origin)` agree. */
    const scope: Url
    /** CacheStorage. */
    var caches: Storage
    /** The platform actions requested so far, oldest first. */
    var effects: seq<Effect>

    constructor (origin: string, scope: Url, caches: Storage)
      ensures this.origin == origin && this.scope == scope
      ensures this.caches == caches && effects == []
    {
      this.origin := origin;
      this.scope := scope;
      this.caches := caches;
      effects := [];
    }

    /**
     * The install handler. A failure to cache the shell rejects the install
     * before `skipWaiting`; every failure after that is swallowed, the
     * install resolves and `skipWaiting` is requested. Only the current
     * generation's cache changes.
     */
    method Install(net: Network, read: ManifestRead) returns (outcome: InstallOutcome)
      modifies this
      ensures var openStore := Open(old(caches), CACHE_NAME);
              var shell := AddAll(openStore[CACHE_NAME], ShellUrls(scope), net);
              if shell.None? then
                outcome == InstallRejected && caches == openStore && effects == old(effects)
              else
                outcome == Installed && effects == old(effects) + [SkipWaiting] &&
                caches == old(caches)[CACHE_NAME := AfterAssetPrecache(shell.value, scope, net, read)]
    {
      var store := Open(caches, CACHE_NAME);
      caches := store;
      var shell := AddAll(store[CACHE_NAME], ShellUrls(scope), net);
      if shell.None? {
        return InstallRejected;
      }
      var cache := PrecacheAssets(shell.value, scope, net, read);
      OpenThenStore(old(caches), CACHE_NAME, cache);
      caches := store[CACHE_NAME := cache];
      effects := effects + [SkipWaiting];
      outcome := Installed;
    }

    /**
     * The activate handler: every cache of an older generation is deleted,
     * the current one and caches of other applications are kept, then the
     * worker claims its clients.
     */
    method Activate()
      modifies this
      ensures caches == Purge(old(caches), CACHE_PREFIX, CACHE_NAME)
      ensures effects == old(effects) + [ClaimClients]
    {
      var keys := caches.Keys;
      var pending := keys;
      while pending != {}
        invariant pending <= keys
        invariant effects == old(effects)
        invariant forall k :: k in caches <==> k in old(caches) && !(k !in pending && Obsolete(k, CACHE_PREFIX, CACHE_NAME))
        invariant forall k :: k in caches ==> caches[k] == old(caches)[k]
        decreases pending
      {
        var k :| k in pending;
        if StartsWith(k, CACHE_PREFIX) && k != CACHE_NAME {
          caches := caches - {k};
        }
        pending := pending - {k};
      }
      assert caches == Purge(old(caches), CACHE_PREFIX, CACHE_NAME);
      effects := effects + [ClaimClients];
    }

    /**
     * The fetch handler. Cross-origin requests are left alone. Navigations get
     * the cached root document, else the network's answer, else the cached
     * document or a 503 page. Other requests get the cached copy without the
     * network being asked, else the network's answer, stored when it is an ok
     * answer to a GET, else a 504 response.
     */
    method HandleFetch(req: Request, net: Fetched) returns (outcome: FetchOutcome)
      modifies this
      ensures effects == old(effects)
      ensures req.origin != origin ==> outcome == PassThrough && caches == old(caches)
      ensures req.origin == origin && req.mode == Navigate ==>
                var openStore := Open(old(caches), CACHE_NAME);
                caches == openStore &&
                outcome == (match MatchUrl(openStore[CACHE_NAME], Abs(scope, "./index.html"))
                            case Some(doc) => Respond(doc)
                            case None => if net.Reached? then Respond(net.response) else Respond(OFFLINE_PAGE))
      ensures req.origin == origin && req.mode != Navigate ==>
                var openStore := Open(old(caches), CACHE_NAME);
                match MatchRequest(openStore[CACHE_NAME], req)
                case Some(hit) => outcome == Respond(hit) && caches == openStore
                case None =>
                  if net.NetworkFailure? then outcome == Respond(OFFLINE_ASSET) && caches == openStore
                  else
                    outcome == Respond(net.response) &&
                    caches == (if net.response.Ok() && req.httpMethod == "GET"
                               then openStore[CACHE_NAME := Put(openStore[CACHE_NAME], req.url, net.response)]
                               else openStore)
    {
      if req.origin != origin {
        return PassThrough;
      }
      caches := Open(caches, CACHE_NAME);
      var cache := caches[CACHE_NAME];
      if req.mode == Navigate {
        var cachedIndex := MatchUrl(cache, Abs(scope, "./index.html"));
        if cachedIndex.Some? {
          return Respond(cachedIndex.value);
        }
        match net {
          case Reached(resp) =>
            return Respond(resp);
          case NetworkFailure =>
            var again := MatchUrl(caches[CACHE_NAME], Abs(scope, "./index.html"));
            return Respond(again.GetOr(OFFLINE_PAGE));
        }
      }
      var cached := MatchRequest(cache, req);
      if cached.Some? {
        return Respond(cached.value);
      }
      match net {
        case Reached(live) =>
          if live.Ok() && req.httpMethod == "GET" {
            caches := caches[CACHE_NAME := Put(cache, req.url, live)];
          }
          outcome := Respond(live);
        case NetworkFailure =>
          outcome := Respond(OFFLINE_ASSET);
      }
    }

    /** The message handler: only a `SKIP_WAITING` message requests `skipWaiting`. */
    method HandleMessage(data: MessageData)
      modifies this
      ensures caches == old(caches)
      ensures effects == old(effects) + (if IsSkipWaiting(data) then [SkipWaiting] else [])
    {
      if IsSkipWaiting(data) {
        effects := effects + [SkipWaiting];
      }
    }
  }
}
