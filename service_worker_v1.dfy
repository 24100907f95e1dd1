/**
 * The earlier revision of the offline-caching worker (cache generation
 * "turboscout-cache-v1"). Every install step sits in one try block, so the
 * install never rejects and `skipWaiting` is requested only when every step
 * succeeded; the precache set is built with two loops over the manifest;
 * navigations have no offline fallback.
 */
module ServiceWorkerV1 {
  import opened Wrappers
  import opened Text
  import opened Collections
  import opened CacheStorage
  import opened WorkerEvents

  const CACHE_PREFIX: string := "turboscout-cache"
  const CACHE_VERSION: string := "v1"
  const CACHE_NAME: string := CACHE_PREFIX + "-" + CACHE_VERSION
  const MANIFEST_URL: string := "./asset-manifest.json"

  /** The relative references `"." + u` for the string values `u` of `vs`; other values are skipped. */
  function DotPrefixed(vs: seq<JsonValue>): (r: seq<string>)
    ensures forall i :: 0 <= i < |vs| && vs[i].JString? ==> "." + vs[i].s in r
    ensures forall u :: u in r ==> exists i :: 0 <= i < |vs| && vs[i].JString? && u == "." + vs[i].s
  {
    if |vs| == 0 then []
    else
      var rest := DotPrefixed(vs[1..]);
      assert forall i :: 1 <= i < |vs| ==> vs[i] == vs[1..][i - 1];
      if vs[0].JString? then ["." + vs[0].s] + rest else rest
  }

  /** Everything the install adds to the set, in the order it adds it. */
  function CandidateRefs(m: Manifest): seq<string> {
    ["./", "./index.html"] + DotPrefixed(m.files) + DotPrefixed(m.entrypoints)
  }

  /**
   * The set `urlsToCache` as the install builds it: the root and the root
   * document, then `"." + u` for each string value of `files`, then for each
   * string in `entrypoints`, each kept once in the order of its first insertion.
   */
  method CollectPrecacheSet(m: Manifest) returns (urlsToCache: seq<string>)
    ensures urlsToCache == Dedup(CandidateRefs(m))
  {
    urlsToCache := [];
    ghost var added: seq<string> := [];
    urlsToCache, added := SetAdd(urlsToCache, added, "./");
    urlsToCache, added := SetAdd(urlsToCache, added, "./index.html");

    assert added == ["./", "./index.html"];
    urlsToCache, added := AddDotPrefixed(urlsToCache, added, m.files);
    urlsToCache, added := AddDotPrefixed(urlsToCache, added, m.entrypoints);
    assert added == CandidateRefs(m);
  }

  /** One of the install's two loops: `set.add("." + u)` for each string value `u` of `vs`, in order. */
  method AddDotPrefixed(elems: seq<string>, ghost added: seq<string>, vs: seq<JsonValue>)
    returns (elems': seq<string>, ghost added': seq<string>)
    requires elems == Dedup(added)
    ensures added' == added + DotPrefixed(vs)
    ensures elems' == Dedup(added')
  {
    elems', added' := elems, added;
    for k := 0 to |vs|
      invariant added' == added + DotPrefixed(vs[..k])
      invariant elems' == Dedup(added')
    {
      var url := vs[k];
      assert vs[..k + 1] == vs[..k] + [url];
      DotPrefixedSnoc(vs[..k], url);
      if url.JString? {
        elems', added' := SetAdd(elems', added', "." + url.s);
      }
    }
    assert vs[..|vs|] == vs;
  }

  /** `set.add(x)` on a set kept as the sequence of its elements in insertion order. */
  method SetAdd(elems: seq<string>, ghost added: seq<string>, x: string) returns (elems': seq<string>, ghost added': seq<string>)
    requires elems == Dedup(added)
    ensures added' == added + [x]
    ensures elems' == Dedup(added')
  {
    DedupSnoc(added, x);
    elems' := if x in elems then elems else elems + [x];
    added' := added + [x];
  }

  lemma {:induction false} DotPrefixedSnoc(vs: seq<JsonValue>, v: JsonValue)
    ensures DotPrefixed(vs + [v]) == DotPrefixed(vs) + (if v.JString? then ["." + v.s] else [])
  {
    if |vs| == 0 {
      assert [v][1..] == [];
    } else {
      assert (vs + [v])[1..] == vs[1..] + [v];
      DotPrefixedSnoc(vs[1..], v);
    }
  }

  /**
   * The precache set holds the root, the root document and `"." + u` for
   * every string value of `files` and `entrypoints`, and nothing else, each
   * once.
   */
  lemma PrecacheSetMembers(m: Manifest)
    ensures Distinct(Dedup(CandidateRefs(m)))
    ensures "./" in Dedup(CandidateRefs(m)) && "./index.html" in Dedup(CandidateRefs(m))
    ensures forall i :: 0 <= i < |m.files| && m.files[i].JString? ==> "." + m.files[i].s in Dedup(CandidateRefs(m))
    ensures forall i :: 0 <= i < |m.entrypoints| && m.entrypoints[i].JString? ==> "." + m.entrypoints[i].s in Dedup(CandidateRefs(m))
    ensures forall u :: u in Dedup(CandidateRefs(m)) ==>
              u == "./" || u == "./index.html"
              || (exists i :: 0 <= i < |m.files| && m.files[i].JString? && u == "." + m.files[i].s)
              || (exists i :: 0 <= i < |m.entrypoints| && m.entrypoints[i].JString? && u == "." + m.entrypoints[i].s)
  {
    var head, fs, es := ["./", "./index.html"], DotPrefixed(m.files), DotPrefixed(m.entrypoints);
    var c := CandidateRefs(m);
    assert c == head + fs + es;
    var d := Dedup(c);
    assert forall u :: u in d <==> u in head || u in fs || u in es;
    assert head[0] in d && head[1] in d;
  }

  /** `cache.addAll(list)` resolves each relative reference against the worker's location. */
  function ResolveRefs(root: Url, refs: seq<string>): (r: seq<Url>)
    ensures |r| == |refs|
    ensures forall i :: 0 <= i < |refs| ==> r[i] == Resolve(root, refs[i])
  {
    if |refs| == 0 then [] else [Resolve(root, refs[0])] + ResolveRefs(root, refs[1..])
  }

  class Worker {
    /** `self.location.origin`. */
    const origin: string
    /** The directory of the worker script: the origin's root. */
    const scope: Url
    /** CacheStorage. */
    var caches: Storage
    /** The platform actions requested so far, oldest first. */
    var effects: seq<Effect>

    constructor (origin: string, scope: Url, caches: Storage)
      ensures this.origin == origin && this.scope == scope
      ensures this.caches == caches && effects == []
    {
      this.origin := origin;
      this.scope := scope;
      this.caches := caches;
      effects := [];
    }

    /**
     * The install handler. It never rejects. It caches the manifest document,
     * reads the manifest, caches the whole precache set in one atomic step
     * and requests `skipWaiting`; the first failure abandons the remaining
     * steps, `skipWaiting` included.
     */
    method Install(net: Network, read: ManifestRead) returns (outcome: InstallOutcome)
      modifies this
      ensures outcome == Installed
      ensures var store := Open(old(caches), CACHE_NAME);
              var withManifest := AddAll(store[CACHE_NAME], [Resolve(scope, MANIFEST_URL)], net);
              if withManifest.None? then
                caches == store && effects == old(effects)
              else if !read.Parsed? then
                caches == old(caches)[CACHE_NAME := withManifest.value] && effects == old(effects)
              else
                var all := AddAll(withManifest.value, ResolveRefs(scope, Dedup(CandidateRefs(read.manifest))), net);
                if all.None? then
                  caches == old(caches)[CACHE_NAME := withManifest.value] && effects == old(effects)
                else
                  caches == old(caches)[CACHE_NAME := all.value] && effects == old(effects) + [SkipWaiting]
    {
      outcome := Installed;
      var store := Open(caches, CACHE_NAME);
      caches := store;
      var withManifest := AddAll(store[CACHE_NAME], [Resolve(scope, MANIFEST_URL)], net);
      if withManifest.None? {
        return;
      }
      OpenThenStore(old(caches), CACHE_NAME, withManifest.value);
      caches := store[CACHE_NAME := withManifest.value];
      if !read.Parsed? {
        return;
      }
      var urlsToCache := CollectPrecacheSet(read.manifest);
      var all := AddAll(withManifest.value, ResolveRefs(scope, urlsToCache), net);
      if all.None? {
        return;
      }
      OpenThenStore(old(caches), CACHE_NAME, all.value);
      caches := store[CACHE_NAME := all.value];
      effects := effects + [SkipWaiting];
    }

    /**
     * The activate handler: every cache of an older generation is deleted,
     * the current one and caches of other applications are kept, then the
     * worker claims its clients.
     */
    method Activate()
      modifies this
      ensures caches == Purge(old(caches), CACHE_PREFIX, CACHE_NAME)
      ensures effects == old(effects) + [ClaimClients]
    {
      var keys := caches.Keys;
      var pending := keys;
      while pending != {}
        invariant pending <= keys
        invariant effects == old(effects)
        invariant forall k :: k in caches <==> k in old(caches) && !(k !in pending && Obsolete(k, CACHE_PREFIX, CACHE_NAME))
        invariant forall k :: k in caches ==> caches[k] == old(caches)[k]
        decreases pending
      {
        var key :| key in pending;
        if StartsWith(key, CACHE_PREFIX) && key != CACHE_NAME {
          caches := caches - {key};
        }
        pending := pending - {key};
      }
      assert caches == Purge(old(caches), CACHE_PREFIX, CACHE_NAME);
      effects := effects + [ClaimClients];
    }

    /**
     * The fetch handler. Cross-origin requests are left alone. Navigations get
     * the cached root document, else whatever the network gives, a network
     * failure included. Other requests get the cached copy, else the network's
     * answer, stored when it is an ok answer to a GET, else a 504 response.
     */
    method HandleFetch(req: Request, net: Fetched) returns (outcome: FetchOutcome)
      modifies this
      ensures effects == old(effects)
      ensures req.origin != origin ==> outcome == PassThrough && caches == old(caches)
      ensures req.origin == origin && req.mode == Navigate ==>
                var store := Open(old(caches), CACHE_NAME);
                caches == store &&
                outcome == (match MatchUrl(store[CACHE_NAME], Resolve(scope, "./index.html"))
                            case Some(doc) => Respond(doc)
                            case None => if net.Reached? then Respond(net.response) else RespondNetworkError)
      ensures req.origin == origin && req.mode != Navigate ==>
                var store := Open(old(caches), CACHE_NAME);
                match MatchRequest(store[CACHE_NAME], req)
                case Some(hit) => outcome == Respond(hit) && caches == store
                case None =>
                  if net.NetworkFailure? then outcome == Respond(OFFLINE_ASSET) && caches == store
                  else
                    outcome == Respond(net.response) &&
                    caches == (if req.httpMethod == "GET" && net.response.Ok()
                               then store[CACHE_NAME := Put(store[CACHE_NAME], req.url, net.response)]
                               else store)
    {
      if req.origin != origin {
        return PassThrough;
      }
      caches := Open(caches, CACHE_NAME);
      var cache := caches[CACHE_NAME];
      if req.mode == Navigate {
        var cachedIndex := MatchUrl(cache, Resolve(scope, "./index.html"));
        if cachedIndex.Some? {
          return Respond(cachedIndex.value);
        }
        return if net.Reached? then Respond(net.response) else RespondNetworkError;
      }
      var cached := MatchRequest(cache, req);
      if cached.Some? {
        return Respond(cached.value);
      }
      match net {
        case Reached(live) =>
          if req.httpMethod == "GET" && live.Ok() {
            caches := caches[CACHE_NAME := Put(cache, req.url, live)];
          }
          outcome := Respond(live);
        case NetworkFailure =>
          outcome := Respond(OFFLINE_ASSET);
      }
    }

    /** The message handler: only a `SKIP_WAITING` message requests `skipWaiting`. */
    method HandleMessage(data: MessageData)
      modifies this
      ensures caches == old(caches)
      ensures effects == old(effects) + (if IsSkipWaiting(data) then [SkipWaiting] else [])
    {
      if IsSkipWaiting(data) {
        effects := effects + [SkipWaiting];
      }
    }
  }
}
