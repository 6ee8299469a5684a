/** The service worker's state and its handlers (sw.js): the set of named
    caches, the log of messages posted to the pages, and the key/value store
    the outbox drain reads. Network results, clock readings, URL parsing and
    JSON decoding are passed in; every operation runs to completion before
    the next one starts. */
module Worker {
  import opened Common
  import opened Routing
  import opened Channel
  import Eviction
  import Outbox

  /** `CONFIG.VERSION` */
  const VERSION := "1.5.0"

  /** `CONFIG.CACHE_NAMES` */
  const STATIC_CACHE := "coffee-static-v3"
  const DYNAMIC_CACHE := "coffee-dynamic-v2"
  const API_CACHE := "coffee-api-v2"
  const IMAGES_CACHE := "coffee-images-v1"
  const CACHE_NAMES: set<string> := {STATIC_CACHE, DYNAMIC_CACHE, API_CACHE, IMAGES_CACHE}

  /** `CONFIG.PRECACHE_FILES` */
  const PRECACHE_FILES: seq<string> :=
    ["/", "/index.html", "/offline.html", "/style.css", "/app.js", "/manifest.json", "/coffee.jpg"]

  const OFFLINE_PAGE := "/offline.html"

  /** A response body: one received from the network, or one of the three
      the worker makes up itself. */
  datatype Body =
    | Content(data: string)
    | Unavailable                                // 'Ресурс недоступний'
    | Placeholder                                // the brown SVG with 'Зображення'
    | OfflineNotice(url: string, timestamp: int) // {error: 'Офлайн', message, url, timestamp}

  datatype Response = Response(status: int, contentType: string, body: Body)
  {
    /** `response.ok` */
    predicate Ok()
    {
      200 <= status <= 299
    }

    /** A response `cache.put` and `cache.addAll` accept: an ok one that is
        not a partial (206) response. */
    predicate Storable()
    {
      Ok() && status != 206
    }
  }

  /** The answer to a static request that failed on the network. */
  const UNAVAILABLE := Response(503, "text/plain", Unavailable)

  /** The answer to an image request that failed on the network (the
      `Response` constructor's default status is 200). */
  const PLACEHOLDER := Response(200, "image/svg+xml", Placeholder)

  /** The answer to an API request that failed with nothing cached. */
  function OfflineApiResponse(url: string, now: int): (r: Response)
    ensures r.status == 503 && !r.Ok() && !r.Storable()
    ensures r.contentType == "application/json" && r.body.OfflineNotice? && r.body.url == url
  {
    Response(503, "application/json", OfflineNotice(url, now))
  }

  /** What `fetch` does: resolve with a response (of any status) or throw. */
  datatype NetResult = Reply(response: Response) | Thrown

  /** One cache: request URL, as `Resolve` gives it, to response. */
  type Store = map<string, Response>

  /** Cache Storage: cache name to cache. */
  type CacheSet = map<string, Store>

  /** The key a cache entry is stored and matched under. The Cache API
      resolves a URL written from the root (`/offline.html`) against the
      worker's origin and takes an absolute URL as it is, so the precache,
      the handlers and `UPDATE_CACHE` all meet on one key per resource. */
  function Resolve(origin: string, url: string): string
  {
    if StartsWith(url, "/") then origin + url else url
  }

  /** An origin such as `https://shop.example`: it does not start with `/`. */
  predicate IsOrigin(origin: string)
  {
    |origin| > 0 && origin[0] != '/'
  }

  /** A URL written from the root and the same URL written out in full name
      one cache entry. */
  lemma RootAndAbsoluteMeet(origin: string, path: string)
    requires IsOrigin(origin) && StartsWith(path, "/")
    ensures Resolve(origin, path) == Resolve(origin, origin + path) == origin + path
  {
    assert (origin + path)[0] == origin[0];
  }

  /** Two different URLs written from the root name different entries. */
  lemma RootPathsStayApart(origin: string, a: string, b: string)
    requires StartsWith(a, "/") && StartsWith(b, "/") && a != b
    ensures Resolve(origin, a) != Resolve(origin, b)
  {
    assert (origin + a)[|origin|..] == a;
    assert (origin + b)[|origin|..] == b;
  }

  /** `caches.open(name)`: the named cache, created empty when absent. */
  function Open(caches: CacheSet, name: string): CacheSet
  {
    if name in caches then caches else caches[name := map[]]
  }

  /** Every cache other than `name` is exactly as before. */
  ghost predicate OnlyCacheChanged(before: CacheSet, after: CacheSet, name: string)
  {
    forall n :: n != name ==> (n in before <==> n in after) && (n in before ==> before[n] == after[n])
  }

  /** Every cached response is one the cache accepts. */
  ghost predicate AllStorable(caches: CacheSet)
  {
    forall n, k :: n in caches && k in caches[n] ==> caches[n][k].Storable()
  }

  /** The catch block of `handleStaticRequest`: the cached offline page for a
      request that accepts HTML, otherwise the 503 text. `None` when the
      request has no Accept header: `headers.get('accept')` is then null and
      the catch block itself throws, so the response promise rejects. */
  function StaticFallback(store: Store, origin: string, accept: Option<string>): (r: Option<Response>)
    ensures r.None? <==> accept.None?
    ensures var page := Resolve(origin, OFFLINE_PAGE);
            && (r.Some? && Contains(accept.value, "text/html") && page in store ==> r.value == store[page])
            && (r.Some? && (!Contains(accept.value, "text/html") || page !in store) ==> r.value == UNAVAILABLE)
  {
    match accept
    case None => None
    case Some(a) =>
      var page := Resolve(origin, OFFLINE_PAGE);
      if Contains(a, "text/html") && page in store then Some(store[page])
      else Some(UNAVAILABLE)
  }

  /** A cache-first handler (`handleStaticRequest`, sw.js:243-281, and
      `handleImageRequest`, sw.js:333-367) on the cache `name`, as a relation
      between the caches before and after and the answer (`None` for a
      rejected response promise): a hit is answered as it is, without the
      network; on a miss the network's response is answered whatever its
      status and stored when it is ok and the cache accepts it; when the
      network throws, `fallback`. */
  ghost predicate CacheFirstServed(before: CacheSet, after: CacheSet, name: string, key: string,
                                   net: NetResult, fallback: Option<Response>, res: Option<Response>)
  {
    var cs0 := Open(before, name);
    var store := cs0[name];
    if key in store then res == Some(store[key]) && after == cs0
    else
      match net
      case Reply(r) => res == Some(r) && after == (if r.Storable() then cs0[name := store[key := r]] else cs0)
      case Thrown => res == fallback && after == cs0
  }

  /** `handleApiRequest` (sw.js:283-331) as a relation: an ok response is
      stored when the cache accepts it, announced with API_UPDATED and
      answered; a response that is not ok is handled like a network error:
      the cached response if there is one, otherwise a 503 JSON notice
      naming the URL. */
  ghost predicate NetworkFirstServed(before: CacheSet, after: CacheSet, eventsBefore: seq<Event>, eventsAfter: seq<Event>,
                                     key: string, url: string, net: NetResult, now: int, res: Response)
  {
    var cs0 := Open(before, API_CACHE);
    var store := cs0[API_CACHE];
    if net.Reply? && net.response.Ok() then
      && res == net.response
      && after == (if net.response.Storable() then cs0[API_CACHE := store[key := net.response]] else cs0)
      && eventsAfter == eventsBefore + [ApiUpdated(url)]
    else
      && res == (if key in store then store[key] else OfflineApiResponse(url, now))
      && after == cs0
      && eventsAfter == eventsBefore
  }

  /** The cache `updateSpecificCache` writes to, asked with the same two
      tests in the same order as the fetch listener. */
  function UpdateTarget(pathname: string): (name: string)
    ensures name in CACHE_NAMES && name != STATIC_CACHE
    ensures name == API_CACHE <==> StartsWith(pathname, "/api/")
  {
    if IsApiRequest(pathname) then API_CACHE
    else if IsImageRequest(pathname) then IMAGES_CACHE
    else DYNAMIC_CACHE
  }

  /** For a request the fetch listener would intercept, the refresh target
      is the cache its strategy reads, except that a request answered from
      the static cache is refreshed into the dynamic cache. */
  lemma UpdateTargetFollowsRouting(r: Request)
    requires Route(r).Some?
    ensures UpdateTarget(r.pathname) == match Route(r).value
                                        case NetworkFirst => API_CACHE
                                        case ImageCacheFirst => IMAGES_CACHE
                                        case StaticCacheFirst => DYNAMIC_CACHE
  {
  }

  /** The caches after `updateSpecificCache` (sw.js:471-493). `target` is
      `data.url`, the empty string when the message has no data or no URL;
      `pathname` is what `new URL(target)` gives, `None` when that throws (a
      relative URL). With an ok response and a parsed URL, the cache
      `UpdateTarget` picks is opened, and the response is put under the
      target's key when the cache accepts it (a refused put is caught). */
  function Refreshed(caches: CacheSet, origin: string, target: string, net: NetResult, pathname: Option<string>): CacheSet
  {
    if target == "" || net.Thrown? || !net.response.Ok() || pathname.None? then caches
    else
      var name := UpdateTarget(pathname.value);
      var cs0 := Open(caches, name);
      if net.response.Storable() then cs0[name := cs0[name][Resolve(origin, target) := net.response]] else cs0
  }

  /** A refresh writes only into the cache `UpdateTarget` picks, which is
      never the static cache, and stores only responses the cache accepts. */
  lemma RefreshSparesStatic(caches: CacheSet, origin: string, target: string, net: NetResult, pathname: Option<string>)
    ensures var after := Refreshed(caches, origin, target, net, pathname);
            && (STATIC_CACHE in caches <==> STATIC_CACHE in after)
            && (STATIC_CACHE in caches ==> after[STATIC_CACHE] == caches[STATIC_CACHE])
            && (AllStorable(caches) ==> AllStorable(after))
  {
    if !(target == "" || net.Thrown? || !net.response.Ok() || pathname.None?) {
      var name := UpdateTarget(pathname.value);
      var cs0 := Open(caches, name);
      assert name != STATIC_CACHE;
      if AllStorable(caches) {
        assert AllStorable(cs0);
        if net.response.Storable() {
          PutKeepsStorable(cs0, name, Resolve(origin, target), net.response);
        }
      }
    }
  }

  /** Putting an accepted response into an open cache keeps every cached
      response acceptable. */
  lemma PutKeepsStorable(caches: CacheSet, name: string, key: string, r: Response)
    requires name in caches && AllStorable(caches) && r.Storable()
    ensures AllStorable(caches[name := caches[name][key := r]])
  {
    var after: CacheSet := caches[name := caches[name][key := r]];
    forall n: string, k: string | n in after && k in after[n]
      ensures after[n][k].Storable()
    {
      if n == name && k == key {
      } else if n == name {
        assert after[n][k] == caches[n][k];
      } else {
        assert after[n] == caches[n];
      }
    }
  }

  /** `UPDATE_CACHE` with the full URL of an API resource refreshes exactly
      the entry the API handler matches for that resource, whether the
      request names it in full or from the root, and leaves every other
      cache as it was. */
  lemma RefreshReachesServedEntry(caches: CacheSet, origin: string, path: string, r: Response, req: Request)
    requires IsOrigin(origin) && StartsWith(path, "/api/") && r.Storable()
    requires req.httpMethod == "GET" && req.protocol != "chrome-extension:" && req.pathname == path
    requires req.url == path || req.url == origin + path
    ensures Route(req) == Some(NetworkFirst)
    ensures var after := Refreshed(caches, origin, origin + path, Reply(r), Some(path));
            && API_CACHE in after && Resolve(origin, req.url) in after[API_CACHE]
            && after[API_CACHE][Resolve(origin, req.url)] == r
            && OnlyCacheChanged(caches, after, API_CACHE)
  {
    assert path[..1] == path[..5][..1];
    RootAndAbsoluteMeet(origin, path);
  }

  /** `cache.addAll(PRECACHE_FILES)` when every fetch succeeded: the i-th
      file stored under its own key, a later write to the same key winning. */
  function PutAll(store: Store, keys: seq<string>, responses: seq<Response>): (r: Store)
    requires |keys| == |responses|
    ensures forall k :: k in r <==> k in store || k in keys
    ensures forall k :: k in store && k !in keys ==> r[k] == store[k]
    ensures forall k :: k in r ==> r[k] in responses || (k in store && r[k] == store[k])
    decreases |keys|
  {
    if keys == [] then store
    else
      var n := |keys| - 1;
      PutAll(store, keys[..n], responses[..n])[keys[n] := responses[n]]
  }

  /** With no key listed twice, each key ends up holding its own response. */
  lemma {:induction false} PutAllStoresEach(store: Store, keys: seq<string>, responses: seq<Response>, i: nat)
    requires |keys| == |responses| && Distinct(keys) && i < |keys|
    ensures PutAll(store, keys, responses)[keys[i]] == responses[i]
    decreases |keys|
  {
    var n := |keys| - 1;
    if i < n {
      assert keys[..n][i] == keys[i];
      PutAllStoresEach(store, keys[..n], responses[..n], i);
    }
  }

  /** All precache fetches resolved with a response `addAll` accepts; one
      that is not ok or is partial makes `addAll` reject as a whole. */
  predicate AllFetched(replies: seq<NetResult>)
  {
    forall i :: 0 <= i < |replies| ==> replies[i].Reply? && replies[i].response.Storable()
  }

  function ResponsesOf(replies: seq<NetResult>): (rs: seq<Response>)
    requires AllFetched(replies)
    ensures |rs| == |replies| && forall i :: 0 <= i < |rs| ==> rs[i] == replies[i].response && rs[i].Storable()
  {
    seq(|replies|, i requires 0 <= i < |replies| => replies[i].response)
  }

  /** The keys the precache files are stored under. */
  function PrecacheKeys(origin: string): (keys: seq<string>)
    ensures |keys| == |PRECACHE_FILES|
    ensures forall i :: 0 <= i < |keys| ==> keys[i] == Resolve(origin, PRECACHE_FILES[i])
  {
    seq(|PRECACHE_FILES|, i requires 0 <= i < |PRECACHE_FILES| => Resolve(origin, PRECACHE_FILES[i]))
  }

  /** The seven files are written from the root and differ, so their keys
      differ. */
  lemma PrecacheKeysDistinct(origin: string)
    ensures Distinct(PrecacheKeys(origin))
  {
    var keys := PrecacheKeys(origin);
    forall i | 0 <= i < |PRECACHE_FILES|
      ensures StartsWith(PRECACHE_FILES[i], "/")
    {
      assert PRECACHE_FILES[i][0] == '/';
    }
    forall i, j | 0 <= i < j < |keys|
      ensures keys[i] != keys[j]
    {
      RootPathsStayApart(origin, PRECACHE_FILES[i], PRECACHE_FILES[j]);
    }
  }

  /** The caches after `precacheStaticFiles` (sw.js:204-214): the static
      cache opened, and every file stored under its key when each fetch gave
      a response the cache accepts; otherwise `addAll` rejects, the failure
      is swallowed and nothing is stored. */
  function Precached(caches: CacheSet, origin: string, replies: seq<NetResult>): CacheSet
    requires |replies| == |PRECACHE_FILES|
  {
    var cs0 := Open(caches, STATIC_CACHE);
    if AllFetched(replies)
    then cs0[STATIC_CACHE := PutAll(cs0[STATIC_CACHE], PrecacheKeys(origin), ResponsesOf(replies))]
    else cs0
  }

  /** A successful precache leaves each file under its key with its own
      response, whatever the static cache held before; a failed one leaves
      every cache as it was. */
  lemma PrecacheStoresEachFile(caches: CacheSet, origin: string, replies: seq<NetResult>)
    requires |replies| == |PRECACHE_FILES|
    ensures var after := Precached(caches, origin, replies);
            && STATIC_CACHE in after
            && OnlyCacheChanged(caches, after, STATIC_CACHE)
            && (AllFetched(replies) ==> forall i :: 0 <= i < |PRECACHE_FILES| ==>
                  Resolve(origin, PRECACHE_FILES[i]) in after[STATIC_CACHE]
                  && after[STATIC_CACHE][Resolve(origin, PRECACHE_FILES[i])] == replies[i].response)
            && (!AllFetched(replies) && STATIC_CACHE in caches ==> after == caches)
  {
    if AllFetched(replies) {
      forall i | 0 <= i < |PRECACHE_FILES|
        ensures var after := Precached(caches, origin, replies);
                Resolve(origin, PRECACHE_FILES[i]) in after[STATIC_CACHE]
                && after[STATIC_CACHE][Resolve(origin, PRECACHE_FILES[i])] == replies[i].response
      {
        PrecacheFileStored(caches, origin, replies, i);
      }
    }
  }

  /** One file of a successful precache. */
  lemma PrecacheFileStored(caches: CacheSet, origin: string, replies: seq<NetResult>, i: nat)
    requires |replies| == |PRECACHE_FILES| && AllFetched(replies) && i < |PRECACHE_FILES|
    ensures var store := Precached(caches, origin, replies)[STATIC_CACHE];
            Resolve(origin, PRECACHE_FILES[i]) in store && store[Resolve(origin, PRECACHE_FILES[i])] == replies[i].response
  {
    var keys, responses := PrecacheKeys(origin), ResponsesOf(replies);
    PrecacheKeysDistinct(origin);
    PutAllStoresEach(Open(caches, STATIC_CACHE)[STATIC_CACHE], keys, responses, i);
    assert keys[i] == Resolve(origin, PRECACHE_FILES[i]);
  }

  /** The caches whose names belong to the current version. */
  function CurrentOnly(caches: CacheSet): (r: CacheSet)
    ensures r.Keys == caches.Keys * CACHE_NAMES
    ensures forall n :: n in r ==> r[n] == caches[n]
  {
    map n | n in caches && n in CACHE_NAMES :: caches[n]
  }

  /** The scan of `manageCacheSize`: each listed key still in the cache, with
      the size of its body. */
  function Scan(store: Store, order: seq<string>, blobSize: Response -> nat): seq<Eviction.Entry>
    decreases |order|
  {
    if order == [] then []
    else
      var n := |order| - 1;
      Scan(store, order[..n], blobSize)
      + if order[n] in store then [Eviction.Entry(order[n], blobSize(store[order[n]]))] else []
  }

  /** A scan over keys that are all cached has one entry per listed key, in
      listing order. */
  lemma {:induction false} ScanKeepsListedKeys(store: Store, order: seq<string>, blobSize: Response -> nat)
    requires forall i :: 0 <= i < |order| ==> order[i] in store
    ensures Eviction.Keys(Scan(store, order, blobSize)) == order
    decreases |order|
  {
    if order != [] {
      var n := |order| - 1;
      ScanKeepsListedKeys(store, order[..n], blobSize);
      assert Scan(store, order, blobSize) == Scan(store, order[..n], blobSize) + [Eviction.Entry(order[n], blobSize(store[order[n]]))];
    }
  }

  /** When `order` is the cache's own listing (`cache.keys()` lists each
      cached request once), the scan covers every cached entry exactly once:
      its keys are the listing, and every cached key is among them. */
  lemma ScanCoversCache(store: Store, order: seq<string>, blobSize: Response -> nat)
    requires ListsKeys(order, store)
    ensures Eviction.Keys(Scan(store, order, blobSize)) == order
    ensures forall k :: k in store <==> k in Eviction.Keys(Scan(store, order, blobSize))
    ensures |Scan(store, order, blobSize)| == |order|
  {
    ScanKeepsListedKeys(store, order, blobSize);
  }

  /** The keys an eviction pass over `entries` deletes. */
  function Evicted(entries: seq<Eviction.Entry>): set<string>
  {
    set i | 0 <= i < Eviction.EvictionCount(entries) && i < |entries| :: entries[i].key
  }

  /** What the page asks of the worker (sw.js:179-201). */
  datatype Message =
    | SkipWaiting
    | UpdateCache(url: string)
    | ClearCache
    | GetStatus
    | Unrecognized(kind: string)

  /** How the fetch listener ends: left to the browser, answered, or with a
      response promise that rejects. */
  datatype FetchOutcome = NotIntercepted | Responded(response: Response) | Rejected

  class ServiceWorker {
    const origin: string
    var caches: CacheSet
    var events: seq<Event>
    var storage: Outbox.Storage

    constructor (origin0: string, caches0: CacheSet, storage0: Outbox.Storage)
      ensures origin == origin0 && caches == caches0 && events == [] && storage == storage0
    {
      origin := origin0;
      caches := caches0;
      events := [];
      storage := storage0;
    }

    /** `handleStaticRequest` (sw.js:243-281): cache first on the static
        cache, with the offline page or the 503 text when the network
        throws. The network is asked exactly on a miss. */
    method HandleStatic(req: Request, net: NetResult) returns (res: Option<Response>, fetched: bool)
      modifies this
      ensures events == old(events) && storage == old(storage)
      ensures var store := Open(old(caches), STATIC_CACHE)[STATIC_CACHE];
              && CacheFirstServed(old(caches), caches, STATIC_CACHE, Resolve(origin, req.url), net,
                                  StaticFallback(store, origin, req.accept), res)
              && (fetched <==> Resolve(origin, req.url) !in store)
      ensures OnlyCacheChanged(old(caches), caches, STATIC_CACHE)
      ensures AllStorable(old(caches)) ==> AllStorable(caches)
    {
      caches := Open(caches, STATIC_CACHE);
      var store := caches[STATIC_CACHE];
      var key := Resolve(origin, req.url);
      if key in store {
        return Some(store[key]), false;
      }
      fetched := true;
      match net
      case Reply(r) =>
        if r.Storable() {
          caches := caches[STATIC_CACHE := store[key := r]];
        }
        res := Some(r);
      case Thrown =>
        res := StaticFallback(store, origin, req.accept);
    }

    /** `handleApiRequest` (sw.js:283-331): network first. */
    method HandleApi(req: Request, net: NetResult, now: int) returns (res: Response)
      modifies this
      ensures storage == old(storage)
      ensures NetworkFirstServed(old(caches), caches, old(events), events, Resolve(origin, req.url), req.url, net, now, res)
      ensures OnlyCacheChanged(old(caches), caches, API_CACHE)
      ensures AllStorable(old(caches)) ==> AllStorable(caches)
    {
      caches := Open(caches, API_CACHE);
      var store := caches[API_CACHE];
      var key := Resolve(origin, req.url);
      if net.Reply? && net.response.Ok() {
        if net.response.Storable() {
          caches := caches[API_CACHE := store[key := net.response]];
        }
        events := events + [ApiUpdated(req.url)];
        return net.response;
      }
      if key in store {
        res := store[key];
      } else {
        res := OfflineApiResponse(req.url, now);
      }
    }

    /** `handleImageRequest` (sw.js:333-367): cache first on the image cache,
        with the SVG placeholder when the network throws. */
    method HandleImage(req: Request, net: NetResult) returns (res: Response, fetched: bool)
      modifies this
      ensures events == old(events) && storage == old(storage)
      ensures CacheFirstServed(old(caches), caches, IMAGES_CACHE, Resolve(origin, req.url), net, Some(PLACEHOLDER), Some(res))
      ensures fetched <==> Resolve(origin, req.url) !in Open(old(caches), IMAGES_CACHE)[IMAGES_CACHE]
      ensures OnlyCacheChanged(old(caches), caches, IMAGES_CACHE)
      ensures AllStorable(old(caches)) ==> AllStorable(caches)
    {
      caches := Open(caches, IMAGES_CACHE);
      var store := caches[IMAGES_CACHE];
      var key := Resolve(origin, req.url);
      if key in store {
        return store[key], false;
      }
      fetched := true;
      match net
      case Reply(r) =>
        if r.Storable() {
          caches := caches[IMAGES_CACHE := store[key := r]];
        }
        res := r;
      case Thrown =>
        res := PLACEHOLDER;
    }

    /** The fetch listener (sw.js:91-108): requests it does not intercept
        change nothing; each of the others is answered by the handler `Route`
        picks, exactly as that handler answers, and only that handler's cache
        changes. No request touches the dynamic cache, and only a static
        request without an Accept header whose fetch throws is rejected. */
    method HandleFetch(req: Request, net: NetResult, now: int) returns (outcome: FetchOutcome)
      modifies this
      ensures storage == old(storage)
      ensures match Route(req)
              case None =>
                outcome == NotIntercepted && caches == old(caches) && events == old(events)
              case Some(NetworkFirst) =>
                && outcome.Responded?
                && NetworkFirstServed(old(caches), caches, old(events), events, Resolve(origin, req.url), req.url, net, now, outcome.response)
              case Some(ImageCacheFirst) =>
                && outcome.Responded? && events == old(events)
                && CacheFirstServed(old(caches), caches, IMAGES_CACHE, Resolve(origin, req.url), net, Some(PLACEHOLDER), Some(outcome.response))
              case Some(StaticCacheFirst) =>
                && !outcome.NotIntercepted? && events == old(events)
                && CacheFirstServed(old(caches), caches, STATIC_CACHE, Resolve(origin, req.url), net,
                                    StaticFallback(Open(old(caches), STATIC_CACHE)[STATIC_CACHE], origin, req.accept),
                                    if outcome.Responded? then Some(outcome.response) else None)
      ensures outcome.Rejected? ==> Route(req) == Some(StaticCacheFirst) && net.Thrown? && req.accept.None?
      ensures DYNAMIC_CACHE in old(caches) <==> DYNAMIC_CACHE in caches
      ensures DYNAMIC_CACHE in old(caches) ==> caches[DYNAMIC_CACHE] == old(caches)[DYNAMIC_CACHE]
      ensures AllStorable(old(caches)) ==> AllStorable(caches)
    {
      var route := Route(req);
      match route
      case None =>
        outcome := NotIntercepted;
      case Some(NetworkFirst) =>
        var res := HandleApi(req, net, now);
        outcome := Responded(res);
      case Some(ImageCacheFirst) =>
        var res, _ := HandleImage(req, net);
        outcome := Responded(res);
      case Some(StaticCacheFirst) =>
        var res, _ := HandleStatic(req, net);
        outcome := if res.Some? then Responded(res.value) else Rejected;
    }

    /** `precacheStaticFiles` (sw.js:204-214). */
    method Precache(replies: seq<NetResult>)
      requires |replies| == |PRECACHE_FILES|
      modifies this
      ensures caches == Precached(old(caches), origin, replies)
      ensures events == old(events) && storage == old(storage)
      ensures AllStorable(old(caches)) ==> AllStorable(caches)
    {
      caches := Open(caches, STATIC_CACHE);
      if AllFetched(replies) {
        var store := PutAll(caches[STATIC_CACHE], PrecacheKeys(origin), ResponsesOf(replies));
        caches := caches[STATIC_CACHE := store];
      }
    }

    /** `cleanOldCaches` (sw.js:216-230): delete every cache whose name is
        not one of the four current names; the others keep their entries. */
    method CleanOldCaches()
      modifies this
      ensures caches == CurrentOnly(old(caches))
      ensures events == old(events) && storage == old(storage)
      ensures AllStorable(old(caches)) ==> AllStorable(caches)
    {
      caches := CurrentOnly(caches);
    }

    /** The install listener (sw.js:43-68): precache, sweep old caches and
        post SW_INSTALLED; a failed precache does not stop the install. */
    method Install(replies: seq<NetResult>)
      requires |replies| == |PRECACHE_FILES|
      modifies this
      ensures caches == CurrentOnly(Precached(old(caches), origin, replies))
      ensures STATIC_CACHE in caches && caches.Keys <= CACHE_NAMES
      ensures forall n :: n in CACHE_NAMES && n != STATIC_CACHE ==>
                (n in caches <==> n in old(caches)) && (n in caches ==> caches[n] == old(caches)[n])
      ensures AllFetched(replies) ==> forall i :: 0 <= i < |PRECACHE_FILES| ==>
                Resolve(origin, PRECACHE_FILES[i]) in caches[STATIC_CACHE]
                && caches[STATIC_CACHE][Resolve(origin, PRECACHE_FILES[i])] == replies[i].response
      ensures events == old(events) + [Installed(VERSION)]
      ensures storage == old(storage)
      ensures AllStorable(old(caches)) ==> AllStorable(caches)
    {
      PrecacheStoresEachFile(caches, origin, replies);
      Precache(replies);
      CleanOldCaches();
      events := events + [Installed(VERSION)];
    }

    /** The activate listener (sw.js:71-88): sweep old caches and post
        SW_ACTIVATED. */
    method Activate()
      modifies this
      ensures caches == CurrentOnly(old(caches))
      ensures events == old(events) + [Activated]
      ensures storage == old(storage)
    {
      CleanOldCaches();
      events := events + [Activated];
    }

    /** `clearAllCaches` (sw.js:232-240): delete every cache and post
        CACHE_CLEARED. */
    method ClearAllCaches()
      modifies this
      ensures caches == map[]
      ensures events == old(events) + [CacheCleared]
      ensures storage == old(storage)
    {
      caches := map[];
      events := events + [CacheCleared];
    }

    /** `updateSpecificCache` (sw.js:471-493): nothing changes for a missing
        URL, a failed or not-ok fetch or a relative URL; otherwise the caches
        become `Refreshed`, which never touches the static cache. */
    method UpdateSpecificCache(target: string, net: NetResult, pathname: Option<string>)
      modifies this
      ensures caches == Refreshed(old(caches), origin, target, net, pathname)
      ensures target == "" || net.Thrown? || !net.response.Ok() || pathname.None? ==> caches == old(caches)
      ensures STATIC_CACHE in old(caches) <==> STATIC_CACHE in caches
      ensures STATIC_CACHE in old(caches) ==> caches[STATIC_CACHE] == old(caches)[STATIC_CACHE]
      ensures events == old(events) && storage == old(storage)
      ensures AllStorable(old(caches)) ==> AllStorable(caches)
    {
      RefreshSparesStatic(caches, origin, target, net, pathname);
      if target == "" {
        return;
      }
      match net
      case Thrown =>
      case Reply(r) =>
        if r.Ok() && pathname.Some? {
          var name := UpdateTarget(pathname.value);
          caches := Open(caches, name);
          if r.Storable() {
            caches := caches[name := caches[name][Resolve(origin, target) := r]];
          }
        }
    }

    /** The message listener (sw.js:179-201): UPDATE_CACHE refreshes as
        `updateSpecificCache` does, CLEAR_CACHE empties Cache Storage;
        SKIP_WAITING and GET_STATUS change none of the modelled state and
        unknown types are ignored. */
    method Dispatch(msg: Message, net: NetResult, pathname: Option<string>)
      modifies this
      ensures msg.UpdateCache? ==> caches == Refreshed(old(caches), origin, msg.url, net, pathname)
      ensures msg.ClearCache? ==> caches == map[] && events == old(events) + [CacheCleared]
      ensures !msg.ClearCache? ==> events == old(events)
      ensures !msg.ClearCache? && !msg.UpdateCache? ==> caches == old(caches)
      ensures storage == old(storage)
    {
      match msg
      case UpdateCache(url) =>
        UpdateSpecificCache(url, net, pathname);
      case ClearCache =>
        ClearAllCaches();
      case _ =>
    }

    /** `manageCacheSize` (sw.js:531-570). `order` is the list of keys
        `cache.keys()` gives and `blobSize` the size of a response's body.
        When the scanned sizes add up to more than the ceiling, the entries
        `Eviction.EvictionCount` selects from the front of the scan are
        deleted; otherwise nothing is. No other cache is touched. */
    method ManageCacheSize(order: seq<string>, blobSize: Response -> nat)
      modifies this
      ensures var cs0 := Open(old(caches), DYNAMIC_CACHE);
              var store := cs0[DYNAMIC_CACHE];
              var entries := Scan(store, order, blobSize);
              caches == if Eviction.Total(entries) > Eviction.MAX_DYNAMIC_CACHE_SIZE
                        then cs0[DYNAMIC_CACHE := store - Evicted(entries)]
                        else cs0
      ensures OnlyCacheChanged(old(caches), caches, DYNAMIC_CACHE)
      ensures events == old(events) && storage == old(storage)
      ensures AllStorable(old(caches)) ==> AllStorable(caches)
    {
      caches := Open(caches, DYNAMIC_CACHE);
      var entries, total := ScanSizes(caches[DYNAMIC_CACHE], order, blobSize);
      if total > Eviction.MAX_DYNAMIC_CACHE_SIZE {
        var toRemove, _ := Eviction.PlanEviction(entries);
        DeleteAll(toRemove);
        assert (set j | 0 <= j < |toRemove| :: toRemove[j]) == Evicted(entries);
      }
    }

    /** The delete loop of `manageCacheSize`: every listed key leaves the
        dynamic cache, and nothing else changes. */
    method DeleteAll(toRemove: seq<string>)
      requires DYNAMIC_CACHE in caches
      modifies this
      ensures caches == old(caches)[DYNAMIC_CACHE := old(caches)[DYNAMIC_CACHE] - set j | 0 <= j < |toRemove| :: toRemove[j]]
      ensures events == old(events) && storage == old(storage)
    {
      ghost var store := caches[DYNAMIC_CACHE];
      ghost var removed: set<string> := {};
      assert store - removed == store;
      assert caches == old(caches)[DYNAMIC_CACHE := store - removed];
      for i := 0 to |toRemove|
        invariant removed == set j | 0 <= j < i :: toRemove[j]
        invariant caches == old(caches)[DYNAMIC_CACHE := store - removed]
        invariant events == old(events) && storage == old(storage)
      {
        assert (set j | 0 <= j < i + 1 :: toRemove[j]) == removed + {toRemove[i]};
        assert (store - removed) - {toRemove[i]} == store - (removed + {toRemove[i]});
        caches := caches[DYNAMIC_CACHE := caches[DYNAMIC_CACHE] - {toRemove[i]}];
        removed := removed + {toRemove[i]};
      }
    }

    /** `syncPendingOrders` (sw.js:370-441). `keys` is the store's key
        enumeration, `parse` decodes a stored value to its order id, and
        `readable` is false when touching the store throws (then only
        SYNC_FAILED is posted). With no sync key, SYNC_COMPLETED with count 0
        is posted; otherwise every sync key is visited as `Outbox.Drain`
        describes and one SYNC_COMPLETED closes the pass. Keys without the
        sync prefix are never touched. */
    method SyncPendingOrders(keys: seq<string>, parse: string -> Option<string>, readable: bool)
      modifies this
      ensures !readable ==> storage == old(storage) && events == old(events) + [SyncFailed]
      ensures readable && Outbox.SyncKeys(keys) == [] ==> storage == old(storage) && events == old(events) + [NothingToSync]
      ensures readable && Outbox.SyncKeys(keys) != [] ==>
                var total := |Outbox.SyncKeys(keys)|;
                var p := Outbox.Drain(Outbox.Progress(old(storage), old(events), 0, 0), Outbox.SyncKeys(keys), parse);
                && storage == p.storage
                && events == p.events + [SyncCompleted(p.success, p.errors, total)]
                && p.success + p.errors == total
      ensures forall k :: k in old(storage) && !Outbox.IsSyncKey(k) ==> k in storage && storage[k] == old(storage)[k]
      ensures storage.Keys <= old(storage).Keys
      ensures caches == old(caches)
    {
      if !readable {
        events := events + [SyncFailed];
        return;
      }
      var syncKeys := CollectSyncKeys(keys);
      if |syncKeys| == 0 {
        events := events + [NothingToSync];
        return;
      }
      ghost var start := Outbox.Progress(storage, events, 0, 0);
      var success, errors := DrainKeys(syncKeys, parse);
      Outbox.DrainCountsEveryKey(start, syncKeys, parse);
      forall k | k in old(storage) && !Outbox.IsSyncKey(k)
        ensures k in storage && storage[k] == old(storage)[k]
      {
        Outbox.DrainLeavesOtherKeys(start, syncKeys, parse, k);
      }
      Outbox.DrainLeavesOtherKeys(start, syncKeys, parse, "");
      events := events + [SyncCompleted(success, errors, |syncKeys|)];
    }

    /** The per-key loop of `syncPendingOrders`: read and decode each key's
        value; on success remove the key, count it and post ORDER_SYNCED with
        the order id, otherwise count an error. */
    method DrainKeys(syncKeys: seq<string>, parse: string -> Option<string>) returns (success: nat, errors: nat)
      modifies this
      ensures Outbox.Progress(storage, events, success, errors)
              == Outbox.Drain(Outbox.Progress(old(storage), old(events), 0, 0), syncKeys, parse)
      ensures caches == old(caches)
    {
      ghost var start := Outbox.Progress(storage, events, 0, 0);
      success, errors := 0, 0;
      for i := 0 to |syncKeys|
        invariant Outbox.Drain(start, syncKeys[..i], parse) == Outbox.Progress(storage, events, success, errors)
        invariant caches == old(caches)
      {
        assert syncKeys[..i + 1][..i] == syncKeys[..i];
        var key := syncKeys[i];
        var decoded := if key in storage then parse(storage[key]) else None;
        match decoded
        case Some(orderId) =>
          storage := storage - {key};
          success := success + 1;
          events := events + [OrderSynced(orderId)];
        case None =>
          errors := errors + 1;
      }
      assert syncKeys[..|syncKeys|] == syncKeys;
    }
  }

  /** The first loop of `syncPendingOrders`: the keys that start with
      `sync_order_`, in enumeration order. */
  method CollectSyncKeys(keys: seq<string>) returns (syncKeys: seq<string>)
    ensures syncKeys == Outbox.SyncKeys(keys)
  {
    syncKeys := [];
    for i := 0 to |keys|
      invariant syncKeys == Outbox.SyncKeys(keys[..i])
    {
      assert keys[..i + 1] == keys[..i] + [keys[i]];
      Outbox.SyncKeysAppend(keys[..i], keys[i]);
      if StartsWith(keys[i], Outbox.SYNC_PREFIX) {
        syncKeys := syncKeys + [keys[i]];
      }
    }
    assert keys[..|keys|] == keys;
  }

  /** The scan loop of `manageCacheSize`: the entries still in the cache, in
      key order, with their sizes, and the running total. */
  method ScanSizes(store: Store, order: seq<string>, blobSize: Response -> nat) returns (entries: seq<Eviction.Entry>, total: nat)
    ensures entries == Scan(store, order, blobSize)
    ensures total == Eviction.Total(entries)
  {
    entries, total := [], 0;
    for i := 0 to |order|
      invariant entries == Scan(store, order[..i], blobSize)
      invariant total == Eviction.Total(entries)
    {
      assert order[..i + 1][..i] == order[..i];
      var key := order[i];
      if key in store {
        var size := blobSize(store[key]);
        total := total + size;
        entries := entries + [Eviction.Entry(key, size)];
      }
    }
    assert order[..|order|] == order;
  }
}
