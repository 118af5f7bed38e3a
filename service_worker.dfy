/**
 * The service worker public/sw.js: which requests its fetch handler takes
 * over and how it answers them, when it writes the cache, and the cache
 * pruning on activation. The network is an input: each fetch either
 * reaches the server with a response or fails.
 */
module ServiceWorker {
  import opened Js
  import opened Text

  const CacheName: string := "noisewatch-v1"
  const OfflineBody: string := "{\"error\":\"Offline\"}"

  /** The parts of a request the handler reads; `url` is the cache key. */
  datatype Request = Request(verb: string, url: string, hostname: string, pathname: string)

  datatype Response = Response(status: int, contentType: string, body: string)

  datatype Network = Reached(response: Response) | Failed

  /** How the fetch handler treats a request. */
  datatype Route = PassThrough | NetworkFirst | StaleWhileRevalidate

  /** The classification at the top of the fetch handler, in its order. */
  function RouteOf(req: Request): (route: Route)
    ensures req.verb != "GET" ==> route == PassThrough
    ensures Contains(req.hostname, "googleapis.com") || Contains(req.hostname, "gstatic.com") ==> route == PassThrough
    ensures route == NetworkFirst <==>
              req.verb == "GET" && !Contains(req.hostname, "googleapis.com") && !Contains(req.hostname, "gstatic.com")
              && StartsWith(req.pathname, "/api/")
  {
    if req.verb != "GET" then PassThrough
    else if Contains(req.hostname, "googleapis.com") || Contains(req.hostname, "gstatic.com") then PassThrough
    else if StartsWith(req.pathname, "/api/") then NetworkFirst
    else StaleWhileRevalidate
  }

  /** A named cache of the origin's Cache Storage. */
  datatype NamedCache = NamedCache(name: string, entries: map<string, Response>)

  /** `caches.match(request)`: the first cache, in creation order, that holds the URL. */
  function Lookup(caches: seq<NamedCache>, url: string): (r: Option<Response>)
    ensures r.Some? <==> exists i :: 0 <= i < |caches| && url in caches[i].entries
    ensures r.Some? ==> exists i :: 0 <= i < |caches| && url in caches[i].entries && caches[i].entries[url] == r.value
    ensures r.Some? ==> exists i :: && 0 <= i < |caches| && url in caches[i].entries && caches[i].entries[url] == r.value
                                    && forall j :: 0 <= j < i ==> url !in caches[j].entries
  {
    if caches == [] then None
    else if url in caches[0].entries then Some(caches[0].entries[url])
    else
      var r := Lookup(caches[1..], url);
      assert forall i :: 0 < i < |caches| ==> caches[i] == caches[1..][i - 1];
      assert r.Some? ==> exists i :: && 0 <= i < |caches| && url in caches[i].entries && caches[i].entries[url] == r.value
                                     && forall j :: 0 <= j < i ==> url !in caches[j].entries
      by {
        if r.Some? {
          var i :| && 0 <= i < |caches[1..]| && url in caches[1..][i].entries && caches[1..][i].entries[url] == r.value
                   && forall j :: 0 <= j < i ==> url !in caches[1..][j].entries;
          assert caches[i + 1] == caches[1..][i];
          assert forall j :: 0 <= j < i + 1 ==> url !in caches[j].entries;
        }
      }
      r
  }

  /** The index of the first cache named CACHE_NAME, or the number of caches when there is none. */
  function FirstNamed(caches: seq<NamedCache>): (k: nat)
    ensures k <= |caches|
    ensures k < |caches| ==> caches[k].name == CacheName
    ensures forall j :: 0 <= j < k ==> caches[j].name != CacheName
  {
    if caches == [] then 0
    else if caches[0].name == CacheName then 0
    else
      var k := FirstNamed(caches[1..]);
      assert forall j :: 0 < j <= k ==> caches[j] == caches[1..][j - 1];
      1 + k
  }

  /**
   * `caches.open(CACHE_NAME)` then `cache.put(url, response)`: the first
   * cache of that name gets the response under the URL and keeps its other
   * entries, every other cache is left alone, and a missing cache is created
   * at the end.
   */
  function Put(caches: seq<NamedCache>, url: string, response: Response): (after: seq<NamedCache>)
    ensures |after| == |caches| || after == caches + [NamedCache(CacheName, map[url := response])]
    ensures forall i :: 0 <= i < |caches| && caches[i].name != CacheName ==> after[i] == caches[i]
    ensures FirstNamed(caches) == |caches| ==> after == caches + [NamedCache(CacheName, map[url := response])]
    ensures FirstNamed(caches) < |caches| ==>
              var k := FirstNamed(caches);
              after == caches[k := caches[k].(entries := caches[k].entries[url := response])]
  {
    if caches == [] then [NamedCache(CacheName, map[url := response])]
    else if caches[0].name == CacheName then [caches[0].(entries := caches[0].entries[url := response])] + caches[1..]
    else
      var rest := Put(caches[1..], url, response);
      var after := [caches[0]] + rest;
      assert FirstNamed(caches) == 1 + FirstNamed(caches[1..]);
      assert after[1..] == rest;
      assert forall i :: 0 < i < |caches| ==> caches[i] == caches[1..][i - 1];
      after
  }

  /** The answer the page gets: none when the handler does not call `respondWith`, a network error, or a response. */
  datatype Outcome = NotHandled | NetworkError | Answered(response: Response)

  /** What the fetch handler answers, given the caches and what the network does. */
  function FetchOutcome(caches: seq<NamedCache>, req: Request, net: Network): Outcome {
    match RouteOf(req)
    case PassThrough => NotHandled
    case NetworkFirst =>
      if net.Reached? then Answered(net.response) else Answered(Response(200, "application/json", OfflineBody))
    case StaleWhileRevalidate =>
      var cached := Lookup(caches, req.url);
      if cached.Some? then Answered(cached.value)
      else if net.Reached? then Answered(net.response)
      else NetworkError
  }

  /** The caches after the fetch handler, including the revalidating `cache.put`. */
  function FetchCaches(caches: seq<NamedCache>, req: Request, net: Network): seq<NamedCache> {
    if RouteOf(req) == StaleWhileRevalidate && net.Reached? && net.response.status == 200
    then Put(caches, req.url, net.response)
    else caches
  }

  /** Requests that are not GET, and requests to the map provider's hosts, go to the network untouched. */
  lemma {:induction false} IgnoredRequests(caches: seq<NamedCache>, req: Request, net: Network)
    requires req.verb != "GET" || Contains(req.hostname, "googleapis.com") || Contains(req.hostname, "gstatic.com")
    ensures FetchOutcome(caches, req, net) == NotHandled
    ensures FetchCaches(caches, req, net) == caches
  {
  }

  /** API requests are answered from the network or with the offline JSON, and never touch the cache. */
  lemma {:induction false} ApiIsNetworkFirst(caches: seq<NamedCache>, req: Request, net: Network)
    requires RouteOf(req) == NetworkFirst
    ensures net.Reached? ==> FetchOutcome(caches, req, net) == Answered(net.response)
    ensures net.Failed? ==> FetchOutcome(caches, req, net).Answered?
                            && FetchOutcome(caches, req, net).response.body == OfflineBody
    ensures FetchCaches(caches, req, net) == caches
  {
  }

  /** Any other GET prefers the cached copy and falls back to the network. */
  lemma {:induction false} StaticIsCacheFirst(caches: seq<NamedCache>, req: Request, net: Network)
    requires RouteOf(req) == StaleWhileRevalidate
    ensures Lookup(caches, req.url).Some? ==> FetchOutcome(caches, req, net) == Answered(Lookup(caches, req.url).value)
    ensures Lookup(caches, req.url).None? && net.Reached? ==> FetchOutcome(caches, req, net) == Answered(net.response)
  {
  }

  /** The cache changes only through a 200 response to a revalidated request, and then only in CACHE_NAME. */
  lemma {:induction false} CacheWrittenOnlyOn200(caches: seq<NamedCache>, req: Request, net: Network)
    ensures FetchCaches(caches, req, net) != caches ==>
              RouteOf(req) == StaleWhileRevalidate && net.Reached? && net.response.status == 200
    ensures forall i :: 0 <= i < |caches| && caches[i].name != CacheName ==>
              FetchCaches(caches, req, net)[i] == caches[i]
  {
  }

  /** A put changes what no other URL looks up to: revalidating one page keeps every other page's cached copy. */
  lemma {:induction false} PutKeepsOtherUrls(caches: seq<NamedCache>, url: string, response: Response, other: string)
    requires other != url
    ensures Lookup(Put(caches, url, response), other) == Lookup(caches, other)
  {
    if caches == [] {
      assert Put(caches, url, response)[1..] == [];
    } else if caches[0].name == CacheName {
      assert Put(caches, url, response)[1..] == caches[1..];
    } else {
      PutKeepsOtherUrls(caches[1..], url, response, other);
      assert Put(caches, url, response)[1..] == Put(caches[1..], url, response);
    }
  }

  /** After a put, CACHE_NAME holds the response under the URL. */
  lemma {:induction false} PutStores(caches: seq<NamedCache>, url: string, response: Response)
    ensures exists i :: 0 <= i < |Put(caches, url, response)|
                        && Put(caches, url, response)[i].name == CacheName
                        && url in Put(caches, url, response)[i].entries
                        && Put(caches, url, response)[i].entries[url] == response
  {
    var after := Put(caches, url, response);
    if caches == [] || caches[0].name == CacheName {
      assert after[0].name == CacheName && after[0].entries[url] == response;
    } else {
      PutStores(caches[1..], url, response);
      var i :| 0 <= i < |Put(caches[1..], url, response)| && Put(caches[1..], url, response)[i].name == CacheName
               && url in Put(caches[1..], url, response)[i].entries
               && Put(caches[1..], url, response)[i].entries[url] == response;
      assert after[i + 1] == Put(caches[1..], url, response)[i];
    }
  }

  /** The caches that survive activation: those named CACHE_NAME, in order. */
  function Pruned(caches: seq<NamedCache>): (kept: seq<NamedCache>)
    ensures forall c :: c in kept <==> c in caches && c.name == CacheName
  {
    if caches == [] then []
    else Pruned(caches[..|caches| - 1])
         + (if caches[|caches| - 1].name == CacheName then [caches[|caches| - 1]] else [])
  }

  /** The Cache Storage of the worker's origin. */
  class Worker {
    var caches: seq<NamedCache>

    constructor(initial: seq<NamedCache>)
      ensures caches == initial
    {
      caches := initial;
    }

    /** The activate handler: delete every cache whose key is not CACHE_NAME. */
    method Activate()
      modifies this
      ensures caches == Pruned(old(caches))
      ensures forall c :: c in caches ==> c.name == CacheName
    {
      var keys := caches;
      var kept: seq<NamedCache> := [];
      var i := 0;
      while i < |keys|
        invariant 0 <= i <= |keys|
        invariant kept == Pruned(keys[..i])
      {
        if keys[i].name == CacheName {
          kept := kept + [keys[i]];
        }
        assert keys[..i + 1][..i] == keys[..i];
        i := i + 1;
      }
      assert keys[..|keys|] == keys;
      caches := kept;
    }

    /** The fetch handler for one request. */
    method OnFetch(req: Request, net: Network) returns (outcome: Outcome)
      modifies this
      ensures outcome == FetchOutcome(old(caches), req, net)
      ensures caches == FetchCaches(old(caches), req, net)
    {
      var route := RouteOf(req);
      if route == PassThrough {
        return NotHandled;
      }
      if route == NetworkFirst {
        if net.Reached? {
          return Answered(net.response);
        }
        return Answered(Response(200, "application/json", OfflineBody));
      }
      var cached := Lookup(caches, req.url);
      if net.Reached? && net.response.status == 200 {
        caches := Put(caches, req.url, net.response);
      }
      if cached.Some? {
        outcome := Answered(cached.value);
      } else if net.Reached? {
        outcome := Answered(net.response);
      } else {
        outcome := NetworkError;
      }
    }
  }
}
