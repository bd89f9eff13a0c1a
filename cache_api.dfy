/**
 * The part of the browser's Cache Storage API (W3C Service Workers, sections 5.4
 * and 5.5) that the two service workers use: `caches.open`, `cache.addAll`,
 * `caches.match`, `caches.keys` and `caches.delete`.
 *
 * Storage is an ordered table from cache names to caches; a cache maps a request
 * URL to its stored response. The order of names is creation order, which is the
 * order `caches.keys()` reports and `caches.match` searches.
 */
module CacheApi {
  import opened Common

  type Url = string
  type CacheName = string

  /** A response as far as the workers see it: its status and its body bytes. */
  datatype Response = Response(status: int, body: seq<int>)
  {
    /** An "ok status" in the Fetch standard: 200 to 299. */
    predicate Ok() { 200 <= status <= 299 }

    /** What `cache.addAll` accepts: an ok status other than 206 (a partial response). */
    predicate Storable() { Ok() && status != 206 }
  }

  /** What `fetch(request)` settles to: a response, or a rejected promise. */
  datatype FetchResult = Fetched(response: Response) | NetworkError

  /** The network, as seen at one moment: what fetching each URL would give. */
  type Network = Url -> FetchResult

  type Cache = map<Url, Response>

  /** Removes every element of `ds` from `ns`, keeping the order of the rest. */
  function FilterOut(ns: seq<CacheName>, ds: set<CacheName>): (r: seq<CacheName>)
    ensures forall n :: n in r <==> n in ns && n !in ds
    ensures Distinct(ns) ==> Distinct(r)
    ensures Subsequence(r, ns)
  {
    if ns == [] then []
    else if ns[0] in ds then FilterOut(ns[1..], ds)
    else [ns[0]] + FilterOut(ns[1..], ds)
  }

  lemma {:induction false} FilterOutTwice(ns: seq<CacheName>, a: set<CacheName>, b: set<CacheName>)
    ensures FilterOut(FilterOut(ns, a), b) == FilterOut(ns, a + b)
  {
    if ns != [] {
      FilterOutTwice(ns[1..], a, b);
      if ns[0] !in a {
        assert ([ns[0]] + FilterOut(ns[1..], a))[1..] == FilterOut(ns[1..], a);
      }
    }
  }

  lemma {:induction false} FilterOutNothing(ns: seq<CacheName>)
    ensures FilterOut(ns, {}) == ns
  {
    if ns != [] {
      FilterOutNothing(ns[1..]);
    }
  }

  /**
   * Fetches every URL of an `addAll` batch. The batch fails when any fetch is
   * rejected or any response has a status outside 200..299 or the status 206.
   */
  function FetchAll(urls: seq<Url>, net: Network): (r: Option<seq<Response>>)
    ensures r.Some? <==> forall i :: 0 <= i < |urls| ==> net(urls[i]).Fetched? && net(urls[i]).response.Storable()
    ensures r.Some? ==> |r.value| == |urls| && forall i :: 0 <= i < |urls| ==> r.value[i] == net(urls[i]).response
  {
    if urls == [] then Some([])
    else match net(urls[0])
      case NetworkError => None
      case Fetched(resp) =>
        if !resp.Storable() then None
        else match FetchAll(urls[1..], net)
          case None => None
          case Some(rest) => Some([resp] + rest)
  }

  /** Stores each `urls[i]` with `resps[i]`, replacing an entry for the same URL. */
  function PutAll(c: Cache, urls: seq<Url>, resps: seq<Response>): (r: Cache)
    requires |urls| == |resps|
    ensures r.Keys == c.Keys + (set u | u in urls)
    ensures forall u :: u in c && u !in urls ==> r[u] == c[u]
    ensures Distinct(urls) ==> forall i :: 0 <= i < |urls| ==> r[urls[i]] == resps[i]
    decreases urls
  {
    if urls == [] then c
    else PutAll(c[urls[0] := resps[0]], urls[1..], resps[1..])
  }

  datatype Storage = Storage(names: seq<CacheName>, caches: map<CacheName, Cache>)
  {
    /** Every name is listed once, and the listed names are exactly the stored caches. */
    ghost predicate Valid()
    {
      Distinct(names) && forall n :: n in names <==> n in caches
    }

    /** `caches.open(name)`: an existing cache is reused; a missing one is created empty, last in order. */
    function Opened(name: CacheName): (s: Storage)
      requires Valid()
      ensures s.Valid() && name in s.caches
      ensures forall n :: n in caches ==> n in s.caches && s.caches[n] == caches[n]
      ensures name !in caches ==> s.caches[name] == map[] && s.names == names + [name]
      ensures name in caches ==> s == this
    {
      if name in caches then this
      else Storage(names + [name], caches[name := map[]])
    }

    /** Whether `cache.addAll(urls)` resolves: every fetch is ok and no URL is listed twice. */
    predicate AddAllSucceeds(urls: seq<Url>, net: Network)
    {
      FetchAll(urls, net).Some? && Distinct(urls)
    }

    /** The storage after `cache.addAll(urls)` on the open cache `name`: all entries are put, or none. */
    function AddedAll(name: CacheName, urls: seq<Url>, net: Network): (s: Storage)
      requires Valid() && name in caches
      ensures s.Valid() && s.names == names && s.caches.Keys == caches.Keys
      ensures forall n :: n in caches && n != name ==> s.caches[n] == caches[n]
      ensures !AddAllSucceeds(urls, net) ==> s == this
      ensures AddAllSucceeds(urls, net) ==>
        forall i :: 0 <= i < |urls| ==> urls[i] in s.caches[name] && s.caches[name][urls[i]] == net(urls[i]).response
      ensures AddAllSucceeds(urls, net) ==> s.caches[name].Keys == caches[name].Keys + (set u | u in urls)
      ensures forall u :: u in caches[name] && u !in urls ==> u in s.caches[name] && s.caches[name][u] == caches[name][u]
    {
      if AddAllSucceeds(urls, net) then
        Storage(names, caches[name := PutAll(caches[name], urls, FetchAll(urls, net).value)])
      else this
    }

    /** The storage without the caches named in `ds`. */
    function Without(ds: set<CacheName>): (s: Storage)
      requires Valid()
      ensures s.Valid()
      ensures forall n :: n in s.caches <==> n in caches && n !in ds
      ensures forall n :: n in s.caches ==> s.caches[n] == caches[n]
      ensures Subsequence(s.names, names)
    {
      Storage(FilterOut(names, ds), caches - ds)
    }

    /** `caches.delete(name)`: the other caches keep their entries and their creation order. */
    function Deleted(name: CacheName): (s: Storage)
      requires Valid()
      ensures s.Valid() && name !in s.caches
      ensures forall n :: n != name ==> (n in s.caches <==> n in caches)
      ensures forall n :: n in s.caches ==> s.caches[n] == caches[n]
      ensures s.names == FilterOut(names, {name}) && Subsequence(s.names, names)
    {
      Without({name})
    }

    /** The response stored for `req` in the first of `ns` whose cache holds one. */
    function Lookup(ns: seq<CacheName>, req: Url): (r: Option<Response>)
      requires forall n :: n in ns ==> n in caches
      ensures r.Some? ==> exists n :: n in ns && req in caches[n] && caches[n][req] == r.value
    {
      if ns == [] then None
      else if req in caches[ns[0]] then Some(caches[ns[0]][req])
      else Lookup(ns[1..], req)
    }

    /** `caches.match(req)`: searches every cache, in creation order, and answers the first hit. */
    function Match(req: Url): (r: Option<Response>)
      requires Valid()
      ensures r.Some? ==> exists n :: n in caches && req in caches[n] && caches[n][req] == r.value
    {
      Lookup(names, req)
    }
  }

  /** `ns[k]` is the first of `ns` whose cache holds `req`, and it holds `r` for it. */
  ghost predicate FirstHitAt(s: Storage, ns: seq<CacheName>, req: Url, r: Response, k: int)
    requires forall n :: n in ns ==> n in s.caches
  {
    && 0 <= k < |ns|
    && req in s.caches[ns[k]] && s.caches[ns[k]][req] == r
    && forall j :: 0 <= j < k ==> req !in s.caches[ns[j]]
  }

  lemma {:induction false} LookupFirstHit(s: Storage, ns: seq<CacheName>, req: Url, r: Response)
    requires forall n :: n in ns ==> n in s.caches
    ensures s.Lookup(ns, req) == Some(r) <==> exists k :: FirstHitAt(s, ns, req, r, k)
  {
    if ns != [] {
      var tail := ns[1..];
      LookupFirstHit(s, tail, req, r);
      if s.Lookup(ns, req) == Some(r) {
        if req in s.caches[ns[0]] {
          assert FirstHitAt(s, ns, req, r, 0);
        } else {
          var k :| FirstHitAt(s, tail, req, r, k);
          assert FirstHitAt(s, ns, req, r, k + 1) by {
            forall j | 0 <= j < k + 1 ensures req !in s.caches[ns[j]] {
              if j > 0 { assert ns[j] == tail[j - 1]; }
            }
          }
        }
      }
      if exists k :: FirstHitAt(s, ns, req, r, k) {
        var k :| FirstHitAt(s, ns, req, r, k);
        if k > 0 {
          assert req !in s.caches[ns[0]];
          assert FirstHitAt(s, tail, req, r, k - 1) by {
            forall j | 0 <= j < k - 1 ensures req !in s.caches[tail[j]] {
              assert tail[j] == ns[j + 1];
            }
          }
        }
      }
    }
  }

  /** `caches.match` answers the response of the first cache, in creation order, that holds the request. */
  lemma MatchFindsFirst(s: Storage, req: Url, r: Response)
    requires s.Valid()
    ensures s.Match(req) == Some(r) <==> exists k :: FirstHitAt(s, s.names, req, r, k)
  {
    LookupFirstHit(s, s.names, req, r);
  }

  lemma {:induction false} LookupMissIff(s: Storage, ns: seq<CacheName>, req: Url)
    requires forall n :: n in ns ==> n in s.caches
    ensures s.Lookup(ns, req).None? <==> forall n :: n in ns ==> req !in s.caches[n]
  {
    if ns != [] {
      LookupMissIff(s, ns[1..], req);
      assert forall n :: n in ns ==> n == ns[0] || n in ns[1..];
    }
  }

  /** `caches.match` misses exactly when no stored cache, current or stale, holds the request. */
  lemma MatchMissIff(s: Storage, req: Url)
    requires s.Valid()
    ensures s.Match(req).None? <==> forall n :: n in s.caches ==> req !in s.caches[n]
  {
    LookupMissIff(s, s.names, req);
  }

  /** The global `caches` object of one service-worker origin. */
  class CacheStorage {
    var names: seq<CacheName>
    var caches: map<CacheName, Cache>

    function Snapshot(): Storage
      reads this
    {
      Storage(names, caches)
    }

    ghost predicate Valid()
      reads this
    {
      Snapshot().Valid()
    }

    constructor ()
      ensures Valid() && Snapshot() == Storage([], map[])
    {
      names, caches := [], map[];
    }

    /** `caches.open(name)`. */
    method Open(name: CacheName)
      requires Valid()
      modifies this
      ensures Valid() && Snapshot() == old(Snapshot()).Opened(name)
    {
      if name !in caches {
        names := names + [name];
        caches := caches[name := map[]];
      }
    }

    /** `cache.addAll(urls)` on the cache `name` handed out by `Open`; `ok` is whether the promise resolves. */
    method AddAll(name: CacheName, urls: seq<Url>, net: Network) returns (ok: bool)
      requires Valid() && name in caches
      modifies this
      ensures Valid()
      ensures ok == old(Snapshot()).AddAllSucceeds(urls, net)
      ensures Snapshot() == old(Snapshot()).AddedAll(name, urls, net)
    {
      var fetched := FetchAll(urls, net);
      ok := fetched.Some? && Distinct(urls);
      if ok {
        caches := caches[name := PutAll(caches[name], urls, fetched.value)];
      }
    }

    /** `caches.delete(name)`; `existed` is the boolean the promise resolves to. */
    method Delete(name: CacheName) returns (existed: bool)
      requires Valid()
      modifies this
      ensures Valid()
      ensures existed == (name in old(caches))
      ensures Snapshot() == old(Snapshot()).Deleted(name)
    {
      existed := name in caches;
      names := FilterOut(names, {name});
      caches := caches - {name};
    }

    /** `caches.match(req)`; `None` stands for a promise that resolves to `undefined`. */
    method Match(req: Url) returns (r: Option<Response>)
      requires Valid()
      ensures r == Snapshot().Match(req)
      ensures r.None? <==> forall n :: n in caches ==> req !in caches[n]
      ensures r.Some? ==> exists k :: FirstHitAt(Snapshot(), names, req, r.value, k)
    {
      r := Snapshot().Match(req);
      MatchMissIff(Snapshot(), req);
      if r.Some? {
        MatchFindsFirst(Snapshot(), req, r.value);
      }
    }
  }
}
