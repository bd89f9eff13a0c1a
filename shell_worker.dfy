/**
 * What both service workers do alike: on install they pre-cache the app shell
 * under their own generation name, and on fetch they answer cache-first.
 * `public/sw.js` and `sw.js` differ here only in that name.
 */
module ShellWorker {
  import opened Common
  import opened CacheApi

  /** The app-shell resources pre-cached on install. */
  const Assets: seq<Url> := ["/", "/manifest.json", "/icon-192.png", "/icon-512.png"]

  /** Every asset fetch gives a response that `addAll` accepts. */
  predicate FetchesSucceed(net: Network)
  {
    forall i :: 0 <= i < |Assets| ==> net(Assets[i]).Fetched? && net(Assets[i]).response.Storable()
  }

  /**
   * The storage after the install handler: open the generation `name`, then add
   * all assets to it. No other generation changes, and the only name that can
   * be added is `name`, last.
   */
  function Installed(s: Storage, name: CacheName, net: Network): (t: Storage)
    requires s.Valid()
    ensures t.Valid() && name in t.caches
    ensures t.names == if name in s.caches then s.names else s.names + [name]
    ensures forall n :: n in s.caches && n != name ==> n in t.caches && t.caches[n] == s.caches[n]
  {
    s.Opened(name).AddedAll(name, Assets, net)
  }

  /**
   * Install is all-or-nothing on its generation: when every asset fetch succeeds,
   * the generation gains exactly the four assets, with the fetched responses;
   * otherwise it keeps exactly the entries it had (none, if it is new).
   */
  lemma InstallAllOrNothing(s: Storage, name: CacheName, net: Network)
    requires s.Valid()
    ensures FetchesSucceed(net) ==> forall i :: 0 <= i < |Assets| ==>
      Assets[i] in Installed(s, name, net).caches[name]
      && Installed(s, name, net).caches[name][Assets[i]] == net(Assets[i]).response
    ensures FetchesSucceed(net) ==>
      Installed(s, name, net).caches[name].Keys == (if name in s.caches then s.caches[name].Keys else {}) + (set u | u in Assets)
    ensures !FetchesSucceed(net) ==>
      Installed(s, name, net).caches[name] == if name in s.caches then s.caches[name] else map[]
  {
    assert Distinct(Assets);
  }

  /** The install handler for the generation `name`; `ok` is whether the promise given to `waitUntil` resolves. */
  method Install(storage: CacheStorage, name: CacheName, net: Network) returns (ok: bool)
    requires storage.Valid()
    modifies storage
    ensures storage.Valid()
    ensures ok <==> FetchesSucceed(net)
    ensures storage.Snapshot() == Installed(old(storage.Snapshot()), name, net)
  {
    storage.Open(name);
    ok := storage.AddAll(name, Assets, net);
    assert Distinct(Assets);
  }

  /**
   * The fetch handler: the first stored response for `req` in any generation,
   * current or stale, and otherwise whatever the network gives, unchanged.
   * It has no `modifies` clause: nothing is ever written back.
   */
  method HandleFetch(storage: CacheStorage, req: Url, net: Network) returns (res: FetchResult, usedNetwork: bool)
    requires storage.Valid()
    ensures usedNetwork <==> forall n :: n in storage.caches ==> req !in storage.caches[n]
    ensures usedNetwork ==> res == net(req)
    ensures !usedNetwork ==> res.Fetched? && exists k :: FirstHitAt(storage.Snapshot(), storage.names, req, res.response, k)
  {
    var cached := storage.Match(req);
    match cached {
      case Some(r) =>
        res, usedNetwork := Fetched(r), false;
      case None =>
        res, usedNetwork := net(req), true;
    }
  }
}
