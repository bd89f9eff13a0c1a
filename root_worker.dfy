/**
 * The service worker at the repository root, `sw.js`: it pre-caches the app
 * shell under the generation "salah-time-v1" and answers requests cache-first.
 * It has no activate handler, so it never deletes a generation.
 */
module RootWorker {
  import opened CacheApi
  import ShellWorker

  /** The generation this worker fills. */
  const CurrentCache: CacheName := "salah-time-v1"

  /** The install handler: `ShellWorker.Install` on this worker's generation. */
  method Install(storage: CacheStorage, net: Network) returns (ok: bool)
    requires storage.Valid()
    modifies storage
    ensures storage.Valid()
    ensures ok <==> ShellWorker.FetchesSucceed(net)
    ensures storage.Snapshot() == ShellWorker.Installed(old(storage.Snapshot()), CurrentCache, net)
  {
    ok := ShellWorker.Install(storage, CurrentCache, net);
  }

  /** The events this worker handles. */
  datatype Event = InstallEvent(net: Network) | FetchEvent(req: Url, net: Network)

  /** What one event does to cache storage. */
  function Step(s: Storage, e: Event): (t: Storage)
    requires s.Valid()
    ensures t.Valid()
    ensures t.names == if e.InstallEvent? && CurrentCache !in s.caches then s.names + [CurrentCache] else s.names
    ensures forall n :: n in s.caches && (e.FetchEvent? || n != CurrentCache) ==> n in t.caches && t.caches[n] == s.caches[n]
  {
    match e
    case InstallEvent(net) => ShellWorker.Installed(s, CurrentCache, net)
    case FetchEvent(_, _) => s
  }

  /** Cache storage after a sequence of events, handled in arrival order. */
  function Run(s: Storage, events: seq<Event>): (t: Storage)
    requires s.Valid()
    ensures t.Valid()
    ensures forall n :: n in t.caches ==> n in s.caches || n == CurrentCache
    decreases |events|
  {
    if events == [] then s else Run(Step(s, events[0]), events[1..])
  }

  /**
   * Whatever events arrive, this worker never deletes or reorders a cache name
   * (the old names stay a prefix) and never changes a generation other than its own.
   */
  lemma {:induction false} NamesOnlyGrow(s: Storage, events: seq<Event>)
    requires s.Valid()
    ensures s.names <= Run(s, events).names
    ensures forall n :: n in s.caches ==> n in Run(s, events).caches
    ensures forall n :: n in s.caches && n != CurrentCache ==> Run(s, events).caches[n] == s.caches[n]
    decreases |events|
  {
    if events != [] {
      var t := Step(s, events[0]);
      NamesOnlyGrow(t, events[1..]);
      assert s.names <= t.names;
    }
  }
}
