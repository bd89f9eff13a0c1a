/**
 * The service worker served from `public/sw.js`: it pre-caches the app shell
 * under the generation "salah-time-v3", answers requests cache-first, and on
 * activation deletes every other generation.
 */
module PublicWorker {
  import opened Common
  import opened CacheApi
  import ShellWorker

  /** The current cache generation. */
  const CurrentCache: CacheName := "salah-time-v3"

  /** The install handler: `ShellWorker.Install` on the current generation. */
  method Install(storage: CacheStorage, net: Network) returns (ok: bool)
    requires storage.Valid()
    modifies storage
    ensures storage.Valid()
    ensures ok <==> ShellWorker.FetchesSucceed(net)
    ensures storage.Snapshot() == ShellWorker.Installed(old(storage.Snapshot()), CurrentCache, net)
  {
    ok := ShellWorker.Install(storage, CurrentCache, net);
  }

  /** The storage after the activate handler: every generation but the current one deleted. */
  function Purged(s: Storage): (t: Storage)
    requires s.Valid()
    ensures t.Valid()
    ensures forall n :: n in t.caches <==> n == CurrentCache && n in s.caches
    ensures forall n :: n in t.caches ==> t.caches[n] == s.caches[n]
  {
    s.Without(set n | n in s.names && n != CurrentCache)
  }

  lemma {:induction false} FilterOutAllBut(ns: seq<CacheName>, ds: set<CacheName>, keep: CacheName)
    requires Distinct(ns)
    requires forall n :: n in ns ==> (n in ds <==> n != keep)
    ensures FilterOut(ns, ds) == if keep in ns then [keep] else []
  {
    if ns != [] {
      assert Distinct(ns[1..]) by {
        forall i, j | 0 <= i < j < |ns[1..]| ensures ns[1..][i] != ns[1..][j] {
          assert ns[1..][i] == ns[i + 1] && ns[1..][j] == ns[j + 1];
        }
      }
      FilterOutAllBut(ns[1..], ds, keep);
      if ns[0] == keep {
        assert keep !in ns[1..] by {
          forall j | 0 <= j < |ns[1..]| ensures ns[1..][j] != keep {
            assert ns[1..][j] == ns[j + 1];
          }
        }
      }
    }
  }

  /**
   * After activate the current generation is the only one that can remain, and
   * it is kept, with its entries, whenever it existed.
   */
  lemma PurgedOnlyCurrent(s: Storage)
    requires s.Valid()
    ensures Purged(s).names == if CurrentCache in s.caches then [CurrentCache] else []
    ensures Purged(s).caches == if CurrentCache in s.caches then map[CurrentCache := s.caches[CurrentCache]] else map[]
  {
    FilterOutAllBut(s.names, (set n | n in s.names && n != CurrentCache), CurrentCache);
  }

  /** Activating twice leaves the same storage as activating once. */
  lemma PurgeIdempotent(s: Storage)
    requires s.Valid()
    ensures Purged(Purged(s)) == Purged(s)
  {
    PurgedOnlyCurrent(s);
    PurgedOnlyCurrent(Purged(s));
  }

  /** After activate, `caches.match` can only answer from the current generation. */
  lemma MatchAfterPurge(s: Storage, req: Url)
    requires s.Valid()
    ensures Purged(s).Match(req) ==
      if CurrentCache in s.caches && req in s.caches[CurrentCache] then Some(s.caches[CurrentCache][req]) else None
  {
    PurgedOnlyCurrent(s);
    var t := Purged(s);
    if CurrentCache in s.caches {
      assert t.names[0] == CurrentCache && t.names[1..] == [];
      assert t.caches[CurrentCache] == s.caches[CurrentCache];
      assert t.Match(req) == if req in t.caches[CurrentCache] then Some(t.caches[CurrentCache][req]) else t.Lookup([], req);
    }
  }

  /**
   * Before activate runs, a stale generation created earlier answers first: when
   * "salah-time-v1" is listed before "salah-time-v3" and both hold "/", the
   * response served comes from "salah-time-v1" or a generation created before it,
   * never from "salah-time-v3". After activate, "salah-time-v3" answers.
   */
  lemma StaleServedBeforeActivate(s: Storage, i: nat, j: nat)
    requires s.Valid()
    requires i < j < |s.names| && s.names[i] == "salah-time-v1" && s.names[j] == CurrentCache
    requires "/" in s.caches["salah-time-v1"] && "/" in s.caches[CurrentCache]
    ensures s.Match("/").Some?
    ensures exists k :: 0 <= k <= i && FirstHitAt(s, s.names, "/", s.Match("/").value, k)
    ensures Purged(s).Match("/") == Some(s.caches[CurrentCache]["/"])
  {
    MatchMissIff(s, "/");
    var r := s.Match("/").value;
    MatchFindsFirst(s, "/", r);
    var k :| FirstHitAt(s, s.names, "/", r, k);
    assert k <= i;
    MatchAfterPurge(s, "/");
  }

  lemma WithoutTwice(s: Storage, a: set<CacheName>, b: set<CacheName>)
    requires s.Valid()
    ensures s.Without(a).Without(b) == s.Without(a + b)
  {
    FilterOutTwice(s.names, a, b);
    assert (s.caches - a) - b == s.caches - (a + b);
  }

  /** The names listed in `ns`. */
  ghost function Elems(ns: seq<CacheName>): set<CacheName>
  {
    set k | k in ns
  }

  lemma ElemsGrow(ns: seq<CacheName>, i: nat)
    requires i < |ns|
    ensures Elems(ns[..i + 1]) == Elems(ns[..i]) + {ns[i]}
  {
    assert ns[..i + 1] == ns[..i] + [ns[i]];
  }

  /** Deleting exactly the stale names found by `caches.keys()` is the purge. */
  lemma DeletingStaleIsPurge(s: Storage)
    requires s.Valid()
    ensures s.Without(Elems(FilterOut(s.names, {CurrentCache}))) == Purged(s)
  {
    assert Elems(FilterOut(s.names, {CurrentCache})) == set n | n in s.names && n != CurrentCache;
  }

  /** The activate handler: list the names, keep the stale ones, and delete each. */
  method Activate(storage: CacheStorage)
    requires storage.Valid()
    modifies storage
    ensures storage.Valid()
    ensures storage.Snapshot() == Purged(old(storage.Snapshot()))
  {
    ghost var s0 := storage.Snapshot();
    var keys := storage.names;
    var stale := FilterOut(keys, {CurrentCache});
    FilterOutNothing(keys);
    assert Elems(stale[..0]) == {} by { assert stale[..0] == []; }
    assert s0.Without({}) == s0;
    for i := 0 to |stale|
      invariant storage.Valid()
      invariant storage.Snapshot() == s0.Without(Elems(stale[..i]))
    {
      ghost var done := Elems(stale[..i]);
      var existed := storage.Delete(stale[i]);
      WithoutTwice(s0, done, {stale[i]});
      ElemsGrow(stale, i);
    }
    assert stale[..|stale|] == stale;
    DeletingStaleIsPurge(s0);
  }
}
