/** The key cache, the app cache and the ring cache, against direct lookups on the chain. */
module Rings {
  import opened Domain

  type Key = int
  type Ring = int

  /** The SDK's answer for an address: an error, no key onchain yet, or the key. */
  datatype KeyAnswer = KeyErr(code: int) | NoKey | HasKey(key: Key)

  /** An application record: `delegations` stands for everything the ring depends on beyond the address. */
  datatype App = App(address: string, delegations: int)

  datatype RingKey = RingKey(address: string, height: nat)

  datatype RingErr = AppErr(code: int) | FetchErr(code: int) | Keyless(address: string) | BuildErr(code: int)

  /** The chain over time, and the SDK's ring construction. */
  datatype Chain = Chain(
    keyAt: (string, nat) -> KeyAnswer,
    appAt: (string, nat) -> Result<App, int>,
    gateways: (App, nat) -> seq<string>,
    build: seq<Key> -> Result<Ring, int>)

  /** A key may appear, and lookups may fail at any time, but a key never changes. */
  ghost predicate Stable(c: Chain) {
    && (forall a, t, u :: c.keyAt(a, t).HasKey? && c.keyAt(a, u).HasKey? ==> c.keyAt(a, t) == c.keyAt(a, u))
    && (forall a, t :: c.appAt(a, t).Ok? ==> c.appAt(a, t).value.address == a)
  }

  ghost predicate Onchain(c: Chain, address: string, k: Key) {
    exists t: nat :: c.keyAt(address, t) == HasKey(k)
  }

  /** The app, then its delegated gateways, or itself again when it has none. */
  function Members(c: Chain, app: App, height: nat): (addrs: seq<string>)
    ensures |addrs| >= 2 && addrs[0] == app.address
    ensures var g := c.gateways(app, height);
            if g == [] then |addrs| == 2 && addrs[1] == app.address
            else |addrs| == 1 + |g| && forall i :: 0 <= i < |g| ==> addrs[i + 1] == g[i]
  {
    var g := c.gateways(app, height);
    [app.address] + if g == [] then [app.address] else g
  }

  ghost predicate KeysOf(c: Chain, addrs: seq<string>, ks: seq<Key>) {
    |ks| == |addrs| && forall i :: 0 <= i < |addrs| ==> Onchain(c, addrs[i], ks[i])
  }

  /** The lookup of member `i` gave this error at some time from `from` on, and every earlier member has a key. */
  ghost predicate FirstMissing(c: Chain, addrs: seq<string>, i: nat, err: RingErr, from: nat) {
    && i < |addrs|
    && (exists ks :: KeysOf(c, addrs[..i], ks))
    && (|| (err.FetchErr? && exists t: nat :: t >= from && c.keyAt(addrs[i], t) == KeyErr(err.code))
        || (err.Keyless? && err.address == addrs[i] && exists t: nat :: t >= from && c.keyAt(addrs[i], t) == NoKey))
  }

  /** The ring an uncached construction would give. */
  ghost predicate Direct(c: Chain, app: App, height: nat, ring: Ring) {
    exists ks :: KeysOf(c, Members(c, app, height), ks) && c.build(ks) == Ok(ring)
  }

  /** From this time on every member's key is found onchain, and the ring builds. */
  ghost predicate Ripe(c: Chain, app: App, height: nat, from: nat) {
    && (forall ks :: KeysOf(c, Members(c, app, height), ks) ==> c.build(ks).Ok?)
    && (forall a, t :: a in Members(c, app, height) && t >= from ==> c.keyAt(a, t).HasKey?)
  }

  /** There is only one. */
  lemma DirectIsUnique(c: Chain, app: App, height: nat, a: Ring, b: Ring)
    requires Stable(c) && Direct(c, app, height, a) && Direct(c, app, height, b)
    ensures a == b
  {
    var addrs := Members(c, app, height);
    var ks :| KeysOf(c, addrs, ks) && c.build(ks) == Ok(a);
    var ls :| KeysOf(c, addrs, ls) && c.build(ls) == Ok(b);
    forall i | 0 <= i < |ks|
      ensures ks[i] == ls[i]
    {
      assert Onchain(c, addrs[i], ks[i]) && Onchain(c, addrs[i], ls[i]);
    }
    assert ks == ls;
  }

  /** cachingPubKeyFetcher, shared by every signer of the process. */
  class KeyFetcher {
    const chain: Chain
    /** Advances with every lookup that reaches the full node. */
    var clock: nat
    /** Values are optional because nothing in the type stops a nil from being stored. */
    var keys: map<string, Option<Key>>

    ghost predicate Valid()
      reads this
    {
      forall a :: a in keys ==> keys[a].Some? && Onchain(chain, a, keys[a].value)
    }

    constructor (c: Chain)
      ensures Valid() && chain == c && keys == map[]
    {
      chain, clock, keys := c, 0, map[];
    }

    method GetPubKey(address: string) returns (r: KeyAnswer)
      requires Valid()
      modifies this
      ensures Valid()
      ensures address in old(keys) ==> r == HasKey(old(keys)[address].value) && clock == old(clock)
      ensures address !in old(keys) ==> r == chain.keyAt(address, old(clock)) && clock == old(clock) + 1
      ensures keys == if r.HasKey? then old(keys)[address := Some(r.key)] else old(keys)
      ensures r.HasKey? ==> Onchain(chain, address, r.key)
    {
      if address in keys && keys[address].Some? {
        assert keys[address := Some(keys[address].value)] == keys;
        return HasKey(keys[address].value);
      }
      r := chain.keyAt(address, clock);
      clock := clock + 1;
      if r.KeyErr? || r.NoKey? {
        return;
      }
      keys := keys[address := Some(r.key)];
    }
  }

  /** The rings left after a rollover to `height`: those from the previous highest session on. */
  function Evicted(highest: nat, rings: map<RingKey, Ring>, height: nat): (r: map<RingKey, Ring>) {
    if height <= highest then rings else map k | k in rings && k.height >= highest :: rings[k]
  }

  datatype Cache = Cache(highest: nat, rings: map<RingKey, Ring>)

  /** One getOrCreateRing call: `made` is the ring it leaves under its key, or None when it failed. */
  datatype Use = Use(key: RingKey, made: Option<Ring>)

  /** What one call does to the ring cache. */
  function After(c: Cache, u: Use): (r: Cache) {
    var kept := Evicted(c.highest, c.rings, u.key.height);
    Cache(if u.key.height > c.highest then u.key.height else c.highest,
          if u.made.Some? then kept[u.key := u.made.value] else kept)
  }

  /** The body of Range: delete every entry below `prev`, in any order. */
  method Prune(before: map<RingKey, Ring>, prev: nat) returns (rings: map<RingKey, Ring>)
    ensures rings == map k | k in before && k.height >= prev :: before[k]
  {
    rings := before;
    var left := before.Keys;
    while left != {}
      invariant left <= before.Keys
      invariant rings == map k | k in before && (k in left || k.height >= prev) :: before[k]
      decreases left
    {
      var k :| k in left;
      left := left - {k};
      if k.height < prev {
        rings := rings - {k};
      }
    }
  }

  lemma Same(rings: map<RingKey, Ring>, key: RingKey)
    requires key in rings
    ensures rings[key := rings[key]] == rings
  {
  }

  class Signer {
    const chain: Chain
    const fetcher: KeyFetcher
    var appClock: nat
    var apps: map<string, App>
    var rings: map<RingKey, Ring>
    var highest: nat

    /** Every cached ring is the direct one for the cached record of its app. */
    ghost predicate Valid()
      reads this, fetcher
    {
      && fetcher.chain == chain && fetcher.Valid()
      && (forall a :: a in apps ==> apps[a].address == a)
      && (forall k :: k in rings ==> k.address in apps && Direct(chain, apps[k.address], k.height, rings[k]))
    }

    constructor (f: KeyFetcher)
      requires f.Valid()
      ensures Valid() && fetcher == f && apps == map[] && rings == map[] && highest == 0
    {
      chain, fetcher := f.chain, f;
      appClock, apps, rings, highest := 0, map[], map[], 0;
    }

    method GetApp(address: string) returns (r: Result<App, int>)
      requires Valid() && Stable(chain)
      modifies this`apps, this`appClock
      ensures Valid()
      ensures address in old(apps) ==> r == Ok(old(apps)[address]) && apps == old(apps)
      ensures address !in old(apps) ==> r == chain.appAt(address, old(appClock))
      ensures apps == if r.Ok? then old(apps)[address := r.value] else old(apps)
    {
      if address in apps {
        assert apps[address := apps[address]] == apps;
        return Ok(apps[address]);
      }
      r := chain.appAt(address, appClock);
      appClock := appClock + 1;
      if r.Ok? {
        apps := apps[address := r.value];
      }
    }

    /** evictStaleRingsOnRollover, run without interference. */
    method EvictStale(height: nat)
      requires Valid()
      modifies this`rings, this`highest
      ensures Valid()
      ensures highest == if height > old(highest) then height else old(highest)
      ensures rings == Evicted(old(highest), old(rings), height)
    {
      if height <= highest {
        return;
      }
      var prev := highest;
      highest := height;
      rings := Prune(rings, prev);
    }

    /** The keys of the ring's members, or the first that is missing. */
    method MemberKeys(addrs: seq<string>) returns (r: Result<seq<Key>, RingErr>)
      requires Valid()
      modifies fetcher
      ensures Valid()
      ensures r.Ok? ==> KeysOf(chain, addrs, r.value)
      ensures (forall a, t :: a in addrs && t >= old(fetcher.clock) ==> chain.keyAt(a, t).HasKey?) ==> r.Ok?
      // The first member without a key is named: its lookup failed or found none, and all before it have theirs.
      ensures r.Err? ==> exists i :: 0 <= i < |addrs| && FirstMissing(chain, addrs, i, r.error, old(fetcher.clock))
    {
      var ks: seq<Key> := [];
      for i := 0 to |addrs|
        invariant Valid() && fetcher.clock >= old(fetcher.clock)
        invariant KeysOf(chain, addrs[..i], ks)
      {
        ghost var at := fetcher.clock;
        var k := fetcher.GetPubKey(addrs[i]);
        assert !k.HasKey? ==> chain.keyAt(addrs[i], at) == k;
        if k.KeyErr? {
          assert FirstMissing(chain, addrs, i, FetchErr(k.code), old(fetcher.clock));
          return Err(FetchErr(k.code));
        }
        if k.NoKey? {
          assert FirstMissing(chain, addrs, i, Keyless(addrs[i]), old(fetcher.clock));
          return Err(Keyless(addrs[i]));
        }
        ks := ks + [k.key];
      }
      assert addrs[..|addrs|] == addrs;
      return Ok(ks);
    }

    method GetOrCreateRing(app: App, height: nat) returns (r: Result<Ring, RingErr>)
      requires Valid() && app.address in apps && apps[app.address] == app
      modifies this`rings, this`highest, fetcher
      ensures Valid()
      ensures r.Ok? ==> Direct(chain, app, height, r.value)
      ensures Cache(highest, rings) == After(Cache(old(highest), old(rings)),
                                             Use(RingKey(app.address, height), if r.Ok? then Some(r.value) else None))
      // Nothing is poisoned: once every member's key is onchain and the ring builds, the call succeeds.
      ensures Ripe(chain, app, height, old(fetcher.clock)) ==> r.Ok?
    {
      EvictStale(height);
      var key := RingKey(app.address, height);
      if key in rings {
        Same(rings, key);
        return Ok(rings[key]);
      }
      r := BuildRing(app, height);
      if r.Ok? {
        rings := rings[key := r.value];
      }
    }

    /** A ring made from its members' keys, without the ring cache. */
    method BuildRing(app: App, height: nat) returns (r: Result<Ring, RingErr>)
      requires Valid()
      modifies fetcher
      ensures Valid()
      ensures r.Ok? ==> Direct(chain, app, height, r.value)
      ensures Ripe(chain, app, height, old(fetcher.clock)) ==> r.Ok?
    {
      var ks := MemberKeys(Members(chain, app, height));
      if ks.Err? {
        return Err(ks.error);
      }
      var ring := chain.build(ks.value);
      if ring.Err? {
        return Err(BuildErr(ring.error));
      }
      return Ok(ring.value);
    }

    /** The ring a relay for this app and session is signed with. */
    method RingFor(address: string, height: nat) returns (r: Result<Ring, RingErr>)
      requires Valid() && Stable(chain)
      modifies this, fetcher
      ensures Valid()
      ensures r.Ok? ==> address in apps && Direct(chain, apps[address], height, r.value)
                        && forall other :: Direct(chain, apps[address], height, other) ==> other == r.value
      ensures address in old(apps) ==> apps == old(apps)
    {
      var app := GetApp(address);
      if app.Err? {
        return Err(AppErr(app.error));
      }
      r := GetOrCreateRing(app.value, height);
      if r.Ok? {
        forall other | Direct(chain, app.value, height, other)
          ensures other == r.value
        {
          DirectIsUnique(chain, app.value, height, other, r.value);
        }
      }
    }
  }
}
