/**
 * The watch-data sampler run when a chat opens: a heart rate, a respiration
 * rate, a location and short shuffled excerpts of the character's call,
 * message and search logs. Every `Math.random()` value is an input (a real in
 * [0, 1)), and every shuffle is an input too: sorting a copy with a random
 * comparator yields some permutation of the pool list, and any permutation
 * may be passed.
 */
module WatchSampler {
  import opened Wrappers
  import opened Catalog

  /** The temperature reading is not part of this model. */
  datatype WatchData = WatchData(hr: int, rr: int, location: Option<string>,
                                 calls: seq<LogEntry>, messages: seq<LogEntry>,
                                 searches: seq<string>)

  /** The random inputs of one sampling run. */
  datatype Draws = Draws(hr: real, rr: real, location: real,
                         calls: seq<LogEntry>, messages: seq<LogEntry>,
                         searches: seq<string>)

  /** A value `Math.random()` can return. */
  predicate IsUnit(r: real) {
    0.0 <= r < 1.0
  }

  /** The draws are possible outcomes for sampling from `pool`. */
  predicate DrawsFor(d: Draws, pool: WatchPool) {
    && IsUnit(d.hr) && IsUnit(d.rr) && IsUnit(d.location)
    && multiset(d.calls) == multiset(pool.calls)
    && multiset(d.messages) == multiset(pool.messages)
    && multiset(d.searches) == multiset(pool.searches)
  }

  /** `Math.floor(r * n)`: an index into a range of n values. */
  function ScaledFloor(r: real, n: nat): (k: int)
    requires IsUnit(r)
    ensures n == 0 ==> k == 0
    ensures n > 0 ==> 0 <= k < n
  {
    var x := r * n as real;
    assert x < n as real || n == 0 by {
      if n > 0 {
        assert r * n as real < 1.0 * n as real;
      }
    }
    x.Floor
  }

  /** `Math.floor(r * (hi - lo + 1)) + lo` */
  function UniformInt(r: real, lo: int, hi: int): (v: int)
    requires IsUnit(r) && lo <= hi
    ensures lo <= v <= hi
  {
    ScaledFloor(r, hi - lo + 1) + lo
  }

  /** Every value of the range is drawn by some `Math.random()` outcome. */
  lemma UniformIntOnto(lo: int, hi: int, v: int)
    requires lo <= v <= hi
    ensures exists r :: IsUnit(r) && UniformInt(r, lo, hi) == v
  {
    var n := hi - lo + 1;
    var r := (v - lo) as real / n as real;
    assert r * n as real == (v - lo) as real;
    assert IsUnit(r);
    assert UniformInt(r, lo, hi) == v;
  }

  /** `xs[Math.floor(r * xs.length)]`, which is `undefined` on an empty list. */
  function Pick(xs: seq<string>, r: real): (p: Option<string>)
    requires IsUnit(r)
    ensures xs == [] <==> p == None
    ensures p.Some? ==> p.value in xs
  {
    var k := ScaledFloor(r, |xs|);
    if k < |xs| then Some(xs[k]) else None
  }

  /** `xs.slice(0, n)`: at most the first n elements. */
  function Take<T>(xs: seq<T>, n: nat): (p: seq<T>)
    ensures |p| == if |xs| < n then |xs| else n
    ensures p == xs[..|p|]
  {
    if |xs| <= n then xs else xs[..n]
  }

  /**
   * A prefix of a shuffled copy draws each pool entry at most as often as the
   * pool holds it: entries come from the pool, without repetition.
   */
  lemma {:induction false} TakeOfShuffle<T>(shuffled: seq<T>, pool: seq<T>, n: nat)
    requires multiset(shuffled) == multiset(pool)
    ensures |Take(shuffled, n)| == if |pool| < n then |pool| else n
    ensures multiset(Take(shuffled, n)) <= multiset(pool)
    ensures forall x :: x in Take(shuffled, n) ==> x in pool
  {
    var p := Take(shuffled, n);
    assert |shuffled| == |pool| by {
      assert |multiset(shuffled)| == |shuffled|;
    }
    assert shuffled == p + shuffled[|p|..];
    assert multiset(shuffled) == multiset(p) + multiset(shuffled[|p|..]);
    forall x | x in p ensures x in pool {
      assert x in multiset(p);
      assert x in multiset(pool);
    }
  }

  /**
   * `WATCH_DATA_POOLS[charId] || WATCH_DATA_POOLS['pil-do-seop']`, with the
   * pool table as a parameter (it is `WatchDataPools` in the component).
   */
  function PoolFor(pools: map<string, WatchPool>, charId: string): WatchPool
    requires DefaultPoolId in pools
  {
    if charId in pools then pools[charId] else pools[DefaultPoolId]
  }

  /** The bounds every snapshot keeps, whatever the pool. */
  predicate InBounds(w: WatchData) {
    && 65 <= w.hr <= 110 && 14 <= w.rr <= 22
    && |w.calls| <= 2 && |w.messages| <= 2 && |w.searches| <= 4
  }

  function Min(a: int, b: int): int {
    if a < b then a else b
  }

  /** Everything sampled comes from `pool`, in the sizes the sampler asks for. */
  predicate SampledFrom(w: WatchData, pool: WatchPool) {
    && InBounds(w)
    && (pool.locations != [] <==> w.location.Some?)
    && (w.location.Some? ==> w.location.value in pool.locations)
    && |w.calls| == Min(2, |pool.calls|) && multiset(w.calls) <= multiset(pool.calls)
    && |w.messages| == Min(2, |pool.messages|) && multiset(w.messages) <= multiset(pool.messages)
    && |w.searches| == Min(4, |pool.searches|) && multiset(w.searches) <= multiset(pool.searches)
  }

  /** `generateWatchData(charId)` with its random inputs made explicit. */
  function GenerateWatchData(pools: map<string, WatchPool>, charId: string, d: Draws): (w: WatchData)
    requires DefaultPoolId in pools && DrawsFor(d, PoolFor(pools, charId))
    ensures SampledFrom(w, PoolFor(pools, charId))
  {
    var pool := PoolFor(pools, charId);
    TakeOfShuffle(d.calls, pool.calls, 2);
    TakeOfShuffle(d.messages, pool.messages, 2);
    TakeOfShuffle(d.searches, pool.searches, 4);
    WatchData(UniformInt(d.hr, 65, 110), UniformInt(d.rr, 14, 22),
              Pick(pool.locations, d.location),
              Take(d.calls, 2), Take(d.messages, 2), Take(d.searches, 4))
  }

  /**
   * For an id with a pool of its own (every catalog character has one) the
   * sampler uses that pool, and as every pool is full enough the excerpts
   * have exactly 2, 2 and 4 entries and a location is always present.
   */
  lemma OwnPoolSamples(id: string, d: Draws)
    requires id in WatchDataPools && DefaultPoolId in WatchDataPools
    requires DrawsFor(d, PoolFor(WatchDataPools, id))
    ensures PoolFor(WatchDataPools, id) == WatchDataPools[id]
    ensures var w := GenerateWatchData(WatchDataPools, id, d);
            w.location.Some? && |w.calls| == 2 && |w.messages| == 2 && |w.searches| == 4
  {
    PoolsFull();
    assert FullPool(WatchDataPools[id]);
  }

  /** An id without a pool of its own is sampled from the default pool. */
  lemma UnknownIdUsesDefault(pools: map<string, WatchPool>, charId: string, d: Draws)
    requires DefaultPoolId in pools && charId !in pools && DrawsFor(d, PoolFor(pools, charId))
    ensures DrawsFor(d, PoolFor(pools, DefaultPoolId))
    ensures GenerateWatchData(pools, charId, d) == GenerateWatchData(pools, DefaultPoolId, d)
  {
  }
}
