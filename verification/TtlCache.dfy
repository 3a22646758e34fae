/** A map of values with per-entry expiry, read with a strict "before the
    deadline" test. The role cache and the datasource cache are both of this
    shape. */
module TtlCache {
  import opened Prelude

  datatype Entry<+V> = Entry(value: V, expiresAt: int)

  function Get<K, V>(cache: map<K, Entry<V>>, key: K, now: int): Option<V>
  {
    if key in cache && now < cache[key].expiresAt then Some(cache[key].value) else None
  }

  function Put<K, V>(cache: map<K, Entry<V>>, key: K, value: V, now: int, ttl: int): map<K, Entry<V>>
  {
    cache[key := Entry(value, now + ttl)]
  }

  /** One caller's pass through the cache for a given key: the clock at the
      lookup, what the upstream would answer (None is a failure), the clock
      when the answer is stored, and the lifetime it is stored with. */
  datatype Visit<+V> = Visit(lookupAt: int, answer: Option<V>, stampAt: int, ttl: int)

  predicate Fetches<K, V>(cache: map<K, Entry<V>>, key: K, v: Visit<V>)
  {
    Get(cache, key, v.lookupAt).None? && v.answer.Some?
  }

  function After<K, V>(cache: map<K, Entry<V>>, key: K, v: Visit<V>): map<K, Entry<V>>
  {
    if Fetches(cache, key, v) then Put(cache, key, v.answer.value, v.stampAt, v.ttl) else cache
  }

  /** The clock readings at which successful fetches were stored when the
      visits run one after the other. */
  function FetchTimes<K, V>(cache: map<K, Entry<V>>, key: K, visits: seq<Visit<V>>): seq<int>
    decreases |visits|
  {
    if visits == [] then []
    else
      (if Fetches(cache, key, visits[0]) then [visits[0].stampAt] else [])
      + FetchTimes(After(cache, key, visits[0]), key, visits[1..])
  }

  /** The visits do not overlap in time. */
  ghost predicate Sequential<V>(visits: seq<Visit<V>>)
  {
    && (forall i | 0 <= i < |visits| :: visits[i].lookupAt <= visits[i].stampAt)
    && (forall i, j | 0 <= i < j < |visits| :: visits[i].stampAt <= visits[j].lookupAt)
  }

  /** Every fetch happens inside the span of the visits, and no sooner than
      the expiry of the entry that was there at the start. */
  lemma {:induction false} FirstFetchWaits<K, V>(cache: map<K, Entry<V>>, key: K, visits: seq<Visit<V>>)
    requires Sequential(visits)
    ensures var f := FetchTimes(cache, key, visits);
      && (forall i | 0 <= i < |f| ::
            visits != [] && visits[0].lookupAt <= f[i] <= Last(visits).stampAt)
      && (key in cache && f != [] ==> cache[key].expiresAt <= f[0])
    decreases |visits|
  {
    if visits != [] {
      var rest := visits[1..];
      FirstFetchWaits(After(cache, key, visits[0]), key, rest);
      var g := FetchTimes(After(cache, key, visits[0]), key, rest);
      if rest != [] {
        assert Last(rest) == Last(visits);
        assert visits[0].stampAt <= rest[0].lookupAt by { assert rest[0] == visits[1]; }
        assert visits[0].stampAt <= Last(visits).stampAt;
      }
    }
  }

  ghost predicate SpacedBy(f: seq<int>, gap: int)
  {
    forall i | 0 <= i < |f| - 1 :: f[i] + gap <= f[i + 1]
  }

  /** Consecutive fetches are at least one lifetime apart. */
  lemma {:induction false} FetchesAreSpaced<K, V>(cache: map<K, Entry<V>>, key: K, visits: seq<Visit<V>>, minTTL: int)
    requires Sequential(visits)
    requires forall i | 0 <= i < |visits| :: minTTL <= visits[i].ttl
    ensures SpacedBy(FetchTimes(cache, key, visits), minTTL)
    decreases |visits|
  {
    if visits != [] {
      var next := After(cache, key, visits[0]);
      FirstFetchWaits(next, key, visits[1..]);
      FetchesAreSpaced(next, key, visits[1..], minTTL);
    }
  }

  lemma {:induction false} GapsAddUp(f: seq<int>, gap: int)
    requires f != [] && SpacedBy(f, gap)
    ensures (|f| - 1) * gap <= Last(f) - f[0]
  {
    if |f| > 1 {
      GapsAddUp(Front(f), gap);
      assert (|f| - 1) * gap == (|f| - 2) * gap + gap;
    }
  }

  /** Load bound: n successful fetches within one time span T satisfy
      (n - 1) * ttl <= T, whatever the upstream answers and whatever the cache
      held before. */
  lemma FetchLoadIsBounded<K, V>(cache: map<K, Entry<V>>, key: K, visits: seq<Visit<V>>, minTTL: int)
    requires Sequential(visits) && visits != []
    requires forall i | 0 <= i < |visits| :: minTTL <= visits[i].ttl
    ensures var f := FetchTimes(cache, key, visits);
      f != [] ==> (|f| - 1) * minTTL <= Last(visits).stampAt - visits[0].lookupAt
  {
    var f := FetchTimes(cache, key, visits);
    if f != [] {
      FirstFetchWaits(cache, key, visits);
      FetchesAreSpaced(cache, key, visits, minTTL);
      GapsAddUp(f, minTTL);
    }
  }
}
