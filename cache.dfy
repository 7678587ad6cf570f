/**
 * The bounded cache of resolved signs (`calculationCache` with
 * `getCachedResult` / `setCachedResult`): a map that remembers insertion
 * order and, once it holds `CacheSize` entries, drops the oldest key before
 * every write.
 */
module Cache {

  import opened Wrappers
  import opened Config

  /** The contents of the cache: its keys oldest first, and the value of each key. */
  datatype CacheState<K, V> = CacheState(order: seq<K>, entries: map<K, V>)

  /** No key twice, exactly the keys of the map, and no more than `CacheSize` of them. */
  ghost predicate WellFormed<K, V>(st: CacheState<K, V>) {
    && |st.order| <= CacheSize
    && (forall i, j :: 0 <= i < j < |st.order| ==> st.order[i] != st.order[j])
    && st.entries.Keys == KeysOf(st.order)
  }

  /** The keys listed in `order`. */
  ghost function KeysOf<K>(order: seq<K>): set<K> {
    set i | 0 <= i < |order| :: order[i]
  }

  function Empty<K, V>(): (st: CacheState<K, V>)
    ensures WellFormed(st) && |st.order| == 0
  {
    CacheState([], map[])
  }

  /** `calculationCache.get(key)`: the stored value, or nothing. */
  function Lookup<K, V>(st: CacheState<K, V>, key: K): (r: Option<V>)
    ensures r.Some? <==> key in st.entries
    ensures r.Some? ==> r.value == st.entries[key]
  {
    if key in st.entries then Some(st.entries[key]) else None
  }

  /**
   * `setCachedResult(key, value)`: when the cache is full the first key in
   * insertion order is deleted; then `Map.set` overwrites an existing key in
   * place or appends a new one at the end of the order.
   */
  function AfterSet<K, V>(st: CacheState<K, V>, key: K, value: V): (r: CacheState<K, V>)
    requires WellFormed(st)
    ensures key in r.entries && r.entries[key] == value
    ensures |r.order| <= CacheSize
    ensures r.entries.Keys <= st.entries.Keys + {key}
  {
    var kept :=
      if |st.order| >= CacheSize then CacheState(st.order[1..], st.entries - {st.order[0]})
      else st;
    if key in kept.entries then CacheState(kept.order, kept.entries[key := value])
    else CacheState(kept.order + [key], kept.entries[key := value])
  }

  /** The first key is gone from the map exactly when it was dropped from the order. */
  lemma DropOldest<K, V>(st: CacheState<K, V>)
    requires WellFormed(st) && |st.order| > 0
    ensures (st.entries - {st.order[0]}).Keys == KeysOf(st.order[1..])
  {
    var tail := st.order[1..];
    forall k | k in KeysOf(tail)
      ensures k in st.entries && k != st.order[0]
    {
      var i :| 0 <= i < |tail| && tail[i] == k;
      assert st.order[i + 1] == k;
    }
    forall k | k in st.entries && k != st.order[0]
      ensures k in KeysOf(tail)
    {
      var i :| 0 <= i < |st.order| && st.order[i] == k;
      assert tail[i - 1] == k;
    }
  }

  /** Appending a key adds it to the listed keys. */
  lemma AppendKey<K>(order: seq<K>, key: K)
    ensures KeysOf(order + [key]) == KeysOf(order) + {key}
  {
    var o := order + [key];
    assert o[|order|] == key;
    forall k | k in KeysOf(order)
      ensures k in KeysOf(o)
    {
      var i :| 0 <= i < |order| && order[i] == k;
      assert o[i] == k;
    }
  }

  /** A write keeps the cache well formed: bounded, no duplicate key, order and map in step. */
  lemma SetKeepsWellFormed<K, V>(st: CacheState<K, V>, key: K, value: V)
    requires WellFormed(st)
    ensures WellFormed(AfterSet(st, key, value))
  {
    var kept :=
      if |st.order| >= CacheSize then CacheState(st.order[1..], st.entries - {st.order[0]})
      else st;
    if |st.order| >= CacheSize {
      DropOldest(st);
    }
    assert WellFormed(kept);
    if key !in kept.entries {
      AppendKey(kept.order, key);
    }
  }

  /** Reading a key right after writing it gives the value written. */
  lemma LookupAfterSet<K, V>(st: CacheState<K, V>, key: K, value: V)
    requires WellFormed(st)
    ensures Lookup(AfterSet(st, key, value), key) == Some(value)
  {
  }

  /**
   * Every other key keeps its value; it stays unless the cache was full and
   * it was the oldest key, and nothing else enters the cache.
   */
  lemma SetKeepsOthers<K, V>(st: CacheState<K, V>, key: K, value: V, other: K)
    requires WellFormed(st) && other != key
    ensures Lookup(AfterSet(st, key, value), other).Some? ==> Lookup(AfterSet(st, key, value), other) == Lookup(st, other)
    ensures other in AfterSet(st, key, value).entries
        <==> other in st.entries && (|st.order| < CacheSize || other != st.order[0])
  {
  }

  /** A full cache forgets its oldest key when another key is written. */
  lemma SetEvictsOldest<K, V>(st: CacheState<K, V>, key: K, value: V)
    requires WellFormed(st) && |st.order| >= CacheSize && st.order[0] != key
    ensures st.order[0] !in AfterSet(st, key, value).entries
  {
  }

  /**
   * The size after a write: one more for a new key below capacity, unchanged
   * for a known key below capacity, and never above `CacheSize`.
   */
  lemma SetSize<K, V>(st: CacheState<K, V>, key: K, value: V)
    requires WellFormed(st)
    ensures |st.order| < CacheSize && key !in st.entries ==> |AfterSet(st, key, value).order| == |st.order| + 1
    ensures |st.order| < CacheSize && key in st.entries ==> AfterSet(st, key, value).order == st.order
    ensures |AfterSet(st, key, value).order| <= CacheSize
  {
    SetKeepsWellFormed(st, key, value);
  }

  /** A key not yet cached becomes the newest: it is appended after the surviving keys. */
  lemma SetAppendsNewKey<K, V>(st: CacheState<K, V>, key: K, value: V)
    requires WellFormed(st) && key !in st.entries
    ensures AfterSet(st, key, value).order
         == (if |st.order| >= CacheSize then st.order[1..] else st.order) + [key]
  {
    if |st.order| >= CacheSize {
      DropOldest(st);
    }
  }

  /** The cache object; its contents are `State()`. */
  class FifoCache<K(==), V> {

    var order: seq<K>
    var entries: map<K, V>

    function State(): CacheState<K, V>
      reads this
    {
      CacheState(order, entries)
    }

    ghost predicate Valid()
      reads this
    {
      WellFormed(State())
    }

    constructor ()
      ensures Valid() && State() == Empty()
    {
      order := [];
      entries := map[];
    }

    /** `getCachedResult(key)`. */
    method Get(key: K) returns (r: Option<V>)
      ensures r == Lookup(State(), key)
      ensures r.Some? <==> key in entries
    {
      if key in entries {
        r := Some(entries[key]);
      } else {
        r := None;
      }
    }

    /** `setCachedResult(key, value)`. */
    method Set(key: K, value: V)
      requires Valid()
      modifies this
      ensures Valid()
      ensures State() == AfterSet(old(State()), key, value)
    {
      ghost var st := State();
      if |order| >= CacheSize {
        var firstKey := order[0];
        order := order[1..];
        entries := entries - {firstKey};
      }
      if key in entries {
        entries := entries[key := value];
      } else {
        order := order + [key];
        entries := entries[key := value];
      }
      SetKeepsWellFormed(st, key, value);
    }

  }

}
