/**
 * The caches of the performance package (`performance/cache.py`): a cache
 * entry with an optional time-to-live, the LRU cache with its entry, byte and
 * statistics accounting, the three-tier cache that promotes hits towards L1,
 * and the dynamic TTL rule of the intelligent cache.
 *
 * Time is an explicit `now` in whole seconds.  The pickled size of a value is
 * supplied by the caller (`size`, or the `sizeOf` oracle of the tiered cache).
 * A cached Python `None` is `Null`.
 */
module Cache {
  import opened Wrappers
  import opened Values
  import PyDict
  import Seqs

  // ---------------------------------------------------------------- entries

  datatype Entry = Entry(key: string, value: Value, createdAt: int, lastAccessed: int,
                         accessCount: nat, ttl: Option<int>, size: nat)

  /** `CacheEntry.is_expired()` at time `now`: never without a TTL, else strictly past it. */
  function IsExpired(e: Entry, now: int): (r: bool)
    ensures e.ttl.None? ==> !r
    ensures e.ttl.Some? ==> (r <==> now > e.createdAt + e.ttl.value)
  {
    e.ttl.Some? && now - e.createdAt > e.ttl.value
  }

  /** An entry that has expired stays expired as time goes on. */
  lemma ExpiryIsFinal(e: Entry, t1: int, t2: int)
    requires t1 <= t2 && IsExpired(e, t1)
    ensures IsExpired(e, t2)
  {
  }

  /** `CacheEntry.touch()` at time `now`. */
  function Touch(e: Entry, now: int): Entry
  {
    e.(lastAccessed := now, accessCount := e.accessCount + 1)
  }

  /** `ttl or self.default_ttl`: a missing or zero TTL falls back to the default. */
  function EffectiveTtl(ttl: Option<int>, default: Option<int>): (r: Option<int>)
    ensures ttl.Some? && ttl.value != 0 ==> r == ttl
    ensures ttl.None? || ttl == Some(0) ==> r == default
  {
    if ttl.None? || ttl.value == 0 then default else ttl
  }

  // ------------------------------------------------------------- statistics

  /** The `CacheStats` counters. */
  datatype Stats = Stats(hits: nat, misses: nat, sets: nat, deletes: nat, evictions: nat)

  /** `CacheStats()`, also the result of `reset()`. */
  const Fresh: Stats := Stats(0, 0, 0, 0, 0)

  function Hit(s: Stats): Stats { s.(hits := s.hits + 1) }
  function Miss(s: Stats): Stats { s.(misses := s.misses + 1) }
  function Sets(s: Stats): Stats { s.(sets := s.sets + 1) }
  function Deletes(s: Stats): Stats { s.(deletes := s.deletes + 1) }
  function Evictions(s: Stats): Stats { s.(evictions := s.evictions + 1) }

  // ------------------------------------------------------- byte accounting

  type Store = PyDict.Dict<string, Entry>

  function SizeIn(m: map<string, Entry>, k: string): nat
  {
    if k in m then m[k].size else 0
  }

  /** The sizes of the entries of `ks`, summed. */
  function SumSizes(ks: seq<string>, m: map<string, Entry>): nat
  {
    if ks == [] then 0 else SizeIn(m, ks[0]) + SumSizes(ks[1..], m)
  }

  /** The bytes held by a store: what `_total_memory_usage` must always equal. */
  function Memory(d: Store): nat
  {
    SumSizes(d.keys, d.vals)
  }

  lemma DistinctTail(ks: seq<string>)
    requires PyDict.Distinct(ks) && ks != []
    ensures PyDict.Distinct(ks[1..]) && ks[0] !in ks[1..]
  {
    var t := ks[1..];
    forall i, j | 0 <= i < j < |t| ensures t[i] != t[j] {
      assert t[i] == ks[i + 1] && t[j] == ks[j + 1];
    }
    forall j | 0 <= j < |t| ensures t[j] != ks[0] {
      assert t[j] == ks[j + 1];
    }
  }

  lemma {:induction false} SumSizesFrame(ks: seq<string>, m1: map<string, Entry>, m2: map<string, Entry>)
    requires forall k :: k in ks ==> SizeIn(m1, k) == SizeIn(m2, k)
    ensures SumSizes(ks, m1) == SumSizes(ks, m2)
  {
    if ks != [] {
      assert ks[0] in ks;
      SumSizesFrame(ks[1..], m1, m2);
    }
  }

  lemma {:induction false} SumSizesSnoc(ks: seq<string>, k: string, m: map<string, Entry>)
    ensures SumSizes(ks + [k], m) == SumSizes(ks, m) + SizeIn(m, k)
  {
    if ks == [] {
      assert ks + [k] == [k];
    } else {
      assert (ks + [k])[1..] == ks[1..] + [k];
      SumSizesSnoc(ks[1..], k, m);
    }
  }

  lemma {:induction false} SumSizesWithout(ks: seq<string>, k: string, m: map<string, Entry>)
    requires PyDict.Distinct(ks)
    ensures SumSizes(PyDict.Without(ks, k), m) == SumSizes(ks, m) - (if k in ks then SizeIn(m, k) else 0)
    ensures |PyDict.Without(ks, k)| == |ks| - (if k in ks then 1 else 0)
  {
    if ks != [] {
      DistinctTail(ks);
      SumSizesWithout(ks[1..], k, m);
      if ks[0] != k {
        var w := PyDict.Without(ks[1..], k);
        assert ([ks[0]] + w)[1..] == w;
      }
    }
  }

  lemma {:induction false} SumSizesUpdate(ks: seq<string>, m: map<string, Entry>, k: string, e: Entry)
    requires PyDict.Distinct(ks)
    ensures SumSizes(ks, m[k := e]) == SumSizes(ks, m) - (if k in ks then SizeIn(m, k) - e.size else 0)
  {
    if ks != [] {
      DistinctTail(ks);
      SumSizesUpdate(ks[1..], m, k, e);
    }
  }

  /** A distinct key list without its head is its tail. */
  lemma WithoutHead(ks: seq<string>)
    requires PyDict.Distinct(ks) && ks != []
    ensures PyDict.Without(ks, ks[0]) == ks[1..]
  {
    DistinctTail(ks);
    PyDict.WithoutAbsent(ks[1..], ks[0]);
  }

  /** `OrderedDict.move_to_end(k)` leaves the byte count unchanged. */
  lemma MoveToEndWf(d: Store, k: string)
    requires PyDict.Wf(d) && k in d.vals
    ensures PyDict.Wf(PyDict.MoveToEnd(d, k)) && Memory(PyDict.MoveToEnd(d, k)) == Memory(d)
    ensures |PyDict.MoveToEnd(d, k).keys| == |d.keys|
  {
    PyDict.MoveToEndWf(d, k);
    SumSizesSnoc(PyDict.Without(d.keys, k), k, d.vals);
    SumSizesWithout(d.keys, k, d.vals);
  }

  lemma RemoveMemory(d: Store, k: string)
    requires PyDict.Wf(d)
    ensures PyDict.Wf(PyDict.Remove(d, k))
    ensures Memory(PyDict.Remove(d, k)) == Memory(d) - SizeIn(d.vals, k)
    ensures |PyDict.Remove(d, k).keys| == |d.keys| - (if k in d.vals then 1 else 0)
  {
    PyDict.RemoveWf(d, k);
    var w := PyDict.Without(d.keys, k);
    SumSizesFrame(w, d.vals, d.vals - {k});
    SumSizesWithout(d.keys, k, d.vals);
  }

  lemma PutMemory(d: Store, k: string, e: Entry)
    requires PyDict.Wf(d)
    ensures PyDict.Wf(PyDict.Put(d, k, e))
    ensures Memory(PyDict.Put(d, k, e)) == Memory(d) - SizeIn(d.vals, k) + e.size
  {
    if k in d.vals {
      SumSizesUpdate(d.keys, d.vals, k, e);
    } else {
      SumSizesFrame(d.keys, d.vals, d.vals[k := e]);
      SumSizesSnoc(d.keys, k, d.vals[k := e]);
    }
  }

  // -------------------------------------------------------------- LRU cache

  /** The state of an `LRUCache`: its `OrderedDict` runs from least to most recently used. */
  datatype Lru = Lru(maxsize: int, defaultTtl: Option<int>, store: Store, stats: Stats, memory: int)

  /** The byte counter equals the bytes actually stored. */
  ghost predicate LruWf(s: Lru)
  {
    PyDict.Wf(s.store) && s.memory == Memory(s.store)
  }

  function NewLru(maxsize: int, ttl: Option<int>): (r: Lru)
    ensures LruWf(r) && r.store.keys == [] && r.stats == Fresh && r.memory == 0
  {
    Lru(maxsize, ttl, PyDict.Empty(), Fresh, 0)
  }

  /** Pops `k`, releases its bytes and counts an eviction. */
  function Evict(s: Lru, k: string): Lru
  {
    s.(store := PyDict.Remove(s.store, k), memory := s.memory - SizeIn(s.store.vals, k),
       stats := Evictions(s.stats))
  }

  lemma EvictWf(s: Lru, k: string)
    requires LruWf(s)
    ensures LruWf(Evict(s, k))
    ensures |Evict(s, k).store.keys| == |s.store.keys| - (if k in s.store.vals then 1 else 0)
  {
    RemoveMemory(s.store, k);
  }

  /** The loop condition of `_ensure_capacity`. */
  predicate MustEvict(s: Lru, newSize: nat)
  {
    |s.store.keys| >= s.maxsize || s.memory + newSize > s.maxsize * 1024
  }

  /**
   * `_ensure_capacity(new_size)`: evicts from the least recently used end
   * until the cache is empty or has room for one more entry of `newSize`
   * bytes, counting each eviction.
   */
  function MakeRoom(s: Lru, newSize: nat): (r: Lru)
    requires LruWf(s)
    ensures LruWf(r) && r.maxsize == s.maxsize && r.defaultTtl == s.defaultTtl
    ensures |r.store.keys| <= |s.store.keys|
    decreases |s.store.keys|
  {
    if MustEvict(s, newSize) && s.store.keys != [] then
      EvictWf(s, s.store.keys[0]);
      MakeRoom(Evict(s, s.store.keys[0]), newSize)
    else
      s
  }

  /** One step of `_ensure_capacity` pops the head of the key order. */
  lemma EvictHead(s: Lru)
    requires LruWf(s) && s.store.keys != []
    ensures Evict(s, s.store.keys[0]).store.keys == s.store.keys[1..]
  {
    WithoutHead(s.store.keys);
  }

  /** `_ensure_capacity` only drops entries from the least recently used end. */
  lemma {:induction false} MakeRoomDropsOldest(s: Lru, newSize: nat)
    requires LruWf(s)
    ensures var r := MakeRoom(s, newSize);
      |r.store.keys| <= |s.store.keys| && r.store.keys == s.store.keys[|s.store.keys| - |r.store.keys|..]
    decreases |s.store.keys|
  {
    if MustEvict(s, newSize) && s.store.keys != [] {
      var t := Evict(s, s.store.keys[0]);
      EvictWf(s, s.store.keys[0]);
      EvictHead(s);
      MakeRoomDropsOldest(t, newSize);
      SuffixOfTail(s.store.keys, t.store.keys, MakeRoom(t, newSize).store.keys);
    }
  }

  /** A suffix of the tail of a sequence is a suffix of the sequence. */
  lemma SuffixOfTail<T>(a: seq<T>, b: seq<T>, c: seq<T>)
    requires a != [] && b == a[1..] && |c| <= |b| && c == b[|b| - |c|..]
    ensures |c| <= |a| && c == a[|a| - |c|..]
  {
    assert b[|b| - |c|..] == a[|a| - |c|..];
  }

  /** `_ensure_capacity` counts each entry it drops as an eviction and nothing else. */
  lemma {:induction false} MakeRoomCounts(s: Lru, newSize: nat)
    requires LruWf(s)
    ensures var r := MakeRoom(s, newSize);
      r.stats == s.stats.(evictions := s.stats.evictions + (|s.store.keys| - |r.store.keys|))
    decreases |s.store.keys|
  {
    if MustEvict(s, newSize) && s.store.keys != [] {
      var t := Evict(s, s.store.keys[0]);
      EvictWf(s, s.store.keys[0]);
      MakeRoomCounts(t, newSize);
      MakeRoomDropsOldest(t, newSize);
    }
  }

  /** The entries `_ensure_capacity` keeps are unchanged. */
  lemma {:induction false} MakeRoomKeeps(s: Lru, newSize: nat)
    requires LruWf(s)
    ensures var r := MakeRoom(s, newSize);
      forall k :: k in r.store.vals ==> k in s.store.vals && r.store.vals[k] == s.store.vals[k]
    decreases |s.store.keys|
  {
    if MustEvict(s, newSize) && s.store.keys != [] {
      EvictWf(s, s.store.keys[0]);
      MakeRoomKeeps(Evict(s, s.store.keys[0]), newSize);
    }
  }

  /** `_ensure_capacity` stops only once the cache is empty or has room. */
  lemma {:induction false} MakeRoomStops(s: Lru, newSize: nat)
    requires LruWf(s)
    ensures var r := MakeRoom(s, newSize); r.store.keys == [] || !MustEvict(r, newSize)
    decreases |s.store.keys|
  {
    if MustEvict(s, newSize) && s.store.keys != [] {
      EvictWf(s, s.store.keys[0]);
      MakeRoomStops(Evict(s, s.store.keys[0]), newSize);
    }
  }

  /** `LRUCache.get(key)` at time `now`: the new state and the value returned. */
  function LruGet(s: Lru, key: string, now: int): (Lru, Value)
  {
    if key !in s.store.vals then
      (s.(stats := Miss(s.stats)), Null)
    else
      var e := s.store.vals[key];
      if IsExpired(e, now) then
        (s.(store := PyDict.Remove(s.store, key), memory := s.memory - e.size, stats := Miss(s.stats)), Null)
      else
        (s.(store := PyDict.MoveToEnd(PyDict.Put(s.store, key, Touch(e, now)), key), stats := Hit(s.stats)), e.value)
  }

  /** The entry `set` stores. */
  function NewEntry(s: Lru, key: string, value: Value, size: nat, ttl: Option<int>, now: int): Entry
  {
    Entry(key, value, now, now, 0, EffectiveTtl(ttl, s.defaultTtl), size)
  }

  /** `LRUCache.set(key, value, ttl)` at time `now`, for a value pickling to `size` bytes. */
  function LruSet(s: Lru, key: string, value: Value, size: nat, ttl: Option<int>, now: int): Lru
    requires LruWf(s)
  {
    var c := MakeRoom(s, size);
    c.(store := PyDict.MoveToEnd(PyDict.Put(c.store, key, NewEntry(s, key, value, size, ttl, now)), key),
       memory := c.memory - SizeIn(c.store.vals, key) + size,
       stats := Sets(c.stats))
  }

  /** `LRUCache.delete(key)`: the new state and whether the key was there. */
  function LruDelete(s: Lru, key: string): (Lru, bool)
  {
    if key !in s.store.vals then (s, false)
    else (s.(store := PyDict.Remove(s.store, key), memory := s.memory - s.store.vals[key].size,
             stats := Deletes(s.stats)), true)
  }

  /** `LRUCache.clear()`: no entries, no bytes, fresh statistics. */
  function LruClear(s: Lru): (r: Lru)
    ensures LruWf(r) && r.store.keys == [] && r.stats == Fresh && r.memory == 0
    ensures r.maxsize == s.maxsize && r.defaultTtl == s.defaultTtl
  {
    s.(store := PyDict.Empty(), memory := 0, stats := Fresh)
  }

  /** The keys `cleanup_expired` collects, in cache order. */
  function ExpiredKeys(s: Lru, now: int): seq<string>
  {
    Seqs.Filter(s.store.keys, k => k in s.store.vals && IsExpired(s.store.vals[k], now))
  }

  /** Pops each key of `ks` in turn, counting each as an eviction. */
  function EvictAll(s: Lru, ks: seq<string>): Lru
    decreases |ks|
  {
    if ks == [] then s else EvictAll(Evict(s, ks[0]), ks[1..])
  }

  /** `LRUCache.cleanup_expired()` at time `now`. */
  function LruCleanup(s: Lru, now: int): Lru
  {
    EvictAll(s, ExpiredKeys(s, now))
  }

  // ----------------------------------------------------- LRU cache: lemmas

  /** `get` keeps the byte counter equal to the stored bytes. */
  lemma GetWf(s: Lru, key: string, now: int)
    requires LruWf(s)
    ensures LruWf(LruGet(s, key, now).0)
    ensures LruGet(s, key, now).0.maxsize == s.maxsize && LruGet(s, key, now).0.defaultTtl == s.defaultTtl
  {
    if key in s.store.vals {
      var e := s.store.vals[key];
      if IsExpired(e, now) {
        RemoveMemory(s.store, key);
      } else {
        PutMemory(s.store, key, Touch(e, now));
        MoveToEndWf(PyDict.Put(s.store, key, Touch(e, now)), key);
      }
    }
  }

  /**
   * `get` on an absent or expired key returns None and counts a miss,
   * dropping an expired entry; on a live key it returns the value, counts a
   * hit and makes the key the most recently used.
   */
  lemma GetOutcome(s: Lru, key: string, now: int)
    ensures var (r, v) := LruGet(s, key, now);
      if key !in s.store.vals || IsExpired(s.store.vals[key], now) then
        v == Null && r.stats == Miss(s.stats) && key !in r.store.vals
      else
        v == s.store.vals[key].value && r.stats == Hit(s.stats)
        && r.store.keys[|r.store.keys| - 1] == key
        && r.store.vals == s.store.vals[key := Touch(s.store.vals[key], now)]
  {
  }

  /** `set` keeps the byte counter equal to the stored bytes. */
  lemma SetWf(s: Lru, key: string, value: Value, size: nat, ttl: Option<int>, now: int)
    requires LruWf(s)
    ensures LruWf(LruSet(s, key, value, size, ttl, now))
    ensures |LruSet(s, key, value, size, ttl, now).store.keys|
            == |MakeRoom(s, size).store.keys| + (if key in MakeRoom(s, size).store.vals then 0 else 1)
  {
    var c := MakeRoom(s, size);
    var e := NewEntry(s, key, value, size, ttl, now);
    PutMemory(c.store, key, e);
    MoveToEndWf(PyDict.Put(c.store, key, e), key);
  }

  /** After `set`, the key holds the new entry and is the most recently used. */
  lemma SetStores(s: Lru, key: string, value: Value, size: nat, ttl: Option<int>, now: int)
    requires LruWf(s)
    ensures var r := LruSet(s, key, value, size, ttl, now);
      r.store.vals == MakeRoom(s, size).store.vals[key := NewEntry(s, key, value, size, ttl, now)]
      && r.store.keys[|r.store.keys| - 1] == key
      && r.stats.sets == s.stats.sets + 1
  {
    MakeRoomCounts(s, size);
  }

  /**
   * With `maxsize >= 1`, `set` never leaves more than `maxsize` entries, and
   * the bytes stay within `maxsize * 1024` unless the new entry is alone.
   */
  lemma SetBounded(s: Lru, key: string, value: Value, size: nat, ttl: Option<int>, now: int)
    requires LruWf(s) && s.maxsize >= 1
    ensures var r := LruSet(s, key, value, size, ttl, now);
      |r.store.keys| <= s.maxsize && (r.memory <= s.maxsize * 1024 || r.store.keys == [key])
  {
    var c := MakeRoom(s, size);
    var e := NewEntry(s, key, value, size, ttl, now);
    SetWf(s, key, value, size, ttl, now);
    MakeRoomStops(s, size);
    if c.store.keys == [] {
      assert PyDict.Put(c.store, key, e).keys == [key];
      assert PyDict.Without([key], key) == [];
    }
  }

  /**
   * `set` with a full cache first evicts the least recently used entry, even
   * when the key being set is already cached.
   */
  lemma SetEvictsOldest(s: Lru, key: string, value: Value, size: nat, ttl: Option<int>, now: int)
    requires LruWf(s) && s.store.keys != [] && |s.store.keys| >= s.maxsize
    ensures var r := LruSet(s, key, value, size, ttl, now);
      r.stats.evictions > s.stats.evictions
      && (s.store.keys[0] != key ==> s.store.keys[0] !in r.store.vals)
  {
    var k := s.store.keys[0];
    var t := Evict(s, k);
    EvictWf(s, k);
    assert MakeRoom(s, size) == MakeRoom(t, size);
    MakeRoomCounts(s, size);
    MakeRoomDropsOldest(s, size);
    MakeRoomKeeps(t, size);
    assert k !in t.store.vals;
  }

  /** A value just set is what `get` returns while its entry has not expired. */
  lemma SetThenGet(s: Lru, key: string, value: Value, size: nat, ttl: Option<int>, now: int, later: int)
    requires LruWf(s)
    requires EffectiveTtl(ttl, s.defaultTtl).None? || later - now <= EffectiveTtl(ttl, s.defaultTtl).value
    ensures LruGet(LruSet(s, key, value, size, ttl, now), key, later).1 == value
  {
    SetStores(s, key, value, size, ttl, now);
  }

  /** `delete` answers whether the key was cached and leaves it absent, touching nothing else. */
  lemma DeleteSpec(s: Lru, key: string)
    requires LruWf(s)
    ensures var (r, b) := LruDelete(s, key);
      LruWf(r) && (b <==> key in s.store.vals) && r.store.vals == s.store.vals - {key}
      && r.stats.deletes == s.stats.deletes + (if b then 1 else 0)
  {
    RemoveMemory(s.store, key);
  }

  lemma {:induction false} EvictAllSpec(s: Lru, ks: seq<string>)
    requires LruWf(s)
    ensures var r := EvictAll(s, ks);
      LruWf(r) && r.maxsize == s.maxsize && r.defaultTtl == s.defaultTtl
      && (forall k :: k in r.store.vals <==> k in s.store.vals && k !in ks)
      && (forall k :: k in r.store.vals ==> r.store.vals[k] == s.store.vals[k])
      && r.stats == s.stats.(evictions := s.stats.evictions + |ks|)
    decreases |ks|
  {
    if ks != [] {
      EvictWf(s, ks[0]);
      EvictAllSpec(Evict(s, ks[0]), ks[1..]);
      forall k ensures k in ks <==> k == ks[0] || k in ks[1..] {
        assert ks == [ks[0]] + ks[1..];
      }
    }
  }

  /**
   * `cleanup_expired` removes exactly the expired entries, counts each as an
   * eviction and keeps the byte counter exact.
   */
  lemma CleanupSpec(s: Lru, now: int)
    requires LruWf(s)
    ensures var r := LruCleanup(s, now);
      LruWf(r)
      && (forall k :: k in r.store.vals <==> k in s.store.vals && !IsExpired(s.store.vals[k], now))
      && (forall k :: k in r.store.vals ==> r.store.vals[k] == s.store.vals[k])
      && r.stats.evictions == s.stats.evictions + |ExpiredKeys(s, now)|
  {
    var ks := ExpiredKeys(s, now);
    EvictAllSpec(s, ks);
    forall k | k in s.store.vals ensures k in ks <==> IsExpired(s.store.vals[k], now) {
      assert k in s.store.keys;
    }
  }

  /** `clear` restarts from an empty cache with fresh statistics. */
  lemma ClearSpec(s: Lru, key: string, now: int)
    ensures var r := LruGet(LruClear(s), key, now); r.1 == Null && r.0.stats == Miss(Fresh)
  {
  }

  // ------------------------------------------------------ LRU cache: class

  /** `LRUCache`: the ordered store, the statistics and the byte counter, updated in place. */
  class LRUCache {
    const maxsize: int
    const defaultTtl: Option<int>
    var store: Store
    var stats: Stats
    var memory: int

    function Snapshot(): Lru
      reads this
    {
      Lru(maxsize, defaultTtl, store, stats, memory)
    }

    ghost predicate Valid()
      reads this
    {
      LruWf(Snapshot())
    }

    constructor (maxsize: int, ttl: Option<int>)
      ensures Valid() && Snapshot() == NewLru(maxsize, ttl)
    {
      this.maxsize := maxsize;
      defaultTtl := ttl;
      store := PyDict.Empty();
      stats := Fresh;
      memory := 0;
    }

    method Get(key: string, now: int) returns (v: Value)
      requires Valid()
      modifies this
      ensures Valid() && (Snapshot(), v) == LruGet(old(Snapshot()), key, now)
    {
      GetWf(Snapshot(), key, now);
      if key !in store.vals {
        stats := Miss(stats);
        return Null;
      }
      var e := store.vals[key];
      if IsExpired(e, now) {
        store, memory, stats := PyDict.Remove(store, key), memory - e.size, Miss(stats);
        return Null;
      }
      store, stats := PyDict.MoveToEnd(PyDict.Put(store, key, Touch(e, now)), key), Hit(stats);
      v := e.value;
    }

    method Set(key: string, value: Value, size: nat, ttl: Option<int>, now: int)
      requires Valid()
      modifies this
      ensures Valid() && Snapshot() == LruSet(old(Snapshot()), key, value, size, ttl, now)
    {
      SetWf(Snapshot(), key, value, size, ttl, now);
      EnsureCapacity(size);
      var mem := memory;
      if key in store.vals {
        mem := mem - store.vals[key].size;
      }
      var e := Entry(key, value, now, now, 0, EffectiveTtl(ttl, defaultTtl), size);
      store, memory, stats := PyDict.MoveToEnd(PyDict.Put(store, key, e), key), mem + size, Sets(stats);
    }

    method EnsureCapacity(newSize: nat)
      requires Valid()
      modifies this
      ensures Valid() && Snapshot() == MakeRoom(old(Snapshot()), newSize)
    {
      while |store.keys| >= maxsize || memory + newSize > maxsize * 1024
        invariant Valid() && MakeRoom(Snapshot(), newSize) == MakeRoom(old(Snapshot()), newSize)
        decreases |store.keys|
      {
        if store.keys == [] {
          break;
        }
        var k := store.keys[0];
        EvictWf(Snapshot(), k);
        store, memory, stats := PyDict.Remove(store, k), memory - store.vals[k].size, Evictions(stats);
      }
    }

    method Delete(key: string) returns (deleted: bool)
      requires Valid()
      modifies this
      ensures Valid() && (Snapshot(), deleted) == LruDelete(old(Snapshot()), key)
    {
      DeleteSpec(Snapshot(), key);
      if key !in store.vals {
        return false;
      }
      store, memory, stats := PyDict.Remove(store, key), memory - store.vals[key].size, Deletes(stats);
      deleted := true;
    }

    method Clear()
      modifies this
      ensures Valid() && Snapshot() == LruClear(old(Snapshot()))
    {
      store, memory, stats := PyDict.Empty(), 0, Fresh;
    }

    method CleanupExpired(now: int)
      requires Valid()
      modifies this
      ensures Valid() && Snapshot() == LruCleanup(old(Snapshot()), now)
    {
      var expired := ExpiredKeys(Snapshot(), now);
      for i := 0 to |expired|
        invariant Valid() && EvictAll(Snapshot(), expired[i..]) == LruCleanup(old(Snapshot()), now)
      {
        EvictWf(Snapshot(), expired[i]);
        assert expired[i..][1..] == expired[i + 1..];
        var k := expired[i];
        store, memory, stats := PyDict.Remove(store, k), memory - SizeIn(store.vals, k), Evictions(stats);
      }
    }

    /** `size()` */
    function Size(): nat
      reads this
    {
      |store.keys|
    }

    /** `get_stats()` returns a copy of the counters. */
    function GetStats(): Stats
      reads this
    {
      stats
    }

    /** `get_memory_usage()` */
    function GetMemoryUsage(): int
      reads this
    {
      memory
    }
  }

  // ------------------------------------------------------ three-tier cache

  /**
   * The state of a `MultiLevelCache`.  `l3` is the content of the remote
   * L3 store, or `None` when no backend was configured.
   */
  datatype Tiers = Tiers(l1: Lru, l2: Lru, l3: Option<map<string, Value>>, global: Stats,
                         l1Stats: Stats, l2Stats: Stats, l3Stats: Stats,
                         access: map<string, seq<int>>)

  /** Both in-memory tiers keep exact byte counters; access histories hold at most 100 times. */
  ghost predicate TiersWf(t: Tiers)
  {
    LruWf(t.l1) && LruWf(t.l2) && forall k :: k in t.access ==> |t.access[k]| <= 100
  }

  /** The recorded access times of `key` (a `defaultdict(list)` read). */
  function History(access: map<string, seq<int>>, key: string): seq<int>
  {
    if key in access then access[key] else []
  }

  /** `history[-100:]` once a history grows past 100 entries. */
  function KeepRecent(h: seq<int>): (r: seq<int>)
    ensures |r| <= 100
    ensures |h| <= 100 ==> r == h
  {
    if |h| > 100 then h[|h| - 100..] else h
  }

  /**
   * `_record_access(key)` at time `now`: appends the time and keeps only the
   * most recent 100 times of that key.
   */
  function RecordAccess(access: map<string, seq<int>>, key: string, now: int): (r: map<string, seq<int>>)
    ensures key in r && r[key] == KeepRecent(History(access, key) + [now])
    ensures forall k :: k != key ==> (k in r <==> k in access) && (k in access ==> r[k] == access[k])
  {
    access[key := KeepRecent(History(access, key) + [now])]
  }

  /** The history of `key` ends with the new time and never exceeds 100 times. */
  lemma RecordAccessBounded(access: map<string, seq<int>>, key: string, now: int)
    ensures var h := History(access, key) + [now];
      var r := RecordAccess(access, key, now)[key];
      |r| <= 100 && |r| <= |h| && r == h[|h| - |r|..] && r[|r| - 1] == now
      && (|History(access, key)| < 100 ==> r == h)
  {
    var h := History(access, key) + [now];
    if |h| > 100 {
      var r := h[|h| - 100..];
      assert r[|r| - 1] == h[|h| - 1];
    }
  }

  /** Recording an access keeps every key's history within 100 times. */
  lemma AccessBounded(access: map<string, seq<int>>, key: string, now: int)
    requires forall k :: k in access ==> |access[k]| <= 100
    ensures forall k :: k in RecordAccess(access, key, now) ==> |RecordAccess(access, key, now)[k]| <= 100
  {
    var r := RecordAccess(access, key, now);
    forall k | k in r ensures |r[k]| <= 100 {
      if k == key {
        RecordAccessBounded(access, key, now);
      } else {
        assert r[k] == access[k];
      }
    }
  }

  /** The L3 lookup: the stored value, or None without a backend or an entry. */
  function L3Get(l3: Option<map<string, Value>>, key: string): Value
  {
    if l3.Some? && key in l3.value then l3.value[key] else Null
  }

  /**
   * `MultiLevelCache.get(key)` at time `now`: L1, then L2 (a hit is copied
   * into L1), then L3 (a hit is copied into L2).  A `None` value counts as a miss.
   */
  function MultiGet(t: Tiers, key: string, now: int, sizeOf: Value -> nat): (Tiers, Value)
    requires LruWf(t.l1) && LruWf(t.l2)
  {
    var acc := RecordAccess(t.access, key, now);
    var g1 := LruGet(t.l1, key, now);
    GetWf(t.l1, key, now);
    if g1.1 != Null then
      (t.(access := acc, l1 := g1.0, l1Stats := Hit(t.l1Stats), global := Hit(t.global)), g1.1)
    else
      MultiGetBelow(t.(access := acc, l1 := g1.0), key, now, sizeOf)
  }

  /** The rest of `get` after an L1 miss: L2 (a hit is copied into L1), then L3 (a hit is copied into L2). */
  function MultiGetBelow(t: Tiers, key: string, now: int, sizeOf: Value -> nat): (Tiers, Value)
    requires LruWf(t.l1) && LruWf(t.l2)
  {
    var g2 := LruGet(t.l2, key, now);
    GetWf(t.l2, key, now);
    if g2.1 != Null then
      (t.(l1 := LruSet(t.l1, key, g2.1, sizeOf(g2.1), None, now), l2 := g2.0,
          l2Stats := Hit(t.l2Stats), global := Hit(t.global)), g2.1)
    else
      var v3 := L3Get(t.l3, key);
      if v3 != Null then
        (t.(l2 := LruSet(g2.0, key, v3, sizeOf(v3), None, now), l3Stats := Hit(t.l3Stats), global := Hit(t.global)), v3)
      else
        (t.(l2 := g2.0, global := Miss(t.global)), Null)
  }

  /**
   * `MultiLevelCache.set(key, value, level, ttl)`: writes the named tier
   * only; an unknown level, or L3 without a backend, writes L2.
   */
  function MultiSet(t: Tiers, key: string, value: Value, level: string, ttl: Option<int>, now: int,
                    sizeOf: Value -> nat): Tiers
    requires LruWf(t.l1) && LruWf(t.l2)
  {
    var g := Sets(t.global);
    if level == "L1" then
      t.(global := g, l1 := LruSet(t.l1, key, value, sizeOf(value), ttl, now), l1Stats := Sets(t.l1Stats))
    else if level == "L3" && t.l3.Some? then
      t.(global := g, l3 := Some(t.l3.value[key := value]), l3Stats := Sets(t.l3Stats))
    else
      t.(global := g, l2 := LruSet(t.l2, key, value, sizeOf(value), ttl, now), l2Stats := Sets(t.l2Stats))
  }

  /** `MultiLevelCache.delete(key)`: deletes from every tier; true iff some tier held the key. */
  function MultiDelete(t: Tiers, key: string): (Tiers, bool)
  {
    var d1 := LruDelete(t.l1, key);
    var d2 := LruDelete(t.l2, key);
    var in3 := t.l3.Some? && key in t.l3.value;
    var u := t.(l1 := d1.0, l2 := d2.0, l3 := if t.l3.Some? then Some(t.l3.value - {key}) else None);
    if d1.1 || d2.1 || in3 then (u.(global := Deletes(t.global)), true) else (u, false)
  }

  /** `MultiLevelCache.clear()`: every tier emptied, every counter reset; access history kept. */
  function MultiClear(t: Tiers): Tiers
  {
    t.(l1 := LruClear(t.l1), l2 := LruClear(t.l2), l3 := if t.l3.Some? then Some(map[]) else None,
       global := Fresh, l1Stats := Fresh, l2Stats := Fresh, l3Stats := Fresh)
  }

  /** `MultiLevelCache.cleanup_expired(now)`: cleans L1 and L2. */
  function MultiCleanup(t: Tiers, now: int): Tiers
  {
    t.(l1 := LruCleanup(t.l1, now), l2 := LruCleanup(t.l2, now))
  }

  // ------------------------------------------------ three-tier cache: lemmas

  /** Every `get` counts exactly one global hit or one global miss, a hit iff a value came back. */
  lemma MultiGetCounts(t: Tiers, key: string, now: int, sizeOf: Value -> nat)
    requires LruWf(t.l1) && LruWf(t.l2)
    ensures var (r, v) := MultiGet(t, key, now, sizeOf);
      r.global.hits + r.global.misses == t.global.hits + t.global.misses + 1
      && (v != Null <==> r.global.hits == t.global.hits + 1)
      && r.global.sets == t.global.sets && r.global.deletes == t.global.deletes
  {
    var g1 := LruGet(t.l1, key, now);
    var g2 := LruGet(t.l2, key, now);
    var r := MultiGet(t, key, now, sizeOf);
    if g1.1 != Null {
      assert r.0.global == Hit(t.global);
    } else if g2.1 != Null {
      assert r.0.global == Hit(t.global);
    } else if L3Get(t.l3, key) != Null {
      assert r.0.global == Hit(t.global);
    } else {
      assert r.0.global == Miss(t.global);
    }
  }

  /** A value returned by `get` was stored under the key in the first tier that had one. */
  lemma MultiGetFound(t: Tiers, key: string, now: int, sizeOf: Value -> nat)
    requires LruWf(t.l1) && LruWf(t.l2)
    ensures var (r, v) := MultiGet(t, key, now, sizeOf);
      v != Null ==>
        (key in t.l1.store.vals && v == t.l1.store.vals[key].value)
        || (key in t.l2.store.vals && v == t.l2.store.vals[key].value)
        || v == L3Get(t.l3, key)
  {
    GetOutcome(t.l1, key, now);
    GetOutcome(t.l2, key, now);
  }

  /** An L2 hit is copied into L1. */
  lemma MultiGetPromotesL2(t: Tiers, key: string, now: int, sizeOf: Value -> nat)
    requires LruWf(t.l1) && LruWf(t.l2)
    requires LruGet(t.l1, key, now).1 == Null && LruGet(t.l2, key, now).1 != Null
    ensures var (r, v) := MultiGet(t, key, now, sizeOf);
      v == LruGet(t.l2, key, now).1 && key in r.l1.store.vals && r.l1.store.vals[key].value == v
  {
    var g1 := LruGet(t.l1, key, now);
    GetWf(t.l1, key, now);
    SetStores(g1.0, key, LruGet(t.l2, key, now).1, sizeOf(LruGet(t.l2, key, now).1), None, now);
  }

  /** An L3 hit is copied into L2 only: L1 sees nothing but its own miss. */
  lemma MultiGetPromotesL3(t: Tiers, key: string, now: int, sizeOf: Value -> nat)
    requires LruWf(t.l1) && LruWf(t.l2)
    requires LruGet(t.l1, key, now).1 == Null && LruGet(t.l2, key, now).1 == Null
    requires L3Get(t.l3, key) != Null
    ensures var (r, v) := MultiGet(t, key, now, sizeOf);
      v == L3Get(t.l3, key) && r.l1 == LruGet(t.l1, key, now).0
      && key in r.l2.store.vals && r.l2.store.vals[key].value == v
  {
    var g2 := LruGet(t.l2, key, now);
    GetWf(t.l2, key, now);
    SetStores(g2.0, key, L3Get(t.l3, key), sizeOf(L3Get(t.l3, key)), None, now);
  }

  /** The part of `get` below L1 keeps the tiered cache well formed. */
  lemma MultiGetBelowWf(t: Tiers, key: string, now: int, sizeOf: Value -> nat)
    requires TiersWf(t)
    ensures TiersWf(MultiGetBelow(t, key, now, sizeOf).0)
  {
    var g2 := LruGet(t.l2, key, now);
    GetWf(t.l2, key, now);
    if g2.1 != Null {
      SetWf(t.l1, key, g2.1, sizeOf(g2.1), None, now);
    } else if L3Get(t.l3, key) != Null {
      SetWf(g2.0, key, L3Get(t.l3, key), sizeOf(L3Get(t.l3, key)), None, now);
    }
  }

  /** `get` keeps the tiered cache well formed. */
  lemma MultiGetWf(t: Tiers, key: string, now: int, sizeOf: Value -> nat)
    requires TiersWf(t)
    ensures TiersWf(MultiGet(t, key, now, sizeOf).0)
  {
    var acc := RecordAccess(t.access, key, now);
    GetWf(t.l1, key, now);
    AccessBounded(t.access, key, now);
    if LruGet(t.l1, key, now).1 == Null {
      MultiGetBelowWf(t.(access := acc, l1 := LruGet(t.l1, key, now).0), key, now, sizeOf);
    }
  }

  /** `set` writes the named tier and leaves the other two as they were. */
  lemma MultiSetTier(t: Tiers, key: string, value: Value, level: string, ttl: Option<int>, now: int,
                     sizeOf: Value -> nat)
    requires TiersWf(t)
    ensures var r := MultiSet(t, key, value, level, ttl, now, sizeOf);
      TiersWf(r) && r.global.sets == t.global.sets + 1
      && (if level == "L1" then
            r.l2 == t.l2 && r.l3 == t.l3 && r.l1.store.vals[key].value == value
          else if level == "L3" && t.l3.Some? then
            r.l1 == t.l1 && r.l2 == t.l2 && r.l3 == Some(t.l3.value[key := value])
          else
            r.l1 == t.l1 && r.l3 == t.l3 && r.l2.store.vals[key].value == value)
  {
    if level == "L1" {
      SetWf(t.l1, key, value, sizeOf(value), ttl, now);
      SetStores(t.l1, key, value, sizeOf(value), ttl, now);
    } else if !(level == "L3" && t.l3.Some?) {
      SetWf(t.l2, key, value, sizeOf(value), ttl, now);
      SetStores(t.l2, key, value, sizeOf(value), ttl, now);
    }
  }

  /** `delete` reports whether any tier held the key, and afterwards none does. */
  lemma MultiDeleteSpec(t: Tiers, key: string)
    requires TiersWf(t)
    ensures var (r, b) := MultiDelete(t, key);
      TiersWf(r)
      && (b <==> key in t.l1.store.vals || key in t.l2.store.vals || (t.l3.Some? && key in t.l3.value))
      && key !in r.l1.store.vals && key !in r.l2.store.vals && (r.l3.Some? ==> key !in r.l3.value)
      && r.l3.Some? == t.l3.Some?
  {
    DeleteSpec(t.l1, key);
    DeleteSpec(t.l2, key);
  }

  /** After `clear`, every key misses in every tier. */
  lemma MultiClearMisses(t: Tiers, key: string, now: int, sizeOf: Value -> nat)
    requires TiersWf(t)
    ensures TiersWf(MultiClear(t))
    ensures var (r, v) := MultiGet(MultiClear(t), key, now, sizeOf);
      v == Null && r.global == Miss(Fresh)
  {
  }

  /** `cleanup_expired` leaves no expired entry in L1 or L2 and keeps the tiers well formed. */
  lemma MultiCleanupSpec(t: Tiers, now: int)
    requires TiersWf(t)
    ensures var r := MultiCleanup(t, now);
      TiersWf(r)
      && (forall k :: k in r.l1.store.vals ==> !IsExpired(r.l1.store.vals[k], now))
      && (forall k :: k in r.l2.store.vals ==> !IsExpired(r.l2.store.vals[k], now))
  {
    CleanupSpec(t.l1, now);
    CleanupSpec(t.l2, now);
  }

  // ------------------------------------------------- three-tier cache: class

  /** `MultiLevelCache`: two in-memory LRU tiers, an optional remote tier and counters. */
  class MultiLevelCache {
    const l1: LRUCache
    const l2: LRUCache
    var l3: Option<map<string, Value>>
    var global: Stats
    var l1Stats: Stats
    var l2Stats: Stats
    var l3Stats: Stats
    var access: map<string, seq<int>>
    /** The pickled size of a value. */
    const sizeOf: Value -> nat

    function Snapshot(): Tiers
      reads this, l1, l2
    {
      Tiers(l1.Snapshot(), l2.Snapshot(), l3, global, l1Stats, l2Stats, l3Stats, access)
    }

    ghost predicate Valid()
      reads this, l1, l2
    {
      l1 != l2 && TiersWf(Snapshot())
    }

    /** L1 holds `l1Size` entries for 300 s, L2 `l2Size` entries for 1800 s. */
    constructor (l1Size: int, l2Size: int, l3: Option<map<string, Value>>, sizeOf: Value -> nat)
      ensures Valid() && fresh(l1) && fresh(l2) && this.sizeOf == sizeOf
      ensures Snapshot() == Tiers(NewLru(l1Size, Some(300)), NewLru(l2Size, Some(1800)), l3,
                                  Fresh, Fresh, Fresh, Fresh, map[])
    {
      l1 := new LRUCache(l1Size, Some(300));
      l2 := new LRUCache(l2Size, Some(1800));
      this.l3 := l3;
      global, l1Stats, l2Stats, l3Stats := Fresh, Fresh, Fresh, Fresh;
      access := map[];
      this.sizeOf := sizeOf;
    }

    method Get(key: string, now: int) returns (v: Value)
      requires Valid()
      modifies this, l1, l2
      ensures Valid() && (Snapshot(), v) == MultiGet(old(Snapshot()), key, now, sizeOf)
    {
      AccessBounded(access, key, now);
      var acc := RecordAccess(access, key, now);
      v := l1.Get(key, now);
      if v != Null {
        access, l1Stats, global := acc, Hit(l1Stats), Hit(global);
        return;
      }
      access := acc;
      v := GetBelowL1(key, now);
    }

    /** The L2 and L3 lookups of `get`, after an L1 miss. */
    method GetBelowL1(key: string, now: int) returns (v: Value)
      requires Valid()
      modifies this, l1, l2
      ensures Valid() && (Snapshot(), v) == MultiGetBelow(old(Snapshot()), key, now, sizeOf)
    {
      v := l2.Get(key, now);
      if v != Null {
        CopyIntoL1(key, v, now);
        return;
      }
      v := L3Get(l3, key);
      if v != Null {
        CopyIntoL2(key, v, now);
        return;
      }
      global := Miss(global);
    }

    /** An L2 hit: the value is copied into L1 and the hit counted. */
    method CopyIntoL1(key: string, v: Value, now: int)
      requires Valid()
      modifies this, l1
      ensures Valid()
      ensures Snapshot() == old(Snapshot()).(l1 := LruSet(old(l1.Snapshot()), key, v, sizeOf(v), None, now),
                                             l2Stats := Hit(old(l2Stats)), global := Hit(old(global)))
    {
      l1.Set(key, v, sizeOf(v), None, now);
      l2Stats, global := Hit(l2Stats), Hit(global);
    }

    /** An L3 hit: the value is copied into L2 and the hit counted. */
    method CopyIntoL2(key: string, v: Value, now: int)
      requires Valid()
      modifies this, l2
      ensures Valid()
      ensures Snapshot() == old(Snapshot()).(l2 := LruSet(old(l2.Snapshot()), key, v, sizeOf(v), None, now),
                                             l3Stats := Hit(old(l3Stats)), global := Hit(old(global)))
    {
      l2.Set(key, v, sizeOf(v), None, now);
      l3Stats, global := Hit(l3Stats), Hit(global);
    }

    method Set(key: string, value: Value, level: string, ttl: Option<int>, now: int)
      requires Valid()
      modifies this, l1, l2
      ensures Valid() && Snapshot() == MultiSet(old(Snapshot()), key, value, level, ttl, now, sizeOf)
    {
      global := Sets(global);
      if level == "L1" {
        SetIntoL1(key, value, ttl, now);
      } else if level == "L3" && l3.Some? {
        l3, l3Stats := Some(l3.value[key := value]), Sets(l3Stats);
      } else {
        SetIntoL2(key, value, ttl, now);
      }
    }

    /** `set` at level L1: the entry goes into L1 and the set is counted there. */
    method SetIntoL1(key: string, value: Value, ttl: Option<int>, now: int)
      requires Valid()
      modifies this, l1
      ensures Valid()
      ensures Snapshot() == old(Snapshot()).(l1 := LruSet(old(l1.Snapshot()), key, value, sizeOf(value), ttl, now),
                                             l1Stats := Sets(old(l1Stats)))
    {
      l1.Set(key, value, sizeOf(value), ttl, now);
      l1Stats := Sets(l1Stats);
    }

    /** `set` at level L2, or at L3 without an L3 store: the entry goes into L2. */
    method SetIntoL2(key: string, value: Value, ttl: Option<int>, now: int)
      requires Valid()
      modifies this, l2
      ensures Valid()
      ensures Snapshot() == old(Snapshot()).(l2 := LruSet(old(l2.Snapshot()), key, value, sizeOf(value), ttl, now),
                                             l2Stats := Sets(old(l2Stats)))
    {
      l2.Set(key, value, sizeOf(value), ttl, now);
      l2Stats := Sets(l2Stats);
    }

    method Delete(key: string) returns (deleted: bool)
      requires Valid()
      modifies this, l1, l2
      ensures Valid() && (Snapshot(), deleted) == MultiDelete(old(Snapshot()), key)
    {
      MultiDeleteSpec(Snapshot(), key);
      var d1 := l1.Delete(key);
      var d2 := l2.Delete(key);
      var d3 := l3.Some? && key in l3.value;
      if l3.Some? {
        l3 := Some(l3.value - {key});
      }
      if d1 || d2 || d3 {
        global := Deletes(global);
        return true;
      }
      return false;
    }

    method Clear()
      requires Valid()
      modifies this, l1, l2
      ensures Valid() && Snapshot() == MultiClear(old(Snapshot()))
    {
      l1.Clear();
      l2.Clear();
      if l3.Some? {
        l3 := Some(map[]);
      }
      global, l1Stats, l2Stats, l3Stats := Fresh, Fresh, Fresh, Fresh;
    }

    method CleanupExpired(now: int)
      requires Valid()
      modifies l1, l2
      ensures Valid() && Snapshot() == MultiCleanup(old(Snapshot()), now)
    {
      MultiCleanupSpec(Snapshot(), now);
      l1.CleanupExpired(now);
      l2.CleanupExpired(now);
    }
  }

  // ------------------------------------------------------- intelligent cache

  /**
   * `IntelligentCache.get_cache_ttl` as written, for a query pattern seen
   * `frequency` times: 300 s, doubled above 50, at most 60 s for real-time
   * data.  The tripling test (`> 100`) sits after the `> 50` test.
   */
  function CacheTtlAsWritten(frequency: int, realTime: bool): int
  {
    var base := if frequency > 50 then 600 else if frequency > 100 then 900 else 300;
    if realTime then (if base < 60 then base else 60) else base
  }

  /** As written, the tripled TTL can never be produced: 150 uses yield 600, not 900. */
  lemma CacheTtlTripleUnreachable(frequency: int, realTime: bool)
    ensures CacheTtlAsWritten(frequency, realTime) in {60, 300, 600}
    ensures CacheTtlAsWritten(150, false) == 600
  {
  }

  /**
   * The dynamic TTL with the tiers tested from the top: 900 s above 100
   * uses, 600 s above 50, else 300 s; real-time data at most 60 s.
   */
  function CacheTtl(frequency: int, realTime: bool): (r: int)
    ensures realTime ==> r == 60
    ensures !realTime ==> r == (if frequency > 100 then 900 else if frequency > 50 then 600 else 300)
  {
    var base := if frequency > 100 then 900 else if frequency > 50 then 600 else 300;
    if realTime then (if base < 60 then base else 60) else base
  }

  /** The corrected TTL never shrinks as a query becomes more frequent, and agrees with the code below 101 uses. */
  lemma CacheTtlMonotone(f1: int, f2: int, realTime: bool)
    requires f1 <= f2
    ensures CacheTtl(f1, realTime) <= CacheTtl(f2, realTime)
    ensures f2 <= 100 ==> CacheTtl(f2, realTime) == CacheTtlAsWritten(f2, realTime)
  {
  }
}
