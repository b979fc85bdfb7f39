/**
 * The older performance module (src/ontology_framework/performance.py): an
 * LRU cache with a single time-to-live and hit/miss counters, the manager of
 * named caches, property indices over Python lists, the index manager and
 * the query optimizer that picks the most selective index.
 *
 * Time is an explicit `now` in whole seconds; each call of `time.time()` in
 * the source is a separate clock argument.
 */
module Performance {
  import opened Wrappers
  import opened Values
  import PyDict
  import Seqs

  // ============================================================ LRU cache

  /**
   * The state of `performance.LRUCache`: `cache` runs from least to most
   * recently used and `timestamps` holds the time each key was last written.
   */
  datatype TtlLru = TtlLru(maxSize: int, ttlSeconds: int, cache: PyDict.Dict<string, Value>,
                           timestamps: map<string, int>, hits: nat, misses: nat)

  /** Every cached key has a timestamp and every timestamp a cached key. */
  ghost predicate TtlWf(s: TtlLru)
  {
    PyDict.Wf(s.cache) && s.timestamps.Keys == s.cache.vals.Keys
  }

  /** The capacity bound `put` keeps: `max_size` entries, none at all when it is not positive. */
  predicate Bounded(s: TtlLru)
  {
    |s.cache.keys| <= (if s.maxSize < 0 then 0 else s.maxSize)
  }

  function NewTtlLru(maxSize: int, ttlSeconds: int): (r: TtlLru)
    ensures TtlWf(r) && Bounded(r)
  {
    TtlLru(maxSize, ttlSeconds, PyDict.Empty(), map[], 0, 0)
  }

  /** `timestamps.get(key, 0)` */
  function Stamp(s: TtlLru, k: string): int
  {
    if k in s.timestamps then s.timestamps[k] else 0
  }

  /** `_is_expired(key)` at time `now`: strictly more than `ttl_seconds` since the write. */
  predicate IsStale(s: TtlLru, k: string, now: int)
  {
    now - Stamp(s, k) > s.ttlSeconds
  }

  /** Deletes `k` from the cache and from the timestamps. */
  function DropKey(s: TtlLru, k: string): TtlLru
  {
    s.(cache := PyDict.Remove(s.cache, k), timestamps := s.timestamps - {k})
  }

  /** Deletes each key of `ks` in turn. */
  function DropAll(s: TtlLru, ks: seq<string>): TtlLru
    decreases |ks|
  {
    if ks == [] then s else DropAll(DropKey(s, ks[0]), ks[1..])
  }

  /** The keys `_cleanup_expired` collects at time `now`. */
  function StaleKeys(s: TtlLru, now: int): seq<string>
  {
    Seqs.Filter(s.cache.keys, k => IsStale(s, k, now))
  }

  /** `_cleanup_expired()` at time `now`. */
  function Cleanup(s: TtlLru, now: int): TtlLru
  {
    DropAll(s, StaleKeys(s, now))
  }

  /**
   * `get(key)`: stale entries are purged at time `now`, then the key's own
   * age is checked again at time `later`.  Returns the new state and the value
   * (`Null` for a miss).
   */
  function TtlGet(s: TtlLru, key: string, now: int, later: int): (TtlLru, Value)
  {
    var c := Cleanup(s, now);
    if key !in c.cache.vals then (c.(misses := c.misses + 1), Null)
    else if IsStale(c, key, later) then (DropKey(c, key).(misses := c.misses + 1), Null)
    else (c.(cache := PyDict.MoveToEnd(c.cache, key), hits := c.hits + 1), c.cache.vals[key])
  }

  /** Appends a fresh key with its timestamp. */
  function Insert(s: TtlLru, key: string, value: Value, now: int): TtlLru
  {
    s.(cache := PyDict.Put(s.cache, key, value), timestamps := s.timestamps[key := now])
  }

  /**
   * `put(key, value)` at time `now`: the new state and the exception raised,
   * if any.  An existing key is overwritten in place; a new key first purges
   * stale entries and, at capacity, evicts the oldest key.  On an empty cache
   * with `max_size <= 0` there is no oldest key and `next(iter(...))` raises
   * StopIteration after the purge.
   */
  function TtlPut(s: TtlLru, key: string, value: Value, now: int): (TtlLru, Option<Exc>)
  {
    if key in s.cache.vals then
      (s.(cache := PyDict.Put(s.cache, key, value), timestamps := s.timestamps[key := now]), None)
    else
      var c := Cleanup(s, now);
      if |c.cache.keys| >= c.maxSize then
        if c.cache.keys == [] then (c, Some(StopIteration))
        else (Insert(DropKey(c, c.cache.keys[0]), key, value, now), None)
      else (Insert(c, key, value, now), None)
  }

  /** `clear()`: no entries, no timestamps, counters back to zero. */
  function TtlClear(s: TtlLru): TtlLru
  {
    s.(cache := PyDict.Empty(), timestamps := map[], hits := 0, misses := 0)
  }

  // ------------------------------------------------- LRU cache: lemmas

  lemma DropKeyWf(s: TtlLru, k: string)
    requires TtlWf(s)
    ensures TtlWf(DropKey(s, k))
    ensures |DropKey(s, k).cache.keys| == |s.cache.keys| - (if k in s.cache.vals then 1 else 0)
  {
    PyDict.RemoveWf(s.cache, k);
    PyDict.WithoutLength(s.cache.keys, k);
  }

  /**
   * Deleting a list of keys keeps the structure, removes exactly those keys,
   * keeps every other value and timestamp, and touches nothing else.
   */
  lemma {:induction false} DropAllSpec(s: TtlLru, ks: seq<string>)
    requires TtlWf(s)
    ensures var r := DropAll(s, ks);
      && TtlWf(r) && |r.cache.keys| <= |s.cache.keys|
      && (forall k :: k in r.cache.vals <==> k in s.cache.vals && k !in ks)
      && (forall k :: k in r.cache.vals ==> r.cache.vals[k] == s.cache.vals[k] && r.timestamps[k] == s.timestamps[k])
      && r.maxSize == s.maxSize && r.ttlSeconds == s.ttlSeconds && r.hits == s.hits && r.misses == s.misses
    decreases |ks|
  {
    if ks != [] {
      DropKeyWf(s, ks[0]);
      DropAllSpec(DropKey(s, ks[0]), ks[1..]);
      forall k ensures k in ks <==> k == ks[0] || k in ks[1..] {
        assert ks == [ks[0]] + ks[1..];
      }
    }
  }

  lemma DropAllStep(s: TtlLru, ks: seq<string>, i: nat)
    requires i < |ks|
    ensures DropAll(s, ks[i..]) == DropAll(DropKey(s, ks[i]), ks[i + 1..])
  {
    assert ks[i..][1..] == ks[i + 1..];
  }

  /** The purge removes exactly the stale entries and leaves the others as they were. */
  lemma CleanupSpec(s: TtlLru, now: int)
    requires TtlWf(s)
    ensures var r := Cleanup(s, now);
      && TtlWf(r) && |r.cache.keys| <= |s.cache.keys|
      && (forall k :: k in r.cache.vals <==> k in s.cache.vals && !IsStale(s, k, now))
      && (forall k :: k in r.cache.vals ==> r.cache.vals[k] == s.cache.vals[k] && r.timestamps[k] == s.timestamps[k])
      && r.maxSize == s.maxSize && r.ttlSeconds == s.ttlSeconds && r.hits == s.hits && r.misses == s.misses
  {
    var ks := StaleKeys(s, now);
    DropAllSpec(s, ks);
    forall k | k in s.cache.vals ensures k in ks <==> IsStale(s, k, now) {
      assert k in s.cache.keys;
    }
  }

  /**
   * `get` counts exactly one hit or one miss.  A live key is returned and
   * becomes the most recently used; an absent or expired key yields None and
   * is not cached afterwards.  Whatever was stale at `now` is gone.
   */
  lemma GetSpec(s: TtlLru, key: string, now: int, later: int)
    requires TtlWf(s) && Bounded(s)
    ensures var res := TtlGet(s, key, now, later); var r := res.0; var v := res.1;
      && TtlWf(r) && Bounded(r)
      && r.hits + r.misses == s.hits + s.misses + 1
      && (forall k :: k in r.cache.vals ==> k in s.cache.vals && !IsStale(s, k, now))
      && (if key in s.cache.vals && !IsStale(s, key, now) && !IsStale(s, key, later) then
            v == s.cache.vals[key] && r.hits == s.hits + 1
            && r.cache.keys != [] && r.cache.keys[|r.cache.keys| - 1] == key && r.cache.vals[key] == s.cache.vals[key]
          else
            v == Null && r.misses == s.misses + 1 && key !in r.cache.vals)
  {
    var c := Cleanup(s, now);
    CleanupSpec(s, now);
    var r := TtlGet(s, key, now, later).0;
    if key !in c.cache.vals {
      assert r == c.(misses := c.misses + 1);
    } else if IsStale(c, key, later) {
      DropKeyWf(c, key);
      assert r == DropKey(c, key).(misses := c.misses + 1);
    } else {
      PyDict.MoveToEndWf(c.cache, key);
      assert r == c.(cache := PyDict.MoveToEnd(c.cache, key), hits := c.hits + 1);
    }
  }

  /** `put` of a cached key replaces value and timestamp in place: same order, same size, same counters. */
  lemma PutExistingSpec(s: TtlLru, key: string, value: Value, now: int)
    requires TtlWf(s) && key in s.cache.vals
    ensures var res := TtlPut(s, key, value, now); var r := res.0;
      && res.1.None? && TtlWf(r)
      && r.cache.keys == s.cache.keys && r.cache.vals == s.cache.vals[key := value]
      && r.timestamps == s.timestamps[key := now]
      && r.hits == s.hits && r.misses == s.misses
  {
  }

  /**
   * `put` of a new key never lets the cache exceed `max_size`: when the purged
   * cache is full the oldest key is evicted first, and the new key becomes the
   * most recently used.  Without capacity (`max_size <= 0`) it raises.
   */
  lemma PutNewSpec(s: TtlLru, key: string, value: Value, now: int)
    requires TtlWf(s) && Bounded(s) && key !in s.cache.vals
    ensures var res := TtlPut(s, key, value, now); var r := res.0; var e := res.1;
      && TtlWf(r) && Bounded(r) && r.ttlSeconds == s.ttlSeconds && r.maxSize == s.maxSize
      && (e.Some? <==> s.maxSize <= 0) && (e.Some? ==> e.value == StopIteration)
      && (e.None? ==> r.cache.keys != [] && r.cache.keys[|r.cache.keys| - 1] == key && r.cache.vals[key] == value && r.timestamps[key] == now)
      && (e.None? ==> forall k :: k in r.cache.vals && k != key ==> k in s.cache.vals && !IsStale(s, k, now))
      && (var c := Cleanup(s, now);
          |c.cache.keys| >= s.maxSize >= 1 ==> c.cache.keys[0] !in r.cache.vals)
  {
    var c := Cleanup(s, now);
    CleanupSpec(s, now);
    var r := TtlPut(s, key, value, now).0;
    if |c.cache.keys| >= c.maxSize {
      if c.cache.keys != [] {
        var o := c.cache.keys[0];
        DropKeyWf(c, o);
        var d := DropKey(c, o);
        InsertSpec(d, key, value, now);
        assert r == Insert(d, key, value, now);
      }
    } else {
      InsertSpec(c, key, value, now);
      assert r == Insert(c, key, value, now);
    }
  }

  /** Inserting an absent key appends it with its value and timestamp. */
  lemma InsertSpec(c: TtlLru, key: string, value: Value, now: int)
    requires TtlWf(c) && key !in c.cache.vals
    ensures var r := Insert(c, key, value, now);
      && TtlWf(r) && r.cache.keys == c.cache.keys + [key]
      && r.cache.vals == c.cache.vals[key := value] && r.timestamps == c.timestamps[key := now]
  {
    PyDict.DistinctAppend(c.cache.keys, key);
  }

  /** A value just put is what `get` returns until its time-to-live has passed. */
  lemma PutThenGet(s: TtlLru, key: string, value: Value, now: int, t: int, later: int)
    requires TtlWf(s) && Bounded(s) && s.maxSize >= 1
    requires t - now <= s.ttlSeconds && later - now <= s.ttlSeconds
    ensures TtlPut(s, key, value, now).1.None?
    ensures TtlGet(TtlPut(s, key, value, now).0, key, t, later).1 == value
  {
    var r := TtlPut(s, key, value, now).0;
    if key in s.cache.vals {
      PutExistingSpec(s, key, value, now);
    } else {
      PutNewSpec(s, key, value, now);
    }
    assert key in r.cache.vals && Stamp(r, key) == now && r.ttlSeconds == s.ttlSeconds;
    assert TtlWf(r) && Bounded(r);
    GetSpec(r, key, t, later);
  }

  /** After `clear` every key misses, and the counters restart from that one miss. */
  lemma ClearSpec(s: TtlLru, key: string, now: int, later: int)
    ensures TtlWf(TtlClear(s)) && Bounded(TtlClear(s))
    ensures var res := TtlGet(TtlClear(s), key, now, later); var r := res.0;
      res.1 == Null && r.hits == 0 && r.misses == 1 && r.cache.keys == []
  {
  }

  // -------------------------------------------------- LRU cache: class

  /** `LRUCache`: the ordered cache, its timestamps and the counters, updated in place. */
  class LRUCache {
    const maxSize: int
    const ttlSeconds: int
    var cache: PyDict.Dict<string, Value>
    var timestamps: map<string, int>
    var hits: nat
    var misses: nat

    function Snapshot(): TtlLru
      reads this
    {
      TtlLru(maxSize, ttlSeconds, cache, timestamps, hits, misses)
    }

    ghost predicate Valid()
      reads this
    {
      TtlWf(Snapshot()) && Bounded(Snapshot())
    }

    constructor (maxSize: int, ttlSeconds: int)
      ensures Valid() && Snapshot() == NewTtlLru(maxSize, ttlSeconds)
    {
      this.maxSize := maxSize;
      this.ttlSeconds := ttlSeconds;
      cache := PyDict.Empty();
      timestamps := map[];
      hits := 0;
      misses := 0;
    }

    method CleanupExpired(now: int)
      requires Valid()
      modifies this
      ensures Valid() && Snapshot() == Cleanup(old(Snapshot()), now)
    {
      var expired := StaleKeys(Snapshot(), now);
      ghost var target := DropAll(Snapshot(), expired);
      var cur := Snapshot();
      CleanupSpec(cur, now);
      assert Bounded(target);
      for i := 0 to |expired|
        invariant TtlWf(cur)
        invariant DropAll(cur, expired[i..]) == target
        invariant cur.maxSize == maxSize && cur.ttlSeconds == ttlSeconds && cur.hits == hits && cur.misses == misses
      {
        var k := expired[i];
        DropKeyWf(cur, k);
        DropAllStep(cur, expired, i);
        cur := DropKey(cur, k);
      }
      assert expired[|expired|..] == [];
      assert cur == target;
      cache, timestamps := cur.cache, cur.timestamps;
    }

    method Get(key: string, now: int, later: int) returns (v: Value)
      requires Valid()
      modifies this
      ensures Valid() && (Snapshot(), v) == TtlGet(old(Snapshot()), key, now, later)
    {
      CleanupExpired(now);
      var c := Snapshot();
      var r: TtlLru;
      if key !in c.cache.vals {
        r, v := c.(misses := c.misses + 1), Null;
      } else if later - Stamp(c, key) > ttlSeconds {
        DropKeyWf(c, key);
        r, v := DropKey(c, key).(misses := c.misses + 1), Null;
      } else {
        PyDict.MoveToEndWf(c.cache, key);
        r, v := c.(cache := PyDict.MoveToEnd(c.cache, key), hits := c.hits + 1), c.cache.vals[key];
      }
      cache, timestamps, hits, misses := r.cache, r.timestamps, r.hits, r.misses;
    }

    /** `put`; `raised` is the exception the call ends with, if any. */
    method Put(key: string, value: Value, now: int) returns (raised: Option<Exc>)
      requires Valid()
      modifies this
      ensures Valid() && (Snapshot(), raised) == TtlPut(old(Snapshot()), key, value, now)
    {
      if key in cache.vals {
        PutExistingSpec(Snapshot(), key, value, now);
        cache, timestamps := PyDict.Put(cache, key, value), timestamps[key := now];
        return None;
      }
      PutNewSpec(Snapshot(), key, value, now);
      CleanupExpired(now);
      if |cache.keys| >= maxSize {
        if cache.keys == [] {
          return Some(StopIteration);
        }
        var oldest := cache.keys[0];
        cache, timestamps := PyDict.Remove(cache, oldest), timestamps - {oldest};
      }
      cache, timestamps := PyDict.Put(cache, key, value), timestamps[key := now];
      raised := None;
    }

    method Clear()
      modifies this
      ensures Valid() && Snapshot() == TtlClear(old(Snapshot()))
    {
      cache, timestamps, hits, misses := PyDict.Empty(), map[], 0, 0;
    }
  }

  // ======================================================== cache manager

  /** `CacheManager`: named caches created on first use with the configured size and TTL. */
  class CacheManager {
    const maxSize: int
    const ttlSeconds: int
    var caches: map<string, LRUCache>

    /** Every managed cache is valid and no two names share one cache. */
    ghost predicate Valid()
      reads this, caches.Values
    {
      && (forall n :: n in caches ==> caches[n].Valid())
      && (forall a, b :: a in caches && b in caches && a != b ==> caches[a] != caches[b])
    }

    constructor (maxSize: int, ttlSeconds: int)
      ensures Valid() && caches == map[]
      ensures this.maxSize == maxSize && this.ttlSeconds == ttlSeconds
    {
      this.maxSize := maxSize;
      this.ttlSeconds := ttlSeconds;
      caches := map[];
    }

    /** `get_cache(name)`: the cache registered under `name`, created empty on first use. */
    method GetCache(name: string) returns (c: LRUCache)
      requires Valid()
      modifies this
      ensures Valid()
      ensures name in old(caches) ==> c == old(caches)[name] && caches == old(caches)
      ensures name !in old(caches) ==>
        fresh(c) && caches == old(caches)[name := c] && c.Snapshot() == NewTtlLru(maxSize, ttlSeconds)
    {
      if name in caches {
        return caches[name];
      }
      c := new LRUCache(maxSize, ttlSeconds);
      caches := caches[name := c];
    }

    /** `clear_all()`: every managed cache is cleared. */
    method ClearAll()
      requires Valid()
      modifies caches.Values
      ensures Valid()
      ensures forall n :: n in caches ==> caches[n].Snapshot() == TtlClear(old(caches[n].Snapshot()))
    {
      var todo := caches.Keys;
      while todo != {}
        invariant todo <= caches.Keys
        invariant Valid()
        invariant forall n :: n in caches && n !in todo ==> caches[n].Snapshot() == TtlClear(old(caches[n].Snapshot()))
        invariant forall n :: n in todo ==> caches[n].Snapshot() == old(caches[n].Snapshot())
        decreases todo
      {
        var n :| n in todo;
        ClearOne(n);
        todo := todo - {n};
      }
    }

    /** One round of `clear_all`: the cache under `n` is cleared and every other managed cache is left alone. */
    method ClearOne(n: string)
      requires Valid() && n in caches
      modifies caches[n]
      ensures Valid()
      ensures caches[n].Snapshot() == TtlClear(old(caches[n].Snapshot()))
      ensures forall m :: m in caches && m != n ==> caches[m].Snapshot() == old(caches[m].Snapshot())
    {
      caches[n].Clear();
    }
  }

  // ====================================================== property index

  datatype IndexDefinition = IndexDefinition(name: string, propertyName: string, indexType: string,
                                             unique: bool, caseSensitive: bool)

  /** What one index key holds: a single id in a unique index, a list of ids otherwise. */
  datatype Slot = One(id: Value) | Many(ids: seq<Value>)

  /** The state of a `PropertyIndex`: its definition and the value -> ids dict. */
  datatype Ix = Ix(def: IndexDefinition, index: PyDict.Dict<Value, Slot>)

  /** Unique indices hold single ids; the others hold non-empty lists (emptied keys are dropped). */
  ghost predicate IxWf(x: Ix)
  {
    PyDict.Wf(x.index)
    && forall v :: v in x.index.vals ==>
      if x.def.unique then x.index.vals[v].One? else x.index.vals[v].Many? && x.index.vals[v].ids != []
  }

  /** The key a value is stored under: strings are lower-cased in a case-insensitive index. */
  function Norm(d: IndexDefinition, v: Value): Value
  {
    if v.Str? && !d.caseSensitive then Str(Lower(v.s)) else v
  }

  /** The ids a slot holds, as `find_range` lists them. */
  function SlotIds(s: Slot): seq<Value>
  {
    match s
    case One(id) => [id]
    case Many(ids) => ids
  }

  /** The id list stored under key `k` of a non-unique index. */
  function ListAt(x: Ix, k: Value): seq<Value>
  {
    if k in x.index.vals && x.index.vals[k].Many? then x.index.vals[k].ids else []
  }

  /** `list.remove(x)`: drops the first occurrence. */
  function RemoveFirst(s: seq<Value>, x: Value): (r: seq<Value>)
    requires x in s
    ensures multiset(r) == multiset(s) - multiset{x}
  {
    assert s == [s[0]] + s[1..];
    if s[0] == x then s[1..] else [s[0]] + RemoveFirst(s[1..], x)
  }

  /** `add(value, object_id)`: a duplicate value in a unique index raises ValueError. */
  function IxAdd(x: Ix, v: Value, id: Value): Result<Ix>
  {
    var k := Norm(x.def, v);
    if x.def.unique then
      if k in x.index.vals then Err(ValueError) else Ok(x.(index := PyDict.Put(x.index, k, One(id))))
    else
      Ok(x.(index := PyDict.Put(x.index, k, Many(ListAt(x, k) + [id]))))
  }

  /**
   * `remove(value, object_id)`: a unique index drops the value whatever the
   * id; a non-unique one drops the first occurrence of the id, and the key
   * once its list is empty; an absent value or id changes nothing.
   */
  function IxRemove(x: Ix, v: Value, id: Value): Ix
  {
    var k := Norm(x.def, v);
    if k !in x.index.vals then x
    else if x.def.unique then x.(index := PyDict.Remove(x.index, k))
    else
      var ids := ListAt(x, k);
      if id !in ids then x
      else
        var rest := RemoveFirst(ids, id);
        if rest == [] then x.(index := PyDict.Remove(x.index, k))
        else x.(index := PyDict.Put(x.index, k, Many(rest)))
  }

  /** `find(value)`: a unique index answers `[id]` only for a truthy id. */
  function IxFind(x: Ix, v: Value): seq<Value>
  {
    var k := Norm(x.def, v);
    if x.def.unique then
      if k in x.index.vals && x.index.vals[k].One? && Truthy(x.index.vals[k].id) then [x.index.vals[k].id] else []
    else ListAt(x, k)
  }

  /** The ids of the keys `ks` lying in `[lo, hi]`, in key order; a failed comparison raises. */
  function RangeOver(x: Ix, ks: seq<Value>, lo: Value, hi: Value): Result<seq<Value>>
  {
    if ks == [] then Ok([])
    else
      var k := ks[0];
      match PyLe(lo, k)
      case Err(e) => Err(e)
      case Ok(geLo) =>
        if !geLo then RangeOver(x, ks[1..], lo, hi)
        else match PyLe(k, hi)
          case Err(e) => Err(e)
          case Ok(leHi) =>
            match RangeOver(x, ks[1..], lo, hi)
            case Err(e) => Err(e)
            case Ok(rest) => Ok((if leHi && k in x.index.vals then SlotIds(x.index.vals[k]) else []) + rest)
  }

  /** `find_range(lo, hi)`: only a "btree" index answers; the bounds are not case-normalised. */
  function IxFindRange(x: Ix, lo: Value, hi: Value): Result<seq<Value>>
  {
    if x.def.indexType != "btree" then Ok([]) else RangeOver(x, x.index.keys, lo, hi)
  }

  /** `get_stats()["total_objects"]`: one per unique key, the list length otherwise. */
  function TotalOver(x: Ix, ks: seq<Value>): nat
  {
    if ks == [] then 0
    else (if ks[0] in x.index.vals then |SlotIds(x.index.vals[ks[0]])| else 0) + TotalOver(x, ks[1..])
  }

  function TotalObjects(x: Ix): nat
  {
    TotalOver(x, x.index.keys)
  }

  /** `_estimate_selectivity(index, value)`: the raw value is looked up, not its normalised key. */
  function Estimate(x: Ix, v: Value): int
  {
    var total := TotalObjects(x);
    if total == 0 then 0
    else if v in x.index.vals then (if total / 10 > 1 then total / 10 else 1)
    else 0
  }

  // ------------------------------------------------ property index: lemmas

  /** `lower()` is idempotent. */
  lemma {:induction false} LowerIdempotent(s: string)
    ensures Lower(Lower(s)) == Lower(s)
  {
    var l := Lower(s);
    assert Lower(l) == l by {
      forall i | 0 <= i < |l| ensures Lower(l)[i] == l[i] {
        assert l[i] == LowerChar(s[i]);
      }
    }
  }

  /** In a unique index a value already present is refused with ValueError and nothing changes. */
  lemma UniqueAddConflict(x: Ix, v: Value, id: Value)
    requires x.def.unique && Norm(x.def, v) in x.index.vals
    ensures IxAdd(x, v, id) == Err(ValueError)
  {
  }

  /**
   * A unique index stores a new value's id: `find` answers `[id]` for a truthy
   * id and `[]` for a falsy one, and every other value reads as before.
   */
  lemma UniqueAddThenFind(x: Ix, v: Value, id: Value, w: Value)
    requires IxWf(x) && x.def.unique && Norm(x.def, v) !in x.index.vals
    ensures IxAdd(x, v, id).Ok? && IxWf(IxAdd(x, v, id).value)
    ensures IxFind(IxAdd(x, v, id).value, v) == (if Truthy(id) then [id] else [])
    ensures Norm(x.def, w) != Norm(x.def, v) ==> IxFind(IxAdd(x, v, id).value, w) == IxFind(x, w)
  {
  }

  /** `remove` on a unique index drops the value whatever id is passed. */
  lemma UniqueRemoveAnyId(x: Ix, v: Value, id: Value)
    requires IxWf(x) && x.def.unique
    ensures IxWf(IxRemove(x, v, id))
    ensures Norm(x.def, v) !in IxRemove(x, v, id).index.vals
    ensures IxFind(IxRemove(x, v, id), v) == []
  {
    PyDict.RemoveWf(x.index, Norm(x.def, v));
  }

  /** A non-unique index appends the id to the value's list and leaves the other values alone. */
  lemma ManyAddAppends(x: Ix, v: Value, id: Value, w: Value)
    requires IxWf(x) && !x.def.unique
    ensures IxAdd(x, v, id).Ok? && IxWf(IxAdd(x, v, id).value)
    ensures IxFind(IxAdd(x, v, id).value, v) == IxFind(x, v) + [id]
    ensures Norm(x.def, w) != Norm(x.def, v) ==> IxFind(IxAdd(x, v, id).value, w) == IxFind(x, w)
  {
  }

  /**
   * A non-unique index removes one occurrence of the id (none when absent),
   * drops a key whose list empties, and leaves the other values alone.
   */
  lemma ManyRemoveOne(x: Ix, v: Value, id: Value, w: Value)
    requires IxWf(x) && !x.def.unique
    ensures IxWf(IxRemove(x, v, id))
    ensures multiset(IxFind(IxRemove(x, v, id), v)) == multiset(IxFind(x, v)) - multiset{id}
    ensures id !in IxFind(x, v) ==> IxRemove(x, v, id) == x
    ensures IxFind(IxRemove(x, v, id), v) == [] ==> Norm(x.def, v) !in IxRemove(x, v, id).index.vals
    ensures Norm(x.def, w) != Norm(x.def, v) ==> IxFind(IxRemove(x, v, id), w) == IxFind(x, w)
  {
    var k := Norm(x.def, v);
    var r := IxRemove(x, v, id);
    if k in x.index.vals && id in ListAt(x, k) {
      var rest := RemoveFirst(ListAt(x, k), id);
      if rest == [] {
        ManyRemoveKey(x, k);
        assert r == x.(index := PyDict.Remove(x.index, k));
      } else {
        ManyReplaceKey(x, k, rest);
        assert r == x.(index := PyDict.Put(x.index, k, Many(rest)));
      }
    } else {
      assert r == x;
    }
  }

  /** Dropping a key of a non-unique index leaves it well formed and the other keys alone. */
  lemma ManyRemoveKey(x: Ix, k: Value)
    requires IxWf(x) && !x.def.unique
    ensures var r := x.(index := PyDict.Remove(x.index, k));
      && IxWf(r) && k !in r.index.vals && ListAt(r, k) == []
      && forall j :: j != k ==> ListAt(r, j) == ListAt(x, j)
  {
    PyDict.RemoveWf(x.index, k);
  }

  /** Storing a non-empty list under a key of a non-unique index keeps it well formed. */
  lemma ManyReplaceKey(x: Ix, k: Value, ids: seq<Value>)
    requires IxWf(x) && !x.def.unique && k in x.index.vals && ids != []
    ensures var r := x.(index := PyDict.Put(x.index, k, Many(ids)));
      && IxWf(r) && ListAt(r, k) == ids
      && forall j :: j != k ==> ListAt(r, j) == ListAt(x, j)
  {
  }

  /** A case-insensitive index answers a string in any letter case alike. */
  lemma CaseInsensitiveFind(x: Ix, s: string, id: Value)
    requires IxWf(x) && !x.def.caseSensitive && !x.def.unique
    ensures IxFind(x, Str(s)) == IxFind(x, Str(Lower(s)))
    ensures IxAdd(x, Str(s), id).Ok? && id in IxFind(IxAdd(x, Str(s), id).value, Str(Lower(s)))
  {
    LowerIdempotent(s);
  }

  /**
   * `find_range` returns exactly the ids stored under values within
   * `[lo, hi]`, with the multiplicity they are stored with.
   */
  lemma {:induction false} RangeOverSpec(x: Ix, ks: seq<Value>, lo: Value, hi: Value)
    requires PyDict.Distinct(ks)
    ensures RangeOver(x, ks, lo, hi).Ok? ==>
      forall id :: id in RangeOver(x, ks, lo, hi).value <==>
        exists k :: k in ks && k in x.index.vals && PyLe(lo, k) == Ok(true) && PyLe(k, hi) == Ok(true)
                    && id in SlotIds(x.index.vals[k])
  {
    if ks != [] {
      var t := ks[1..];
      assert PyDict.Distinct(t) by {
        forall i, j | 0 <= i < j < |t| ensures t[i] != t[j] {
          assert t[i] == ks[i + 1] && t[j] == ks[j + 1];
        }
      }
      RangeOverSpec(x, t, lo, hi);
      assert forall k :: k in ks <==> k == ks[0] || k in t by {
        assert ks == [ks[0]] + t;
      }
    }
  }

  lemma FindRangeSpec(x: Ix, lo: Value, hi: Value)
    requires IxWf(x)
    ensures x.def.indexType != "btree" ==> IxFindRange(x, lo, hi) == Ok([])
    ensures x.def.indexType == "btree" && IxFindRange(x, lo, hi).Ok? ==>
      forall id :: id in IxFindRange(x, lo, hi).value <==>
        exists k :: k in x.index.vals && PyLe(lo, k) == Ok(true) && PyLe(k, hi) == Ok(true)
                    && id in SlotIds(x.index.vals[k])
  {
    if x.def.indexType == "btree" {
      RangeOverSpec(x, x.index.keys, lo, hi);
    }
  }

  lemma {:induction false} TotalOverZero(x: Ix, ks: seq<Value>)
    requires IxWf(x) && forall k :: k in ks ==> k in x.index.vals
    ensures TotalOver(x, ks) == 0 <==> ks == []
  {
    if ks != [] {
      assert ks[0] in ks;
      var sl := x.index.vals[ks[0]];
      assert |SlotIds(sl)| > 0;
    }
  }

  /**
   * The estimate is 0 exactly for an empty index or a value not stored as a
   * key, and otherwise lies between 1 and the number of stored ids.
   */
  lemma EstimateSpec(x: Ix, v: Value)
    requires IxWf(x)
    ensures Estimate(x, v) == 0 <==> x.index.keys == [] || v !in x.index.vals
    ensures Estimate(x, v) != 0 ==> 1 <= Estimate(x, v) <= TotalObjects(x)
  {
    TotalOverZero(x, x.index.keys);
  }

  // ------------------------------------------------- property index: class

  /** `PropertyIndex`: the definition and the value -> ids dict it updates in place. */
  class PropertyIndex {
    const definition: IndexDefinition
    var index: PyDict.Dict<Value, Slot>

    function Snapshot(): Ix
      reads this
    {
      Ix(definition, index)
    }

    ghost predicate Valid()
      reads this
    {
      IxWf(Snapshot())
    }

    constructor (d: IndexDefinition)
      ensures Valid() && Snapshot() == Ix(d, PyDict.Empty())
    {
      definition := d;
      index := PyDict.Empty();
    }

    /** `add`; `raised` is the ValueError of a unique conflict, in which case nothing changes. */
    method Add(v: Value, id: Value) returns (raised: Option<Exc>)
      requires Valid()
      modifies this
      ensures Valid()
      ensures IxAdd(old(Snapshot()), v, id).Ok? ==> raised.None? && Snapshot() == IxAdd(old(Snapshot()), v, id).value
      ensures IxAdd(old(Snapshot()), v, id).Err? ==> raised == Some(ValueError) && Snapshot() == old(Snapshot())
    {
      var k := Norm(definition, v);
      if definition.unique {
        if k in index.vals {
          return Some(ValueError);
        }
        index := PyDict.Put(index, k, One(id));
      } else {
        index := PyDict.Put(index, k, Many(ListAt(Snapshot(), k) + [id]));
      }
      raised := None;
    }

    method Remove(v: Value, id: Value)
      requires Valid()
      modifies this
      ensures Valid() && Snapshot() == IxRemove(old(Snapshot()), v, id)
    {
      var k := Norm(definition, v);
      if k !in index.vals {
        return;
      }
      if definition.unique {
        UniqueRemoveAnyId(Snapshot(), v, id);
        index := PyDict.Remove(index, k);
        return;
      }
      ManyRemoveOne(Snapshot(), v, id, v);
      var ids := index.vals[k].ids;
      if id in ids {
        var rest := RemoveFirst(ids, id);
        if rest == [] {
          index := PyDict.Remove(index, k);
        } else {
          index := PyDict.Put(index, k, Many(rest));
        }
      }
    }
  }

  // ======================================================= index manager

  /** `IndexManager`: index name -> index, in creation order. */
  class IndexManager {
    var indexes: PyDict.Dict<string, PropertyIndex>

    ghost function Objects(): set<PropertyIndex>
      reads this
    {
      indexes.vals.Values
    }

    /** Each index is valid and registered under its own definition's name. */
    ghost predicate Valid()
      reads this, Objects()
    {
      PyDict.Wf(indexes)
      && forall n :: n in indexes.vals ==> indexes.vals[n].Valid() && indexes.vals[n].definition.name == n
    }

    constructor ()
      ensures Valid() && indexes.keys == []
    {
      indexes := PyDict.Empty();
    }

    /** `create_index`: ValueError for a name already in use, else a fresh empty index. */
    method CreateIndex(d: IndexDefinition) returns (r: Result<PropertyIndex>)
      requires Valid()
      modifies this
      ensures Valid()
      ensures r.Err? <==> d.name in old(indexes.vals)
      ensures r.Err? ==> r.exc == ValueError && indexes == old(indexes)
      ensures r.Ok? ==>
        fresh(r.value) && r.value.Snapshot() == Ix(d, PyDict.Empty()) && indexes == PyDict.Put(old(indexes), d.name, r.value)
    {
      if d.name in indexes.vals {
        return Err(ValueError);
      }
      var ix := new PropertyIndex(d);
      indexes := PyDict.Put(indexes, d.name, ix);
      r := Ok(ix);
    }

    /** `drop_index`: True iff the name existed; afterwards it is absent. */
    method DropIndex(name: string) returns (dropped: bool)
      requires Valid()
      modifies this
      ensures Valid()
      ensures dropped == (name in old(indexes.vals)) && name !in indexes.vals
      ensures indexes == PyDict.Remove(old(indexes), name)
    {
      PyDict.RemoveWf(indexes, name);
      dropped := name in indexes.vals;
      indexes := PyDict.Remove(indexes, name);
    }

    /** The indices' states, in creation order. */
    function StatesOf(ks: seq<string>): (r: seq<(string, Ix)>)
      reads this, Objects()
      requires forall k :: k in ks ==> k in indexes.vals
      ensures |r| == |ks|
      ensures forall i :: 0 <= i < |ks| ==> r[i] == (ks[i], indexes.vals[ks[i]].Snapshot())
    {
      if ks == [] then [] else [(ks[0], indexes.vals[ks[0]].Snapshot())] + StatesOf(ks[1..])
    }

    function States(): seq<(string, Ix)>
      reads this, Objects()
      requires Valid()
    {
      StatesOf(indexes.keys)
    }
  }

  // ===================================================== query optimizer

  /** The estimate for one index, when the filters name its property. */
  function EstimateFor(e: (string, Ix), filters: map<string, Value>): Option<int>
  {
    if e.1.def.propertyName in filters then Some(Estimate(e.1, filters[e.1.def.propertyName])) else None
  }

  /** The running minimum of `optimize_filter_query` over the first `n` indices: the position chosen. */
  function BestFrom(st: seq<(string, Ix)>, filters: map<string, Value>, n: nat): (r: Option<nat>)
    requires n <= |st|
    ensures r.Some? ==> r.value < n && EstimateFor(st[r.value], filters).Some?
  {
    if n == 0 then None
    else
      var b := BestFrom(st, filters, n - 1);
      match EstimateFor(st[n - 1], filters)
      case None => b
      case Some(e) =>
        if b.None? || e < EstimateFor(st[b.value], filters).value then Some(n - 1) else b
  }

  lemma BestFromStep(st: seq<(string, Ix)>, filters: map<string, Value>, i: nat)
    requires i < |st|
    ensures var b := BestFrom(st, filters, i);
      BestFrom(st, filters, i + 1) ==
        if st[i].1.def.propertyName !in filters then b
        else if b.None? || Estimate(st[i].1, filters[st[i].1.def.propertyName]) < EstimateFor(st[b.value], filters).value then Some(i)
        else b
  {
  }

  /** `optimize_filter_query`: the chosen index name and its `find` of the filter value, or `(None, [])`. */
  function Optimize(st: seq<(string, Ix)>, filters: map<string, Value>): (Option<string>, seq<Value>)
  {
    match BestFrom(st, filters, |st|)
    case None => (None, [])
    case Some(i) => (Some(st[i].0), IxFind(st[i].1, filters[st[i].1.def.propertyName]))
  }

  /**
   * The chosen index has the smallest estimate among the indices on a
   * filtered property, and it is the first with that estimate; no index is
   * chosen exactly when no index is on a filtered property.
   */
  lemma {:induction false} BestFromSpec(st: seq<(string, Ix)>, filters: map<string, Value>, n: nat)
    requires n <= |st|
    ensures BestFrom(st, filters, n).None? <==> forall j :: 0 <= j < n ==> EstimateFor(st[j], filters).None?
    ensures BestFrom(st, filters, n).Some? ==>
      var i := BestFrom(st, filters, n).value;
      && (forall j :: 0 <= j < n && EstimateFor(st[j], filters).Some? ==>
            EstimateFor(st[i], filters).value <= EstimateFor(st[j], filters).value)
      && (forall j :: 0 <= j < i && EstimateFor(st[j], filters).Some? ==>
            EstimateFor(st[i], filters).value < EstimateFor(st[j], filters).value)
  {
    if n > 0 {
      BestFromSpec(st, filters, n - 1);
      var b := BestFrom(st, filters, n - 1);
      var e := EstimateFor(st[n - 1], filters);
      if e.Some? && (b.None? || e.value < EstimateFor(st[b.value], filters).value) {
        assert BestFrom(st, filters, n) == Some(n - 1);
        forall j | 0 <= j < n - 1 && EstimateFor(st[j], filters).Some?
          ensures e.value < EstimateFor(st[j], filters).value
        {
          assert b.Some?;
        }
      } else {
        assert BestFrom(st, filters, n) == b;
        if e.Some? {
          assert b.Some?;
        }
      }
    }
  }

  lemma OptimizeSpec(st: seq<(string, Ix)>, filters: map<string, Value>)
    ensures Optimize(st, filters).0.None? <==> forall j :: 0 <= j < |st| ==> st[j].1.def.propertyName !in filters
    ensures Optimize(st, filters).0.None? ==> Optimize(st, filters).1 == []
    ensures Optimize(st, filters).0.Some? ==>
      exists i :: 0 <= i < |st| && st[i].0 == Optimize(st, filters).0.value
        && st[i].1.def.propertyName in filters
        && Optimize(st, filters).1 == IxFind(st[i].1, filters[st[i].1.def.propertyName])
        && (forall j :: 0 <= j < |st| && st[j].1.def.propertyName in filters ==>
              Estimate(st[i].1, filters[st[i].1.def.propertyName]) <= Estimate(st[j].1, filters[st[j].1.def.propertyName]))
  {
    BestFromSpec(st, filters, |st|);
    if BestFrom(st, filters, |st|).Some? {
      var i := BestFrom(st, filters, |st|).value;
      assert st[i].0 == Optimize(st, filters).0.value;
    }
  }

  /** The loop of `optimize_filter_query`: keeps the first index with the strictly smallest estimate. */
  method RunningMinimum(st: seq<(string, Ix)>, filters: map<string, Value>) returns (best: Option<nat>)
    ensures best == BestFrom(st, filters, |st|)
  {
    best := None;
    var bestEst := 0;
    for i := 0 to |st|
      invariant best == BestFrom(st, filters, i)
      invariant best.Some? ==> bestEst == EstimateFor(st[best.value], filters).value
    {
      BestFromStep(st, filters, i);
      var x := st[i].1;
      if x.def.propertyName in filters {
        var est := Estimate(x, filters[x.def.propertyName]);
        if best.None? || est < bestEst {
          best, bestEst := Some(i), est;
        }
      }
    }
  }

  /** `QueryOptimizer.optimize_filter_query` over the manager's indices, in creation order. */
  method OptimizeFilterQuery(mgr: IndexManager, objectType: string, filters: map<string, Value>)
    returns (name: Option<string>, ids: seq<Value>)
    requires mgr.Valid()
    ensures (name, ids) == Optimize(mgr.States(), filters)
  {
    var st := mgr.States();
    var best := RunningMinimum(st, filters);
    if best.None? {
      name, ids := None, [];
    } else {
      var chosen := st[best.value];
      name, ids := Some(chosen.0), IxFind(chosen.1, filters[chosen.1.def.propertyName]);
    }
    assert st == mgr.States();
  }
}
