/**
 * The optimised object instance and object set of
 * `src/ontology_framework/optimized_core.py`: the derived-property cache
 * of an instance (300 seconds), the in-memory `filter` path with its
 * result cache (120 seconds, at most 101 entries), the traditional
 * `search_around` link scan with its extra filters, and `aggregate`,
 * `count` and `first`.
 */
module OptimizedCore {
  import opened Wrappers
  import opened Values
  import opened Schema
  import PyDict
  import Seqs
  import DataSources
  import ObjectSets

  // ---------------------------------------------------------------------
  // OptimizedObjectInstance: stored properties before derived ones
  // ---------------------------------------------------------------------

  /** How long a computed derived value may be served from the cache, in seconds. */
  const DerivedTtl := 300

  /** The state of an `OptimizedObjectInstance` that `get` reads and writes. */
  datatype Inst = Inst(
    props: map<string, Value>,
    cached: map<string, Value>,
    stamps: map<string, int>,
    hasOntology: bool,
    lazyLoaded: bool,
    lastAccessed: int)

  /** The derived-value cache and its timestamps always have the same keys. */
  ghost predicate InstWf(i: Inst)
  {
    i.cached.Keys == i.stamps.Keys
  }

  /**
   * What `_compute_derived_property` does for a name: nothing to compute
   * (no such derived property, no object argument), an exception from the
   * backing function lookup or run, or a computed value.
   */
  datatype Derivation = NotDerived | Raised(exc: Exc) | Computed(v: Value)

  /**
   * `get(name)` at time `now`: a stored property; else a cached derived
   * value younger than 300 seconds; else the stale entry is dropped and,
   * with an ontology and not lazily loaded, the derived value is computed
   * and cached; else None.
   */
  function InstGet(i: Inst, name: string, now: int, d: Derivation): (Inst, Result<Value>)
    requires InstWf(i)
  {
    var i0 := i.(lastAccessed := now);
    if name in i.props then (i0, Ok(i.props[name]))
    else if name in i.cached && now - i.stamps[name] < DerivedTtl then (i0, Ok(i.cached[name]))
    else
      var i1 := if name in i.cached then i0.(cached := i.cached - {name}, stamps := i.stamps - {name}) else i0;
      if i.hasOntology && !i.lazyLoaded then
        match d
        case NotDerived => (i1, Ok(Null))
        case Raised(e) => (i1, Err(e))
        case Computed(v) => (i1.(cached := i1.cached[name := v], stamps := i1.stamps[name := now]), Ok(v))
      else (i1, Ok(Null))
  }

  /**
   * `invalidate_cache(name)`: a non-empty name drops that entry only;
   * no name (or the empty, falsy name) clears the whole cache.
   */
  function Invalidate(i: Inst, name: Option<string>): Inst
  {
    if name.Some? && name.value != "" then i.(cached := i.cached - {name.value}, stamps := i.stamps - {name.value})
    else i.(cached := map[], stamps := map[])
  }

  /** A stored property wins: nothing is derived and the cache is untouched. */
  lemma GetStoredFirst(i: Inst, name: string, now: int, d: Derivation)
    requires InstWf(i) && name in i.props
    ensures var res := InstGet(i, name, now, d);
      && res.1 == Ok(i.props[name]) && res.0.cached == i.cached && res.0.stamps == i.stamps
      && res.0.lastAccessed == now
  {
  }

  /** A cached derived value younger than 300 seconds is served as is. */
  lemma GetFreshCached(i: Inst, name: string, now: int, d: Derivation)
    requires InstWf(i) && name !in i.props && name in i.cached && now - i.stamps[name] < DerivedTtl
    ensures var res := InstGet(i, name, now, d);
      && res.1 == Ok(i.cached[name]) && res.0.cached == i.cached && res.0.stamps == i.stamps
  {
  }

  /**
   * Otherwise the old entry is never served: the answer is the fresh
   * derivation (None without an ontology or when lazily loaded, or when
   * there is nothing to derive), only a computed value is cached, stamped
   * `now`, and every other cache entry is kept.
   */
  lemma GetRecomputes(i: Inst, name: string, now: int, d: Derivation)
    requires InstWf(i) && name !in i.props
    requires !(name in i.cached && now - i.stamps[name] < DerivedTtl)
    ensures var res := InstGet(i, name, now, d); var j := res.0;
      && InstWf(j)
      && (forall k :: k != name ==> (k in j.cached <==> k in i.cached))
      && (forall k :: k != name && k in i.cached ==> j.cached[k] == i.cached[k] && j.stamps[k] == i.stamps[k])
      && (if i.hasOntology && !i.lazyLoaded && d.Computed? then
            res.1 == Ok(d.v) && name in j.cached && j.cached[name] == d.v && j.stamps[name] == now
          else
            name !in j.cached && res.1 == (if i.hasOntology && !i.lazyLoaded && d.Raised? then Err(d.exc) else Ok(Null)))
  {
  }

  /** `get` keeps the cache and its timestamps in step. */
  lemma GetWf(i: Inst, name: string, now: int, d: Derivation)
    requires InstWf(i)
    ensures InstWf(InstGet(i, name, now, d).0)
    ensures InstGet(i, name, now, d).0.props == i.props
  {
  }

  /** Invalidating one name drops just that entry; no name clears everything. */
  lemma InvalidateSpec(i: Inst, name: Option<string>)
    requires InstWf(i)
    ensures InstWf(Invalidate(i, name)) && Invalidate(i, name).props == i.props
    ensures name.Some? && name.value != "" ==>
      forall k :: k in Invalidate(i, name).cached <==> k in i.cached && k != name.value
    ensures name.Some? && name.value != "" ==>
      forall k :: k in Invalidate(i, name).cached ==> Invalidate(i, name).cached[k] == i.cached[k]
    ensures name.None? || name.value == "" ==> Invalidate(i, name).cached == map[]
  {
  }

  /** After `invalidate_cache(name)` the next `get(name)` derives the value afresh. */
  lemma InvalidateThenGet(i: Inst, name: string, now: int, d: Derivation)
    requires InstWf(i) && name !in i.props && name != ""
    ensures var j := Invalidate(i, Some(name));
      InstWf(j) && InstGet(j, name, now, d).1 ==
        if !i.hasOntology || i.lazyLoaded then Ok(Null)
        else match d
          case NotDerived => Ok(Null)
          case Raised(e) => Err(e)
          case Computed(v) => Ok(v)
  {
    var j := Invalidate(i, Some(name));
    assert name !in j.cached;
  }

  /** An `OptimizedObjectInstance`: its properties and its derived-value cache. */
  class OptimizedObjectInstance {
    const typeName: string
    const pk: Value
    var props: map<string, Value>
    var cached: map<string, Value>
    var stamps: map<string, int>
    const hasOntology: bool
    const lazyLoaded: bool
    var lastAccessed: int

    function Snapshot(): Inst
      reads this
    {
      Inst(props, cached, stamps, hasOntology, lazyLoaded, lastAccessed)
    }

    ghost predicate Valid()
      reads this
    {
      InstWf(Snapshot())
    }

    constructor(typeName: string, pk: Value, props: map<string, Value>, hasOntology: bool, lazyLoaded: bool, now: int)
      ensures Valid()
      ensures Snapshot() == Inst(props, map[], map[], hasOntology, lazyLoaded, now)
      ensures this.typeName == typeName && this.pk == pk
    {
      this.typeName := typeName;
      this.pk := pk;
      this.props := props;
      this.cached := map[];
      this.stamps := map[];
      this.hasOntology := hasOntology;
      this.lazyLoaded := lazyLoaded;
      this.lastAccessed := now;
    }

    /** `get(name)`, with the derivation's outcome supplied by the caller. */
    method Get(name: string, now: int, d: Derivation) returns (r: Result<Value>)
      requires Valid()
      modifies this
      ensures Valid()
      ensures (Snapshot(), r) == InstGet(old(Snapshot()), name, now, d)
    {
      GetWf(Snapshot(), name, now, d);
      lastAccessed := now;
      if name in props {
        return Ok(props[name]);
      }
      if name in cached {
        if now - stamps[name] < DerivedTtl {
          return Ok(cached[name]);
        }
        cached, stamps := cached - {name}, stamps - {name};
      }
      if hasOntology && !lazyLoaded {
        match d
        case NotDerived => r := Ok(Null);
        case Raised(e) => r := Err(e);
        case Computed(v) =>
          cached, stamps := cached[name := v], stamps[name := now];
          r := Ok(v);
      } else {
        r := Ok(Null);
      }
    }

    /** `invalidate_cache(name)`. */
    method InvalidateCache(name: Option<string>)
      requires Valid()
      modifies this
      ensures Valid()
      ensures Snapshot() == Invalidate(old(Snapshot()), name)
    {
      if name.Some? && name.value != "" {
        cached, stamps := cached - {name.value}, stamps - {name.value};
      } else {
        cached, stamps := map[], map[];
      }
    }
  }

  // ---------------------------------------------------------------------
  // The result cache of an OptimizedObjectSet
  // ---------------------------------------------------------------------

  /** How long a cached query result is served, in seconds. */
  const ResultTtl := 120

  /** With more entries than this, the oldest is evicted before a new one is stored. */
  const ResultCapacity := 100

  /** A cached result list and the time it was stored. */
  datatype CachedResult = CachedResult(objects: seq<ObjectInstance>, stamp: int)

  /**
   * `min(keys, key=timestamp)`: the position of the first key whose
   * timestamp is smallest.
   */
  function OldestIndex<K>(ks: seq<K>, c: map<K, CachedResult>): (i: nat)
    requires ks != [] && forall k :: k in ks ==> k in c
    ensures i < |ks|
    ensures forall j :: 0 <= j < |ks| ==> c[ks[i]].stamp <= c[ks[j]].stamp
    ensures forall j :: 0 <= j < i ==> c[ks[i]].stamp < c[ks[j]].stamp
  {
    if |ks| == 1 then 0
    else
      var t := OldestIndex(ks[1..], c);
      if c[ks[t + 1]].stamp < c[ks[0]].stamp then t + 1 else 0
  }

  /**
   * `_get_cached_result(key)`: the cached list if younger than 120
   * seconds; a stale entry is deleted.
   */
  function Lookup<K(==, !new)>(c: PyDict.Dict<K, CachedResult>, key: K, now: int): (PyDict.Dict<K, CachedResult>, Option<seq<ObjectInstance>>)
  {
    if key !in c.vals then (c, None)
    else if now - c.vals[key].stamp < ResultTtl then (c, Some(c.vals[key].objects))
    else (PyDict.Remove(c, key), None)
  }

  /**
   * `_cache_result(key, result)`: with more than 100 entries the oldest
   * one goes first; then the result is stored, stamped `now`.
   */
  function Store<K(==, !new)>(c: PyDict.Dict<K, CachedResult>, key: K, res: seq<ObjectInstance>, now: int): PyDict.Dict<K, CachedResult>
    requires PyDict.Wf(c)
  {
    var c1 := if |c.keys| > ResultCapacity then PyDict.Remove(c, c.keys[OldestIndex(c.keys, c.vals)]) else c;
    PyDict.Put(c1, key, CachedResult(res, now))
  }

  /** A lookup answers exactly for a present entry younger than 120 seconds and deletes a stale one. */
  lemma LookupSpec<K(!new)>(c: PyDict.Dict<K, CachedResult>, key: K, now: int)
    requires PyDict.Wf(c)
    ensures var res := Lookup(c, key, now);
      && PyDict.Wf(res.0)
      && (res.1.Some? <==> key in c.vals && now - c.vals[key].stamp < ResultTtl)
      && (res.1.Some? ==> res.1.value == c.vals[key].objects && res.0 == c)
      && (res.1.None? ==> key !in res.0.vals && res.0.vals == c.vals - {key})
  {
    PyDict.RemoveWf(c, key);
  }

  /**
   * Storing keeps the cache at no more than 101 entries, records the
   * result under its key stamped `now`, and keeps every other entry
   * except, when more than 100 were cached, the oldest.
   */
  lemma StoreSpec<K(!new)>(c: PyDict.Dict<K, CachedResult>, key: K, res: seq<ObjectInstance>, now: int)
    requires PyDict.Wf(c) && |c.keys| <= ResultCapacity + 1
    ensures var r := Store(c, key, res, now);
      && PyDict.Wf(r) && |r.keys| <= ResultCapacity + 1
      && key in r.vals && r.vals[key] == CachedResult(res, now)
      && (|c.keys| <= ResultCapacity ==> forall k :: k in c.vals && k != key ==> k in r.vals && r.vals[k] == c.vals[k])
  {
    if |c.keys| > ResultCapacity {
      var o := c.keys[OldestIndex(c.keys, c.vals)];
      PyDict.RemoveWf(c, o);
      PyDict.WithoutLength(c.keys, o);
    }
  }

  /** When full, the entry evicted is one with the oldest timestamp, and nothing else is lost. */
  lemma StoreEvictsOldest<K(!new)>(c: PyDict.Dict<K, CachedResult>, key: K, res: seq<ObjectInstance>, now: int)
    requires PyDict.Wf(c) && |c.keys| > ResultCapacity
    ensures exists o :: (o in c.vals && (forall k :: k in c.vals ==> c.vals[o].stamp <= c.vals[k].stamp)
                         && (forall k :: k in c.vals && k != o ==> k in Store(c, key, res, now).vals)
                         && (o != key ==> o !in Store(c, key, res, now).vals))
  {
    var i := OldestIndex(c.keys, c.vals);
    var o := c.keys[i];
    forall k | k in c.vals ensures c.vals[o].stamp <= c.vals[k].stamp {
      var j :| 0 <= j < |c.keys| && c.keys[j] == k;
    }
  }

  /** A result just stored is served for the next 120 seconds. */
  lemma StoreThenLookup<K(!new)>(c: PyDict.Dict<K, CachedResult>, key: K, res: seq<ObjectInstance>, now: int, later: int)
    requires PyDict.Wf(c) && |c.keys| <= ResultCapacity + 1 && later - now < ResultTtl
    ensures Lookup(Store(c, key, res, now), key, later).1 == Some(res)
  {
    StoreSpec(c, key, res, now);
  }

  // ---------------------------------------------------------------------
  // filter: the in-memory path and its cache
  // ---------------------------------------------------------------------

  /** The members whose `get(prop)` equals `value`, in member order. */
  function Matching(objs: seq<ObjectInstance>, prop: string, value: Value, derive: (ObjectInstance, string) -> Value): (r: seq<ObjectInstance>)
    ensures forall o :: o in r <==> o in objs && GetProp(o, prop, derive) == value
  {
    var r := Seqs.Filter(objs, (o: ObjectInstance) => GetProp(o, prop, derive) == value);
    assert forall o :: o in r ==> o in objs && GetProp(o, prop, derive) == value by {
      forall o | o in r ensures o in objs && GetProp(o, prop, derive) == value {
        var i :| 0 <= i < |r| && r[i] == o;
      }
    }
    assert forall o :: o in objs && GetProp(o, prop, derive) == value ==> o in r by {
      forall o | o in objs && GetProp(o, prop, derive) == value ensures o in r {
        var i :| 0 <= i < |objs| && objs[i] == o;
      }
    }
    r
  }

  /** The cache key of a `filter` call, as the source builds it: `filter_<prop>_<str(value)>`. */
  function FilterKey(prop: string, value: Value): string
  {
    "filter_" + prop + "_" + Show(value)
  }

  /**
   * `filter(prop, value)` on the in-memory path as written: a fresh
   * cached list under the string key, else the matching members, which are
   * cached.
   */
  function FilterAsWritten(c: PyDict.Dict<string, CachedResult>, objs: seq<ObjectInstance>, prop: string, value: Value,
                           now: int, derive: (ObjectInstance, string) -> Value): (PyDict.Dict<string, CachedResult>, seq<ObjectInstance>)
    requires PyDict.Wf(c)
  {
    var looked := Lookup(c, FilterKey(prop, value), now);
    if looked.1.Some? then (looked.0, looked.1.value)
    else
      LookupSpec(c, FilterKey(prop, value), now);
      var m := Matching(objs, prop, value, derive);
      (Store(looked.0, FilterKey(prop, value), m, now), m)
  }

  /**
   * Two different filters share a key: `filter("x", 1)` followed within
   * 120 seconds by `filter("x", "1")` answers with the object whose `x`
   * is the integer 1, although no member's `x` equals the string "1".
   */
  lemma FilterKeyCollision()
    ensures var o := ObjectInstance("T", Int(1), map["x" := Int(1)]);
      var derive := (p: ObjectInstance, n: string) => Null;
      var first := FilterAsWritten(PyDict.Empty(), [o], "x", Int(1), 0, derive);
      PyDict.Wf(first.0)
      && FilterAsWritten(first.0, [o], "x", Str("1"), 1, derive).1 == [o]
      && Matching([o], "x", Str("1"), derive) == []
  {
    var o := ObjectInstance("T", Int(1), map["x" := Int(1)]);
    var derive := (p: ObjectInstance, n: string) => Null;
    var e: PyDict.Dict<string, CachedResult> := PyDict.Empty();
    assert Show(Int(1)) == "1";
    assert FilterKey("x", Int(1)) == FilterKey("x", Str("1"));
    assert Matching([o], "x", Int(1), derive) == [o] by {
      assert o in Matching([o], "x", Int(1), derive);
    }
    StoreSpec(e, FilterKey("x", Int(1)), [o], 0);
  }

  /** The key the result cache uses: the property and the value themselves. */
  datatype QueryKey = FilterOn(prop: string, value: Value)

  /** Every cached result is what its filter computes over the members. */
  ghost predicate CacheSound(c: PyDict.Dict<QueryKey, CachedResult>, objs: seq<ObjectInstance>, derive: (ObjectInstance, string) -> Value)
  {
    forall k :: k in c.vals ==> c.vals[k].objects == Matching(objs, k.prop, k.value, derive)
  }

  /** `filter(prop, value)` on the in-memory path, its cache keyed by the property and the value. */
  function FilterCached(c: PyDict.Dict<QueryKey, CachedResult>, objs: seq<ObjectInstance>, prop: string, value: Value,
                        now: int, derive: (ObjectInstance, string) -> Value): (PyDict.Dict<QueryKey, CachedResult>, seq<ObjectInstance>)
    requires PyDict.Wf(c)
  {
    var looked := Lookup(c, FilterOn(prop, value), now);
    if looked.1.Some? then (looked.0, looked.1.value)
    else
      LookupSpec(c, FilterOn(prop, value), now);
      var m := Matching(objs, prop, value, derive);
      (Store(looked.0, FilterOn(prop, value), m, now), m)
  }

  /**
   * With the cache keyed by property and value, `filter` returns exactly
   * the members whose `get(prop)` equals `value`, whether or not it was
   * cached, caches the answer under its own key, and keeps the cache sound
   * and within 101 entries.
   */
  lemma FilterCachedSpec(c: PyDict.Dict<QueryKey, CachedResult>, objs: seq<ObjectInstance>, prop: string, value: Value,
                         now: int, derive: (ObjectInstance, string) -> Value)
    requires PyDict.Wf(c) && |c.keys| <= ResultCapacity + 1 && CacheSound(c, objs, derive)
    ensures var res := FilterCached(c, objs, prop, value, now, derive);
      && res.1 == Matching(objs, prop, value, derive)
      && PyDict.Wf(res.0) && |res.0.keys| <= ResultCapacity + 1 && CacheSound(res.0, objs, derive)
      && FilterOn(prop, value) in res.0.vals
  {
    var key := FilterOn(prop, value);
    LookupSpec(c, key, now);
    var looked := Lookup(c, key, now);
    if looked.1.None? {
      if key in c.vals {
        PyDict.WithoutLength(c.keys, key);
      }
      var m := Matching(objs, prop, value, derive);
      StoreSpec(looked.0, key, m, now);
      var r := Store(looked.0, key, m, now);
      assert r.vals.Keys <= looked.0.vals.Keys + {key} by {
        if |looked.0.keys| > ResultCapacity {
          var o := looked.0.keys[OldestIndex(looked.0.keys, looked.0.vals)];
          assert r.vals == (looked.0.vals - {o})[key := CachedResult(m, now)];
        }
      }
      forall k | k in r.vals ensures r.vals[k].objects == Matching(objs, k.prop, k.value, derive) {
        if k != key {
          assert r.vals[k] == looked.0.vals[k] by {
            if |looked.0.keys| > ResultCapacity {
              var o := looked.0.keys[OldestIndex(looked.0.keys, looked.0.vals)];
              assert r.vals == (looked.0.vals - {o})[key := CachedResult(m, now)];
            }
          }
        }
      }
    }
  }

  /** The values `aggregate` folds: `get(prop)` of each member, Nones skipped. */
  function GotValues(objs: seq<ObjectInstance>, prop: string, derive: (ObjectInstance, string) -> Value): (r: seq<Value>)
    ensures Null !in r
    ensures forall v :: v in r <==> exists o :: o in objs && GetProp(o, prop, derive) == v && v != Null
  {
    var all := Seqs.Map(objs, (o: ObjectInstance) => GetProp(o, prop, derive));
    var r := Seqs.Filter(all, (v: Value) => v != Null);
    assert forall v :: v in r ==> exists o :: o in objs && GetProp(o, prop, derive) == v && v != Null by {
      forall v | v in r ensures exists o :: o in objs && GetProp(o, prop, derive) == v && v != Null {
        var i :| 0 <= i < |r| && r[i] == v;
        var j :| 0 <= j < |all| && all[j] == v;
        assert objs[j] in objs;
      }
    }
    assert forall v :: (exists o :: o in objs && GetProp(o, prop, derive) == v && v != Null) ==> v in r by {
      forall v | exists o :: o in objs && GetProp(o, prop, derive) == v && v != Null ensures v in r {
        var o :| o in objs && GetProp(o, prop, derive) == v && v != Null;
        var j :| 0 <= j < |objs| && objs[j] == o;
        assert all[j] == v;
      }
    }
    r
  }

  // ---------------------------------------------------------------------
  // search_around without an index manager
  // ---------------------------------------------------------------------

  /** The keys one link contributes to the traditional scan. */
  function LinkStep(l: Link, ltName: string, current: set<Value>, dir: ObjectSets.Direction): set<Value>
  {
    if l.linkType != ltName then {}
    else if dir.Forward? && l.source in current then {l.target}
    else if dir.Reverse? && l.target in current then {l.source}
    else {}
  }

  /** The keys the traditional scan collects from `links`. */
  function Related(links: seq<Link>, ltName: string, current: set<Value>, dir: ObjectSets.Direction): set<Value>
  {
    if links == [] then {}
    else Related(links[..|links| - 1], ltName, current, dir) + LinkStep(links[|links| - 1], ltName, current, dir)
  }

  /**
   * `_traditional_search_around`: forward, the target keys of the links of
   * that type whose source is current; reverse, the source keys of those
   * whose target is current.
   */
  lemma {:induction false} RelatedSpec(links: seq<Link>, ltName: string, current: set<Value>, dir: ObjectSets.Direction, v: Value)
    ensures v in Related(links, ltName, current, dir) <==>
      exists l :: l in links && l.linkType == ltName &&
        (if dir.Forward? then l.source in current && l.target == v else l.target in current && l.source == v)
    decreases |links|
  {
    if links != [] {
      var init := links[..|links| - 1];
      var last := links[|links| - 1];
      RelatedSpec(init, ltName, current, dir, v);
      assert links == init + [last];
      assert forall l :: l in links <==> l in init || l == last;
    }
  }

  /** The link scan of `_traditional_search_around`, one link at a time. */
  method TraditionalSearchAround(links: seq<Link>, ltName: string, current: set<Value>, dir: ObjectSets.Direction)
    returns (related: set<Value>)
    ensures related == Related(links, ltName, current, dir)
  {
    related := {};
    var i := 0;
    while i < |links|
      invariant 0 <= i <= |links|
      invariant related == Related(links[..i], ltName, current, dir)
    {
      var l := links[i];
      assert links[..i + 1][..i] == links[..i];
      if l.linkType == ltName {
        if dir.Forward? && l.source in current {
          related := related + {l.target};
        } else if dir.Reverse? && l.target in current {
          related := related + {l.source};
        }
      }
      i := i + 1;
    }
    assert links[..i] == links;
  }

  /** One target against the extra filters, checked in order up to the first mismatch. */
  method MatchesInOrder(o: ObjectInstance, filters: PyDict.Dict<string, Value>, derive: (ObjectInstance, string) -> Value)
    returns (allMatch: bool)
    requires PyDict.Wf(filters)
    ensures allMatch == ObjectSets.MatchesFilters(o, filters.vals, derive)
  {
    allMatch := true;
    var j := 0;
    while j < |filters.keys|
      invariant 0 <= j <= |filters.keys|
      invariant allMatch <==> forall m :: 0 <= m < j ==> GetProp(o, filters.keys[m], derive) == filters.vals[filters.keys[m]]
    {
      var k := filters.keys[j];
      if GetProp(o, k, derive) != filters.vals[k] {
        allMatch := false;
        break;
      }
      j := j + 1;
    }
    if allMatch {
      forall k | k in filters.vals ensures GetProp(o, k, derive) == filters.vals[k] {
        var m :| 0 <= m < |filters.keys| && filters.keys[m] == k;
      }
    }
  }

  /**
   * The extra filters of `search_around`: a target is kept when every
   * filter equals its `get(prop)`, checking the filters in order and
   * stopping at the first mismatch.
   */
  method ApplyExtraFilters(targets: seq<ObjectInstance>, filters: PyDict.Dict<string, Value>, derive: (ObjectInstance, string) -> Value)
    returns (kept: seq<ObjectInstance>)
    requires PyDict.Wf(filters)
    ensures kept == Seqs.Filter(targets, (o: ObjectInstance) => ObjectSets.MatchesFilters(o, filters.vals, derive))
  {
    var p := (o: ObjectInstance) => ObjectSets.MatchesFilters(o, filters.vals, derive);
    kept := [];
    var i := 0;
    while i < |targets|
      invariant 0 <= i <= |targets|
      invariant kept == Seqs.Filter(targets[..i], p)
    {
      var o := targets[i];
      var allMatch := MatchesInOrder(o, filters, derive);
      Seqs.TakeNext(targets, i);
      Seqs.FilterSnoc(targets[..i], o, p);
      if allMatch {
        kept := kept + [o];
      }
      i := i + 1;
    }
    assert targets[..i] == targets;
  }

  /** Every target the extra filters keep matches all of them, and every matching target is kept. */
  lemma ExtraFiltersAreConjunction(targets: seq<ObjectInstance>, filters: PyDict.Dict<string, Value>,
                                   derive: (ObjectInstance, string) -> Value, o: ObjectInstance)
    ensures o in Seqs.Filter(targets, (x: ObjectInstance) => ObjectSets.MatchesFilters(x, filters.vals, derive)) <==>
      o in targets && forall k :: k in filters.vals ==> GetProp(o, k, derive) == filters.vals[k]
  {
    var p := (x: ObjectInstance) => ObjectSets.MatchesFilters(x, filters.vals, derive);
    var r := Seqs.Filter(targets, p);
    if o in r {
      var i :| 0 <= i < |r| && r[i] == o;
    }
    if o in targets && p(o) {
      var i :| 0 <= i < |targets| && targets[i] == o;
    }
  }

  // ---------------------------------------------------------------------
  // OptimizedObjectSet
  // ---------------------------------------------------------------------

  /** An `OptimizedObjectSet`: its type, its members and its result cache. */
  class OptimizedObjectSet {
    const objectType: string
    const objects: seq<ObjectInstance>
    var results: PyDict.Dict<QueryKey, CachedResult>

    ghost predicate Valid(derive: (ObjectInstance, string) -> Value)
      reads this
    {
      PyDict.Wf(results) && |results.keys| <= ResultCapacity + 1 && CacheSound(results, objects, derive)
    }

    constructor(objectType: string, objects: seq<ObjectInstance>)
      ensures this.objectType == objectType && this.objects == objects && results == PyDict.Empty()
      ensures forall derive :: Valid(derive)
    {
      this.objectType := objectType;
      this.objects := objects;
      this.results := PyDict.Empty();
    }

    /** `_get_cached_result(key)`. */
    method GetCachedResult(key: QueryKey, now: int) returns (r: Option<seq<ObjectInstance>>)
      requires PyDict.Wf(results)
      modifies this
      ensures (results, r) == Lookup(old(results), key, now)
    {
      if key in results.vals {
        if now - results.vals[key].stamp < ResultTtl {
          return Some(results.vals[key].objects);
        }
        results := PyDict.Remove(results, key);
      }
      r := None;
    }

    /** `_cache_result(key, result)`. */
    method CacheResult(key: QueryKey, res: seq<ObjectInstance>, now: int)
      requires PyDict.Wf(results)
      modifies this
      ensures results == Store(old(results), key, res, now)
    {
      if |results.keys| > ResultCapacity {
        var oldest := results.keys[OldestIndex(results.keys, results.vals)];
        results := PyDict.Remove(results, oldest);
      }
      results := PyDict.Put(results, key, CachedResult(res, now));
    }

    /** `filter(prop, value)` on the in-memory path: a new set of the matching members. */
    method Filter(prop: string, value: Value, now: int, derive: (ObjectInstance, string) -> Value) returns (r: OptimizedObjectSet)
      requires Valid(derive)
      modifies this
      ensures Valid(derive) && fresh(r)
      ensures r.objectType == objectType && r.objects == Matching(objects, prop, value, derive)
      ensures results == FilterCached(old(results), objects, prop, value, now, derive).0
    {
      FilterCachedSpec(results, objects, prop, value, now, derive);
      LookupSpec(results, FilterOn(prop, value), now);
      var hit := GetCachedResult(FilterOn(prop, value), now);
      if hit.Some? {
        r := new OptimizedObjectSet(objectType, hit.value);
        return;
      }
      var m := Matching(objects, prop, value, derive);
      CacheResult(FilterOn(prop, value), m, now);
      r := new OptimizedObjectSet(objectType, m);
    }

    /** `aggregate(prop, function)` over `get(prop)` of the members, Nones skipped. */
    function Aggregate(prop: string, fn: string, derive: (ObjectInstance, string) -> Value): (r: Result<real>)
      ensures GotValues(objects, prop, derive) == [] ==> r == Ok(0.0)
      ensures GotValues(objects, prop, derive) != [] && fn !in {"sum", "avg", "max", "min", "count"} ==> r == Err(ValueError)
      ensures GotValues(objects, prop, derive) != [] && fn == "count" ==> r == Ok(|GotValues(objects, prop, derive)| as real)
    {
      DataSources.AggregateValues(GotValues(objects, prop, derive), fn)
    }

    /** `count()`: the number of members. */
    function Count(): (n: nat)
      ensures n == |objects|
    {
      |objects|
    }

    /** `first()`: the first member, or None for an empty set. */
    function First(): (r: Option<ObjectInstance>)
      ensures r.Some? <==> objects != []
      ensures r.Some? ==> r.value == objects[0] && r.value in objects
    {
      if objects != [] then Some(objects[0]) else None
    }

    /** `clear_cache()`. */
    method ClearCache()
      modifies this
      ensures results == PyDict.Empty()
    {
      results := PyDict.Empty();
    }
  }
}
