/**
 * The default in-memory data source and the pure parts of the DuckDB
 * adapter (src/ontology_framework/datasources.py).  The storage is the
 * engine's object store: type name -> (primary key -> instance), both
 * levels in insertion order.
 */
module DataSources {
  import opened Wrappers
  import opened Values
  import opened Schema
  import PyDict
  import Seqs

  type Table = PyDict.Dict<Value, ObjectInstance>
  type Storage = map<string, Table>

  ghost predicate StorageWf(st: Storage)
  {
    forall t :: t in st ==> PyDict.Wf(st[t])
  }

  /** `fetch_object`: `storage.get(type, {}).get(pk)`. */
  function FetchObject(st: Storage, t: string, pk: Value): Option<ObjectInstance>
  {
    if t in st then PyDict.Get(st[t], pk) else None
  }

  /** The objects of a type in store order. */
  function TableObjects(st: Storage, t: string): seq<ObjectInstance>
    requires StorageWf(st)
  {
    if t in st then PyDict.Values(st[t]) else []
  }

  /** Every filter property equals the filter value (an absent property reads as None). */
  predicate MatchesAll(o: ObjectInstance, filters: map<string, Value>)
  {
    forall k :: k in filters ==> PropOf(o, k) == filters[k]
  }

  /** `scan`: the matching objects in store order, then `items[:limit]`. */
  function Scan(st: Storage, t: string, filters: map<string, Value>, limit: Option<int>): seq<ObjectInstance>
    requires StorageWf(st)
  {
    var matched := Seqs.Filter(TableObjects(st, t), o => MatchesAll(o, filters));
    if limit.Some? then Seqs.SliceTo(matched, limit.value) else matched
  }

  /** The store after `upsert`: `storage.setdefault(type, {})[pk] = obj`. */
  function Upserted(st: Storage, t: string, o: ObjectInstance): Storage
  {
    st[t := PyDict.Put(if t in st then st[t] else PyDict.Empty(), o.pk, o)]
  }

  /** The store after `delete`: `storage.get(type, {}).pop(pk, None)`. */
  function Deleted(st: Storage, t: string, pk: Value): Storage
  {
    if t in st then st[t := PyDict.Remove(st[t], pk)] else st
  }

  lemma UpsertedWf(st: Storage, t: string, o: ObjectInstance)
    requires StorageWf(st)
    ensures StorageWf(Upserted(st, t, o))
  {
  }

  lemma DeletedWf(st: Storage, t: string, pk: Value)
    requires StorageWf(st)
    ensures StorageWf(Deleted(st, t, pk))
  {
    if t in st {
      PyDict.RemoveWf(st[t], pk);
    }
  }

  /**
   * After `upsert(t, obj)`, `fetch_object(t, obj.pk)` is `obj`; every other
   * (type, key) reads as before, and replacing an existing key keeps the
   * order of the type's objects.
   */
  lemma UpsertThenFetch(st: Storage, t: string, o: ObjectInstance)
    ensures FetchObject(Upserted(st, t, o), t, o.pk) == Some(o)
    ensures forall t2, k :: (t2 != t || k != o.pk) ==> FetchObject(Upserted(st, t, o), t2, k) == FetchObject(st, t2, k)
    ensures t in st && o.pk in st[t].vals ==> Upserted(st, t, o)[t].keys == st[t].keys
  {
  }

  /** `delete` removes the key and nothing else; an absent key or type is a no-op. */
  lemma DeleteThenFetch(st: Storage, t: string, pk: Value)
    requires StorageWf(st)
    ensures FetchObject(Deleted(st, t, pk), t, pk) == None
    ensures forall t2, k :: (t2 != t || k != pk) ==> FetchObject(Deleted(st, t, pk), t2, k) == FetchObject(st, t2, k)
    ensures FetchObject(st, t, pk) == None ==> Deleted(st, t, pk) == st
  {
    if t in st && pk !in st[t].vals {
      PyDict.RemoveAbsent(st[t], pk);
    }
  }

  /**
   * `scan` returns exactly the matching objects of the type, in store order,
   * and a non-negative limit keeps the first `limit` of them.
   */
  lemma ScanSpec(st: Storage, t: string, filters: map<string, Value>, n: int)
    requires StorageWf(st)
    ensures forall o :: o in Scan(st, t, filters, None) <==> o in TableObjects(st, t) && MatchesAll(o, filters)
    ensures Scan(st, t, filters, Some(n)) <= Scan(st, t, filters, None)
    ensures n >= 0 ==> |Scan(st, t, filters, Some(n))| == if n < |Scan(st, t, filters, None)| then n else |Scan(st, t, filters, None)|
  {
    var all := Scan(st, t, filters, None);
    forall o | o in all ensures o in TableObjects(st, t) && MatchesAll(o, filters) {
      var i :| 0 <= i < |all| && all[i] == o;
    }
    forall o | o in TableObjects(st, t) && MatchesAll(o, filters) ensures o in all {
      var i :| 0 <= i < |TableObjects(st, t)| && TableObjects(st, t)[i] == o;
    }
  }

  // ---------------------------------------------------------------------
  // Aggregation over property values (shared by `ObjectSet.aggregate`,
  // `InMemoryDataSource.aggregate` and `OptimizedObjectSet.aggregate`).
  // ---------------------------------------------------------------------

  /** The non-None values of a property, in member order. */
  function NonNullValues(objs: seq<ObjectInstance>, prop: string): seq<Value>
  {
    Seqs.Filter(Seqs.Map(objs, (o: ObjectInstance) => PropOf(o, prop)), (v: Value) => v != Null)
  }

  function Numbers(vals: seq<Value>): (r: Option<seq<int>>)
    ensures r.Some? ==> |r.value| == |vals|
  {
    if vals == [] then Some([])
    else match (AsNumber(vals[0]), Numbers(vals[1..]))
      case (Some(x), Some(rest)) => Some([x] + rest)
      case _ => None
  }

  function Sum(s: seq<int>): int
  {
    if s == [] then 0 else s[0] + Sum(s[1..])
  }

  function MaxOf(s: seq<int>): (m: int)
    requires |s| > 0
    ensures m in s
    ensures forall x :: x in s ==> x <= m
  {
    if |s| == 1 then s[0]
    else
      assert s == [s[0]] + s[1..];
      var rest := MaxOf(s[1..]); if s[0] >= rest then s[0] else rest
  }

  function MinOf(s: seq<int>): (m: int)
    requires |s| > 0
    ensures m in s
    ensures forall x :: x in s ==> m <= x
  {
    if |s| == 1 then s[0]
    else
      assert s == [s[0]] + s[1..];
      var rest := MinOf(s[1..]); if s[0] <= rest then s[0] else rest
  }

  /**
   * sum / avg / max / min / count over the non-None values: 0.0 when there are
   * none (whatever the function name), ValueError for another name, and
   * TypeError when sum/avg/max/min meet a non-numeric value.
   */
  function AggregateValues(vals: seq<Value>, fn: string): Result<real>
  {
    if vals == [] then Ok(0.0)
    else if fn == "count" then Ok(|vals| as real)
    else if fn != "sum" && fn != "avg" && fn != "max" && fn != "min" then Err(ValueError)
    else match Numbers(vals)
      case None => Err(TypeError)
      case Some(ns) =>
        if fn == "sum" then Ok(Sum(ns) as real)
        else if fn == "avg" then Ok(Sum(ns) as real / |ns| as real)
        else if fn == "max" then Ok(MaxOf(ns) as real)
        else Ok(MinOf(ns) as real)
  }

  lemma {:induction false} SumLower(s: seq<int>, m: int)
    requires forall x :: x in s ==> m <= x
    ensures |s| * m <= Sum(s)
    decreases |s|
  {
    if s != [] {
      assert s[0] in s;
      forall x | x in s[1..] ensures m <= x {
        assert x in s;
      }
      SumLower(s[1..], m);
      assert (|s| - 1) * m + m == |s| * m;
    }
  }

  lemma {:induction false} SumUpper(s: seq<int>, m: int)
    requires forall x :: x in s ==> x <= m
    ensures Sum(s) <= |s| * m
    decreases |s|
  {
    if s != [] {
      assert s[0] in s;
      forall x | x in s[1..] ensures x <= m {
        assert x in s;
      }
      SumUpper(s[1..], m);
      assert (|s| - 1) * m + m == |s| * m;
    }
  }

  lemma DivBounds(lo: real, x: real, hi: real, n: real)
    requires n > 0.0 && lo * n <= x <= hi * n
    ensures lo <= x / n <= hi
  {
  }

  lemma AvgBetween(lo: int, total: int, hi: int, n: nat)
    requires n > 0 && n * lo <= total <= n * hi
    ensures lo as real <= total as real / n as real <= hi as real
  {
    assert (n * lo) as real == n as real * lo as real;
    assert (n * hi) as real == n as real * hi as real;
    DivBounds(lo as real, total as real, hi as real, n as real);
  }

  /** Empty input gives 0.0 for any name; an unknown name fails only on non-empty input. */
  lemma AggregateErrors(vals: seq<Value>, fn: string)
    ensures vals == [] ==> AggregateValues(vals, fn) == Ok(0.0)
    ensures vals != [] && fn !in {"sum", "avg", "max", "min", "count"} ==> AggregateValues(vals, fn) == Err(ValueError)
    ensures vals != [] ==> AggregateValues(vals, "count") == Ok(|vals| as real)
    ensures vals != [] && fn in {"sum", "avg", "max", "min"} ==> (AggregateValues(vals, fn).Ok? <==> Numbers(vals).Some?)
  {
  }

  /** On numeric input, min <= avg <= max, and max/min are attained upper/lower bounds. */
  lemma AggregateBounds(vals: seq<Value>)
    requires vals != [] && Numbers(vals).Some?
    ensures AggregateValues(vals, "min").Ok? && AggregateValues(vals, "avg").Ok? && AggregateValues(vals, "max").Ok?
    ensures AggregateValues(vals, "min").value <= AggregateValues(vals, "avg").value <= AggregateValues(vals, "max").value
    ensures forall x :: x in Numbers(vals).value ==> AggregateValues(vals, "min").value <= x as real <= AggregateValues(vals, "max").value
  {
    var ns := Numbers(vals).value;
    var lo, hi := MinOf(ns), MaxOf(ns);
    SumLower(ns, lo);
    SumUpper(ns, hi);
    AvgBetween(lo, Sum(ns), hi, |ns|);
    assert AggregateValues(vals, "avg") == Ok(Sum(ns) as real / |ns| as real);
    assert AggregateValues(vals, "min") == Ok(lo as real);
    assert AggregateValues(vals, "max") == Ok(hi as real);
  }

  /** The default data source; `storage` is shared with the ontology's object store. */
  class InMemoryDataSource {
    var storage: Storage
    const id: string
    const readOnly: bool

    ghost predicate Valid()
      reads this
    {
      StorageWf(storage) && !readOnly
    }

    constructor (storage0: Storage, adapterId: string)
      requires StorageWf(storage0)
      ensures Valid() && storage == storage0 && id == adapterId && !readOnly
    {
      storage := storage0;
      id := adapterId;
      readOnly := false;
    }

    method Upsert(t: string, o: ObjectInstance)
      requires Valid()
      modifies this
      ensures Valid() && storage == Upserted(old(storage), t, o)
    {
      UpsertedWf(storage, t, o);
      storage := Upserted(storage, t, o);
    }

    method Delete(t: string, pk: Value)
      requires Valid()
      modifies this
      ensures Valid() && storage == Deleted(old(storage), t, pk)
    {
      DeletedWf(storage, t, pk);
      storage := Deleted(storage, t, pk);
    }
  }

  // ---------------------------------------------------------------------
  // DuckDB adapter: column resolution and WHERE-clause assembly.
  // ---------------------------------------------------------------------

  /** `DuckDBTableConfig.resolve_column`. */
  function ResolveColumn(mapping: map<string, string>, prop: string): (r: Result<string>)
    ensures r.Ok? <==> prop in mapping
    ensures r.Ok? ==> r.value == mapping[prop]
    ensures r.Err? ==> r.exc == DataSourceError
  {
    if prop in mapping then Ok(mapping[prop]) else Err(DataSourceError)
  }

  /** `" AND ".join(parts)` */
  function JoinAnd(parts: seq<string>): string
  {
    if parts == [] then ""
    else if |parts| == 1 then parts[0]
    else parts[0] + " AND " + JoinAnd(parts[1..])
  }

  /** The clause `col = ?` for each filter key, in filter order. */
  function Clauses(mapping: map<string, string>, keys: seq<string>): seq<string>
    requires forall k :: k in keys ==> k in mapping
  {
    seq(|keys|, i requires 0 <= i < |keys| => mapping[keys[i]] + " = ?")
  }

  lemma JoinAndStep(parts: seq<string>, p: string)
    requires parts != []
    ensures JoinAnd(parts + [p]) == JoinAnd(parts) + " AND " + p
    decreases |parts|
  {
    if |parts| > 1 {
      assert (parts + [p])[1..] == parts[1..] + [p];
      JoinAndStep(parts[1..], p);
    }
  }

  /**
   * `DuckDBDataSource._build_filters`: `("", [])` without filters; otherwise
   * `" WHERE c1 = ? AND ..."` with one parameter per filter in filter order,
   * and DataSourceError for the first unmapped property.
   */
  method BuildFilters(mapping: map<string, string>, filters: PyDict.Dict<string, Value>) returns (r: Result<(string, seq<Value>)>)
    requires PyDict.Wf(filters)
    ensures filters.keys == [] ==> r == Ok(("", []))
    ensures r.Err? <==> exists k :: k in filters.keys && k !in mapping
    ensures r.Err? ==> r.exc == DataSourceError
    ensures r.Ok? && filters.keys != [] ==>
      (forall k :: k in filters.keys ==> k in mapping) &&
      r.value.0 == " WHERE " + JoinAnd(Clauses(mapping, filters.keys)) &&
      r.value.1 == PyDict.Values(filters)
  {
    if filters.keys == [] {
      return Ok(("", []));
    }
    var clauses: seq<string> := [];
    var params: seq<Value> := [];
    var i := 0;
    while i < |filters.keys|
      invariant 0 <= i <= |filters.keys|
      invariant forall k :: k in filters.keys[..i] ==> k in mapping
      invariant clauses == Clauses(mapping, filters.keys[..i])
      invariant params == PyDict.Values(filters)[..i]
    {
      var prop := filters.keys[i];
      var column := ResolveColumn(mapping, prop);
      if column.Err? {
        return Err(column.exc);
      }
      Seqs.TakeNext(filters.keys, i);
      clauses := clauses + [column.value + " = ?"];
      params := params + [filters.vals[prop]];
      i := i + 1;
    }
    assert filters.keys[..i] == filters.keys;
    assert params == PyDict.Values(filters);
    return Ok((" WHERE " + JoinAnd(clauses), params));
  }
}
