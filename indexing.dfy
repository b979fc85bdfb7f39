/**
 * The advanced index layer: single-property B-tree indexes, composite
 * indexes, the index manager with its primary-key, property, composite and
 * link indexes, and the hot/warm/cold hierarchical index.
 *
 * An index maps a key to the set of primary keys stored under it.  The
 * manager keeps its indexes as values (`BTree`, `Composite`) inside its own
 * state; the classes `BTreeIndex` and `CompositeIndex` are the same indexes
 * as stand-alone mutable objects, specified by the same functions.
 */
module Indexing {
  import opened Wrappers
  import opened Values
  import opened Schema
  import PyDict

  // ---------------------------------------------------------------------
  // Buckets: key -> set of primary keys

  /** `_index`: a `defaultdict(set)` from key to primary keys. */
  type Buckets<K> = map<K, set<Value>>

  /** `_index.get(key, set())`. */
  function Bucket<K(!new)>(b: Buckets<K>, k: K): set<Value>
  {
    if k in b then b[k] else {}
  }

  /** No bucket is ever left empty: `remove` deletes a bucket once it empties. */
  ghost predicate NoEmpty<K(!new)>(b: Buckets<K>)
  {
    forall k :: k in b ==> b[k] != {}
  }

  /** `_index[key].add(pk)`. */
  function Put<K(!new)>(b: Buckets<K>, k: K, pk: Value): (r: Buckets<K>)
    ensures Bucket(r, k) == Bucket(b, k) + {pk}
    ensures forall j :: j != k ==> Bucket(r, j) == Bucket(b, j)
    ensures r.Keys == b.Keys + {k}
    ensures NoEmpty(b) ==> NoEmpty(r)
  {
    b[k := Bucket(b, k) + {pk}]
  }

  /** `_index[key].discard(pk)` followed by `del _index[key]` once it is empty. */
  function Discard<K(!new)>(b: Buckets<K>, k: K, pk: Value): (r: Buckets<K>)
    ensures Bucket(r, k) == Bucket(b, k) - {pk}
    ensures forall j :: j != k ==> Bucket(r, j) == Bucket(b, j)
    ensures r.Keys <= b.Keys
    ensures NoEmpty(b) ==> NoEmpty(r)
  {
    var rest := Bucket(b, k) - {pk};
    if rest == {} then b - {k} else b[k := rest]
  }

  /** Discarding a key just put under a fresh bucket entry restores the buckets. */
  lemma DiscardPut<K(!new)>(b: Buckets<K>, k: K, pk: Value)
    requires NoEmpty(b) && pk !in Bucket(b, k)
    ensures Discard(Put(b, k, pk), k, pk) == b
  {
    var r := Discard(Put(b, k, pk), k, pk);
    assert forall j :: j in r <==> j in b;
    assert forall j :: j in r ==> r[j] == b[j] by {
      forall j | j in r ensures r[j] == b[j] {
        assert Bucket(r, j) == Bucket(b, j);
      }
    }
  }

  /** The (key, primary key) pairs among the buckets of `keys`. */
  ghost function PairsIn<K(!new)>(b: Buckets<K>, keys: set<K>): set<(K, Value)>
    requires keys <= b.Keys
  {
    set k, p | k in keys && p in b[k] :: (k, p)
  }

  /** Every (key, primary key) pair the buckets hold. */
  ghost function Pairs<K(!new)>(b: Buckets<K>): set<(K, Value)>
  {
    PairsIn(b, b.Keys)
  }

  lemma {:induction false} RowCard<K(!new)>(k: K, s: set<Value>)
    ensures |set p | p in s :: (k, p)| == |s|
    decreases s
  {
    if s != {} {
      var x :| x in s;
      RowCard(k, s - {x});
      assert (set p | p in s :: (k, p)) == (set p | p in s - {x} :: (k, p)) + {(k, x)};
    }
  }

  lemma PairsInStep<K(!new)>(b: Buckets<K>, done: set<K>, k: K)
    requires done <= b.Keys && k in b && k !in done
    ensures |PairsIn(b, done + {k})| == |PairsIn(b, done)| + |b[k]|
  {
    var row := set p | p in b[k] :: (k, p);
    assert PairsIn(b, done + {k}) == PairsIn(b, done) + row;
    assert PairsIn(b, done) !! row;
    RowCard(k, b[k]);
  }

  /** `sum(len(pks) for pks in self._index.values())`. */
  method CountPairs<K(!new)>(b: Buckets<K>) returns (n: nat)
    ensures n == |Pairs(b)|
  {
    n := 0;
    var todo := b.Keys;
    ghost var done: set<K> := {};
    while todo != {}
      invariant todo + done == b.Keys && todo !! done
      invariant n == |PairsIn(b, done)|
      decreases todo
    {
      var k :| k in todo;
      PairsInStep(b, done, k);
      n := n + |b[k]|;
      todo := todo - {k};
      done := done + {k};
    }
  }

  /** A pair is held exactly when its primary key sits in its key's bucket. */
  lemma InPairs<K(!new)>(b: Buckets<K>, x: (K, Value))
    ensures x in Pairs(b) <==> x.1 in Bucket(b, x.0)
  {
    if x.1 in Bucket(b, x.0) {
      assert x == (x.0, x.1);
    }
  }

  /** Putting a primary key adds exactly one pair when it was not there yet. */
  lemma PutPairs<K(!new)>(b: Buckets<K>, k: K, pk: Value)
    ensures Pairs(Put(b, k, pk)) == Pairs(b) + {(k, pk)}
  {
    var r := Put(b, k, pk);
    forall x ensures x in Pairs(r) <==> x in Pairs(b) + {(k, pk)} {
      InPairs(r, x);
      InPairs(b, x);
    }
  }

  /** Discarding a primary key removes exactly that pair. */
  lemma DiscardPairs<K(!new)>(b: Buckets<K>, k: K, pk: Value)
    ensures Pairs(Discard(b, k, pk)) == Pairs(b) - {(k, pk)}
  {
    var r := Discard(b, k, pk);
    forall x ensures x in Pairs(r) <==> x in Pairs(b) - {(k, pk)} {
      InPairs(r, x);
      InPairs(b, x);
    }
  }

  // ---------------------------------------------------------------------
  // BTreeIndex

  /** A `BTreeIndex` as a value: its type, its property and its buckets. */
  datatype BTree = BTree(objectType: string, property: string, buckets: Buckets<Value>)

  /** `BTreeIndex.add`: objects of another type, and None values, are ignored. */
  function BTreeAdd(t: BTree, o: ObjectInstance): (r: BTree)
    ensures r.objectType == t.objectType && r.property == t.property
    ensures o.typeName != t.objectType || PropOf(o, t.property) == Null ==> r == t
    ensures o.typeName == t.objectType && PropOf(o, t.property) != Null ==>
      r.buckets == Put(t.buckets, PropOf(o, t.property), o.pk)
  {
    var v := PropOf(o, t.property);
    if o.typeName != t.objectType || v == Null then t
    else t.(buckets := Put(t.buckets, v, o.pk))
  }

  /** `BTreeIndex.remove`: discard the key, dropping a bucket once it is empty. */
  function BTreeRemove(t: BTree, o: ObjectInstance): (r: BTree)
    ensures r.objectType == t.objectType && r.property == t.property
    ensures o.typeName != t.objectType || PropOf(o, t.property) == Null ==> r == t
    ensures o.typeName == t.objectType && PropOf(o, t.property) != Null ==>
      r.buckets == Discard(t.buckets, PropOf(o, t.property), o.pk)
  {
    var v := PropOf(o, t.property);
    if o.typeName != t.objectType || v == Null then t
    else t.(buckets := Discard(t.buckets, v, o.pk))
  }

  /** The buckets never hold None and never hold an empty set. */
  ghost predicate BTreeWf(t: BTree)
  {
    NoEmpty(t.buckets) && Null !in t.buckets
  }

  /**
   * After `add`, `query(value)` holds the object's key and nothing else
   * changed; after `remove`, it no longer does.  Both keep the buckets
   * well formed.
   */
  lemma BTreeAddRemoveSpec(t: BTree, o: ObjectInstance)
    requires BTreeWf(t)
    ensures var v := PropOf(o, t.property);
      o.typeName == t.objectType && v != Null ==>
        && Bucket(BTreeAdd(t, o).buckets, v) == Bucket(t.buckets, v) + {o.pk}
        && Bucket(BTreeRemove(t, o).buckets, v) == Bucket(t.buckets, v) - {o.pk}
    ensures forall w :: w != PropOf(o, t.property) ==>
      Bucket(BTreeAdd(t, o).buckets, w) == Bucket(t.buckets, w) &&
      Bucket(BTreeRemove(t, o).buckets, w) == Bucket(t.buckets, w)
    ensures BTreeWf(BTreeAdd(t, o)) && BTreeWf(BTreeRemove(t, o))
  {
  }

  /** Removing an object just added (whose key was not yet indexed) restores the index. */
  lemma BTreeRoundTrip(t: BTree, o: ObjectInstance)
    requires BTreeWf(t) && o.pk !in Bucket(t.buckets, PropOf(o, t.property))
    ensures BTreeRemove(BTreeAdd(t, o), o) == t
  {
    var v := PropOf(o, t.property);
    if o.typeName == t.objectType && v != Null {
      DiscardPut(t.buckets, v, o.pk);
    }
  }

  /** `size()` grows by one when `add` indexes a new key, and shrinks by one when `remove` drops one. */
  lemma BTreeSizeDelta(t: BTree, o: ObjectInstance)
    ensures var v := PropOf(o, t.property);
      var counted := o.typeName == t.objectType && v != Null && o.pk !in Bucket(t.buckets, v);
      |Pairs(BTreeAdd(t, o).buckets)| == |Pairs(t.buckets)| + (if counted then 1 else 0)
    ensures var v := PropOf(o, t.property);
      var held := o.typeName == t.objectType && v != Null && o.pk in Bucket(t.buckets, v);
      |Pairs(BTreeRemove(t, o).buckets)| == |Pairs(t.buckets)| - (if held then 1 else 0)
  {
    var v := PropOf(o, t.property);
    if o.typeName == t.objectType && v != Null {
      PutPairs(t.buckets, v, o.pk);
      DiscardPairs(t.buckets, v, o.pk);
      InPairs(t.buckets, (v, o.pk));
    }
  }

  /**
   * Whether `lo <= v <= hi` holds for one bucket value; Python's chained
   * comparison only evaluates `v <= hi` when `lo <= v` held, and either
   * comparison raises TypeError on values of incomparable kinds.
   */
  function InRange(lo: Value, v: Value, hi: Value): (r: Result<bool>)
    ensures r.Err? ==> r.exc == TypeError
    ensures r == Ok(true) <==> PyLe(lo, v) == Ok(true) && PyLe(v, hi) == Ok(true)
  {
    match PyLe(lo, v)
    case Err(e) => Err(e)
    case Ok(below) => if !below then Ok(false) else PyLe(v, hi)
  }

  /** The primary keys under the bucket values of `keys` that lie in `[lo, hi]`. */
  ghost function InRangeKeys(b: Buckets<Value>, keys: set<Value>, lo: Value, hi: Value): set<Value>
    requires keys <= b.Keys
  {
    set v, p | v in keys && p in b[v] && InRange(lo, v, hi) == Ok(true) :: p
  }

  lemma InRangeStep(b: Buckets<Value>, done: set<Value>, v: Value, lo: Value, hi: Value)
    requires done <= b.Keys && v in b
    ensures InRangeKeys(b, done + {v}, lo, hi) ==
      InRangeKeys(b, done, lo, hi) + (if InRange(lo, v, hi) == Ok(true) then b[v] else {})
  {
  }

  /**
   * `range_query(lo, hi)`: the union of the buckets whose value lies in
   * `[lo, hi]`, or TypeError when some bucket value cannot be compared.
   */
  ghost function RangeOf(b: Buckets<Value>, lo: Value, hi: Value): Result<set<Value>>
  {
    if exists v :: v in b && InRange(lo, v, hi).Err? then Err(TypeError)
    else Ok(InRangeKeys(b, b.Keys, lo, hi))
  }

  /** The loop of `range_query`, over the bucket values in any order. */
  method RangeQueryOf(b: Buckets<Value>, lo: Value, hi: Value) returns (r: Result<set<Value>>)
    ensures r == RangeOf(b, lo, hi)
    ensures r.Ok? ==> forall p :: p in r.value <==>
      exists v :: v in b && p in b[v] && PyLe(lo, v) == Ok(true) && PyLe(v, hi) == Ok(true)
  {
    var result: set<Value> := {};
    var todo := b.Keys;
    ghost var done: set<Value> := {};
    while todo != {}
      invariant todo + done == b.Keys && todo !! done
      invariant forall v :: v in done ==> InRange(lo, v, hi).Ok?
      invariant result == InRangeKeys(b, done, lo, hi)
      decreases todo
    {
      var v :| v in todo;
      var inside := InRange(lo, v, hi);
      if inside.Err? {
        return Err(TypeError);
      }
      if inside.value {
        result := result + b[v];
      }
      InRangeStep(b, done, v, lo, hi);
      todo := todo - {v};
      done := done + {v};
    }
    r := Ok(result);
  }

  /** `BTreeIndex` as a mutable object. */
  class BTreeIndex {
    const objectType: string
    const propertyName: string
    var buckets: Buckets<Value>

    function Snapshot(): BTree
      reads this
    {
      BTree(objectType, propertyName, buckets)
    }

    ghost predicate Valid()
      reads this
    {
      BTreeWf(Snapshot())
    }

    constructor (objectType: string, propertyName: string)
      ensures Snapshot() == BTree(objectType, propertyName, map[])
      ensures Valid()
    {
      this.objectType := objectType;
      this.propertyName := propertyName;
      buckets := map[];
    }

    method Add(o: ObjectInstance)
      requires Valid()
      modifies this
      ensures Snapshot() == BTreeAdd(old(Snapshot()), o)
      ensures Valid()
    {
      if o.typeName != objectType {
        return;
      }
      var v := PropOf(o, propertyName);
      if v != Null {
        buckets := Put(buckets, v, o.pk);
      }
    }

    method Remove(o: ObjectInstance)
      requires Valid()
      modifies this
      ensures Snapshot() == BTreeRemove(old(Snapshot()), o)
      ensures Valid()
    {
      if o.typeName != objectType {
        return;
      }
      var v := PropOf(o, propertyName);
      if v != Null {
        buckets := Discard(buckets, v, o.pk);
      }
    }

    /** `query(value)`: exact match. */
    function Query(v: Value): (r: set<Value>)
      reads this
      ensures forall p :: p in r <==> (v, p) in Pairs(buckets)
    {
      Bucket(buckets, v)
    }

    method RangeQuery(lo: Value, hi: Value) returns (r: Result<set<Value>>)
      ensures r == RangeOf(buckets, lo, hi)
    {
      r := RangeQueryOf(buckets, lo, hi);
    }

    method Size() returns (n: nat)
      ensures n == |Pairs(buckets)|
    {
      n := CountPairs(buckets);
    }
  }
  // ---------------------------------------------------------------------
  // CompositeIndex

  /** A `CompositeIndex` as a value: its type, its ordered properties and its buckets. */
  datatype Composite = Composite(objectType: string, properties: seq<string>, keyed: Buckets<seq<Value>>)

  /** `_create_key`: the object's values for the properties, or None once one of them is None. */
  function KeyOf(props: seq<string>, o: ObjectInstance): (r: Option<seq<Value>>)
    ensures r.Some? <==> forall i :: 0 <= i < |props| ==> PropOf(o, props[i]) != Null
    ensures r.Some? ==> |r.value| == |props| && forall i :: 0 <= i < |props| ==> r.value[i] == PropOf(o, props[i])
  {
    if props == [] then Some([])
    else if PropOf(o, props[0]) == Null then None
    else
      match KeyOf(props[1..], o)
      case None => None
      case Some(rest) => Some([PropOf(o, props[0])] + rest)
  }

  /** `CompositeIndex.add`: indexed only when the type matches and every property is set. */
  function CompositeAdd(c: Composite, o: ObjectInstance): (r: Composite)
    ensures r.objectType == c.objectType && r.properties == c.properties
    ensures o.typeName != c.objectType || KeyOf(c.properties, o).None? ==> r == c
    ensures o.typeName == c.objectType && KeyOf(c.properties, o).Some? ==>
      r.keyed == Put(c.keyed, KeyOf(c.properties, o).value, o.pk)
  {
    if o.typeName != c.objectType then c
    else
      match KeyOf(c.properties, o)
      case None => c
      case Some(k) => c.(keyed := Put(c.keyed, k, o.pk))
  }

  /** `CompositeIndex.remove`. */
  function CompositeRemove(c: Composite, o: ObjectInstance): (r: Composite)
    ensures r.objectType == c.objectType && r.properties == c.properties
    ensures o.typeName != c.objectType || KeyOf(c.properties, o).None? ==> r == c
    ensures o.typeName == c.objectType && KeyOf(c.properties, o).Some? ==>
      r.keyed == Discard(c.keyed, KeyOf(c.properties, o).value, o.pk)
  {
    if o.typeName != c.objectType then c
    else
      match KeyOf(c.properties, o)
      case None => c
      case Some(k) => c.(keyed := Discard(c.keyed, k, o.pk))
  }

  ghost predicate CompositeWf(c: Composite)
  {
    NoEmpty(c.keyed) && forall k :: k in c.keyed ==> |k| == |c.properties|
  }

  lemma CompositeRoundTripWf(c: Composite, o: ObjectInstance)
    requires CompositeWf(c)
    ensures CompositeWf(CompositeAdd(c, o)) && CompositeWf(CompositeRemove(c, o))
  {
  }

  /** Removing an object just added (whose key was not yet indexed) restores the index. */
  lemma CompositeRoundTrip(c: Composite, o: ObjectInstance)
    requires CompositeWf(c)
    requires KeyOf(c.properties, o).Some? ==> o.pk !in Bucket(c.keyed, KeyOf(c.properties, o).value)
    ensures CompositeWf(CompositeAdd(c, o)) && CompositeWf(CompositeRemove(c, o))
    ensures CompositeRemove(CompositeAdd(c, o), o) == c
  {
    if o.typeName == c.objectType && KeyOf(c.properties, o).Some? {
      DiscardPut(c.keyed, KeyOf(c.properties, o).value, o.pk);
    }
  }

  /**
   * `query(**filters)`: the bucket of the filters' values in property order,
   * or the empty set unless every property is filtered on.
   */
  function CompositeQuery(c: Composite, filters: map<string, Value>): (r: set<Value>)
    ensures (exists i :: 0 <= i < |c.properties| && c.properties[i] !in filters) ==> r == {}
  {
    if forall i :: 0 <= i < |c.properties| ==> c.properties[i] in filters then
      Bucket(c.keyed, seq(|c.properties|, i requires 0 <= i < |c.properties| => filters[c.properties[i]]))
    else {}
  }

  /** An object just added is found by a query whose filters agree with it on every property. */
  lemma CompositeAddQuery(c: Composite, o: ObjectInstance, filters: map<string, Value>)
    requires o.typeName == c.objectType
    requires forall i :: 0 <= i < |c.properties| ==>
      c.properties[i] in filters && filters[c.properties[i]] == PropOf(o, c.properties[i]) != Null
    ensures o.pk in CompositeQuery(CompositeAdd(c, o), filters)
  {
    var k := KeyOf(c.properties, o).value;
    assert k == seq(|c.properties|, i requires 0 <= i < |c.properties| => filters[c.properties[i]]);
  }

  /** The primary keys under the keys among `keys` that start with `prefix`. */
  ghost function MatchingIn(b: Buckets<seq<Value>>, keys: set<seq<Value>>, prefix: seq<Value>): set<Value>
    requires keys <= b.Keys
  {
    set k, p | k in keys && p in b[k] && |prefix| <= |k| && k[..|prefix|] == prefix :: p
  }

  /** `key[:len(prefix)] == prefix` over every key of the index. */
  ghost function Matching(b: Buckets<seq<Value>>, prefix: seq<Value>): set<Value>
  {
    MatchingIn(b, b.Keys, prefix)
  }

  lemma MatchingStep(b: Buckets<seq<Value>>, done: set<seq<Value>>, k: seq<Value>, prefix: seq<Value>)
    requires done <= b.Keys && k in b
    ensures MatchingIn(b, done + {k}, prefix) ==
      MatchingIn(b, done, prefix) + (if |prefix| <= |k| && k[..|prefix|] == prefix then b[k] else {})
  {
  }

  /** The scan of `partial_query`: every bucket whose key starts with the prefix. */
  method PrefixQuery(b: Buckets<seq<Value>>, prefix: seq<Value>) returns (r: set<Value>)
    ensures r == Matching(b, prefix)
    ensures forall p :: p in r <==> exists k :: k in b && p in b[k] && |prefix| <= |k| && k[..|prefix|] == prefix
  {
    r := {};
    var todo := b.Keys;
    ghost var done: set<seq<Value>> := {};
    while todo != {}
      invariant todo + done == b.Keys && todo !! done
      invariant r == MatchingIn(b, done, prefix)
      decreases todo
    {
      var k :| k in todo;
      MatchingStep(b, done, k, prefix);
      if |prefix| <= |k| && k[..|prefix|] == prefix {
        r := r + b[k];
      }
      todo := todo - {k};
      done := done + {k};
    }
  }

  /**
   * Whether `partial_query` looks at the index at all: some filter is given
   * and every filter property is among the first `len(filters)` properties.
   */
  predicate PrefixFilters(c: Composite, filters: PyDict.Dict<string, Value>)
  {
    var n := |filters.keys|;
    n > 0 && forall p :: p in filters.keys ==> p in (if n <= |c.properties| then c.properties[..n] else c.properties)
  }

  /** `tuple(filters[prop] for prop in filter_props)`: the values in the filters' own order. */
  function FilterOrderPrefix(filters: PyDict.Dict<string, Value>): (r: seq<Value>)
    requires PyDict.Wf(filters)
    ensures |r| == |filters.keys|
  {
    seq(|filters.keys|, i requires 0 <= i < |filters.keys| => filters.vals[filters.keys[i]])
  }

  /** The values of the filters in the index's property order, as key prefixes are laid out. */
  function PropertyOrderPrefix(c: Composite, filters: PyDict.Dict<string, Value>): (r: seq<Value>)
    requires PyDict.Wf(filters) && PrefixFilters(c, filters)
    ensures |r| == |filters.keys|
  {
    var n := |filters.keys|;
    PrefixCovered(c, filters);
    seq(n, i requires 0 <= i < n => filters.vals[c.properties[i]])
  }

  /**
   * Accepted filters are exactly the first `len(filters)` properties: the
   * filter keys are distinct and all lie among that many properties.
   */
  lemma PrefixCovered(c: Composite, filters: PyDict.Dict<string, Value>)
    requires PyDict.Wf(filters) && PrefixFilters(c, filters)
    ensures |filters.keys| <= |c.properties|
    ensures forall i :: 0 <= i < |filters.keys| ==> c.properties[i] in filters.vals
  {
    var n := |filters.keys|;
    var pre := if n <= |c.properties| then c.properties[..n] else c.properties;
    var ks := set p | p in filters.keys;
    var ps := set p | p in pre;
    DistinctCard(filters.keys);
    SeqSetCard(pre);
    SubsetCard(ks, ps);
    forall i | 0 <= i < n ensures c.properties[i] in filters.vals {
      if c.properties[i] !in filters.vals {
        assert pre[i] == c.properties[i];
        SubsetCard(ks, ps - {pre[i]});
        assert false;
      }
    }
  }

  lemma SubsetCard<T>(a: set<T>, b: set<T>)
    requires a <= b
    ensures |a| <= |b|
  {
    assert b == a + (b - a);
  }

  /** A sequence holds at most as many distinct elements as it is long. */
  lemma {:induction false} SeqSetCard<T>(s: seq<T>)
    ensures |set x | x in s| <= |s|
  {
    if s != [] {
      SeqSetCard(s[1..]);
      assert (set x | x in s) == (set x | x in s[1..]) + {s[0]};
    }
  }

  /** A sequence without repetition holds exactly as many distinct elements as it is long. */
  lemma {:induction false} DistinctCard<T>(s: seq<T>)
    requires PyDict.Distinct(s)
    ensures |set x | x in s| == |s|
  {
    if s != [] {
      assert PyDict.Distinct(s[1..]) by {
        forall i, j | 0 <= i < j < |s[1..]| ensures s[1..][i] != s[1..][j] {
          assert s[1..][i] == s[i + 1] && s[1..][j] == s[j + 1];
        }
      }
      DistinctCard(s[1..]);
      assert s[0] !in s[1..] by {
        forall j | 0 <= j < |s[1..]| ensures s[1..][j] != s[0] {
          assert s[1..][j] == s[j + 1];
        }
      }
      assert (set x | x in s) == (set x | x in s[1..]) + {s[0]};
    }
  }

  /** `partial_query(**filters)`, with the prefix laid out in property order. */
  ghost function PartialOf(c: Composite, filters: PyDict.Dict<string, Value>): set<Value>
    requires PyDict.Wf(filters)
  {
    if !PrefixFilters(c, filters) then {}
    else Matching(c.keyed, PropertyOrderPrefix(c, filters))
  }

  /** `partial_query(**filters)` as written: the prefix follows the filters' own order. */
  ghost function PartialAsWritten(c: Composite, filters: PyDict.Dict<string, Value>): set<Value>
    requires PyDict.Wf(filters)
  {
    if !PrefixFilters(c, filters) then {}
    else Matching(c.keyed, FilterOrderPrefix(filters))
  }

  /** Partial queries find every indexed object that agrees with the filters. */
  lemma PartialFindsAdded(c: Composite, o: ObjectInstance, filters: PyDict.Dict<string, Value>)
    requires PyDict.Wf(filters) && PrefixFilters(c, filters)
    requires o.typeName == c.objectType && KeyOf(c.properties, o).Some?
    requires forall p :: p in filters.vals ==> filters.vals[p] == PropOf(o, p)
    ensures o.pk in PartialOf(CompositeAdd(c, o), filters)
  {
    var k := KeyOf(c.properties, o).value;
    var prefix := PropertyOrderPrefix(c, filters);
    PrefixCovered(c, filters);
    assert k[..|prefix|] == prefix;
    assert k in CompositeAdd(c, o).keyed && o.pk in CompositeAdd(c, o).keyed[k];
  }

  /** With filters given out of property order, the partial query as written misses a matching object. */
  lemma PartialAsWrittenMisses()
    ensures var c := CompositeAdd(Composite("T", ["a", "b", "c"], map[]),
                                  ObjectInstance("T", Int(7), map["a" := Int(1), "b" := Int(2), "c" := Int(3)]));
      var filters := PyDict.Dict(["b", "a"], map["b" := Int(2), "a" := Int(1)]);
      PartialAsWritten(c, filters) == {} && PartialOf(c, filters) == {Int(7)}
  {
    var o := ObjectInstance("T", Int(7), map["a" := Int(1), "b" := Int(2), "c" := Int(3)]);
    var c0 := Composite("T", ["a", "b", "c"], map[]);
    var c := CompositeAdd(c0, o);
    var filters := PyDict.Dict(["b", "a"], map["b" := Int(2), "a" := Int(1)]);
    var k := [Int(1), Int(2), Int(3)];
    assert PropOf(o, "a") == Int(1) && PropOf(o, "b") == Int(2) && PropOf(o, "c") == Int(3);
    assert KeyOf(c0.properties, o).value == k;
    assert c.keyed == Put(map[], k, Int(7));
    assert Bucket(c.keyed, k) == {Int(7)} && c.keyed.Keys == {k};
    assert PrefixFilters(c, filters) by {
      assert c.properties[..2] == ["a", "b"];
    }
    assert FilterOrderPrefix(filters) == [Int(2), Int(1)];
    assert PropertyOrderPrefix(c, filters) == [Int(1), Int(2)];
    assert k[..2] == [Int(1), Int(2)];
  }

  /** `CompositeIndex` as a mutable object. */
  class CompositeIndex {
    const objectType: string
    const properties: seq<string>
    var keyed: Buckets<seq<Value>>

    function Snapshot(): Composite
      reads this
    {
      Composite(objectType, properties, keyed)
    }

    ghost predicate Valid()
      reads this
    {
      CompositeWf(Snapshot())
    }

    constructor (objectType: string, properties: seq<string>)
      ensures Snapshot() == Composite(objectType, properties, map[])
      ensures Valid()
    {
      this.objectType := objectType;
      this.properties := properties;
      keyed := map[];
    }

    /** `_create_key`. */
    method CreateKey(o: ObjectInstance) returns (r: Option<seq<Value>>)
      ensures r == KeyOf(properties, o)
    {
      var parts: seq<Value> := [];
      for i := 0 to |properties|
        invariant |parts| == i
        invariant forall j :: 0 <= j < i ==> parts[j] == PropOf(o, properties[j]) != Null
      {
        var v := PropOf(o, properties[i]);
        if v == Null {
          return None;
        }
        parts := parts + [v];
      }
      assert KeyOf(properties, o).Some?;
      assert parts == KeyOf(properties, o).value;
      r := Some(parts);
    }

    method Add(o: ObjectInstance)
      requires Valid()
      modifies this
      ensures Snapshot() == CompositeAdd(old(Snapshot()), o)
      ensures Valid()
    {
      if o.typeName != objectType {
        return;
      }
      var k := CreateKey(o);
      if k.Some? {
        keyed := Put(keyed, k.value, o.pk);
      }
    }

    method Remove(o: ObjectInstance)
      requires Valid()
      modifies this
      ensures Snapshot() == CompositeRemove(old(Snapshot()), o)
      ensures Valid()
    {
      if o.typeName != objectType {
        return;
      }
      var k := CreateKey(o);
      if k.Some? {
        keyed := Discard(keyed, k.value, o.pk);
      }
    }

    function Query(filters: map<string, Value>): set<Value>
      reads this
    {
      CompositeQuery(Snapshot(), filters)
    }

    method PartialQuery(filters: PyDict.Dict<string, Value>) returns (r: set<Value>)
      requires PyDict.Wf(filters)
      ensures r == PartialOf(Snapshot(), filters)
    {
      if !PrefixFilters(Snapshot(), filters) {
        return {};
      }
      r := PrefixQuery(keyed, PropertyOrderPrefix(Snapshot(), filters));
    }

    method Size() returns (n: nat)
      ensures n == |Pairs(keyed)|
    {
      n := CountPairs(keyed);
    }
  }

  // ---------------------------------------------------------------------
  // Index keys

  /** Python's sorted order on names. */
  predicate SortedNames(s: seq<string>)
  {
    forall i, j :: 0 <= i < j < |s| ==> StrLe(s[i], s[j])
  }

  /** Insert one name into a sorted list of names. */
  function Insert(x: string, s: seq<string>): (r: seq<string>)
    ensures multiset(r) == multiset(s) + multiset{x}
    ensures |r| == |s| + 1
  {
    if s == [] then [x]
    else if StrLe(x, s[0]) then [x] + s
    else
      assert s == [s[0]] + s[1..];
      [s[0]] + Insert(x, s[1..])
  }

  /** `y` sorts no later than any name of `s`. */
  ghost predicate LowerBound(y: string, s: seq<string>)
  {
    forall j :: 0 <= j < |s| ==> StrLe(y, s[j])
  }

  /** Prepending a lower bound of a sorted list keeps it sorted. */
  lemma ConsSorted(h: string, w: seq<string>)
    requires SortedNames(w) && LowerBound(h, w)
    ensures SortedNames([h] + w)
  {
    var r := [h] + w;
    forall i, j | 0 <= i < j < |r| ensures StrLe(r[i], r[j]) {
      if i == 0 {
        assert r[j] == w[j - 1];
      } else {
        assert r[i] == w[i - 1] && r[j] == w[j - 1];
      }
    }
  }

  lemma ConsBound(y: string, h: string, w: seq<string>)
    requires StrLe(y, h) && LowerBound(y, w)
    ensures LowerBound(y, [h] + w)
  {
    var r := [h] + w;
    forall j | 0 < j < |r| ensures StrLe(y, r[j]) {
      assert r[j] == w[j - 1];
    }
  }

  /** The head of a sorted list bounds its tail, and every lower bound of the head bounds the tail. */
  lemma HeadBound(s: seq<string>)
    requires SortedNames(s) && s != []
    ensures LowerBound(s[0], s[1..])
    ensures forall y :: LowerBound(y, s) ==> LowerBound(y, s[1..])
  {
    forall j | 0 <= j < |s[1..]| ensures StrLe(s[0], s[1..][j]) {
      assert s[1..][j] == s[j + 1];
    }
    forall y | LowerBound(y, s) ensures LowerBound(y, s[1..]) {
      forall j | 0 <= j < |s[1..]| ensures StrLe(y, s[1..][j]) {
        assert s[1..][j] == s[j + 1];
      }
    }
  }

  lemma {:induction false} InsertSorted(x: string, s: seq<string>)
    requires SortedNames(s)
    ensures SortedNames(Insert(x, s))
    ensures forall y :: LowerBound(y, s) && StrLe(y, x) ==> LowerBound(y, Insert(x, s))
  {
    if s == [] {
    } else if StrLe(x, s[0]) {
      assert LowerBound(x, s) by {
        forall j | 0 < j < |s| ensures StrLe(x, s[j]) {
          StrLeTrans(x, s[0], s[j]);
        }
      }
      ConsSorted(x, s);
      forall y | LowerBound(y, s) && StrLe(y, x) ensures LowerBound(y, Insert(x, s)) {
        ConsBound(y, x, s);
      }
    } else {
      var t := s[1..];
      SortedTail(s);
      HeadBound(s);
      InsertSorted(x, t);
      StrLeTotal(x, s[0]);
      var w := Insert(x, t);
      ConsSorted(s[0], w);
      forall y | LowerBound(y, s) && StrLe(y, x) ensures LowerBound(y, Insert(x, s)) {
        ConsBound(y, s[0], w);
      }
    }
  }

  /** `properties.sort()`, as an insertion sort on names. */
  function Sort(s: seq<string>): (r: seq<string>)
    ensures multiset(r) == multiset(s)
    ensures |r| == |s|
  {
    if s == [] then []
    else
      assert s == [s[0]] + s[1..];
      Insert(s[0], Sort(s[1..]))
  }

  lemma {:induction false} SortSorted(s: seq<string>)
    ensures SortedNames(Sort(s))
  {
    if s != [] {
      SortSorted(s[1..]);
      InsertSorted(s[0], Sort(s[1..]));
    }
  }

  lemma SortedTail(a: seq<string>)
    requires SortedNames(a) && a != []
    ensures SortedNames(a[1..])
  {
    forall x, y | 0 <= x < y < |a[1..]| ensures StrLe(a[1..][x], a[1..][y]) {
      assert a[1..][x] == a[x + 1] && a[1..][y] == a[y + 1];
    }
  }

  lemma MultisetTail<T>(a: seq<T>)
    requires a != []
    ensures multiset(a[1..]) == multiset(a) - multiset{a[0]}
  {
    assert a == [a[0]] + a[1..];
  }

  /** Two sorted lists holding the same names start with the same (least) name. */
  lemma SortedHeads(a: seq<string>, b: seq<string>)
    requires SortedNames(a) && SortedNames(b) && multiset(a) == multiset(b) && a != []
    ensures b != [] && a[0] == b[0]
  {
    assert a[0] in multiset(b);
    assert b != [];
    assert b[0] in multiset(a);
    var i :| 0 <= i < |b| && b[i] == a[0];
    var j :| 0 <= j < |a| && a[j] == b[0];
    if i != 0 && j != 0 {
      assert StrLe(b[0], b[i]) && StrLe(a[0], a[j]);
      StrLeAntisym(a[0], b[0]);
    }
  }

  /** Two sorted lists of names holding the same names are the same list. */
  lemma {:induction false} SortedUnique(a: seq<string>, b: seq<string>)
    requires SortedNames(a) && SortedNames(b) && multiset(a) == multiset(b)
    ensures a == b
    decreases |a|
  {
    if a == [] {
      assert |multiset(b)| == 0;
    } else {
      SortedHeads(a, b);
      MultisetTail(a);
      MultisetTail(b);
      SortedTail(a);
      SortedTail(b);
      SortedUnique(a[1..], b[1..]);
      assert a == [a[0]] + a[1..] && b == [b[0]] + b[1..];
    }
  }

  /** Sorting depends only on which names are given, not on their order. */
  lemma SortOrderFree(a: seq<string>, b: seq<string>)
    requires multiset(a) == multiset(b)
    ensures Sort(a) == Sort(b)
  {
    SortSorted(a);
    SortSorted(b);
    SortedUnique(Sort(a), Sort(b));
  }

  /** `sep.join(parts)`. */
  function Join(sep: string, parts: seq<string>): string
  {
    if |parts| == 0 then ""
    else if |parts| == 1 then parts[0]
    else parts[0] + sep + Join(sep, parts[1..])
  }

  /** `f"{object_type}.{property_name}"`. */
  function PropertyKey(t: string, p: string): string
  {
    t + "." + p
  }

  /** `f"{object_type}.composite.{'_'.join(properties)}"`. */
  function CompositeKey(t: string, props: seq<string>): string
  {
    t + ".composite." + Join("_", props)
  }

  /** Every index key names its own type first, so `obj_type in index_key` holds for it. */
  lemma KeyContainsType(t: string, rest: string)
    ensures Contains(t + rest, t)
  {
    assert (t + rest)[0..] == t + rest;
    assert (t + rest)[..|t|] == t;
  }

  /** The text before the first dot of a string (the whole string when it has none). */
  function UpToDot(s: string): string
  {
    if s == [] || s[0] == '.' then [] else [s[0]] + UpToDot(s[1..])
  }

  /** The text after the first dot of a string (empty when it has none). */
  function AfterDot(s: string): string
  {
    if s == [] then [] else if s[0] == '.' then s[1..] else AfterDot(s[1..])
  }

  /** `index_key.split('.')[1]`, for a key holding at least one dot. */
  function SecondField(s: string): string
  {
    UpToDot(AfterDot(s))
  }

  lemma {:induction false} UpToDotFree(s: string)
    requires '.' !in s
    ensures UpToDot(s) == s
  {
    if s != [] {
      UpToDotFree(s[1..]);
    }
  }

  lemma {:induction false} AfterDotFree(t: string, rest: string)
    requires '.' !in t
    ensures AfterDot(t + "." + rest) == rest
  {
    if t == [] {
      assert (t + "." + rest)[1..] == rest;
    } else {
      assert (t + "." + rest)[1..] == t[1..] + "." + rest;
      AfterDotFree(t[1..], rest);
    }
  }

  /** Splitting a property key on dots gives back its property name when neither name holds a dot. */
  lemma SecondFieldOfKey(t: string, p: string)
    requires '.' !in t && '.' !in p
    ensures SecondField(PropertyKey(t, p)) == p
  {
    AfterDotFree(t, p);
    UpToDotFree(p);
  }

  // ---------------------------------------------------------------------
  // AdvancedIndexManager

  /** `IndexDefinition` (the unused `unique` and `case_sensitive` flags are left out). */
  datatype IndexDefinition = IndexDefinition(objectType: string, properties: seq<string>, indexType: string)

  /** One link type's adjacency: source key -> target keys and target key -> source keys. */
  datatype LinkMaps = LinkMaps(source: Buckets<Value>, target: Buckets<Value>)

  /** The manager's indexes; composite indexes keep their creation order. */
  datatype ManagerState = ManagerState(
    primary: map<string, map<Value, ObjectInstance>>,
    property: map<string, BTree>,
    composite: PyDict.Dict<string, Composite>,
    links: map<string, LinkMaps>,
    registry: map<string, IndexDefinition>)

  /** Every index sits under the key built from its own type and properties. */
  ghost predicate ManagerWf(st: ManagerState)
  {
    PyDict.Wf(st.composite) && StoresWf(st.primary) && PropertiesWf(st.property) && CompositesWf(st.composite.vals)
  }

  /** Each object is stored under its own type and its own primary key. */
  ghost predicate StoresWf(primary: map<string, map<Value, ObjectInstance>>)
  {
    forall t, pk :: t in primary && pk in primary[t] ==> primary[t][pk].typeName == t && primary[t][pk].pk == pk
  }

  ghost predicate PropertiesWf(pi: map<string, BTree>)
  {
    forall k :: k in pi ==> k == PropertyKey(pi[k].objectType, pi[k].property) && BTreeWf(pi[k])
  }

  ghost predicate CompositesWf(ci: map<string, Composite>)
  {
    forall k :: k in ci ==> k == CompositeKey(ci[k].objectType, ci[k].properties) && CompositeWf(ci[k])
  }

  function EmptyManager(): (st: ManagerState)
    ensures ManagerWf(st)
  {
    ManagerState(map[], map[], PyDict.Empty(), map[], map[])
  }

  /** `create_property_index`: idempotent, btree only, and the new index starts empty. */
  function CreatedProperty(st: ManagerState, t: string, p: string, indexType: string): (ManagerState, Result<string>)
  {
    var key := PropertyKey(t, p);
    if key in st.property then (st, Ok(key))
    else if indexType != "btree" then (st, Err(ValueError))
    else
      (st.(property := st.property[key := BTree(t, p, map[])],
           registry := st.registry[key := IndexDefinition(t, [p], indexType)]),
       Ok(key))
  }

  lemma CreatePropertySpec(st: ManagerState, t: string, p: string, indexType: string)
    requires ManagerWf(st)
    ensures var (st1, r) := CreatedProperty(st, t, p, indexType);
      && ManagerWf(st1)
      && (r.Err? <==> PropertyKey(t, p) !in st.property && indexType != "btree")
      && (r.Err? ==> r.exc == ValueError && st1 == st)
      && (r.Ok? ==> r.value == PropertyKey(t, p) && r.value in st1.property)
      && (PropertyKey(t, p) !in st.property && r.Ok? ==> st1.property[r.value].buckets == map[])
      && CreatedProperty(st1, t, p, indexType) == (st1, r)
      && (forall k :: k in st.property ==> k in st1.property && st1.property[k] == st.property[k])
  {
  }

  /** `create_composite_index`: at least two properties, sorted, idempotent, starting empty. */
  function CreatedComposite(st: ManagerState, t: string, props: seq<string>): (ManagerState, Result<string>)
  {
    if |props| < 2 then (st, Err(ValueError))
    else
      var sorted := Sort(props);
      var key := CompositeKey(t, sorted);
      if key in st.composite.vals then (st, Ok(key))
      else
        (st.(composite := PyDict.Put(st.composite, key, Composite(t, sorted, map[])),
             registry := st.registry[key := IndexDefinition(t, sorted, "composite")]),
         Ok(key))
  }

  /** Adding a fresh composite index under its own key keeps the manager well formed. */
  lemma AddCompositeWf(st: ManagerState, key: string, c: Composite, reg: map<string, IndexDefinition>)
    requires ManagerWf(st) && key !in st.composite.vals
    requires key == CompositeKey(c.objectType, c.properties) && CompositeWf(c)
    ensures ManagerWf(st.(composite := PyDict.Put(st.composite, key, c), registry := reg))
  {
  }

  lemma CreateCompositeWf(st: ManagerState, t: string, props: seq<string>)
    requires ManagerWf(st)
    ensures ManagerWf(CreatedComposite(st, t, props).0)
  {
    if |props| >= 2 {
      var key := CompositeKey(t, Sort(props));
      if key !in st.composite.vals {
        AddCompositeWf(st, key, Composite(t, Sort(props), map[]),
                       st.registry[key := IndexDefinition(t, Sort(props), "composite")]);
      }
    }
  }

  lemma CreateCompositeSpec(st: ManagerState, t: string, props: seq<string>)
    requires ManagerWf(st)
    ensures CreatedComposite(st, t, props).1.Err? <==> |props| < 2
    ensures |props| < 2 ==> CreatedComposite(st, t, props) == (st, Err(ValueError))
    ensures |props| >= 2 ==> CreatedComposite(st, t, props).1 == Ok(CompositeKey(t, Sort(props)))
    ensures |props| >= 2 ==> CompositeKey(t, Sort(props)) in CreatedComposite(st, t, props).0.composite.vals
    ensures |props| >= 2 && CompositeKey(t, Sort(props)) !in st.composite.vals ==>
      var c := CreatedComposite(st, t, props).0.composite.vals[CompositeKey(t, Sort(props))];
      c.keyed == map[] && SortedNames(c.properties) && multiset(c.properties) == multiset(props)
  {
    SortSorted(props);
  }

  /** Creating the same composite index twice changes nothing the second time. */
  lemma CreateCompositeIdempotent(st: ManagerState, t: string, props: seq<string>)
    ensures var (st1, r) := CreatedComposite(st, t, props);
      CreatedComposite(st1, t, props) == (st1, r)
  {
  }

  /** The composite key does not depend on the order in which the properties are given. */
  lemma CompositeOrderFree(st: ManagerState, t: string, a: seq<string>, b: seq<string>)
    requires multiset(a) == multiset(b)
    ensures CreatedComposite(st, t, a) == CreatedComposite(st, t, b)
  {
    SortOrderFree(a, b);
  }


  /** `primary_index.get(object_type, {})`. */
  function StoreOf(st: ManagerState, t: string): map<Value, ObjectInstance>
  {
    if t in st.primary then st.primary[t] else map[]
  }

  /** `[obj_store.get(pk) for pk in primary_keys if pk in obj_store]`. */
  function Lookup(store: map<Value, ObjectInstance>, pks: seq<Value>): (r: seq<ObjectInstance>)
    ensures |r| <= |pks|
    ensures forall x :: x in r ==> exists pk :: pk in pks && pk in store && store[pk] == x
    ensures (forall pk :: pk in pks ==> pk in store) ==>
      |r| == |pks| && forall i :: 0 <= i < |pks| ==> r[i] == store[pks[i]]
    ensures (forall pk :: pk in pks ==> pk !in store) ==> r == []
  {
    if pks == [] then []
    else (if pks[0] in store then [store[pks[0]]] else []) + Lookup(store, pks[1..])
  }

  /** `find_objects_by_primary_key`. */
  function FindByPks(st: ManagerState, t: string, pks: seq<Value>): seq<ObjectInstance>
  {
    Lookup(StoreOf(st, t), pks)
  }

  /** `index.add(obj)` / `index.remove(obj)` on the property indexes of `done` whose key contains the type name. */
  function PropertyStepIn(pi: map<string, BTree>, o: ObjectInstance, adding: bool, done: set<string>): map<string, BTree>
  {
    map k | k in pi :: if k in done && Contains(k, o.typeName) then
      (if adding then BTreeAdd(pi[k], o) else BTreeRemove(pi[k], o)) else pi[k]
  }

  /** The same on the composite indexes of `done`. */
  function CompositeStepIn(ci: map<string, Composite>, o: ObjectInstance, adding: bool, done: set<string>): map<string, Composite>
  {
    map k | k in ci :: if k in done && Contains(k, o.typeName) then
      (if adding then CompositeAdd(ci[k], o) else CompositeRemove(ci[k], o)) else ci[k]
  }

  lemma PropertyStepNext(pi: map<string, BTree>, o: ObjectInstance, adding: bool, done: set<string>, k: string)
    requires k in pi && k !in done
    ensures PropertyStepIn(pi, o, adding, done + {k}) ==
      if Contains(k, o.typeName) then
        PropertyStepIn(pi, o, adding, done)[k := if adding then BTreeAdd(pi[k], o) else BTreeRemove(pi[k], o)]
      else PropertyStepIn(pi, o, adding, done)
  {
  }

  lemma CompositeStepNext(ci: map<string, Composite>, o: ObjectInstance, adding: bool, done: set<string>, k: string)
    requires k in ci && k !in done
    ensures CompositeStepIn(ci, o, adding, done + {k}) ==
      if Contains(k, o.typeName) then
        CompositeStepIn(ci, o, adding, done)[k := if adding then CompositeAdd(ci[k], o) else CompositeRemove(ci[k], o)]
      else CompositeStepIn(ci, o, adding, done)
  {
  }

  /** The loop of `index_object` / `remove_object` over the property indexes. */
  method StepProperties(pi: map<string, BTree>, o: ObjectInstance, adding: bool) returns (r: map<string, BTree>)
    ensures r == PropertyStepIn(pi, o, adding, pi.Keys)
  {
    r := pi;
    var todo := pi.Keys;
    ghost var done: set<string> := {};
    while todo != {}
      invariant todo + done == pi.Keys && todo !! done
      invariant r == PropertyStepIn(pi, o, adding, done)
      decreases todo
    {
      var k :| k in todo;
      PropertyStepNext(pi, o, adding, done, k);
      if Contains(k, o.typeName) {
        r := r[k := if adding then BTreeAdd(pi[k], o) else BTreeRemove(pi[k], o)];
      }
      todo := todo - {k};
      done := done + {k};
    }
  }

  /** The loop of `index_object` / `remove_object` over the composite indexes. */
  method StepComposites(ci: map<string, Composite>, o: ObjectInstance, adding: bool) returns (r: map<string, Composite>)
    ensures r == CompositeStepIn(ci, o, adding, ci.Keys)
  {
    r := ci;
    var todo := ci.Keys;
    ghost var done: set<string> := {};
    while todo != {}
      invariant todo + done == ci.Keys && todo !! done
      invariant r == CompositeStepIn(ci, o, adding, done)
      decreases todo
    {
      var k :| k in todo;
      CompositeStepNext(ci, o, adding, done, k);
      if Contains(k, o.typeName) {
        r := r[k := if adding then CompositeAdd(ci[k], o) else CompositeRemove(ci[k], o)];
      }
      todo := todo - {k};
      done := done + {k};
    }
  }

  /** `index_object`: store the object under its key when its type is registered, and add it to the indexes. */
  function IndexedIn(st: ManagerState, o: ObjectInstance): ManagerState
  {
    var t := o.typeName;
    st.(primary := if t in st.primary then st.primary[t := st.primary[t][o.pk := o]] else st.primary,
        property := PropertyStepIn(st.property, o, true, st.property.Keys),
        composite := st.composite.(vals := CompositeStepIn(st.composite.vals, o, true, st.composite.vals.Keys)))
  }

  /** `remove_object`: `pop` the object's key when its type is registered, and remove it from the indexes. */
  function RemovedIn(st: ManagerState, o: ObjectInstance): ManagerState
  {
    var t := o.typeName;
    st.(primary := if t in st.primary then st.primary[t := st.primary[t] - {o.pk}] else st.primary,
        property := PropertyStepIn(st.property, o, false, st.property.Keys),
        composite := st.composite.(vals := CompositeStepIn(st.composite.vals, o, false, st.composite.vals.Keys)))
  }

  lemma PropertyStepWf(pi: map<string, BTree>, o: ObjectInstance, adding: bool)
    requires PropertiesWf(pi)
    ensures PropertiesWf(PropertyStepIn(pi, o, adding, pi.Keys))
  {
    var r := PropertyStepIn(pi, o, adding, pi.Keys);
    forall k | k in r ensures k == PropertyKey(r[k].objectType, r[k].property) && BTreeWf(r[k]) {
      BTreeAddRemoveSpec(pi[k], o);
    }
  }

  lemma CompositeStepWf(ci: map<string, Composite>, o: ObjectInstance, adding: bool)
    requires CompositesWf(ci)
    ensures CompositesWf(CompositeStepIn(ci, o, adding, ci.Keys))
  {
    var r := CompositeStepIn(ci, o, adding, ci.Keys);
    forall k | k in r ensures k == CompositeKey(r[k].objectType, r[k].properties) && CompositeWf(r[k]) {
      CompositeRoundTripWf(ci[k], o);
    }
  }

  /** Indexing and removing objects keep every index under its own key and well formed. */
  lemma IndexedWf(st: ManagerState, o: ObjectInstance)
    requires ManagerWf(st)
    ensures ManagerWf(IndexedIn(st, o)) && ManagerWf(RemovedIn(st, o))
  {
    PropertyStepWf(st.property, o, true);
    PropertyStepWf(st.property, o, false);
    CompositeStepWf(st.composite.vals, o, true);
    CompositeStepWf(st.composite.vals, o, false);
  }

  /** `add` (or `remove`) applied to every property index, whatever its key. */
  function PropertyStepAll(pi: map<string, BTree>, o: ObjectInstance, adding: bool): map<string, BTree>
  {
    map k | k in pi :: if adding then BTreeAdd(pi[k], o) else BTreeRemove(pi[k], o)
  }

  /** `add` (or `remove`) applied to every composite index, whatever its key. */
  function CompositeStepAll(ci: map<string, Composite>, o: ObjectInstance, adding: bool): map<string, Composite>
  {
    map k | k in ci :: if adding then CompositeAdd(ci[k], o) else CompositeRemove(ci[k], o)
  }

  lemma PropertyTypeTest(pi: map<string, BTree>, o: ObjectInstance, adding: bool)
    requires forall k :: k in pi ==> k == PropertyKey(pi[k].objectType, pi[k].property)
    ensures PropertyStepIn(pi, o, adding, pi.Keys) == PropertyStepAll(pi, o, adding)
  {
    forall k | k in pi && pi[k].objectType == o.typeName ensures Contains(k, o.typeName) {
      KeyContainsType(o.typeName, "." + pi[k].property);
      assert k == o.typeName + ("." + pi[k].property);
    }
  }

  lemma CompositeTypeTest(ci: map<string, Composite>, o: ObjectInstance, adding: bool)
    requires forall k :: k in ci ==> k == CompositeKey(ci[k].objectType, ci[k].properties)
    ensures CompositeStepIn(ci, o, adding, ci.Keys) == CompositeStepAll(ci, o, adding)
  {
    forall k | k in ci && ci[k].objectType == o.typeName ensures Contains(k, o.typeName) {
      KeyContainsType(o.typeName, ".composite." + Join("_", ci[k].properties));
      assert k == o.typeName + (".composite." + Join("_", ci[k].properties));
    }
  }

  /**
   * The substring test `obj_type in index_key` is harmless on well-formed
   * managers: it skips only indexes of other types, which ignore the object
   * anyway, so the object reaches exactly the indexes of its own type.
   */
  lemma TypeTestHarmless(st: ManagerState, o: ObjectInstance)
    requires ManagerWf(st)
    ensures IndexedIn(st, o).property == PropertyStepAll(st.property, o, true)
    ensures RemovedIn(st, o).property == PropertyStepAll(st.property, o, false)
    ensures IndexedIn(st, o).composite.vals == CompositeStepAll(st.composite.vals, o, true)
    ensures RemovedIn(st, o).composite.vals == CompositeStepAll(st.composite.vals, o, false)
  {
    PropertyTypeTest(st.property, o, true);
    PropertyTypeTest(st.property, o, false);
    CompositeTypeTest(st.composite.vals, o, true);
    CompositeTypeTest(st.composite.vals, o, false);
  }

  /**
   * After `index_object`, the object is found by its key (when its type is
   * registered) and sits in the bucket of every own-type property index for
   * which it has a value; after `remove_object`, its key is gone.
   */
  lemma IndexThenFind(st: ManagerState, o: ObjectInstance)
    requires ManagerWf(st) && o.typeName in st.primary
    ensures FindByPks(IndexedIn(st, o), o.typeName, [o.pk]) == [o]
    ensures FindByPks(RemovedIn(st, o), o.typeName, [o.pk]) == []
    ensures forall k :: (k in st.property && st.property[k].objectType == o.typeName &&
                         PropOf(o, st.property[k].property) != Null) ==>
      o.pk in Bucket(IndexedIn(st, o).property[k].buckets, PropOf(o, st.property[k].property))
  {
    TypeTestHarmless(st, o);
  }

  // ---------------------------------------------------------------------
  // Best-index selection

  /** Whether the composite index `c` under `key` qualifies: its key names the type, and its properties equal (or cover) the filter properties. */
  predicate Accepts(c: Composite, key: string, t: string, fprops: set<string>, exact: bool)
  {
    var ps := set p | p in c.properties;
    Contains(key, t) && (if exact then ps == fprops else fprops <= ps)
  }

  /** One pass of `_find_best_index` over the composite indexes in creation order. */
  function FirstComposite(keys: seq<string>, ci: map<string, Composite>, t: string, fprops: set<string>, exact: bool): (r: Option<string>)
    requires forall k :: k in keys ==> k in ci
    ensures r.None? <==> forall i :: 0 <= i < |keys| ==> !Accepts(ci[keys[i]], keys[i], t, fprops, exact)
    ensures r.Some? ==>
      exists i :: (0 <= i < |keys| && keys[i] == r.value &&
                   Accepts(ci[keys[i]], keys[i], t, fprops, exact) &&
                   forall j :: 0 <= j < i ==> !Accepts(ci[keys[j]], keys[j], t, fprops, exact))
  {
    if keys == [] then None
    else if Accepts(ci[keys[0]], keys[0], t, fprops, exact) then Some(keys[0])
    else
      var r := FirstComposite(keys[1..], ci, t, fprops, exact);
      assert forall i :: 1 <= i < |keys| ==> keys[i] == keys[1..][i - 1];
      r
  }

  /** The third pass: the first filter property, in filter order, with a property index of the type. */
  function FirstProperty(fkeys: seq<string>, pi: map<string, BTree>, t: string): (r: Option<string>)
    ensures r.None? <==> forall i :: 0 <= i < |fkeys| ==> PropertyKey(t, fkeys[i]) !in pi
    ensures r.Some? ==>
      exists i :: (0 <= i < |fkeys| && r.value == PropertyKey(t, fkeys[i]) && r.value in pi &&
                   forall j :: 0 <= j < i ==> PropertyKey(t, fkeys[j]) !in pi)
  {
    if fkeys == [] then None
    else if PropertyKey(t, fkeys[0]) in pi then Some(PropertyKey(t, fkeys[0]))
    else
      var r := FirstProperty(fkeys[1..], pi, t);
      assert forall i :: 1 <= i < |fkeys| ==> fkeys[i] == fkeys[1..][i - 1];
      r
  }

  /** `_find_best_index`: an exact composite match, else a covering composite, else a property index, else None. */
  function FindBestIndex(st: ManagerState, t: string, filters: PyDict.Dict<string, Value>): Option<string>
    requires PyDict.Wf(st.composite)
  {
    var fprops := set p | p in filters.keys;
    var exact := FirstComposite(st.composite.keys, st.composite.vals, t, fprops, true);
    if exact.Some? then exact
    else
      var cover := FirstComposite(st.composite.keys, st.composite.vals, t, fprops, false);
      if cover.Some? then cover
      else FirstProperty(filters.keys, st.property, t)
  }

  /** An exact composite match wins whenever there is one. */
  lemma FindBestExact(st: ManagerState, t: string, filters: PyDict.Dict<string, Value>)
    requires PyDict.Wf(st.composite)
    requires exists k :: k in st.composite.vals && Accepts(st.composite.vals[k], k, t, set p | p in filters.keys, true)
    ensures var r := FindBestIndex(st, t, filters);
      r.Some? && r.value in st.composite.vals &&
      Accepts(st.composite.vals[r.value], r.value, t, set p | p in filters.keys, true)
  {
    var fprops := set p | p in filters.keys;
    var keys := st.composite.keys;
    var k :| k in st.composite.vals && Accepts(st.composite.vals[k], k, t, fprops, true);
    var i :| 0 <= i < |keys| && keys[i] == k;
    assert FirstComposite(keys, st.composite.vals, t, fprops, true).Some?;
  }

  /**
   * There is no usable index exactly when no composite index of the type
   * covers the filter properties and no filter property has a property
   * index of the type.
   */
  lemma FindBestNone(st: ManagerState, t: string, filters: PyDict.Dict<string, Value>)
    requires PyDict.Wf(st.composite)
    ensures FindBestIndex(st, t, filters).None? <==>
      (forall k :: k in st.composite.vals ==> !Accepts(st.composite.vals[k], k, t, set p | p in filters.keys, false)) &&
      (forall p :: p in filters.keys ==> PropertyKey(t, p) !in st.property)
  {
    var fprops := set p | p in filters.keys;
    var keys := st.composite.keys;
    var ci := st.composite.vals;
    forall k | k in ci && Accepts(ci[k], k, t, fprops, true) ensures Accepts(ci[k], k, t, fprops, false) {
    }
    if FirstComposite(keys, ci, t, fprops, false).None? {
      forall k | k in ci ensures !Accepts(ci[k], k, t, fprops, false) {
        var i :| 0 <= i < |keys| && keys[i] == k;
      }
    }
    if FirstProperty(filters.keys, st.property, t).None? {
      forall p | p in filters.keys ensures PropertyKey(t, p) !in st.property {
        var i :| 0 <= i < |filters.keys| && filters.keys[i] == p;
      }
    }
  }

  /** `query_with_index` (its timing and query statistics are not modelled). */
  ghost function QueryWith(st: ManagerState, t: string, filters: PyDict.Dict<string, Value>): set<Value>
    requires PyDict.Wf(st.composite) && PyDict.Wf(filters)
  {
    match FindBestIndex(st, t, filters)
    case None => {}
    case Some(k) => QueryVia(st, k, filters)
  }

  /** What `query_with_index` reads from the chosen index `k`. */
  ghost function QueryVia(st: ManagerState, k: string, filters: PyDict.Dict<string, Value>): set<Value>
    requires PyDict.Wf(filters)
  {
    if k in st.property then
      var p := SecondField(k);
      if p in filters.vals then Bucket(st.property[k].buckets, filters.vals[p]) else {}
    else if k in st.composite.vals then
      var c := st.composite.vals[k];
      if forall q :: q in c.properties ==> q in filters.vals then CompositeQuery(c, filters.vals)
      else PartialOf(c, filters)
    else {}
  }

  /** The lookup step of `query_with_index` on the chosen index. */
  method QueryIndex(st: ManagerState, k: string, filters: PyDict.Dict<string, Value>) returns (r: set<Value>)
    requires PyDict.Wf(filters)
    ensures r == QueryVia(st, k, filters)
  {
    if k in st.property {
      var p := SecondField(k);
      r := if p in filters.vals then Bucket(st.property[k].buckets, filters.vals[p]) else {};
    } else if k in st.composite.vals {
      var c := st.composite.vals[k];
      if forall q :: q in c.properties ==> q in filters.vals {
        r := CompositeQuery(c, filters.vals);
      } else if !PrefixFilters(c, filters) {
        r := {};
      } else {
        r := PrefixQuery(c.keyed, PropertyOrderPrefix(c, filters));
      }
    } else {
      r := {};
    }
  }

  // ---------------------------------------------------------------------
  // Link index

  /** `link_index[link_type]['source']` (or `['target']`), or no entry when the link type is unknown. */
  function Side(links: map<string, LinkMaps>, lt: string, forward: bool): Buckets<Value>
  {
    if lt !in links then map[] else if forward then links[lt].source else links[lt].target
  }

  /** `index_link` with a set at the innermost level: both directions gain the link. */
  function LinkAdded(links: map<string, LinkMaps>, l: Link): (r: map<string, LinkMaps>)
    ensures l.linkType in r && r.Keys == links.Keys + {l.linkType}
    ensures forall lt :: lt != l.linkType && lt in links ==> r[lt] == links[lt]
  {
    var m := if l.linkType in links then links[l.linkType] else LinkMaps(map[], map[]);
    links[l.linkType := LinkMaps(Put(m.source, l.source, l.target), Put(m.target, l.target, l.source))]
  }

  /**
   * The corrected `remove_link`, with a set at the innermost level (as
   * `LinkAdded` has): both directions lose the link, and the link type and
   * both keys keep a (possibly empty) entry, as a `defaultdict(set)` inner
   * level would leave them.  As written the inner level is a plain dict and
   * the call raises KeyError (`RemoveLinkRaises`).
   */
  function LinkRemoved(links: map<string, LinkMaps>, l: Link): (r: map<string, LinkMaps>)
    ensures l.linkType in r && r.Keys == links.Keys + {l.linkType}
    ensures forall lt :: lt != l.linkType && lt in links ==> r[lt] == links[lt]
  {
    var m := if l.linkType in links then links[l.linkType] else LinkMaps(map[], map[]);
    links[l.linkType := LinkMaps(
      m.source[l.source := Bucket(m.source, l.source) - {l.target}],
      m.target[l.target := Bucket(m.target, l.target) - {l.source}])]
  }

  /** The two directions of the link index mirror each other. */
  ghost predicate Symmetric(links: map<string, LinkMaps>)
  {
    forall lt :: lt in links ==> Mirrored(links[lt])
  }

  /** Adding and removing links keep the two directions mirrored. */
  lemma LinksStaySymmetric(links: map<string, LinkMaps>, l: Link)
    requires Symmetric(links)
    ensures Symmetric(LinkAdded(links, l)) && Symmetric(LinkRemoved(links, l))
  {
    var m := if l.linkType in links then links[l.linkType] else LinkMaps(map[], map[]);
    MirroredPut(m, l);
    MirroredDiscard(m, l);
  }

  ghost predicate Mirrored(m: LinkMaps)
  {
    forall s, t :: t in Bucket(m.source, s) <==> s in Bucket(m.target, t)
  }

  lemma MirroredPut(m: LinkMaps, l: Link)
    requires Mirrored(m)
    ensures Mirrored(LinkMaps(Put(m.source, l.source, l.target), Put(m.target, l.target, l.source)))
  {
  }

  lemma MirroredDiscard(m: LinkMaps, l: Link)
    requires Mirrored(m)
    ensures Mirrored(LinkMaps(
      m.source[l.source := Bucket(m.source, l.source) - {l.target}],
      m.target[l.target := Bucket(m.target, l.target) - {l.source}]))
  {
    var src := m.source[l.source := Bucket(m.source, l.source) - {l.target}];
    var tgt := m.target[l.target := Bucket(m.target, l.target) - {l.source}];
    forall s, t ensures t in Bucket(src, s) <==> s in Bucket(tgt, t) {
      assert Bucket(src, s) == if s == l.source then Bucket(m.source, s) - {l.target} else Bucket(m.source, s);
      assert Bucket(tgt, t) == if t == l.target then Bucket(m.target, t) - {l.source} else Bucket(m.target, t);
    }
  }

  /** `get_related_objects`: `{}` for an unknown link type, otherwise each key's neighbours (an empty set when it has none). */
  function Related(links: map<string, LinkMaps>, lt: string, pks: seq<Value>, direction: string): (r: map<Value, set<Value>>)
    ensures lt !in links ==> r == map[]
    ensures lt in links ==> r.Keys == set pk | pk in pks
  {
    if lt !in links then map[]
    else map pk | pk in pks :: Bucket(Side(links, lt, direction == "forward"), pk)
  }

  /**
   * After `index_link`, the forward lookup from the source finds the target
   * and the reverse lookup from the target finds the source; on a mirrored
   * index, forward and reverse lookups always agree.
   */
  lemma LinkLookups(links: map<string, LinkMaps>, l: Link)
    requires Symmetric(links)
    ensures l.target in Related(LinkAdded(links, l), l.linkType, [l.source], "forward")[l.source]
    ensures l.source in Related(LinkAdded(links, l), l.linkType, [l.target], "reverse")[l.target]
    ensures l.target !in Related(LinkRemoved(links, l), l.linkType, [l.source], "forward")[l.source]
    ensures forall lt, s, t :: lt in links ==>
      (t in Related(links, lt, [s], "forward")[s] <==> s in Related(links, lt, [t], "reverse")[t])
  {
  }

  /**
   * `index_link` as written: `link_index` is a `defaultdict(lambda:
   * defaultdict(dict))`, so `link_index[lt]['source']` is a plain dict and
   * `[source_pk].add(...)` raises KeyError unless the key is already there.
   * The link-type entry and the 'source' dict are created before the error.
   */
  function IndexLinkAsWritten(links: map<string, map<string, Buckets<Value>>>, l: Link): (map<string, map<string, Buckets<Value>>>, Result<()>)
  {
    var inner := if l.linkType in links then links[l.linkType] else map[];
    var src := if "source" in inner then inner["source"] else map[];
    if l.source !in src then (links[l.linkType := inner["source" := src]], Err(KeyError))
    else
      var inner1 := inner["source" := src[l.source := src[l.source] + {l.target}]];
      var tgt := if "target" in inner1 then inner1["target"] else map[];
      if l.target !in tgt then (links[l.linkType := inner1["target" := tgt]], Err(KeyError))
      else (links[l.linkType := inner1["target" := tgt[l.target := tgt[l.target] + {l.source}]]], Ok(()))
  }

  /** Every innermost dict of the as-written link index is empty, as the constructor leaves it. */
  ghost predicate NoLinkKeys(links: map<string, map<string, Buckets<Value>>>)
  {
    forall lt, side :: lt in links && side in links[lt] ==> links[lt][side] == map[]
  }

  /**
   * As written, no link is ever indexed: from the constructor's state every
   * `index_link` raises KeyError and leaves the index without any key, so
   * forward lookups stay empty; the corrected index finds the link.
   */
  lemma IndexLinkRaises(links: map<string, map<string, Buckets<Value>>>, l: Link)
    requires NoLinkKeys(links)
    ensures IndexLinkAsWritten(links, l).1 == Err(KeyError)
    ensures NoLinkKeys(IndexLinkAsWritten(links, l).0)
    ensures l.target in Bucket(Side(LinkAdded(map[], l), l.linkType, true), l.source)
  {
  }

  /**
   * `remove_link` as written: `link_index[lt]['source']` is a plain dict, so
   * `[source_pk].discard(...)` raises KeyError unless the key is already
   * there.  The link-type entry and the 'source' dict are created before the
   * error.
   */
  function RemoveLinkAsWritten(links: map<string, map<string, Buckets<Value>>>, l: Link): (map<string, map<string, Buckets<Value>>>, Result<()>)
  {
    var inner := if l.linkType in links then links[l.linkType] else map[];
    var src := if "source" in inner then inner["source"] else map[];
    if l.source !in src then (links[l.linkType := inner["source" := src]], Err(KeyError))
    else
      var inner1 := inner["source" := src[l.source := src[l.source] - {l.target}]];
      var tgt := if "target" in inner1 then inner1["target"] else map[];
      if l.target !in tgt then (links[l.linkType := inner1["target" := tgt]], Err(KeyError))
      else (links[l.linkType := inner1["target" := tgt[l.target := tgt[l.target] - {l.source}]]], Ok(()))
  }

  /**
   * As written, `remove_link` always raises: the as-written index never holds
   * a key (`IndexLinkRaises`), so every call raises KeyError and leaves it
   * without keys; the corrected `LinkRemoved` drops the link in both
   * directions.
   */
  lemma RemoveLinkRaises(links: map<string, map<string, Buckets<Value>>>, l: Link, fixed: map<string, LinkMaps>)
    requires NoLinkKeys(links)
    ensures RemoveLinkAsWritten(links, l).1 == Err(KeyError)
    ensures NoLinkKeys(RemoveLinkAsWritten(links, l).0)
    ensures l.target !in Bucket(Side(LinkRemoved(fixed, l), l.linkType, true), l.source)
    ensures l.source !in Bucket(Side(LinkRemoved(fixed, l), l.linkType, false), l.target)
  {
  }

  /** `AdvancedIndexManager` (its index and query statistics are not modelled). */
  class AdvancedIndexManager {
    var primary: map<string, map<Value, ObjectInstance>>
    var property: map<string, BTree>
    var composite: PyDict.Dict<string, Composite>
    var links: map<string, LinkMaps>
    var registry: map<string, IndexDefinition>

    function Snapshot(): ManagerState
      reads this
    {
      ManagerState(primary, property, composite, links, registry)
    }

    ghost predicate Valid()
      reads this
    {
      ManagerWf(Snapshot()) && Symmetric(links)
    }

    constructor ()
      ensures Snapshot() == EmptyManager()
      ensures Valid()
    {
      primary := map[];
      property := map[];
      composite := PyDict.Empty();
      links := map[];
      registry := map[];
    }

    /** `register_object_type`: (re)start the type's primary-key store empty. */
    method RegisterObjectType(t: string)
      requires Valid()
      modifies this
      ensures Snapshot() == old(Snapshot()).(primary := old(primary)[t := map[]])
      ensures Valid()
    {
      primary := primary[t := map[]];
    }

    method CreatePropertyIndex(t: string, p: string, indexType: string) returns (r: Result<string>)
      requires Valid()
      modifies this
      ensures (Snapshot(), r) == CreatedProperty(old(Snapshot()), t, p, indexType)
      ensures Valid()
    {
      CreatePropertySpec(Snapshot(), t, p, indexType);
      var key := PropertyKey(t, p);
      if key in property {
        return Ok(key);
      }
      if indexType != "btree" {
        return Err(ValueError);
      }
      property := property[key := BTree(t, p, map[])];
      registry := registry[key := IndexDefinition(t, [p], indexType)];
      r := Ok(key);
    }

    method CreateCompositeIndex(t: string, props: seq<string>) returns (r: Result<string>)
      requires Valid()
      modifies this
      ensures (Snapshot(), r) == CreatedComposite(old(Snapshot()), t, props)
      ensures Valid()
    {
      CreateCompositeWf(Snapshot(), t, props);
      if |props| < 2 {
        return Err(ValueError);
      }
      var sorted := Sort(props);
      var key := CompositeKey(t, sorted);
      if key in composite.vals {
        return Ok(key);
      }
      composite := PyDict.Put(composite, key, Composite(t, sorted, map[]));
      registry := registry[key := IndexDefinition(t, sorted, "composite")];
      r := Ok(key);
    }

    method IndexObject(o: ObjectInstance)
      requires Valid()
      modifies this
      ensures Snapshot() == IndexedIn(old(Snapshot()), o)
      ensures Valid()
    {
      IndexedWf(Snapshot(), o);
      var t := o.typeName;
      var stores := if t in primary then primary[t := primary[t][o.pk := o]] else primary;
      var props := StepProperties(property, o, true);
      var vals := StepComposites(composite.vals, o, true);
      primary, property, composite := stores, props, PyDict.Dict(composite.keys, vals);
    }

    method RemoveObject(o: ObjectInstance)
      requires Valid()
      modifies this
      ensures Snapshot() == RemovedIn(old(Snapshot()), o)
      ensures Valid()
    {
      IndexedWf(Snapshot(), o);
      var t := o.typeName;
      var stores := if t in primary then primary[t := primary[t] - {o.pk}] else primary;
      var props := StepProperties(property, o, false);
      var vals := StepComposites(composite.vals, o, false);
      primary, property, composite := stores, props, PyDict.Dict(composite.keys, vals);
    }

    method IndexLink(l: Link)
      requires Valid()
      modifies this
      ensures Snapshot() == old(Snapshot()).(links := LinkAdded(old(links), l))
      ensures Valid()
    {
      LinksStaySymmetric(links, l);
      links := LinkAdded(links, l);
    }

    method RemoveLink(l: Link)
      requires Valid()
      modifies this
      ensures Snapshot() == old(Snapshot()).(links := LinkRemoved(old(links), l))
      ensures Valid()
    {
      LinksStaySymmetric(links, l);
      links := LinkRemoved(links, l);
    }

    function FindObjectsByPrimaryKey(t: string, pks: seq<Value>): seq<ObjectInstance>
      reads this
    {
      FindByPks(Snapshot(), t, pks)
    }

    function GetRelatedObjects(lt: string, pks: seq<Value>, direction: string): map<Value, set<Value>>
      reads this
    {
      Related(links, lt, pks, direction)
    }

    method QueryWithIndex(t: string, filters: PyDict.Dict<string, Value>) returns (r: set<Value>)
      requires Valid() && PyDict.Wf(filters)
      ensures r == QueryWith(Snapshot(), t, filters)
      ensures FindBestIndex(Snapshot(), t, filters).None? ==> r == {}
    {
      var best := FindBestIndex(Snapshot(), t, filters);
      if best.None? {
        return {};
      }
      r := QueryIndex(Snapshot(), best.value, filters);
    }
  }

  // ---------------------------------------------------------------------
  // HierarchicalIndex

  /** The states of the hot, warm and cold managers. */
  datatype Tiers = Tiers(hot: ManagerState, warm: ManagerState, cold: ManagerState)

  /** `access_tracker[object_type][primary_key]` (a missing entry reads as 0). */
  function Count(tracker: map<(string, Value), nat>, t: string, pk: Value): nat
  {
    if (t, pk) in tracker then tracker[(t, pk)] else 0
  }

  /** `HierarchicalIndex.index_object` for an object accessed `freq` times. */
  function Placed(ts: Tiers, o: ObjectInstance, freq: nat, hotT: int, warmT: int): Tiers
  {
    if freq >= hotT then Tiers(IndexedIn(ts.hot, o), RemovedIn(ts.warm, o), RemovedIn(ts.cold, o))
    else if freq >= warmT then Tiers(RemovedIn(ts.hot, o), IndexedIn(ts.warm, o), RemovedIn(ts.cold, o))
    else Tiers(RemovedIn(ts.hot, o), RemovedIn(ts.warm, o), IndexedIn(ts.cold, o))
  }

  /** `_promote_to_warm`: move the cold tier's copy, if any, to the warm tier. */
  function PromotedToWarm(ts: Tiers, t: string, pk: Value): Tiers
  {
    var found := FindByPks(ts.cold, t, [pk]);
    if found == [] then ts
    else Tiers(ts.hot, IndexedIn(ts.warm, found[0]), RemovedIn(ts.cold, found[0]))
  }

  /** `_promote_to_hot`: move the warm tier's copy, else the cold tier's, to the hot tier. */
  function PromotedToHot(ts: Tiers, t: string, pk: Value): Tiers
  {
    var inWarm := FindByPks(ts.warm, t, [pk]);
    if inWarm != [] then Tiers(IndexedIn(ts.hot, inWarm[0]), RemovedIn(ts.warm, inWarm[0]), ts.cold)
    else
      var inCold := FindByPks(ts.cold, t, [pk]);
      if inCold != [] then Tiers(IndexedIn(ts.hot, inCold[0]), ts.warm, RemovedIn(ts.cold, inCold[0]))
      else ts
  }

  /** The promotion `record_access` triggers once the count reaches `count`. */
  function AfterAccess(ts: Tiers, count: nat, hotT: int, warmT: int, t: string, pk: Value): Tiers
  {
    if count == warmT then PromotedToWarm(ts, t, pk)
    else if count == hotT then PromotedToHot(ts, t, pk)
    else ts
  }

  /** Each tier has registered the type. */
  predicate Registered(ts: Tiers, t: string)
  {
    t in ts.hot.primary && t in ts.warm.primary && t in ts.cold.primary
  }

  /**
   * `index_object` leaves the object in exactly one tier: hot at or above
   * the hot threshold, else warm at or above the warm threshold, else cold.
   */
  lemma ExactlyOneTier(ts: Tiers, o: ObjectInstance, freq: nat, hotT: int, warmT: int)
    requires Registered(ts, o.typeName)
    ensures var r := Placed(ts, o, freq, hotT, warmT);
      var t := o.typeName;
      && Registered(r, t)
      && (o.pk in r.hot.primary[t] <==> freq >= hotT)
      && (o.pk in r.warm.primary[t] <==> warmT <= freq < hotT)
      && (o.pk in r.cold.primary[t] <==> freq < warmT && freq < hotT)
      && (o.pk in r.hot.primary[t] ==> r.hot.primary[t][o.pk] == o)
      && (o.pk in r.warm.primary[t] ==> r.warm.primary[t][o.pk] == o)
      && (o.pk in r.cold.primary[t] ==> r.cold.primary[t][o.pk] == o)
  {
  }

  /** Promotion to warm moves a cold object up and leaves the hot tier alone. */
  lemma PromoteToWarmMoves(ts: Tiers, t: string, pk: Value)
    requires Registered(ts, t) && StoresWf(ts.cold.primary) && pk in ts.cold.primary[t]
    ensures var r := PromotedToWarm(ts, t, pk);
      r.hot == ts.hot && pk in r.warm.primary[t] && pk !in r.cold.primary[t] &&
      r.warm.primary[t][pk] == ts.cold.primary[t][pk]
  {
    var found := FindByPks(ts.cold, t, [pk]);
    assert found == [ts.cold.primary[t][pk]];
  }

  /** Promotion to hot prefers the warm copy, then the cold one. */
  lemma PromoteToHotMoves(ts: Tiers, t: string, pk: Value)
    requires Registered(ts, t) && StoresWf(ts.warm.primary) && StoresWf(ts.cold.primary)
    requires pk in ts.warm.primary[t] || pk in ts.cold.primary[t]
    ensures var r := PromotedToHot(ts, t, pk);
      && pk in r.hot.primary[t]
      && (pk in ts.warm.primary[t] ==>
            r.hot.primary[t][pk] == ts.warm.primary[t][pk] && pk !in r.warm.primary[t] && r.cold == ts.cold)
      && (pk !in ts.warm.primary[t] ==>
            r.hot.primary[t][pk] == ts.cold.primary[t][pk] && pk !in r.cold.primary[t] && r.warm == ts.warm)
  {
    if pk in ts.warm.primary[t] {
      assert FindByPks(ts.warm, t, [pk]) == [ts.warm.primary[t][pk]];
    } else {
      assert FindByPks(ts.warm, t, [pk]) == [];
      assert FindByPks(ts.cold, t, [pk]) == [ts.cold.primary[t][pk]];
    }
  }

  /** `HierarchicalIndex`: three managers and an access counter per (type, primary key). */
  class HierarchicalIndex {
    const hotThreshold: int
    const warmThreshold: int
    const hot: AdvancedIndexManager
    const warm: AdvancedIndexManager
    const cold: AdvancedIndexManager
    var tracker: map<(string, Value), nat>

    function TierStates(): Tiers
      reads hot, warm, cold
    {
      Tiers(hot.Snapshot(), warm.Snapshot(), cold.Snapshot())
    }

    ghost predicate Valid()
      reads this, hot, warm, cold
    {
      hot != warm && warm != cold && hot != cold && hot.Valid() && warm.Valid() && cold.Valid()
    }

    constructor (hotThreshold: int, warmThreshold: int)
      ensures Valid()
      ensures this.hotThreshold == hotThreshold && this.warmThreshold == warmThreshold
      ensures tracker == map[]
      ensures TierStates() == Tiers(EmptyManager(), EmptyManager(), EmptyManager())
    {
      this.hotThreshold := hotThreshold;
      this.warmThreshold := warmThreshold;
      hot := new AdvancedIndexManager();
      warm := new AdvancedIndexManager();
      cold := new AdvancedIndexManager();
      tracker := map[];
    }

    method IndexObject(o: ObjectInstance)
      requires Valid()
      modifies this, hot, warm, cold
      ensures Valid()
      ensures tracker == old(tracker)[(o.typeName, o.pk) := Count(old(tracker), o.typeName, o.pk)]
      ensures TierStates() == Placed(old(TierStates()), o, Count(old(tracker), o.typeName, o.pk), hotThreshold, warmThreshold)
    {
      var freq := Count(tracker, o.typeName, o.pk);
      tracker := tracker[(o.typeName, o.pk) := freq];
      if freq >= hotThreshold {
        hot.IndexObject(o);
        warm.RemoveObject(o);
        cold.RemoveObject(o);
      } else if freq >= warmThreshold {
        warm.IndexObject(o);
        hot.RemoveObject(o);
        cold.RemoveObject(o);
      } else {
        cold.IndexObject(o);
        hot.RemoveObject(o);
        warm.RemoveObject(o);
      }
    }

    method RecordAccess(t: string, pk: Value)
      requires Valid()
      modifies this, hot, warm, cold
      ensures Valid()
      ensures tracker == old(tracker)[(t, pk) := Count(old(tracker), t, pk) + 1]
      ensures TierStates() == AfterAccess(old(TierStates()), Count(old(tracker), t, pk) + 1, hotThreshold, warmThreshold, t, pk)
    {
      var count := Count(tracker, t, pk) + 1;
      tracker := tracker[(t, pk) := count];
      if count == warmThreshold {
        PromoteToWarm(t, pk);
      } else if count == hotThreshold {
        PromoteToHot(t, pk);
      }
    }

    method PromoteToWarm(t: string, pk: Value)
      requires Valid()
      modifies hot, warm, cold
      ensures Valid()
      ensures TierStates() == PromotedToWarm(old(TierStates()), t, pk)
    {
      var found := cold.FindObjectsByPrimaryKey(t, [pk]);
      if found != [] {
        warm.IndexObject(found[0]);
        cold.RemoveObject(found[0]);
      }
    }

    method PromoteToHot(t: string, pk: Value)
      requires Valid()
      modifies hot, warm, cold
      ensures Valid()
      ensures TierStates() == PromotedToHot(old(TierStates()), t, pk)
    {
      var inWarm := warm.FindObjectsByPrimaryKey(t, [pk]);
      if inWarm != [] {
        hot.IndexObject(inWarm[0]);
        warm.RemoveObject(inWarm[0]);
      } else {
        var inCold := cold.FindObjectsByPrimaryKey(t, [pk]);
        if inCold != [] {
          hot.IndexObject(inCold[0]);
          cold.RemoveObject(inCold[0]);
        }
      }
    }
  }
}
