/**
 * A Python `dict` whose insertion order matters: the keys in insertion order
 * beside the key-to-value map.  Assigning to an existing key keeps its
 * position, a new key goes to the end, and deleting a key closes the gap.
 */
module PyDict {
  import opened Wrappers

  datatype Dict<K, V> = Dict(keys: seq<K>, vals: map<K, V>)

  ghost predicate Distinct<K>(s: seq<K>)
  {
    forall i, j :: 0 <= i < j < |s| ==> s[i] != s[j]
  }

  ghost predicate Wf<K(!new), V>(d: Dict<K, V>)
  {
    Distinct(d.keys) && (forall k :: k in d.vals <==> k in d.keys)
  }

  function Empty<K(==, !new), V>(): (d: Dict<K, V>)
    ensures Wf(d) && d.keys == []
  {
    Dict([], map[])
  }

  function Get<K(==, !new), V>(d: Dict<K, V>, k: K): (r: Option<V>)
    ensures r.Some? <==> k in d.vals
  {
    if k in d.vals then Some(d.vals[k]) else None
  }

  /** The keys of `s` other than `k`, in order. */
  function Without<K(==, !new)>(s: seq<K>, k: K): (r: seq<K>)
    ensures forall x :: x in r <==> x in s && x != k
    ensures |r| <= |s|
  {
    if s == [] then []
    else if s[0] == k then Without(s[1..], k)
    else [s[0]] + Without(s[1..], k)
  }

  lemma {:induction false} WithoutDistinct<K(!new)>(s: seq<K>, k: K)
    requires Distinct(s)
    ensures Distinct(Without(s, k))
  {
    if s != [] {
      var t := s[1..];
      assert Distinct(t) by {
        forall i, j | 0 <= i < j < |t| ensures t[i] != t[j] {
          assert t[i] == s[i + 1] && t[j] == s[j + 1];
        }
      }
      WithoutDistinct(t, k);
      if s[0] != k {
        var w := Without(t, k);
        assert s[0] !in t by {
          forall j | 0 <= j < |t| ensures t[j] != s[0] {
            assert t[j] == s[j + 1];
          }
        }
        var r := [s[0]] + w;
        forall i, j | 0 <= i < j < |r| ensures r[i] != r[j] {
          if i == 0 {
            assert r[j] == w[j - 1];
          } else {
            assert r[i] == w[i - 1] && r[j] == w[j - 1];
          }
        }
      }
    }
  }

  /** `d[k] = v` */
  function Put<K(==, !new), V>(d: Dict<K, V>, k: K, v: V): (r: Dict<K, V>)
    ensures r.vals == d.vals[k := v]
    ensures k in d.vals ==> r.keys == d.keys
    ensures k !in d.vals ==> r.keys == d.keys + [k]
    ensures Wf(d) ==> Wf(r)
  {
    if k in d.vals then Dict(d.keys, d.vals[k := v]) else Dict(d.keys + [k], d.vals[k := v])
  }

  /** `d.pop(k, None)` / `del d[k]` */
  function Remove<K(==, !new), V>(d: Dict<K, V>, k: K): (r: Dict<K, V>)
    ensures r.vals == d.vals - {k}
    ensures r.keys == Without(d.keys, k)
  {
    Dict(Without(d.keys, k), d.vals - {k})
  }

  lemma {:induction false} WithoutAbsent<K(!new)>(s: seq<K>, k: K)
    requires k !in s
    ensures Without(s, k) == s
  {
    if s != [] {
      WithoutAbsent(s[1..], k);
    }
  }

  /** Removing an absent key changes nothing. */
  lemma RemoveAbsent<K(!new), V>(d: Dict<K, V>, k: K)
    requires Wf(d) && k !in d.vals
    ensures Remove(d, k) == d
  {
    WithoutAbsent(d.keys, k);
  }

  /** Deleting a key from distinct keys shortens them by one exactly when it was there. */
  lemma {:induction false} WithoutLength<K(!new)>(ks: seq<K>, k: K)
    requires Distinct(ks)
    ensures |Without(ks, k)| == |ks| - (if k in ks then 1 else 0)
  {
    if ks != [] {
      var t := ks[1..];
      assert Distinct(t) by {
        forall i, j | 0 <= i < j < |t| ensures t[i] != t[j] {
          assert t[i] == ks[i + 1] && t[j] == ks[j + 1];
        }
      }
      assert ks[0] !in t by {
        forall j | 0 <= j < |t| ensures t[j] != ks[0] {
          assert t[j] == ks[j + 1];
        }
      }
      WithoutLength(t, k);
      assert k in ks <==> k == ks[0] || k in t by {
        assert ks == [ks[0]] + t;
      }
    }
  }

  lemma RemoveWf<K(!new), V>(d: Dict<K, V>, k: K)
    requires Wf(d)
    ensures Wf(Remove(d, k))
  {
    WithoutDistinct(d.keys, k);
  }

  /** `list(d.values())` */
  function Values<K(==, !new), V>(d: Dict<K, V>): (r: seq<V>)
    requires Wf(d)
    ensures |r| == |d.keys|
    ensures forall i :: 0 <= i < |d.keys| ==> r[i] == d.vals[d.keys[i]]
  {
    seq(|d.keys|, i requires 0 <= i < |d.keys| => d.vals[d.keys[i]])
  }

  lemma DistinctAppend<K(!new)>(s: seq<K>, k: K)
    requires Distinct(s) && k !in s
    ensures Distinct(s + [k])
  {
  }

  /** `d.move_to_end(k)`, or `d[k] = d.pop(k)`: `k` becomes the most recent key. */
  function MoveToEnd<K(==, !new), V>(d: Dict<K, V>, k: K): (r: Dict<K, V>)
    ensures r.vals == d.vals
    ensures r.keys != [] && r.keys[|r.keys| - 1] == k
    ensures forall x :: x in r.keys <==> x in d.keys || x == k
  {
    Dict(Without(d.keys, k) + [k], d.vals)
  }

  /** Moving a present key keeps the dict well formed and the same size. */
  lemma MoveToEndWf<K(!new), V>(d: Dict<K, V>, k: K)
    requires Wf(d) && k in d.vals
    ensures Wf(MoveToEnd(d, k)) && |MoveToEnd(d, k).keys| == |d.keys|
  {
    WithoutDistinct(d.keys, k);
    DistinctAppend(Without(d.keys, k), k);
    WithoutLength(d.keys, k);
  }
}
