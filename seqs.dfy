/** List comprehensions and list helpers used throughout the model. */
module Seqs {

  /** `[x for x in s if p(x)]` */
  function Filter<T>(s: seq<T>, p: T -> bool): (r: seq<T>)
    ensures |r| <= |s|
    ensures forall i :: 0 <= i < |r| ==> r[i] in s && p(r[i])
    ensures forall i :: 0 <= i < |s| && p(s[i]) ==> s[i] in r
  {
    if s == [] then []
    else if p(s[0]) then [s[0]] + Filter(s[1..], p)
    else Filter(s[1..], p)
  }

  lemma {:induction false} FilterConcat<T>(a: seq<T>, b: seq<T>, p: T -> bool)
    ensures Filter(a + b, p) == Filter(a, p) + Filter(b, p)
  {
    if a == [] {
      assert a + b == b;
    } else {
      assert (a + b)[0] == a[0];
      assert (a + b)[1..] == a[1..] + b;
      FilterConcat(a[1..], b, p);
    }
  }

  /** A prefix one longer is the prefix and the next element. */
  lemma TakeNext<T>(s: seq<T>, i: int)
    requires 0 <= i < |s|
    ensures s[..i + 1] == s[..i] + [s[i]]
    ensures s[..i + 1][..i] == s[..i] && s[..i + 1][i] == s[i]
  {
  }

  /** Filtering a sequence extended by one element. */
  lemma FilterSnoc<T>(a: seq<T>, x: T, p: T -> bool)
    ensures Filter(a + [x], p) == Filter(a, p) + (if p(x) then [x] else [])
  {
    FilterConcat(a, [x], p);
    assert [x][1..] == [];
  }

  lemma {:induction false} FilterAll<T>(s: seq<T>, p: T -> bool)
    requires forall i :: 0 <= i < |s| ==> p(s[i])
    ensures Filter(s, p) == s
  {
    if s != [] {
      FilterAll(s[1..], p);
    }
  }

  /** `[f(x) for x in s]` */
  function Map<T, U>(s: seq<T>, f: T -> U): (r: seq<U>)
    ensures |r| == |s|
    ensures forall i :: 0 <= i < |s| ==> r[i] == f(s[i])
  {
    seq(|s|, i requires 0 <= i < |s| => f(s[i]))
  }

  /** Python slice `s[:n]`, where a negative n counts from the end. */
  function SliceTo<T>(s: seq<T>, n: int): (r: seq<T>)
    ensures n >= 0 ==> |r| == if n < |s| then n else |s|
    ensures r <= s
  {
    if n >= 0 then (if n < |s| then s[..n] else s)
    else if |s| + n > 0 then s[..|s| + n] else []
  }

  /** Python slice `s[-n:]` for n >= 0 (`s[-0:]` is the whole list). */
  function LastN<T>(s: seq<T>, n: nat): (r: seq<T>)
    ensures n > 0 ==> |r| == if n < |s| then n else |s|
  {
    if n == 0 || n >= |s| then s else s[|s| - n..]
  }

  /** Python slice `s[start:]`, where a negative start counts from the end. */
  function SliceFrom<T>(s: seq<T>, start: int): (r: seq<T>)
    ensures |r| <= |s| && r == s[|s| - |r|..]
    ensures start >= 0 ==> |r| == if start < |s| then |s| - start else 0
    ensures start < 0 ==> |r| == if -start < |s| then -start else |s|
  {
    if start >= 0 then (if start < |s| then s[start..] else [])
    else if |s| + start > 0 then s[|s| + start..] else s
  }

  /** The last `n` elements, as a deque with `maxlen=n` keeps them (none when n is 0). */
  function Bounded<T>(s: seq<T>, n: nat): (r: seq<T>)
    ensures |r| == if |s| <= n then |s| else n
    ensures r == s[|s| - |r|..]
  {
    if |s| <= n then s else s[|s| - n..]
  }

  predicate NoDup<T(==)>(s: seq<T>)
  {
    forall i, j :: 0 <= i < j < |s| ==> s[i] != s[j]
  }

  /**
   * The positions of the true flags, in increasing order: the indices a
   * list comprehension with that condition keeps.
   */
  function Hits(flags: seq<bool>): (r: seq<nat>)
    ensures forall k :: 0 <= k < |r| ==> r[k] < |flags| && flags[r[k]]
    ensures forall k, l :: 0 <= k < l < |r| ==> r[k] < r[l]
    ensures forall i :: 0 <= i < |flags| && flags[i] ==> i in r
  {
    if flags == [] then []
    else
      var n := |flags| - 1;
      assert forall i :: 0 <= i < n ==> flags[..n][i] == flags[i];
      Hits(flags[..n]) + (if flags[n] then [n] else [])
  }

  /** The elements of `s` whose flag is set, in order: the k-th is `s` at the k-th hit. */
  function Pick<T>(s: seq<T>, flags: seq<bool>): (r: seq<T>)
    requires |flags| == |s|
    ensures |r| == |Hits(flags)|
    ensures forall k :: 0 <= k < |r| ==> r[k] == s[Hits(flags)[k]]
  {
    if s == [] then []
    else
      var n := |s| - 1;
      assert Hits(flags) == Hits(flags[..n]) + (if flags[n] then [n] else []);
      Pick(s[..n], flags[..n]) + (if flags[n] then [s[n]] else [])
  }

  /** An element whose flag is set is picked. */
  lemma PickHas<T>(s: seq<T>, flags: seq<bool>, i: int)
    requires |flags| == |s| && 0 <= i < |s| && flags[i]
    ensures s[i] in Pick(s, flags)
  {
    var k :| 0 <= k < |Hits(flags)| && Hits(flags)[k] == i;
    assert Pick(s, flags)[k] == s[i];
  }

  /** A picked element sits at a position whose flag is set. */
  lemma PickFrom<T>(s: seq<T>, flags: seq<bool>, x: T) returns (i: nat)
    requires |flags| == |s| && x in Pick(s, flags)
    ensures i < |s| && flags[i] && s[i] == x
  {
    var k :| 0 <= k < |Pick(s, flags)| && Pick(s, flags)[k] == x;
    i := Hits(flags)[k];
  }
}
