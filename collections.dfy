/**
 * The array operations the bookkeeping code leans on, stated once:
 * `find`/`findIndex` (FirstIndex), `filter` (Filter), `reduce` with `+`
 * (SumOf) and `sort` with a numeric comparator (SortByKey).
 */
module Collections {
  import opened Wrappers

  /** Index of the first element satisfying `p`, as `Array.prototype.findIndex`. */
  function FirstIndex<T>(s: seq<T>, p: T -> bool): (r: Option<nat>)
    ensures r.Some? ==> r.value < |s| && p(s[r.value])
    ensures r.Some? ==> forall j :: 0 <= j < r.value ==> !p(s[j])
    ensures r.None? <==> forall j :: 0 <= j < |s| ==> !p(s[j])
  {
    if |s| == 0 then None
    else if p(s[0]) then Some(0)
    else match FirstIndex(s[1..], p)
      case None => None
      case Some(k) => Some(k + 1)
  }

  /** The first element satisfying `p`, as `Array.prototype.find`. */
  function Find<T>(s: seq<T>, p: T -> bool): (r: Option<T>)
    ensures r.Some? <==> exists j :: 0 <= j < |s| && p(s[j])
    ensures r.Some? ==> r.value in s && p(r.value)
  {
    match FirstIndex(s, p)
    case None => None
    case Some(k) => Some(s[k])
  }

  /** The elements satisfying `p`, in order, as `Array.prototype.filter`. */
  function Filter<T>(s: seq<T>, p: T -> bool): (r: seq<T>)
    ensures forall i :: 0 <= i < |r| ==> r[i] in s && p(r[i])
    ensures forall i :: 0 <= i < |s| && p(s[i]) ==> s[i] in r
    ensures |r| <= |s|
  {
    if |s| == 0 then []
    else Filter(s[..|s| - 1], p) + (if p(s[|s| - 1]) then [s[|s| - 1]] else [])
  }

  /** An element is kept by the filter exactly when it is in the sequence and satisfies `p`. */
  lemma FilterMembers<T>(s: seq<T>, p: T -> bool)
    ensures forall x :: x in Filter(s, p) <==> x in s && p(x)
  {
    var r := Filter(s, p);
    forall x | x in r ensures x in s && p(x) {
      var k :| 0 <= k < |r| && r[k] == x;
    }
    forall x | x in s && p(x) ensures x in r {
      var k :| 0 <= k < |s| && s[k] == x;
    }
  }

  /** Filtering distributes over concatenation. */
  lemma {:induction false} FilterAppend<T>(a: seq<T>, b: seq<T>, p: T -> bool)
    ensures Filter(a + b, p) == Filter(a, p) + Filter(b, p)
    decreases |b|
  {
    if |b| == 0 {
      assert a + b == a;
    } else {
      var b' := b[..|b| - 1];
      assert (a + b)[..|a + b| - 1] == a + b';
      FilterAppend(a, b', p);
    }
  }

  /** `s.map(f)`. */
  function Map<T, U>(s: seq<T>, f: T -> U): (r: seq<U>)
    ensures |r| == |s|
    ensures forall i :: 0 <= i < |s| ==> r[i] == f(s[i])
  {
    if |s| == 0 then [] else Map(s[..|s| - 1], f) + [f(s[|s| - 1])]
  }

  /** Filtering one more element appends it exactly when it satisfies `p`. */
  lemma FilterStep<T>(s: seq<T>, i: nat, p: T -> bool)
    requires i < |s|
    ensures Filter(s[..i + 1], p) == Filter(s[..i], p) + (if p(s[i]) then [s[i]] else [])
  {
    assert s[..i + 1][..i] == s[..i];
  }

  /** Mapping one more element appends its image. */
  lemma MapSnoc<T, U>(s: seq<T>, x: T, f: T -> U)
    ensures Map(s + [x], f) == Map(s, f) + [f(x)]
  {
    assert (s + [x])[..|s|] == s;
  }

  /** `s.reduce((sum, x) => sum + f(x), 0)`: summed left to right. */
  function SumOf<T>(s: seq<T>, f: T -> real): real
  {
    if |s| == 0 then 0.0 else SumOf(s[..|s| - 1], f) + f(s[|s| - 1])
  }

  lemma SumOfStep<T>(s: seq<T>, i: nat, f: T -> real)
    requires i < |s|
    ensures SumOf(s[..i + 1], f) == SumOf(s[..i], f) + f(s[i])
  {
    assert s[..i + 1][..i] == s[..i];
  }

  /** Summing one more element adds its term. */
  lemma SumOfSnoc<T>(s: seq<T>, x: T, f: T -> real)
    ensures SumOf(s + [x], f) == SumOf(s, f) + f(x)
  {
    assert (s + [x])[..|s|] == s;
  }

  lemma {:induction false} SumOfAppend<T>(a: seq<T>, b: seq<T>, f: T -> real)
    ensures SumOf(a + b, f) == SumOf(a, f) + SumOf(b, f)
    decreases |b|
  {
    if |b| == 0 {
      assert a + b == a;
    } else {
      var b' := b[..|b| - 1];
      assert (a + b)[..|a + b| - 1] == a + b';
      SumOfAppend(a, b', f);
    }
  }

  lemma {:induction false} SumOfSingle<T>(x: T, f: T -> real)
    ensures SumOf([x], f) == f(x)
  {
    assert [x][..0] == [];
  }

  /** Summing is insensitive to the order of the summands. */
  lemma {:induction false} SumOfPermutation<T>(a: seq<T>, b: seq<T>, f: T -> real)
    requires multiset(a) == multiset(b)
    ensures SumOf(a, f) == SumOf(b, f)
    decreases |a|
  {
    if |a| == 0 {
      assert |b| == |multiset(b)| == 0;
    } else {
      var x := a[|a| - 1];
      var a' := a[..|a| - 1];
      assert a == a' + [x];
      assert x in multiset(b);
      var k :| 0 <= k < |b| && b[k] == x;
      RemoveOne(a', b, k);
      SumOfPermutation(a', b[..k] + b[k + 1..], f);
      SumOfRemove(b, k, f);
    }
  }

  /** Taking one occurrence of the same element out of two permutations leaves permutations. */
  lemma RemoveOne<T>(a: seq<T>, b: seq<T>, k: nat)
    requires k < |b| && multiset(a + [b[k]]) == multiset(b)
    ensures multiset(a) == multiset(b[..k] + b[k + 1..])
  {
    var x := b[k];
    var b' := b[..k] + b[k + 1..];
    assert b == b[..k] + [x] + b[k + 1..];
    assert multiset(b) == multiset(b') + multiset{x};
    assert multiset(a + [x]) == multiset(a) + multiset{x};
    forall y ensures multiset(a)[y] == multiset(b')[y] {
      assert (multiset(a) + multiset{x})[y] == (multiset(b') + multiset{x})[y];
    }
  }

  /** A sum is the sum without one element plus that element's term. */
  lemma SumOfRemove<T>(b: seq<T>, k: nat, f: T -> real)
    requires k < |b|
    ensures SumOf(b, f) == SumOf(b[..k] + b[k + 1..], f) + f(b[k])
  {
    var pre, x, post := b[..k], b[k], b[k + 1..];
    assert b[k..] == [x] + post;
    assert b == (pre + [x]) + post;
    SumOfAppend(pre + [x], post, f);
    SumOfSnoc(pre, x, f);
    SumOfAppend(pre, post, f);
  }

  /** Pointwise addition of summands. */
  lemma {:induction false} SumOfAdd<T>(s: seq<T>, f: T -> real, g: T -> real, h: T -> real)
    requires forall x :: x in s ==> h(x) == f(x) + g(x)
    ensures SumOf(s, h) == SumOf(s, f) + SumOf(s, g)
    decreases |s|
  {
    if |s| > 0 {
      SumOfAdd(s[..|s| - 1], f, g, h);
    }
  }

  /** Summands that agree on the elements give the same sum. */
  lemma {:induction false} SumOfCongruent<T>(s: seq<T>, f: T -> real, g: T -> real)
    requires forall x :: x in s ==> f(x) == g(x)
    ensures SumOf(s, f) == SumOf(s, g)
    decreases |s|
  {
    if |s| > 0 {
      SumOfCongruent(s[..|s| - 1], f, g);
    }
  }

  lemma {:induction false} SumOfZero<T>(s: seq<T>, f: T -> real)
    requires forall x :: x in s ==> f(x) == 0.0
    ensures SumOf(s, f) == 0.0
    decreases |s|
  {
    if |s| > 0 {
      SumOfZero(s[..|s| - 1], f);
    }
  }

  /** Filtering out elements that contribute `g(x) == 0` does not change a sum. */
  lemma {:induction false} SumOfFilter<T>(s: seq<T>, p: T -> bool, f: T -> real, g: T -> real)
    requires forall x :: x in s ==> g(x) == (if p(x) then f(x) else 0.0)
    ensures SumOf(Filter(s, p), f) == SumOf(s, g)
    decreases |s|
  {
    if |s| > 0 {
      var x := s[|s| - 1];
      SumOfFilter(s[..|s| - 1], p, f, g);
      if p(x) {
        SumOfAppend(Filter(s[..|s| - 1], p), [x], f);
        SumOfSingle(x, f);
      } else {
        assert Filter(s, p) == Filter(s[..|s| - 1], p);
      }
    }
  }

  /** A sum splits over two filters that partition the sequence. */
  lemma {:induction false} SumOfPartition<T>(s: seq<T>, p: T -> bool, q: T -> bool, f: T -> real)
    requires forall x :: x in s ==> p(x) != q(x)
    ensures SumOf(s, f) == SumOf(Filter(s, p), f) + SumOf(Filter(s, q), f)
    decreases |s|
  {
    if |s| > 0 {
      var x := s[|s| - 1];
      var s' := s[..|s| - 1];
      SumOfPartition(s', p, q, f);
      if p(x) {
        SumOfAppend(Filter(s', p), [x], f);
        SumOfSingle(x, f);
        assert Filter(s, q) == Filter(s', q);
      } else {
        SumOfAppend(Filter(s', q), [x], f);
        SumOfSingle(x, f);
        assert Filter(s, p) == Filter(s', p);
      }
    }
  }

  lemma {:induction false} SumOfMap<T, U>(s: seq<T>, m: T -> U, f: U -> real, g: T -> real)
    requires forall x :: x in s ==> g(x) == f(m(x))
    ensures SumOf(Map(s, m), f) == SumOf(s, g)
    decreases |s|
  {
    if |s| > 0 {
      var s' := s[..|s| - 1];
      SumOfMap(s', m, f, g);
      assert Map(s, m)[..|s| - 1] == Map(s', m);
    }
  }

  /** Filtering twice with predicates where the second implies the first is filtering once. */
  lemma {:induction false} FilterNarrow<T>(s: seq<T>, p: T -> bool, q: T -> bool)
    requires forall x :: q(x) ==> p(x)
    ensures Filter(Filter(s, p), q) == Filter(s, q)
    decreases |s|
  {
    if |s| > 0 {
      var x := s[|s| - 1];
      var s' := s[..|s| - 1];
      FilterNarrow(s', p, q);
      if p(x) {
        var fp := Filter(s', p);
        assert Filter(s, p) == fp + [x];
        assert (fp + [x])[..|fp + [x]| - 1] == fp;
        assert Filter(fp + [x], q) == Filter(fp, q) + (if q(x) then [x] else []);
      } else {
        assert Filter(s, p) == Filter(s', p);
        assert Filter(s, q) == Filter(s', q);
      }
    }
  }

  /** Non-decreasing by `key`. */
  predicate SortedBy<T>(s: seq<T>, key: T -> int)
  {
    forall i, j :: 0 <= i < j < |s| ==> key(s[i]) <= key(s[j])
  }

  /** Inserts `x` after every element whose key is not greater than its own. */
  function InsertByKey<T>(x: T, s: seq<T>, key: T -> int): (r: seq<T>)
    requires SortedBy(s, key)
    ensures SortedBy(r, key)
    ensures multiset(r) == multiset(s) + multiset{x}
    ensures |r| == |s| + 1
  {
    if |s| == 0 then [x]
    else if key(x) < key(s[0]) then [x] + s
    else
      var rest := InsertByKey(x, s[1..], key);
      assert s == [s[0]] + s[1..];
      AllAbove(rest, s[1..], x, key, key(s[0]));
      [s[0]] + rest
  }

  /** A permutation of `s` plus `x` keeps every key at least `lo` when `s` and `x` do. */
  lemma AllAbove<T>(r: seq<T>, s: seq<T>, x: T, key: T -> int, lo: int)
    requires multiset(r) == multiset(s) + multiset{x}
    requires lo <= key(x) && forall j :: 0 <= j < |s| ==> lo <= key(s[j])
    ensures forall j :: 0 <= j < |r| ==> lo <= key(r[j])
  {
    forall j | 0 <= j < |r| ensures lo <= key(r[j]) {
      assert r[j] in multiset(r);
      if r[j] != x {
        assert r[j] in multiset(s);
        var k :| 0 <= k < |s| && s[k] == r[j];
      }
    }
  }

  /**
   * `s.sort((a, b) => key(a) - key(b))`: insertion sort by key. The contract
   * promises sorted order and the same elements; it says nothing about the
   * order of elements with equal keys.
   */
  function SortByKey<T>(s: seq<T>, key: T -> int): (r: seq<T>)
    ensures SortedBy(r, key)
    ensures multiset(r) == multiset(s)
    ensures |r| == |s|
  {
    if |s| == 0 then []
    else
      assert s == s[..|s| - 1] + [s[|s| - 1]];
      InsertByKey(s[|s| - 1], SortByKey(s[..|s| - 1], key), key)
  }
}
