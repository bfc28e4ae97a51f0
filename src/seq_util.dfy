/** Order-preserving sequence operations that the TypeScript source performs with
    `Array.prototype.filter`, `find`, `findIndex`, `reduce`, `Array.from(new Set(..))`
    and `sort`, each with the facts the rest of the model relies on. */
module SeqUtil {
  import opened Wrappers

  /** `xs.filter(p)`: the elements satisfying `p`, in their original order. */
  function Filter<T(!new)>(xs: seq<T>, p: T -> bool): (r: seq<T>)
    ensures |r| <= |xs|
    ensures forall x :: x in r <==> x in xs && p(x)
  {
    if xs == [] then []
    else
      assert forall x :: x in xs <==> x == xs[0] || x in xs[1..];
      (if p(xs[0]) then [xs[0]] else []) + Filter(xs[1..], p)
  }

  /** Filtering distributes over concatenation (order is kept). */
  lemma {:induction false} FilterConcat<T(!new)>(xs: seq<T>, ys: seq<T>, p: T -> bool)
    ensures Filter(xs + ys, p) == Filter(xs, p) + Filter(ys, p)
  {
    if xs == [] {
      assert xs + ys == ys;
    } else {
      assert (xs + ys)[0] == xs[0];
      assert (xs + ys)[1..] == xs[1..] + ys;
      FilterConcat(xs[1..], ys, p);
    }
  }

  /** A filter that rejects nothing is the identity. */
  lemma {:induction false} FilterKeepsAll<T(!new)>(xs: seq<T>, p: T -> bool)
    requires forall i :: 0 <= i < |xs| ==> p(xs[i])
    ensures Filter(xs, p) == xs
  {
    if xs != [] {
      FilterKeepsAll(xs[1..], p);
    }
  }

  /** A filter that accepts nothing yields the empty sequence. */
  lemma {:induction false} FilterDropsAll<T(!new)>(xs: seq<T>, p: T -> bool)
    requires forall i :: 0 <= i < |xs| ==> !p(xs[i])
    ensures Filter(xs, p) == []
  {
    if Filter(xs, p) != [] {
      assert Filter(xs, p)[0] in Filter(xs, p);
    }
  }

  /** Filtering twice by the same predicate is filtering once. */
  lemma {:induction false} FilterIdempotent<T(!new)>(xs: seq<T>, p: T -> bool)
    ensures Filter(Filter(xs, p), p) == Filter(xs, p)
  {
    var r := Filter(xs, p);
    assert forall i :: 0 <= i < |r| ==> r[i] in r;
    FilterKeepsAll(r, p);
  }

  /** Two successive filters are one filter by the conjunction, in the same order. */
  lemma {:induction false} FilterCompose<T(!new)>(xs: seq<T>, p: T -> bool, q: T -> bool, pq: T -> bool)
    requires forall i :: 0 <= i < |xs| ==> pq(xs[i]) == (p(xs[i]) && q(xs[i]))
    ensures Filter(Filter(xs, p), q) == Filter(xs, pq)
  {
    if xs != [] {
      FilterCompose(xs[1..], p, q, pq);
      assert Filter(xs, pq) == (if pq(xs[0]) then [xs[0]] else []) + Filter(xs[1..], pq);
      if p(xs[0]) {
        assert Filter(xs, p) == [xs[0]] + Filter(xs[1..], p);
        FilterConcat([xs[0]], Filter(xs[1..], p), q);
        assert [xs[0]][1..] == [];
        assert Filter([xs[0]], q) == (if q(xs[0]) then [xs[0]] else []) + Filter([], q);
      } else {
        assert Filter(xs, p) == Filter(xs[1..], p);
      }
    }
  }

  /** When exactly the element at `k` is rejected, the filter removes just that element. */
  lemma {:induction false} FilterDropsOne<T(!new)>(xs: seq<T>, p: T -> bool, k: nat)
    requires k < |xs| && !p(xs[k])
    requires forall i :: 0 <= i < |xs| && i != k ==> p(xs[i])
    ensures Filter(xs, p) == xs[..k] + xs[k + 1..]
    ensures |Filter(xs, p)| == |xs| - 1
  {
    var pre, mid, post := xs[..k], [xs[k]], xs[k + 1..];
    assert xs == pre + (mid + post);
    FilterConcat(pre, mid + post, p);
    FilterConcat(mid, post, p);
    assert Filter(mid, p) == [] by { assert mid[1..] == []; }
    forall i | 0 <= i < |pre| ensures p(pre[i]) {
      assert pre[i] == xs[i];
    }
    FilterKeepsAll(pre, p);
    forall i | 0 <= i < |post| ensures p(post[i]) {
      assert post[i] == xs[k + 1 + i];
    }
    FilterKeepsAll(post, p);
    assert Filter(xs, p) == pre + post;
  }

  /** Filters by predicates that agree on the elements are equal. */
  lemma {:induction false} FilterExt<T(!new)>(xs: seq<T>, p: T -> bool, q: T -> bool)
    requires forall i :: 0 <= i < |xs| ==> p(xs[i]) == q(xs[i])
    ensures Filter(xs, p) == Filter(xs, q)
  {
    if xs != [] {
      FilterExt(xs[1..], p, q);
    }
  }

  /** No two positions of `xs` carry the same key. */
  ghost predicate DistinctKeys<T, K>(xs: seq<T>, key: T -> K) {
    forall i, j :: 0 <= i < j < |xs| ==> key(xs[i]) != key(xs[j])
  }

  lemma DistinctKeysCons<T, K>(x: T, ys: seq<T>, key: T -> K)
    ensures DistinctKeys([x] + ys, key) <==>
            DistinctKeys(ys, key) && forall i :: 0 <= i < |ys| ==> key(ys[i]) != key(x)
  {
    var r := [x] + ys;
    assert forall i :: 0 <= i < |ys| ==> r[i + 1] == ys[i];
    if DistinctKeys(ys, key) && forall i :: 0 <= i < |ys| ==> key(ys[i]) != key(x) {
      forall i, j | 0 <= i < j < |r| ensures key(r[i]) != key(r[j]) {
        assert r[j] == ys[j - 1];
        if i > 0 {
          assert r[i] == ys[i - 1];
        }
      }
    }
    if DistinctKeys(r, key) {
      forall i, j | 0 <= i < j < |ys| ensures key(ys[i]) != key(ys[j]) {
        assert key(r[i + 1]) != key(r[j + 1]);
      }
      forall i | 0 <= i < |ys| ensures key(ys[i]) != key(x) {
        assert key(r[0]) != key(r[i + 1]);
      }
    }
  }

  /** A filter keeps distinct keys distinct. */
  lemma {:induction false} FilterKeepsDistinct<T(!new), K>(xs: seq<T>, p: T -> bool, key: T -> K)
    requires DistinctKeys(xs, key)
    ensures DistinctKeys(Filter(xs, p), key)
  {
    if xs != [] {
      var tail := xs[1..];
      assert xs == [xs[0]] + tail;
      DistinctKeysCons(xs[0], tail, key);
      FilterKeepsDistinct(tail, p, key);
      var rest := Filter(tail, p);
      if p(xs[0]) {
        assert Filter(xs, p) == [xs[0]] + rest;
        forall i | 0 <= i < |rest| ensures key(rest[i]) != key(xs[0]) {
          assert rest[i] in rest;
          var m :| 0 <= m < |tail| && tail[m] == rest[i];
        }
        DistinctKeysCons(xs[0], rest, key);
      } else {
        assert Filter(xs, p) == rest;
      }
    }
  }

  /** A filter keeps the full length exactly when it rejects nothing. */
  lemma {:induction false} FilterKeepsLength<T(!new)>(xs: seq<T>, p: T -> bool)
    ensures |Filter(xs, p)| == |xs| <==> forall i :: 0 <= i < |xs| ==> p(xs[i])
  {
    if xs != [] {
      FilterKeepsLength(xs[1..], p);
      assert forall i :: 1 <= i < |xs| ==> xs[i] == xs[1..][i - 1];
      if p(xs[0]) {
        assert (forall i :: 0 <= i < |xs| ==> p(xs[i])) <==> forall i :: 0 <= i < |xs[1..]| ==> p(xs[1..][i]);
      }
    }
  }

  /** A sequence has no repeated element exactly when no element occurs twice in its
      multiset, so the property is shared by all permutations. */
  lemma {:induction false} NoDuplicatesMultiset<T>(s: seq<T>)
    ensures NoDuplicates(s) <==> forall x :: multiset(s)[x] <= 1
  {
    if s != [] {
      var t := s[1..];
      NoDuplicatesMultiset(t);
      assert s == [s[0]] + t;
      assert multiset(s) == multiset{s[0]} + multiset(t);
      if NoDuplicates(s) {
        forall i, j | 0 <= i < j < |t| ensures t[i] != t[j] {
          assert t[i] == s[i + 1] && t[j] == s[j + 1];
        }
        forall j | 0 <= j < |t| ensures t[j] != s[0] {
          assert t[j] == s[j + 1];
        }
        assert s[0] !in multiset(t);
      }
      if forall x :: multiset(s)[x] <= 1 {
        assert forall x :: multiset(t)[x] <= multiset(s)[x];
        assert multiset(t)[s[0]] == 0;
        forall i, j | 0 <= i < j < |s| ensures s[i] != s[j] {
          assert s[j] == t[j - 1] && s[j] in multiset(t);
          if i > 0 {
            assert s[i] == t[i - 1];
          }
        }
      }
    }
  }

  /** `xs.findIndex(p)` as an option: the FIRST index satisfying `p`. */
  function FindIndex<T>(xs: seq<T>, p: T -> bool): (r: Option<nat>)
    ensures r.Some? ==> r.value < |xs| && p(xs[r.value])
    ensures r.Some? ==> forall j :: 0 <= j < r.value ==> !p(xs[j])
    ensures r.None? ==> forall j :: 0 <= j < |xs| ==> !p(xs[j])
  {
    if xs == [] then None
    else if p(xs[0]) then Some(0)
    else
      match FindIndex(xs[1..], p)
      case Some(k) => Some(k + 1)
      case None => None
  }

  /** `xs.find(p)`: the first element satisfying `p`, if any. */
  function Find<T(!new)>(xs: seq<T>, p: T -> bool): (r: Option<T>)
    ensures r.Some? ==> r.value in xs && p(r.value)
    ensures r.None? <==> forall x :: x in xs ==> !p(x)
  {
    match FindIndex(xs, p)
    case Some(k) => Some(xs[k])
    case None => None
  }

  /** The first element satisfying `p` is the one `find` returns. */
  lemma {:induction false} FindFirst<T(!new)>(xs: seq<T>, p: T -> bool, k: nat)
    requires k < |xs| && p(xs[k])
    requires forall j :: 0 <= j < k ==> !p(xs[j])
    ensures Find(xs, p) == Some(xs[k])
  {
    assert FindIndex(xs, p).Some?;
  }

  /** Searching a mapped sequence with a predicate that sees through the map finds the
      image of what searching the original finds. */
  lemma {:induction false} FindIndexMap<T, U>(xs: seq<T>, f: T -> U, p: T -> bool, q: U -> bool)
    requires forall i :: 0 <= i < |xs| ==> q(f(xs[i])) == p(xs[i])
    ensures FindIndex(Map(xs, f), q) == FindIndex(xs, p)
  {
    if xs != [] {
      assert Map(xs, f)[1..] == Map(xs[1..], f);
      FindIndexMap(xs[1..], f, p, q);
    }
  }

  predicate NoDuplicates<T(==)>(s: seq<T>) {
    forall i, j :: 0 <= i < j < |s| ==> s[i] != s[j]
  }

  /** `Array.from(new Set(xs))`: the distinct elements, in order of first occurrence. */
  function Distinct<T(==,!new)>(xs: seq<T>): (r: seq<T>)
    ensures NoDuplicates(r)
    ensures forall x :: x in r <==> x in xs
  {
    if xs == [] then []
    else
      var pre := Distinct(xs[..|xs| - 1]);
      assert forall x :: x in xs <==> x in xs[..|xs| - 1] || x == xs[|xs| - 1] by {
        assert xs == xs[..|xs| - 1] + [xs[|xs| - 1]];
      }
      if xs[|xs| - 1] in pre then pre else pre + [xs[|xs| - 1]]
  }

  /** Sorted by `key`, largest first. */
  ghost predicate SortedDesc<T>(s: seq<T>, key: T -> real) {
    forall i, j :: 0 <= i < j < |s| ==> key(s[i]) >= key(s[j])
  }

  /** Inserts `x` before the first element whose key is not larger than its own. */
  function InsertDesc<T(==)>(x: T, s: seq<T>, key: T -> real): (r: seq<T>)
    requires SortedDesc(s, key)
    ensures SortedDesc(r, key)
    ensures multiset(r) == multiset(s) + multiset{x}
  {
    if s == [] then [x]
    else if key(x) >= key(s[0]) then [x] + s
    else
      var rest := InsertDesc(x, s[1..], key);
      assert s == [s[0]] + s[1..];
      forall i | 0 <= i < |rest| ensures key(s[0]) >= key(rest[i]) {
        assert rest[i] in multiset(s[1..]) + multiset{x};
        if rest[i] != x {
          var j :| 0 <= j < |s[1..]| && s[1..][j] == rest[i];
          assert s[j + 1] == rest[i];
        }
      }
      [s[0]] + rest
  }

  /** The stable sort `xs.sort((a, b) => key(b) - key(a))`: largest key first, a permutation of `xs`. */
  function SortDesc<T(==)>(xs: seq<T>, key: T -> real): (r: seq<T>)
    ensures SortedDesc(r, key)
    ensures multiset(r) == multiset(xs)
  {
    if xs == [] then []
    else
      assert xs == [xs[0]] + xs[1..];
      InsertDesc(xs[0], SortDesc(xs[1..], key), key)
  }

  /** The sorted sequence has the length and the members of the input. */
  lemma SortDescMembers<T>(xs: seq<T>, key: T -> real)
    ensures |SortDesc(xs, key)| == |xs|
    ensures forall x :: x in SortDesc(xs, key) <==> x in xs
  {
    var r := SortDesc(xs, key);
    assert |r| == |multiset(r)| == |multiset(xs)| == |xs|;
    forall x ensures x in r <==> x in xs {
      assert x in r <==> x in multiset(r);
      assert x in xs <==> x in multiset(xs);
    }
  }

  /** The first `n` of a descending sort are the `n` largest: each is drawn from `xs`, and
      none is smaller than an element left out. */
  lemma SortedPrefixIsTop<T(!new)>(xs: seq<T>, key: T -> real, n: nat)
    ensures |Take(SortDesc(xs, key), n)| == if |xs| < n then |xs| else n
    ensures SortedDesc(Take(SortDesc(xs, key), n), key)
    ensures forall y :: y in Take(SortDesc(xs, key), n) ==> y in xs
    ensures forall y, x :: y in Take(SortDesc(xs, key), n) && x in xs && x !in Take(SortDesc(xs, key), n)
                           ==> key(y) >= key(x)
  {
    var sorted := SortDesc(xs, key);
    var r := Take(sorted, n);
    SortDescMembers(xs, key);
    assert forall i :: 0 <= i < |r| ==> r[i] == sorted[i];
    forall y, x | y in r && x in xs && x !in r ensures key(y) >= key(x) {
      var i :| 0 <= i < |r| && r[i] == y;
      var j :| 0 <= j < |sorted| && sorted[j] == x;
      assert r[i] == sorted[i];
      if j < |r| {
        assert x == r[j];
      }
    }
  }

  /** `xs.map(f)` */
  function Map<T, U>(xs: seq<T>, f: T -> U): (r: seq<U>)
    ensures |r| == |xs|
    ensures forall i :: 0 <= i < |xs| ==> r[i] == f(xs[i])
  {
    if xs == [] then [] else [f(xs[0])] + Map(xs[1..], f)
  }

  /** `xs.filter(Boolean)` over optional values: the present ones, in order. */
  function Somes<T>(xs: seq<Option<T>>): (r: seq<T>)
    ensures |r| <= |xs|
  {
    if xs == [] then [] else (if xs[0].Some? then [xs[0].value] else []) + Somes(xs[1..])
  }

  /** `xs.slice(0, n)` */
  function Take<T>(xs: seq<T>, n: nat): (r: seq<T>)
    ensures |r| == if |xs| < n then |xs| else n
    ensures r <= xs
  {
    if |xs| <= n then xs else xs[..n]
  }

  /** Equal prefixes and equal suffixes cancel. */
  lemma CancelAround<T>(p: seq<T>, a: seq<T>, b: seq<T>, s: seq<T>)
    requires p + a + s == p + b + s
    ensures a == b
  {
    var x := p + a + s;
    assert |a| == |b|;
    assert a == x[|p|..|p| + |a|];
  }

  /** `xs.reduce((sum, x) => sum + f(x), 0)` over reals. */
  function SumReal<T>(xs: seq<T>, f: T -> real): real {
    if xs == [] then 0.0 else SumReal(xs[..|xs| - 1], f) + f(xs[|xs| - 1])
  }

  /** A sum of terms between `lo` and `hi` lies between `|xs|` times each. */
  lemma {:induction false} SumRealBounds<T>(xs: seq<T>, f: T -> real, lo: real, hi: real)
    requires forall i :: 0 <= i < |xs| ==> lo <= f(xs[i]) <= hi
    ensures lo * |xs| as real <= SumReal(xs, f) <= hi * |xs| as real
  {
    if xs != [] {
      SumRealBounds(xs[..|xs| - 1], f, lo, hi);
    }
  }

  /** The sum over a concatenation is the sum of the sums. */
  lemma {:induction false} SumRealConcat<T>(xs: seq<T>, ys: seq<T>, f: T -> real)
    ensures SumReal(xs + ys, f) == SumReal(xs, f) + SumReal(ys, f)
  {
    if ys != [] {
      assert (xs + ys)[..|xs + ys| - 1] == xs + ys[..|ys| - 1];
      SumRealConcat(xs, ys[..|ys| - 1], f);
    } else {
      assert xs + ys == xs;
    }
  }

  /** `xs.slice().reverse()` */
  function Reverse<T>(xs: seq<T>): (r: seq<T>)
    ensures |r| == |xs|
    ensures forall i :: 0 <= i < |xs| ==> r[i] == xs[|xs| - 1 - i]
  {
    if xs == [] then [] else [xs[|xs| - 1]] + Reverse(xs[..|xs| - 1])
  }
}
