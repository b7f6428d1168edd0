/** Generic sequence helpers. They stand for the JavaScript array methods the
    application is built from (`filter`, `reduce`, `sort`) and for the SQL
    `WHERE` / `ORDER BY` clauses of the storage layer. */
module Seqs {
  import opened Wrappers

  /** `s.filter(p)`: the elements of `s` that satisfy `p`, in their original order, each
      as often as it occurs in `s`. */
  function Filter<T>(s: seq<T>, p: T -> bool): (r: seq<T>)
    ensures |r| <= |s|
    ensures forall i :: 0 <= i < |r| ==> r[i] in s && p(r[i])
    ensures forall i :: 0 <= i < |s| && p(s[i]) ==> s[i] in r
  {
    if s == [] then []
    else if p(s[0]) then [s[0]] + Filter(s[1..], p)
    else Filter(s[1..], p)
  }

  /** A filter keeps every element it keeps as often as it occurs in `s`: its multiset
      is within that of `s`, and agrees with it on every element satisfying `p`. */
  lemma FilterMultiplicity<T>(s: seq<T>, p: T -> bool)
    ensures multiset(Filter(s, p)) <= multiset(s)
    ensures forall i :: 0 <= i < |s| && p(s[i]) ==> multiset(Filter(s, p))[s[i]] == multiset(s)[s[i]]
  {
    forall x | x in multiset(Filter(s, p))
      ensures multiset(Filter(s, p))[x] <= multiset(s)[x]
    {
      FilterCountOf(s, p, x);
    }
    forall i | 0 <= i < |s| && p(s[i])
      ensures multiset(Filter(s, p))[s[i]] == multiset(s)[s[i]]
    {
      FilterCountOf(s, p, s[i]);
    }
  }

  /** `r` is obtained from `s` by deleting zero or more elements. */
  ghost predicate IsSubsequence<T>(r: seq<T>, s: seq<T>)
    decreases |s|
  {
    if r == [] then true
    else if s == [] then false
    else (r[0] == s[0] && IsSubsequence(r[1..], s[1..])) || IsSubsequence(r, s[1..])
  }

  /** Every element of a subsequence is an element of the sequence. */
  lemma {:induction false} SubsequenceMember<T>(r: seq<T>, s: seq<T>, i: int)
    requires IsSubsequence(r, s) && 0 <= i < |r|
    ensures r[i] in s
    decreases |s|
  {
    if r[0] == s[0] && IsSubsequence(r[1..], s[1..]) {
      if i > 0 {
        SubsequenceMember(r[1..], s[1..], i - 1);
      }
    } else {
      SubsequenceMember(r, s[1..], i);
    }
  }

  /** The multiplicity of any one value after a filter: that in `s` when it satisfies
      `p`, none otherwise. */
  lemma {:induction false} FilterCountOf<T>(s: seq<T>, p: T -> bool, x: T)
    ensures multiset(Filter(s, p))[x] == if p(x) then multiset(s)[x] else 0
  {
    if s != [] {
      FilterCountOf(s[1..], p, x);
      assert s == [s[0]] + s[1..];
      if p(s[0]) {
        assert Filter(s, p) == [s[0]] + Filter(s[1..], p);
      }
    }
  }

  /** A filter keeps the relative order of the elements it keeps. */
  lemma {:induction false} FilterIsSubsequence<T>(s: seq<T>, p: T -> bool)
    ensures IsSubsequence(Filter(s, p), s)
  {
    if s != [] {
      FilterIsSubsequence(s[1..], p);
      if p(s[0]) {
        var r := Filter(s, p);
        assert r[0] == s[0] && r[1..] == Filter(s[1..], p);
      }
    }
  }

  /** A filter whose predicate holds everywhere is the identity. */
  lemma {:induction false} FilterAll<T>(s: seq<T>, p: T -> bool)
    requires forall i :: 0 <= i < |s| ==> p(s[i])
    ensures Filter(s, p) == s
  {
    if s != [] {
      FilterAll(s[1..], p);
      assert [s[0]] + s[1..] == s;
    }
  }

  /** Filtering distributes over concatenation. */
  lemma {:induction false} FilterConcat<T>(a: seq<T>, b: seq<T>, p: T -> bool)
    ensures Filter(a + b, p) == Filter(a, p) + Filter(b, p)
  {
    if a == [] {
      assert a + b == b;
    } else {
      var c := a + b;
      assert c[0] == a[0] && c[1..] == a[1..] + b;
      FilterConcat(a[1..], b, p);
      if p(a[0]) {
        assert Filter(c, p) == [a[0]] + Filter(c[1..], p);
        assert Filter(a, p) == [a[0]] + Filter(a[1..], p);
      } else {
        assert Filter(c, p) == Filter(c[1..], p);
        assert Filter(a, p) == Filter(a[1..], p);
      }
    }
  }

  /** Two filters with predicates that agree on every element of `s` give the same result. */
  lemma {:induction false} FilterCongruent<T>(s: seq<T>, p: T -> bool, q: T -> bool)
    requires forall i :: 0 <= i < |s| ==> p(s[i]) == q(s[i])
    ensures Filter(s, p) == Filter(s, q)
  {
    if s != [] {
      FilterCongruent(s[1..], p, q);
    }
  }

  /** A filter with a predicate that holds nowhere keeps nothing. */
  lemma {:induction false} FilterNone<T>(s: seq<T>, p: T -> bool)
    requires forall i :: 0 <= i < |s| ==> !p(s[i])
    ensures Filter(s, p) == []
  {
    if s != [] {
      FilterNone(s[1..], p);
    }
  }

  /** A filter that rejects element `k` only removes that element. */
  lemma {:induction false} FilterDropsOne<T>(s: seq<T>, p: T -> bool, k: nat)
    requires k < |s| && !p(s[k])
    requires forall i :: 0 <= i < |s| && i != k ==> p(s[i])
    ensures Filter(s, p) == s[..k] + s[k + 1..]
  {
    if k == 0 {
      FilterAll(s[1..], p);
    } else {
      FilterDropsOne(s[1..], p, k - 1);
      assert s[1..][..k - 1] + s[1..][k..] == s[1..k] + s[k + 1..];
      assert [s[0]] + s[1..k] == s[..k];
    }
  }

  /** Two filters in a row are one filter by the conjunction. */
  lemma {:induction false} FilterFilter<T>(s: seq<T>, p: T -> bool, q: T -> bool, pq: T -> bool)
    requires forall i :: 0 <= i < |s| ==> pq(s[i]) == (p(s[i]) && q(s[i]))
    ensures Filter(Filter(s, p), q) == Filter(s, pq)
  {
    if s != [] {
      FilterFilter(s[1..], p, q, pq);
      if p(s[0]) {
        assert Filter(s, p) == [s[0]] + Filter(s[1..], p);
        assert ([s[0]] + Filter(s[1..], p))[1..] == Filter(s[1..], p);
      }
    }
  }

  /** `s.findIndex(p)`: the first index whose element satisfies `p`, or none. */
  function FindIndex<T>(s: seq<T>, p: T -> bool): (r: Option<nat>)
    ensures r.Some? ==> r.value < |s| && p(s[r.value]) && forall j :: 0 <= j < r.value ==> !p(s[j])
    ensures r.None? ==> forall j :: 0 <= j < |s| ==> !p(s[j])
  {
    if s == [] then None
    else if p(s[0]) then Some(0)
    else match FindIndex(s[1..], p)
      case None => None
      case Some(i) => Some(i + 1)
  }

  /** `s.find(p)`: the first element that satisfies `p`, or none. */
  function Find<T>(s: seq<T>, p: T -> bool): (r: Option<T>)
    ensures r.Some? ==> r.value in s && p(r.value)
    ensures r.Some? ==> exists k :: 0 <= k < |s| && s[k] == r.value && forall j :: 0 <= j < k ==> !p(s[j])
    ensures r.None? ==> forall j :: 0 <= j < |s| ==> !p(s[j])
  {
    match FindIndex(s, p)
    case None => None
    case Some(k) => Some(s[k])
  }

  /** `s.map(f)`. */
  function Map<T, U>(s: seq<T>, f: T -> U): (r: seq<U>)
    ensures |r| == |s|
    ensures forall i :: 0 <= i < |s| ==> r[i] == f(s[i])
  {
    if s == [] then [] else [f(s[0])] + Map(s[1..], f)
  }

  /** A prefix of a mapped sequence is the mapped prefix. */
  lemma MapPrefix<T, U>(s: seq<T>, f: T -> U, n: nat)
    requires n <= |s|
    ensures Map(s, f)[..n] == Map(s[..n], f)
  {
  }

  /** Mapping distributes over concatenation. */
  lemma MapConcat<T, U>(a: seq<T>, b: seq<T>, f: T -> U)
    ensures Map(a + b, f) == Map(a, f) + Map(b, f)
  {
    var l, r := Map(a + b, f), Map(a, f) + Map(b, f);
    assert |l| == |r|;
    forall i | 0 <= i < |l|
      ensures l[i] == r[i]
    {
      if i < |a| {
        assert (a + b)[i] == a[i];
      } else {
        assert (a + b)[i] == b[i - |a|];
      }
    }
  }

  /** Filtering after a map is mapping after filtering by the composed predicate. */
  lemma {:induction false} FilterMap<T, U>(s: seq<T>, f: T -> U, p: U -> bool, pf: T -> bool)
    requires forall i :: 0 <= i < |s| ==> pf(s[i]) == p(f(s[i]))
    ensures Filter(Map(s, f), p) == Map(Filter(s, pf), f)
  {
    if s != [] {
      FilterMap(s[1..], f, p, pf);
      var m := Map(s, f);
      assert m[0] == f(s[0]) && m[1..] == Map(s[1..], f);
      if pf(s[0]) {
        var r := Filter(s, pf);
        assert r[0] == s[0] && r[1..] == Filter(s[1..], pf);
      }
    }
  }

  /** A map that fixes every element is the identity. */
  lemma {:induction false} MapIdentity<T>(s: seq<T>, f: T -> T)
    requires forall i :: 0 <= i < |s| ==> f(s[i]) == s[i]
    ensures Map(s, f) == s
  {
  }

  /** Number of elements satisfying `p`: `s.filter(p).length`. */
  function Count<T>(s: seq<T>, p: T -> bool): nat
  {
    |Filter(s, p)|
  }

  /** Two predicates that never hold together count at most the whole sequence. */
  lemma {:induction false} DisjointCountsBounded<T>(s: seq<T>, p: T -> bool, q: T -> bool)
    requires forall i :: 0 <= i < |s| ==> !(p(s[i]) && q(s[i]))
    ensures Count(s, p) + Count(s, q) <= |s|
  {
    if s != [] {
      DisjointCountsBounded(s[1..], p, q);
    }
  }

  /** `s.reduce((acc, x) => acc + f(x), 0)`: a left fold, so the last element is added last. */
  function Sum<T>(s: seq<T>, f: T -> real): real
  {
    if s == [] then 0.0 else Sum(s[..|s| - 1], f) + f(s[|s| - 1])
  }

  lemma {:induction false} SumConcat<T>(a: seq<T>, b: seq<T>, f: T -> real)
    ensures Sum(a + b, f) == Sum(a, f) + Sum(b, f)
  {
    if b == [] {
      assert a + b == a;
    } else {
      SumConcat(a, b[..|b| - 1], f);
      assert (a + b)[..|a + b| - 1] == a + b[..|b| - 1];
    }
  }

  lemma SumCons<T>(x: T, s: seq<T>, f: T -> real)
    ensures Sum([x] + s, f) == f(x) + Sum(s, f)
  {
    SumConcat([x], s, f);
    assert [x][..0] == [];
  }

  /** Sums over two sequences agree when they agree element by element. */
  lemma {:induction false} SumPointwise<T, U>(a: seq<T>, f: T -> real, b: seq<U>, g: U -> real)
    requires |a| == |b|
    requires forall i :: 0 <= i < |a| ==> f(a[i]) == g(b[i])
    ensures Sum(a, f) == Sum(b, g)
  {
    if a != [] {
      SumPointwise(a[..|a| - 1], f, b[..|b| - 1], g);
    }
  }

  /** Elements dropped by a filter contribute nothing when `f` is zero on them. */
  lemma {:induction false} SumFilterZero<T>(s: seq<T>, p: T -> bool, f: T -> real)
    requires forall i :: 0 <= i < |s| ==> !p(s[i]) ==> f(s[i]) == 0.0
    ensures Sum(Filter(s, p), f) == Sum(s, f)
  {
    if s != [] {
      SumFilterZero(s[1..], p, f);
      SumCons(s[0], s[1..], f);
      assert [s[0]] + s[1..] == s;
      if p(s[0]) {
        SumCons(s[0], Filter(s[1..], p), f);
      }
    }
  }

  /** A sum of non-negative terms is non-negative. */
  lemma {:induction false} SumNonNegative<T>(s: seq<T>, f: T -> real)
    requires forall i :: 0 <= i < |s| ==> f(s[i]) >= 0.0
    ensures Sum(s, f) >= 0.0
  {
    if s != [] {
      SumNonNegative(s[..|s| - 1], f);
    }
  }

  /** Replacing one element changes the sum by the difference of the two values. */
  lemma SumUpdate<T>(s: seq<T>, k: int, x: T, f: T -> real)
    requires 0 <= k < |s|
    ensures Sum(s[k := x], f) == Sum(s, f) - f(s[k]) + f(x)
  {
    var pre, post := s[..k], s[k + 1..];
    assert s == pre + [s[k]] + post;
    assert s[k := x] == pre + [x] + post;
    SumConcat(pre + [s[k]], post, f);
    SumConcat(pre, [s[k]], f);
    SumConcat(pre + [x], post, f);
    SumConcat(pre, [x], f);
    assert Sum([s[k]], f) == f(s[k]) by { assert [s[k]][..0] == []; }
    assert Sum([x], f) == f(x) by { assert [x][..0] == []; }
  }

  /** Taking element `k` out takes its value off the sum. */
  lemma {:induction false} SumRemove<T>(s: seq<T>, k: nat, f: T -> real)
    requires k < |s|
    ensures Sum(s[..k] + s[k + 1..], f) == Sum(s, f) - f(s[k])
  {
    var n := |s| - 1;
    var r := s[..k] + s[k + 1..];
    if k == n {
      assert r == s[..n];
    } else {
      var t := s[..n];
      SumRemove(t, k, f);
      assert t[..k] + t[k + 1..] == r[..|r| - 1];
      assert r[|r| - 1] == s[n] && t[k] == s[k];
    }
  }

  /** A map that changes the value of element `k` by `d` and no other value changes
      the sum by `d`. */
  lemma SumMapDelta<T>(s: seq<T>, g: T -> T, f: T -> real, k: nat, d: real)
    requires k < |s|
    requires forall i :: 0 <= i < |s| && i != k ==> f(g(s[i])) == f(s[i])
    requires f(g(s[k])) == f(s[k]) + d
    ensures Sum(Map(s, g), f) == Sum(s, f) + d
  {
    var u := s[k := g(s[k])];
    SumPointwise(Map(s, g), f, u, f);
    SumUpdate(s, k, g(s[k]), f);
  }

  /** Integer version of `Sum`, for counts such as the total quantity of a cart. */
  function SumInt<T>(s: seq<T>, f: T -> int): int
  {
    if s == [] then 0 else SumInt(s[..|s| - 1], f) + f(s[|s| - 1])
  }

  lemma {:induction false} SumIntConcat<T>(a: seq<T>, b: seq<T>, f: T -> int)
    ensures SumInt(a + b, f) == SumInt(a, f) + SumInt(b, f)
  {
    if b == [] {
      assert a + b == a;
    } else {
      SumIntConcat(a, b[..|b| - 1], f);
      assert (a + b)[..|a + b| - 1] == a + b[..|b| - 1];
    }
  }

  /** Ascending order of `key`. */
  ghost predicate SortedBy<T>(s: seq<T>, key: T -> int)
  {
    forall i, j :: 0 <= i < j < |s| ==> key(s[i]) <= key(s[j])
  }

  /** Inserts `x` after every element whose key is not larger (so equal keys keep their order). */
  function Insert<T>(x: T, s: seq<T>, key: T -> int): (r: seq<T>)
    ensures multiset(r) == multiset(s) + multiset{x}
  {
    if s == [] then [x]
    else if key(x) < key(s[0]) then [x] + s
    else
      assert s == [s[0]] + s[1..];
      [s[0]] + Insert(x, s[1..], key)
  }

  /** Every element of `Insert(x, s)` is `x` or an element of `s`. */
  lemma InsertElements<T>(x: T, s: seq<T>, key: T -> int, i: int)
    requires 0 <= i < |Insert(x, s, key)|
    ensures Insert(x, s, key)[i] == x || Insert(x, s, key)[i] in s
  {
    var r := Insert(x, s, key);
    assert r[i] in multiset(r);
  }

  lemma {:induction false} InsertSorted<T>(x: T, s: seq<T>, key: T -> int)
    requires SortedBy(s, key)
    ensures SortedBy(Insert(x, s, key), key)
  {
    if s != [] && key(s[0]) <= key(x) {
      var rest := Insert(x, s[1..], key);
      InsertSorted(x, s[1..], key);
      forall i | 0 <= i < |rest|
        ensures key(s[0]) <= key(rest[i])
      {
        InsertElements(x, s[1..], key, i);
      }
      assert Insert(x, s, key) == [s[0]] + rest;
    }
  }

  /** A stable insertion sort by ascending `key`: `ORDER BY key ASC`. */
  function SortBy<T>(s: seq<T>, key: T -> int): (r: seq<T>)
    ensures multiset(r) == multiset(s)
    ensures SortedBy(r, key)
  {
    if s == [] then []
    else
      assert s == s[..|s| - 1] + [s[|s| - 1]];
      var prefix := SortBy(s[..|s| - 1], key);
      InsertSorted(s[|s| - 1], prefix, key);
      Insert(s[|s| - 1], prefix, key)
  }
}
