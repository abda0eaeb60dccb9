/** The filtered-collection-view vocabulary every page is built from: a stable
    filter (`Array.prototype.filter`), projections (`map`), de-duplication in
    first-occurrence order (`[...new Set(xs)]`), counts and sums (`reduce`). */
module Views {

  /** `a` can be obtained from `b` by deleting elements: same relative order. */
  predicate IsSubsequence<T(==)>(a: seq<T>, b: seq<T>)
    decreases |b|
  {
    if a == [] then true
    else if b == [] then false
    else (a[|a| - 1] == b[|b| - 1] && IsSubsequence(a[..|a| - 1], b[..|b| - 1]))
         || IsSubsequence(a, b[..|b| - 1])
  }

  ghost predicate NoDup<T>(s: seq<T>) {
    forall i, j :: 0 <= i < j < |s| ==> s[i] != s[j]
  }

  /** `s.filter(p)`: the elements satisfying `p`, in their original order. */
  function Filter<T>(s: seq<T>, p: T -> bool): (r: seq<T>)
    ensures |r| <= |s|
    ensures forall i :: 0 <= i < |r| ==> r[i] in s && p(r[i])
    ensures forall i :: 0 <= i < |s| && p(s[i]) ==> s[i] in r
    ensures NoDup(s) ==> NoDup(r)
    decreases |s|
  {
    if s == [] then []
    else
      var init := Filter(s[..|s| - 1], p);
      assert s == s[..|s| - 1] + [s[|s| - 1]];
      if p(s[|s| - 1]) then init + [s[|s| - 1]] else init
  }

  /** A filtered view keeps the order of the collection it came from. */
  lemma {:induction false} FilterIsSubsequence<T>(s: seq<T>, p: T -> bool)
    ensures IsSubsequence(Filter(s, p), s)
    decreases |s|
  {
    if s != [] {
      var init, last := s[..|s| - 1], s[|s| - 1];
      FilterIsSubsequence(init, p);
      var f := Filter(s, p);
      if p(last) {
        assert f[..|f| - 1] == Filter(init, p);
      }
    }
  }

  /** Every element of a filtered view has a property every element of the
      collection has. */
  lemma {:induction false} FilterKeeps<T>(s: seq<T>, p: T -> bool, q: T -> bool)
    requires forall i :: 0 <= i < |s| ==> q(s[i])
    ensures forall i :: 0 <= i < |Filter(s, p)| ==> q(Filter(s, p)[i])
    decreases |s|
  {
    if s != [] {
      FilterKeeps(s[..|s| - 1], p, q);
    }
  }

  /** Filtering depends only on which elements the predicate keeps. */
  lemma {:induction false} FilterSamePredicate<T>(s: seq<T>, p: T -> bool, q: T -> bool)
    requires forall i :: 0 <= i < |s| ==> p(s[i]) == q(s[i])
    ensures Filter(s, p) == Filter(s, q)
    decreases |s|
  {
    if s != [] {
      FilterSamePredicate(s[..|s| - 1], p, q);
    }
  }

  /** A filter that rejects nothing is the identity. */
  lemma {:induction false} FilterKeepsAll<T>(s: seq<T>, p: T -> bool)
    requires forall i :: 0 <= i < |s| ==> p(s[i])
    ensures Filter(s, p) == s
    decreases |s|
  {
    if s != [] {
      var init, last := s[..|s| - 1], s[|s| - 1];
      assert s == init + [last];
      FilterKeepsAll(init, p);
    }
  }

  lemma {:induction false} FilterAppend<T>(a: seq<T>, b: seq<T>, p: T -> bool)
    ensures Filter(a + b, p) == Filter(a, p) + Filter(b, p)
    decreases |b|
  {
    if b == [] {
      assert a + b == a;
    } else {
      FilterAppend(a, b[..|b| - 1], p);
      assert (a + b)[..|a + b| - 1] == a + b[..|b| - 1];
    }
  }

  /** `s.map(f)`. */
  function MapSeq<T, U>(s: seq<T>, f: T -> U): (r: seq<U>)
    ensures |r| == |s| && forall i :: 0 <= i < |s| ==> r[i] == f(s[i])
  {
    seq(|s|, i requires 0 <= i < |s| => f(s[i]))
  }

  /** A projection that separates the elements of `s` still separates those of a filtered view. */
  lemma {:induction false} FilterMapNoDup<T, U>(s: seq<T>, p: T -> bool, key: T -> U)
    requires NoDup(MapSeq(s, key))
    ensures NoDup(MapSeq(Filter(s, p), key))
    decreases |s|
  {
    if s != [] {
      var init, last := s[..|s| - 1], s[|s| - 1];
      assert MapSeq(init, key) == MapSeq(s, key)[..|s| - 1];
      FilterMapNoDup(init, p, key);
      if p(last) {
        var fi := Filter(init, p);
        var m := MapSeq(fi + [last], key);
        forall i | 0 <= i < |fi|
          ensures m[i] != key(last)
        {
          assert fi[i] in init;
          var k :| 0 <= k < |init| && init[k] == fi[i];
          assert MapSeq(s, key)[k] == key(fi[i]);
          assert MapSeq(s, key)[|s| - 1] == key(last);
        }
      }
    }
  }

  /** `[...new Set(s)]`: the distinct elements of `s`, each at its first occurrence. */
  function Distinct<T(==)>(s: seq<T>): (r: seq<T>)
    ensures forall i :: 0 <= i < |r| ==> r[i] in s
    ensures forall i :: 0 <= i < |s| ==> s[i] in r
    ensures NoDup(r)
    decreases |s|
  {
    if s == [] then []
    else
      var d := Distinct(s[..|s| - 1]);
      assert s == s[..|s| - 1] + [s[|s| - 1]];
      if s[|s| - 1] in d then d else d + [s[|s| - 1]]
  }

  /** Adding one more value to a set keeps the insertion order of the values
      already present and appends a new one. */
  lemma DistinctSnoc<T>(s: seq<T>, x: T)
    ensures Distinct(s + [x]) == if x in Distinct(s) then Distinct(s) else Distinct(s) + [x]
  {
    assert (s + [x])[..|s|] == s;
  }

  /** The distinct values keep the order in which they first occur. */
  lemma {:induction false} DistinctIsSubsequence<T>(s: seq<T>)
    ensures IsSubsequence(Distinct(s), s)
    decreases |s|
  {
    if s != [] {
      var init := s[..|s| - 1];
      DistinctIsSubsequence(init);
      var d := Distinct(s);
      if s[|s| - 1] !in Distinct(init) {
        assert d[..|d| - 1] == Distinct(init);
      } else {
        SubsequenceOfLonger(d, init, s[|s| - 1]);
        assert init + [s[|s| - 1]] == s;
      }
    }
  }

  lemma SubsequenceOfLonger<T>(a: seq<T>, b: seq<T>, x: T)
    requires IsSubsequence(a, b)
    ensures IsSubsequence(a, b + [x])
  {
    assert (b + [x])[..|b|] == b;
  }

  /** A sequence with no repeated element holds each value at most once. */
  lemma {:induction false} NoDupMultiplicity<T>(s: seq<T>, x: T)
    requires NoDup(s)
    ensures multiset(s)[x] <= 1
    decreases |s|
  {
    if s != [] {
      var init := s[..|s| - 1];
      assert s == init + [s[|s| - 1]];
      NoDupMultiplicity(init, x);
      if x == s[|s| - 1] {
        assert x !in init;
      }
    }
  }

  /** Rearranging a sequence without repetitions cannot create one. */
  lemma PermutationNoDup<T>(a: seq<T>, b: seq<T>)
    requires NoDup(a) && multiset(a) == multiset(b)
    ensures NoDup(b)
  {
    forall i, j | 0 <= i < j < |b|
      ensures b[i] != b[j]
    {
      NoDupMultiplicity(a, b[j]);
      assert b == b[..j] + [b[j]] + b[j + 1..];
      assert b[i] in multiset(b[..j]);
    }
  }

  /** Number of elements satisfying `p` (`s.filter(p).length`). */
  function Count<T>(s: seq<T>, p: T -> bool): (n: nat)
    ensures n <= |s|
    decreases |s|
  {
    if s == [] then 0 else Count(s[..|s| - 1], p) + (if p(s[|s| - 1]) then 1 else 0)
  }

  /** `s.reduce((sum, x) => sum + f(x), 0)`. */
  function Sum<T>(s: seq<T>, f: T -> int): int
    decreases |s|
  {
    if s == [] then 0 else Sum(s[..|s| - 1], f) + f(s[|s| - 1])
  }

  /** A sum over a collection splits into the sum over a filtered view and the
      sum over what the view hides. */
  lemma {:induction false} SumPartition<T>(s: seq<T>, p: T -> bool, q: T -> bool, f: T -> int)
    requires forall x :: q(x) == !p(x)
    ensures Sum(s, f) == Sum(Filter(s, p), f) + Sum(Filter(s, q), f)
    decreases |s|
  {
    if s != [] {
      var init, last := s[..|s| - 1], s[|s| - 1];
      SumPartition(init, p, q, f);
      var a, b := Filter(init, p), Filter(init, q);
      if p(last) {
        assert (a + [last])[..|a|] == a;
      } else {
        assert (b + [last])[..|b|] == b;
      }
    }
  }

  /** `s.filter((_, i) => i !== k)`: every element whose position is not `k`.
      Exactly the element at `k` goes when `k` is a position of `s`; nothing
      goes otherwise. */
  function RemoveAt<T>(s: seq<T>, k: int): (r: seq<T>)
    ensures 0 <= k < |s| ==> r == s[..k] + s[k + 1..]
    ensures !(0 <= k < |s|) ==> r == s
    decreases |s|
  {
    if s == [] then []
    else
      var init := RemoveAt(s[..|s| - 1], k);
      assert s == s[..|s| - 1] + [s[|s| - 1]];
      if |s| - 1 == k then init
      else
        assert 0 <= k < |s| - 1 ==> s[..|s| - 1][k + 1..] + [s[|s| - 1]] == s[k + 1..];
        init + [s[|s| - 1]]
  }

  /** `xs[:n]` / `xs.slice(0, n)` */
  function Take<T>(s: seq<T>, n: nat): (r: seq<T>)
    ensures |r| <= n && |r| <= |s|
    ensures r == s[..|r|]
    ensures |s| <= n ==> r == s
  {
    if |s| <= n then s else s[..n]
  }
}
