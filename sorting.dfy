/** The library sorts the system calls (`Array.prototype.sort` with a numeric
    comparator, Python's `list.sort(key=…)`), specified as a stable insertion
    sort on an integer key: ascending by the key, descending by its negation. */
module Sorting {

  /** Non-decreasing by `key`. */
  ghost predicate SortedBy<T>(s: seq<T>, key: T -> int) {
    forall i, j :: 0 <= i < j < |s| ==> key(s[i]) <= key(s[j])
  }

  /** Places `x` after every element of `t` whose key is not greater, so equal
      keys keep their order. */
  function Insert<T>(t: seq<T>, x: T, key: T -> int): (r: seq<T>)
    ensures |r| == |t| + 1
    ensures multiset(r) == multiset(t) + multiset{x}
    decreases |t|
  {
    if t == [] || key(t[|t| - 1]) <= key(x) then t + [x]
    else
      assert t == t[..|t| - 1] + [t[|t| - 1]];
      Insert(t[..|t| - 1], x, key) + [t[|t| - 1]]
  }

  function SortBy<T>(s: seq<T>, key: T -> int): (r: seq<T>)
    ensures |r| == |s|
    decreases |s|
  {
    if s == [] then [] else Insert(SortBy(s[..|s| - 1], key), s[|s| - 1], key)
  }

  lemma {:induction false} InsertSorted<T>(t: seq<T>, x: T, key: T -> int)
    requires SortedBy(t, key)
    ensures SortedBy(Insert(t, x, key), key)
    ensures Insert(t, x, key) != [] && key(Insert(t, x, key)[|t|]) >= key(x)
    ensures |t| > 0 ==> key(Insert(t, x, key)[|t|]) >= key(t[|t| - 1])
    decreases |t|
  {
    if t != [] && key(t[|t| - 1]) > key(x) {
      var init := t[..|t| - 1];
      InsertSorted(init, x, key);
      var r0 := Insert(init, x, key);
      var r := r0 + [t[|t| - 1]];
      assert multiset(r0) == multiset(init) + multiset{x};
      forall i | 0 <= i < |r0|
        ensures key(r0[i]) <= key(t[|t| - 1])
      {
        assert r0[i] in multiset(r0);
        if r0[i] != x {
          assert r0[i] in multiset(init);
          assert r0[i] in init;
        }
      }
    }
  }

  /** The sort yields a sequence ordered by the key ... */
  lemma {:induction false} SortBySorted<T>(s: seq<T>, key: T -> int)
    ensures SortedBy(SortBy(s, key), key)
    decreases |s|
  {
    if s != [] {
      SortBySorted(s[..|s| - 1], key);
      InsertSorted(SortBy(s[..|s| - 1], key), s[|s| - 1], key);
    }
  }

  /** ... holding exactly the elements it was given. */
  lemma {:induction false} SortByPermutes<T>(s: seq<T>, key: T -> int)
    ensures multiset(SortBy(s, key)) == multiset(s)
    decreases |s|
  {
    if s != [] {
      SortByPermutes(s[..|s| - 1], key);
      assert s == s[..|s| - 1] + [s[|s| - 1]];
    }
  }
}
