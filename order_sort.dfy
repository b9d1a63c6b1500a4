/** `array.sort((a, b) => a.order - b.order)`: the stable sort of ECMAScript 2019 with an
    integer key, written as an insertion sort that places each element after every
    earlier element whose key is not larger. */
module OrderSort {
  import opened Common

  ghost predicate SortedBy<T>(s: seq<T>, key: T -> int) {
    forall i, j :: 0 <= i < j < |s| ==> key(s[i]) <= key(s[j])
  }

  /** Elements of `s` whose key is `k`, in their order in `s`. */
  function WithKey<T>(s: seq<T>, key: T -> int, k: int): seq<T>
    decreases |s|
  {
    if s == [] then []
    else WithKey(s[..|s| - 1], key, k) + (if key(s[|s| - 1]) == k then [s[|s| - 1]] else [])
  }

  /** Insert `x` after the last element of `t` whose key is at most `key(x)`. */
  function InsertLast<T>(t: seq<T>, x: T, key: T -> int): seq<T>
    decreases |t|
  {
    if t == [] || key(t[|t| - 1]) <= key(x) then t + [x]
    else InsertLast(t[..|t| - 1], x, key) + [t[|t| - 1]]
  }

  function SortBy<T>(s: seq<T>, key: T -> int): seq<T>
    decreases |s|
  {
    if s == [] then [] else InsertLast(SortBy(s[..|s| - 1], key), s[|s| - 1], key)
  }

  lemma {:induction false} InsertLastPermutes<T>(t: seq<T>, x: T, key: T -> int)
    ensures |InsertLast(t, x, key)| == |t| + 1
    ensures multiset(InsertLast(t, x, key)) == multiset(t) + multiset{x}
    decreases |t|
  {
    if !(t == [] || key(t[|t| - 1]) <= key(x)) {
      var init := t[..|t| - 1];
      assert t == init + [t[|t| - 1]];
      InsertLastPermutes(init, x, key);
    }
  }

  lemma {:induction false} InsertLastSorted<T>(t: seq<T>, x: T, key: T -> int)
    requires SortedBy(t, key)
    ensures SortedBy(InsertLast(t, x, key), key)
    decreases |t|
  {
    if !(t == [] || key(t[|t| - 1]) <= key(x)) {
      var init, last := t[..|t| - 1], t[|t| - 1];
      assert t == init + [last];
      InsertLastSorted(init, x, key);
      InsertLastPermutes(init, x, key);
      var r' := InsertLast(init, x, key);
      // every element of r' is x or an element of init, all keyed at most key(last)
      forall i | 0 <= i < |r'| ensures key(r'[i]) <= key(last) {
        assert r'[i] in multiset(r');
        if r'[i] != x {
          assert r'[i] in multiset(init);
          var j :| 0 <= j < |init| && init[j] == r'[i];
          assert t[j] == init[j];
        }
      }
    }
  }

  lemma {:induction false} InsertLastStable<T>(t: seq<T>, x: T, key: T -> int, k: int)
    requires SortedBy(t, key)
    ensures WithKey(InsertLast(t, x, key), key, k) == WithKey(t, key, k) + (if key(x) == k then [x] else [])
    decreases |t|
  {
    var r := InsertLast(t, x, key);
    if t == [] || key(t[|t| - 1]) <= key(x) {
      assert r[..|r| - 1] == t;
    } else {
      var init, last := t[..|t| - 1], t[|t| - 1];
      assert t == init + [last];
      InsertLastStable(init, x, key, k);
      var r' := InsertLast(init, x, key);
      assert r[..|r| - 1] == r';
      if key(last) == k {
        // then key(x) < k, so x is not selected either
        assert key(x) != k;
      }
    }
  }

  lemma {:induction false} SortByFacts<T>(s: seq<T>, key: T -> int)
    ensures |SortBy(s, key)| == |s|
    ensures SortedBy(SortBy(s, key), key)
    ensures multiset(SortBy(s, key)) == multiset(s)
    ensures forall k :: WithKey(SortBy(s, key), key, k) == WithKey(s, key, k)
    decreases |s|
  {
    if s != [] {
      var init, last := s[..|s| - 1], s[|s| - 1];
      assert s == init + [last];
      SortByFacts(init, key);
      InsertLastPermutes(SortBy(init, key), last, key);
      InsertLastSorted(SortBy(init, key), last, key);
      forall k ensures WithKey(SortBy(s, key), key, k) == WithKey(s, key, k) {
        InsertLastStable(SortBy(init, key), last, key, k);
      }
    }
  }

  /** Sorting is a permutation. */
  lemma SortByIsPermutation<T>(s: seq<T>, key: T -> int)
    ensures multiset(SortBy(s, key)) == multiset(s)
  {
    SortByFacts(s, key);
  }

  /** Sorting orders by key, keeps the length, and is stable: the elements that share a
      key appear in the output in the same relative order as in the input. */
  lemma SortByIsStableSort<T>(s: seq<T>, key: T -> int)
    ensures |SortBy(s, key)| == |s|
    ensures SortedBy(SortBy(s, key), key)
    ensures forall k :: WithKey(SortBy(s, key), key, k) == WithKey(s, key, k)
  {
    SortByFacts(s, key);
  }

  /** A sequence that is already ordered by key is left as it is. */
  lemma {:induction false} SortBySortedIsIdentity<T>(s: seq<T>, key: T -> int)
    requires SortedBy(s, key)
    ensures SortBy(s, key) == s
    decreases |s|
  {
    if s != [] {
      var init := s[..|s| - 1];
      assert SortedBy(init, key);
      SortBySortedIsIdentity(init, key);
      assert s == init + [s[|s| - 1]];
    }
  }

  /** Sorting `t + [x]` where `t` is ordered places `x` at position `p`, the point
      that separates keys up to `key(x)` from larger ones. */
  lemma {:induction false} InsertLastAt<T>(t: seq<T>, x: T, key: T -> int, p: nat)
    requires p <= |t|
    requires forall i :: 0 <= i < p ==> key(t[i]) <= key(x)
    requires forall i :: p <= i < |t| ==> key(t[i]) > key(x)
    ensures InsertLast(t, x, key) == t[..p] + [x] + t[p..]
    decreases |t|
  {
    if t == [] || key(t[|t| - 1]) <= key(x) {
      assert p == |t|;
    } else {
      var init := t[..|t| - 1];
      InsertLastAt(init, x, key, p);
      assert t[..p] == init[..p];
      assert t[p..] == init[p..] + [t[|t| - 1]];
    }
  }

  /** Sorting commutes with a map that preserves keys. */
  lemma {:induction false} SortByMapCommutes<T, U>(s: seq<T>, f: T -> U, k1: T -> int, k2: U -> int)
    requires forall x :: k2(f(x)) == k1(x)
    ensures MapSeq(SortBy(s, k1), f) == SortBy(MapSeq(s, f), k2)
    decreases |s|
  {
    if s != [] {
      var init, last := s[..|s| - 1], s[|s| - 1];
      SortByMapCommutes(init, f, k1, k2);
      assert MapSeq(s, f)[..|s| - 1] == MapSeq(init, f);
      InsertLastMapCommutes(SortBy(init, k1), last, f, k1, k2);
    }
  }

  lemma {:induction false} InsertLastMapCommutes<T, U>(t: seq<T>, x: T, f: T -> U, k1: T -> int, k2: U -> int)
    requires forall x :: k2(f(x)) == k1(x)
    ensures MapSeq(InsertLast(t, x, k1), f) == InsertLast(MapSeq(t, f), f(x), k2)
    decreases |t|
  {
    if t == [] || k1(t[|t| - 1]) <= k1(x) {
      assert MapSeq(t + [x], f) == MapSeq(t, f) + [f(x)];
    } else {
      var init := t[..|t| - 1];
      InsertLastMapCommutes(init, x, f, k1, k2);
      assert MapSeq(t, f)[..|t| - 1] == MapSeq(init, f);
      assert MapSeq(InsertLast(init, x, k1) + [t[|t| - 1]], f)
          == MapSeq(InsertLast(init, x, k1), f) + [f(t[|t| - 1])];
    }
  }

  /** Sorting permutes the images of the elements under any map, for instance the
      elements with their sort key erased. */
  lemma {:induction false} SortByMapPermutes<T, U>(s: seq<T>, key: T -> int, f: T -> U)
    ensures multiset(MapSeq(SortBy(s, key), f)) == multiset(MapSeq(s, f))
    decreases |s|
  {
    if s != [] {
      var init, last := s[..|s| - 1], s[|s| - 1];
      SortByMapPermutes(init, key, f);
      InsertLastMapPermutes(SortBy(init, key), last, key, f);
      assert MapSeq(s, f) == MapSeq(init, f) + [f(last)];
    }
  }

  lemma {:induction false} InsertLastMapPermutes<T, U>(t: seq<T>, x: T, key: T -> int, f: T -> U)
    ensures multiset(MapSeq(InsertLast(t, x, key), f)) == multiset(MapSeq(t, f)) + multiset{f(x)}
    decreases |t|
  {
    if t == [] || key(t[|t| - 1]) <= key(x) {
      assert MapSeq(t + [x], f) == MapSeq(t, f) + [f(x)];
    } else {
      var init := t[..|t| - 1];
      InsertLastMapPermutes(init, x, key, f);
      assert MapSeq(t, f) == MapSeq(init, f) + [f(t[|t| - 1])];
      assert MapSeq(InsertLast(init, x, key) + [t[|t| - 1]], f)
          == MapSeq(InsertLast(init, x, key), f) + [f(t[|t| - 1])];
    }
  }
}
