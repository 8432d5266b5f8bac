/**
 * Python's list.sort / sorted with a key: a stable sort. Modelled as an
 * insertion sort on sequences, proved to return a sorted permutation that
 * keeps the input order of elements with equal keys.
 */
module Sorting {
  import Common

  ghost predicate SortedBy<T>(s: seq<T>, key: T -> real) {
    forall i, j :: 0 <= i < j < |s| ==> key(s[i]) <= key(s[j])
  }

  /** The elements of s whose key is k, in order. */
  function WithKey<T>(s: seq<T>, key: T -> real, k: real): seq<T> {
    if |s| == 0 then []
    else (if key(s[0]) == k then [s[0]] else []) + WithKey(s[1..], key, k)
  }

  /** Insert x before the first element whose key is not smaller than x's. */
  function Insert<T>(x: T, s: seq<T>, key: T -> real): seq<T> {
    if |s| == 0 then [x]
    else if key(x) <= key(s[0]) then [x] + s
    else [s[0]] + Insert(x, s[1..], key)
  }

  /** sorted(s, key=key) */
  function SortBy<T>(s: seq<T>, key: T -> real): seq<T> {
    if |s| == 0 then [] else Insert(s[0], SortBy(s[1..], key), key)
  }

  /** sorted(s, key=key, reverse=True): Python keeps equal keys in input order. */
  function SortByDesc<T>(s: seq<T>, key: T -> real): seq<T> {
    SortBy(s, Negate(key))
  }

  function Negate<T>(key: T -> real): T -> real {
    x => -key(x)
  }

  lemma {:induction false} InsertMultiset<T>(x: T, s: seq<T>, key: T -> real)
    ensures |Insert(x, s, key)| == |s| + 1
    ensures multiset(Insert(x, s, key)) == multiset(s) + multiset{x}
  {
    if |s| > 0 && key(x) > key(s[0]) {
      InsertMultiset(x, s[1..], key);
      assert s == [s[0]] + s[1..];
    }
  }

  /** Every key in Insert(x, s) is at least b when that holds of x and of s. */
  lemma {:induction false} InsertLowerBound<T>(x: T, s: seq<T>, key: T -> real, b: real)
    requires b <= key(x)
    requires forall i :: 0 <= i < |s| ==> b <= key(s[i])
    ensures forall i :: 0 <= i < |Insert(x, s, key)| ==> b <= key(Insert(x, s, key)[i])
  {
    if |s| > 0 && key(x) > key(s[0]) {
      InsertLowerBound(x, s[1..], key, b);
      var r := Insert(x, s, key);
      assert r == [s[0]] + Insert(x, s[1..], key);
    }
  }

  lemma {:induction false} InsertSorted<T>(x: T, s: seq<T>, key: T -> real)
    requires SortedBy(s, key)
    ensures SortedBy(Insert(x, s, key), key)
  {
    if |s| > 0 && key(x) > key(s[0]) {
      var t := s[1..];
      InsertSorted(x, t, key);
      InsertLowerBound(x, t, key, key(s[0]));
      var r := Insert(x, s, key);
      assert r == [s[0]] + Insert(x, t, key);
    }
  }

  lemma {:induction false} InsertWithKey<T>(x: T, s: seq<T>, key: T -> real, k: real)
    requires SortedBy(s, key)
    ensures WithKey(Insert(x, s, key), key, k) == (if key(x) == k then [x] else []) + WithKey(s, key, k)
  {
    var r := Insert(x, s, key);
    var here := if key(x) == k then [x] else [];
    if |s| == 0 {
    } else if key(x) <= key(s[0]) {
      assert r[0] == x && r[1..] == s;
    } else {
      var t := s[1..];
      var first := if key(s[0]) == k then [s[0]] else [];
      InsertWithKey(x, t, key, k);
      assert r[0] == s[0] && r[1..] == Insert(x, t, key);
      assert WithKey(r, key, k) == first + WithKey(Insert(x, t, key), key, k);
      assert WithKey(s, key, k) == first + WithKey(t, key, k);
      assert WithKey(Insert(x, t, key), key, k) == here + WithKey(t, key, k);
      if key(x) == k {
        assert key(s[0]) != k;
        assert first == [];
      } else {
        assert here == [];
      }
    }
  }

  lemma InsertFacts<T>(x: T, s: seq<T>, key: T -> real)
    requires SortedBy(s, key)
    ensures |Insert(x, s, key)| == |s| + 1
    ensures SortedBy(Insert(x, s, key), key)
    ensures multiset(Insert(x, s, key)) == multiset(s) + multiset{x}
    ensures forall k :: WithKey(Insert(x, s, key), key, k)
                        == (if key(x) == k then [x] else []) + WithKey(s, key, k)
  {
    InsertMultiset(x, s, key);
    InsertSorted(x, s, key);
    forall k ensures WithKey(Insert(x, s, key), key, k) == (if key(x) == k then [x] else []) + WithKey(s, key, k) {
      InsertWithKey(x, s, key, k);
    }
  }

  lemma {:induction false} SortByFacts<T>(s: seq<T>, key: T -> real)
    ensures |SortBy(s, key)| == |s|
    ensures SortedBy(SortBy(s, key), key)
    ensures multiset(SortBy(s, key)) == multiset(s)
    ensures forall k :: WithKey(SortBy(s, key), key, k) == WithKey(s, key, k)
  {
    if |s| > 0 {
      SortByFacts(s[1..], key);
      InsertFacts(s[0], SortBy(s[1..], key), key);
      assert s == [s[0]] + s[1..];
      assert multiset(s) == multiset{s[0]} + multiset(s[1..]);
    }
  }

  /** SortBy returns a sorted permutation of its input that is stable. */
  lemma SortByCorrect<T>(s: seq<T>, key: T -> real)
    ensures |SortBy(s, key)| == |s|
    ensures forall i, j :: 0 <= i < j < |s| ==> key(SortBy(s, key)[i]) <= key(SortBy(s, key)[j])
    ensures multiset(SortBy(s, key)) == multiset(s)
    ensures forall k :: WithKey(SortBy(s, key), key, k) == WithKey(s, key, k)
  {
    SortByFacts(s, key);
  }

  /** SortByDesc returns a permutation in non-increasing key order, stable among equal keys. */
  lemma SortByDescCorrect<T>(s: seq<T>, key: T -> real)
    ensures |SortByDesc(s, key)| == |s|
    ensures forall i, j :: 0 <= i < j < |s| ==> key(SortByDesc(s, key)[i]) >= key(SortByDesc(s, key)[j])
    ensures multiset(SortByDesc(s, key)) == multiset(s)
    ensures forall k :: WithKey(SortByDesc(s, key), Negate(key), k) == WithKey(s, Negate(key), k)
  {
    SortByFacts(s, Negate(key));
    var r := SortByDesc(s, key);
    forall i, j | 0 <= i < j < |s| ensures key(r[i]) >= key(r[j]) {
      assert Negate(key)(r[i]) <= Negate(key)(r[j]);
    }
  }

  /** Inserting x into s adds f(x) to the sum of f. */
  lemma {:induction false} SumOfInsert<T>(x: T, s: seq<T>, key: T -> real, f: T -> real)
    ensures Common.SumOf(Insert(x, s, key), f) == f(x) + Common.SumOf(s, f)
  {
    if |s| == 0 {
      assert Insert(x, s, key)[..0] == [];
    } else if key(x) <= key(s[0]) {
      Common.SumOfAppend([x], s, f);
      assert [x][..0] == [];
    } else {
      SumOfInsert(x, s[1..], key, f);
      Common.SumOfAppend([s[0]], Insert(x, s[1..], key), f);
      Common.SumOfAppend([s[0]], s[1..], f);
      assert [s[0]][..0] == [];
      assert s == [s[0]] + s[1..];
    }
  }

  /** Sorting does not change the sum of f over the elements. */
  lemma {:induction false} SumOfSortBy<T>(s: seq<T>, key: T -> real, f: T -> real)
    ensures Common.SumOf(SortBy(s, key), f) == Common.SumOf(s, f)
  {
    if |s| > 0 {
      SumOfSortBy(s[1..], key, f);
      SumOfInsert(s[0], SortBy(s[1..], key), key, f);
      Common.SumOfAppend([s[0]], s[1..], f);
      assert [s[0]][..0] == [];
      assert s == [s[0]] + s[1..];
    }
  }
}
