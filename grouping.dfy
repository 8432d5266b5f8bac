/**
 * Grouping by key, as the services do with a defaultdict(list) filled by an
 * append loop: the values collected under each key, the keys in order of
 * first appearance (the iteration order of a Python dict), and the first
 * key that maximises or minimises a score (Python's max/min with key=).
 */
module Grouping {
  import opened Common

  /** The values of the elements whose key is k, in input order. */
  function ValuesFor<T, K(==)>(xs: seq<T>, key: T -> K, val: T -> real, k: K): seq<real> {
    if |xs| == 0 then []
    else ValuesFor(xs[..|xs| - 1], key, val, k)
         + (if key(xs[|xs| - 1]) == k then [val(xs[|xs| - 1])] else [])
  }

  /** The keys that occur. */
  function KeySet<T, K(==)>(xs: seq<T>, key: T -> K): set<K> {
    set i | 0 <= i < |xs| :: key(xs[i])
  }

  /** The distinct keys in order of first appearance. */
  function KeyOrder<T, K(==)>(xs: seq<T>, key: T -> K): seq<K> {
    if |xs| == 0 then []
    else
      var ks := KeyOrder(xs[..|xs| - 1], key);
      if key(xs[|xs| - 1]) in ks then ks else ks + [key(xs[|xs| - 1])]
  }

  predicate Distinct<K(==)>(ks: seq<K>) {
    forall a, b :: 0 <= a < b < |ks| ==> ks[a] != ks[b]
  }

  lemma KeySetStep<T, K>(xs: seq<T>, key: T -> K, i: nat)
    requires i < |xs|
    ensures KeySet(xs[..i + 1], key) == KeySet(xs[..i], key) + {key(xs[i])}
  {
    var a := KeySet(xs[..i + 1], key);
    var b := KeySet(xs[..i], key) + {key(xs[i])};
    forall k | k in a ensures k in b {
      var j :| 0 <= j < i + 1 && key(xs[..i + 1][j]) == k;
      if j < i {
        assert xs[..i][j] == xs[..i + 1][j];
      }
    }
    forall k | k in b ensures k in a {
      if k == key(xs[i]) {
        assert xs[..i + 1][i] == xs[i];
      } else {
        var j :| 0 <= j < i && key(xs[..i][j]) == k;
        assert xs[..i + 1][j] == xs[..i][j];
      }
    }
  }

  lemma ValuesForStep<T, K>(xs: seq<T>, key: T -> K, val: T -> real, i: nat)
    requires i < |xs|
    ensures forall k :: ValuesFor(xs[..i + 1], key, val, k)
                        == ValuesFor(xs[..i], key, val, k) + (if key(xs[i]) == k then [val(xs[i])] else [])
  {
    assert xs[..i + 1][..i] == xs[..i];
  }

  /** A key has values exactly when it occurs. */
  lemma {:induction false} ValuesForNonEmpty<T, K>(xs: seq<T>, key: T -> K, val: T -> real, k: K)
    ensures |ValuesFor(xs, key, val, k)| > 0 <==> k in KeySet(xs, key)
  {
    if |xs| > 0 {
      var n := |xs| - 1;
      ValuesForNonEmpty(xs[..n], key, val, k);
      KeySetStep(xs, key, n);
      assert xs[..n + 1] == xs;
    }
  }

  /** The first-appearance order lists every key that occurs, once. */
  lemma {:induction false} KeyOrderCorrect<T, K>(xs: seq<T>, key: T -> K)
    ensures Distinct(KeyOrder(xs, key))
    ensures forall k :: k in KeyOrder(xs, key) <==> k in KeySet(xs, key)
  {
    if |xs| > 0 {
      var n := |xs| - 1;
      KeyOrderCorrect(xs[..n], key);
      KeySetStep(xs, key, n);
      assert xs[..n + 1] == xs;
    }
  }

  /** The grouping loop: values appended under their key, plus the keys' first-appearance order. */
  method GroupBy<T, K(==)>(xs: seq<T>, key: T -> K, val: T -> real) returns (groups: map<K, seq<real>>, order: seq<K>)
    ensures forall k :: k in groups <==> k in KeySet(xs, key)
    ensures forall k :: k in groups ==> groups[k] == ValuesFor(xs, key, val, k) && |groups[k]| > 0
    ensures order == KeyOrder(xs, key)
    ensures Distinct(order) && forall k :: k in order <==> k in groups
  {
    groups := map[];
    order := [];
    var i := 0;
    while i < |xs|
      invariant 0 <= i <= |xs|
      invariant forall k :: k in groups <==> k in KeySet(xs[..i], key)
      invariant forall k :: k in groups ==> groups[k] == ValuesFor(xs[..i], key, val, k)
      invariant order == KeyOrder(xs[..i], key)
      invariant forall k :: k in order <==> k in groups
    {
      assert xs[..i + 1][..i] == xs[..i];
      KeySetStep(xs, key, i);
      ValuesForStep(xs, key, val, i);
      var k := key(xs[i]);
      if k !in groups {
        ValuesForNonEmpty(xs[..i], key, val, k);
        assert ValuesFor(xs[..i], key, val, k) == [];
        groups := groups[k := []];
        order := order + [k];
      }
      assert groups[k] == ValuesFor(xs[..i], key, val, k);
      groups := groups[k := groups[k] + [val(xs[i])]];
      i := i + 1;
    }
    assert xs[..|xs|] == xs;
    KeyOrderCorrect(xs, key);
    forall k | k in groups ensures |groups[k]| > 0 {
      ValuesForNonEmpty(xs, key, val, k);
    }
  }

  /** max(ks, key=f): the first key with the largest score. */
  function ArgMaxFirst<K>(ks: seq<K>, f: K -> real): (r: K)
    requires |ks| > 0
    ensures r in ks
  {
    if |ks| == 1 then ks[0]
    else
      var best := ArgMaxFirst(ks[..|ks| - 1], f);
      if f(ks[|ks| - 1]) > f(best) then ks[|ks| - 1] else best
  }

  /** min(ks, key=f): the first key with the smallest score. */
  function ArgMinFirst<K>(ks: seq<K>, f: K -> real): (r: K)
    requires |ks| > 0
    ensures r in ks
  {
    if |ks| == 1 then ks[0]
    else
      var best := ArgMinFirst(ks[..|ks| - 1], f);
      if f(ks[|ks| - 1]) < f(best) then ks[|ks| - 1] else best
  }

  /** The chosen key scores at least as much as every key, and strictly more than every earlier key. */
  lemma {:induction false} ArgMaxFirstCorrect<K>(ks: seq<K>, f: K -> real)
    requires |ks| > 0
    ensures exists j :: 0 <= j < |ks| && ks[j] == ArgMaxFirst(ks, f)
              && forall i :: 0 <= i < j ==> f(ks[i]) < f(ks[j])
    ensures forall i :: 0 <= i < |ks| ==> f(ks[i]) <= f(ArgMaxFirst(ks, f))
  {
    if |ks| > 1 {
      var n := |ks| - 1;
      var p := ks[..n];
      ArgMaxFirstCorrect(p, f);
      var j :| 0 <= j < |p| && p[j] == ArgMaxFirst(p, f) && forall i :: 0 <= i < j ==> f(p[i]) < f(p[j]);
      assert forall i :: 0 <= i < n ==> ks[i] == p[i];
      var best := ArgMaxFirst(p, f);
      if f(ks[n]) > f(best) {
        assert ks[n] == ArgMaxFirst(ks, f);
        assert forall i :: 0 <= i < n ==> f(ks[i]) <= f(best) < f(ks[n]);
      } else {
        assert ks[j] == ArgMaxFirst(ks, f);
        assert forall i :: 0 <= i < j ==> f(ks[i]) < f(ks[j]);
      }
    } else {
      assert ks[0] == ArgMaxFirst(ks, f);
    }
  }

  /** The chosen key scores at most as much as every key, and strictly less than every earlier key. */
  lemma {:induction false} ArgMinFirstCorrect<K>(ks: seq<K>, f: K -> real)
    requires |ks| > 0
    ensures exists j :: 0 <= j < |ks| && ks[j] == ArgMinFirst(ks, f)
              && forall i :: 0 <= i < j ==> f(ks[i]) > f(ks[j])
    ensures forall i :: 0 <= i < |ks| ==> f(ArgMinFirst(ks, f)) <= f(ks[i])
  {
    if |ks| > 1 {
      var n := |ks| - 1;
      var p := ks[..n];
      ArgMinFirstCorrect(p, f);
      var j :| 0 <= j < |p| && p[j] == ArgMinFirst(p, f) && forall i :: 0 <= i < j ==> f(p[i]) > f(p[j]);
      assert forall i :: 0 <= i < n ==> ks[i] == p[i];
      var best := ArgMinFirst(p, f);
      if f(ks[n]) < f(best) {
        assert ks[n] == ArgMinFirst(ks, f);
        assert forall i :: 0 <= i < n ==> f(ks[i]) >= f(best) > f(ks[n]);
      } else {
        assert ks[j] == ArgMinFirst(ks, f);
        assert forall i :: 0 <= i < j ==> f(ks[i]) > f(ks[j]);
      }
    } else {
      assert ks[0] == ArgMinFirst(ks, f);
    }
  }
}
