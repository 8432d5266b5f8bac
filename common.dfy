/**
 * Shared vocabulary of the model: an Option type, sums over sequences, and
 * the handful of Python numeric and slicing operations the services rely on
 * (round, int(), negative-index slices), written out on exact reals.
 */
module Common {

  datatype Option<T> = None | Some(value: T)

  /** The outcome of an operation that can raise: a value, or the error it raises. */
  datatype Result<T, E> = Ok(value: T) | Err(error: E)

  /** Python truthiness of an optional identifier: None and "" are both false. */
  predicate Present(s: Option<string>) {
    s.Some? && s.value != ""
  }

  function Max(a: real, b: real): real { if a >= b then a else b }
  function Min(a: real, b: real): real { if a <= b then a else b }
  function IMax(a: int, b: int): int { if a >= b then a else b }
  function IMin(a: int, b: int): int { if a <= b then a else b }
  /** abs() of a real. */
  function Abs(x: real): real { if x >= 0.0 then x else -x }

  // ---------------------------------------------------------------------
  // Sums and counts (defined on the last element, matching loops that append)

  function Sum(xs: seq<real>): real {
    if |xs| == 0 then 0.0 else Sum(xs[..|xs| - 1]) + xs[|xs| - 1]
  }

  /** Sum of f over the elements of xs. */
  function SumOf<T>(xs: seq<T>, f: T -> real): real {
    if |xs| == 0 then 0.0 else SumOf(xs[..|xs| - 1], f) + f(xs[|xs| - 1])
  }

  /** Integer sum of f over the elements of xs. */
  function ISumOf<T>(xs: seq<T>, f: T -> int): int {
    if |xs| == 0 then 0 else ISumOf(xs[..|xs| - 1], f) + f(xs[|xs| - 1])
  }

  /** Number of elements of xs that satisfy p. */
  function CountOf<T>(xs: seq<T>, p: T -> bool): nat {
    if |xs| == 0 then 0 else CountOf(xs[..|xs| - 1], p) + (if p(xs[|xs| - 1]) then 1 else 0)
  }

  /** The elements of xs that satisfy p, in order. */
  function Filter<T>(xs: seq<T>, p: T -> bool): (r: seq<T>)
    ensures |r| <= |xs|
    ensures forall i :: 0 <= i < |r| ==> p(r[i]) && r[i] in xs
  {
    if |xs| == 0 then []
    else Filter(xs[..|xs| - 1], p) + (if p(xs[|xs| - 1]) then [xs[|xs| - 1]] else [])
  }

  /** Arithmetic mean, 0 for an empty sequence. */
  function Mean(xs: seq<real>): real {
    if |xs| == 0 then 0.0 else Sum(xs) / (|xs| as real)
  }

  lemma {:induction false} CountOfIsFilterLength<T>(xs: seq<T>, p: T -> bool)
    ensures CountOf(xs, p) == |Filter(xs, p)|
  {
    if |xs| > 0 {
      CountOfIsFilterLength(xs[..|xs| - 1], p);
    }
  }

  lemma {:induction false} FilterMembership<T>(xs: seq<T>, p: T -> bool, x: T)
    ensures x in Filter(xs, p) <==> x in xs && p(x)
  {
    if |xs| > 0 {
      var n := |xs| - 1;
      FilterMembership(xs[..n], p, x);
      assert xs == xs[..n] + [xs[n]];
    }
  }

  lemma FilterMembers<T>(xs: seq<T>, p: T -> bool)
    ensures forall x :: x in Filter(xs, p) <==> x in xs && p(x)
  {
    forall x ensures x in Filter(xs, p) <==> x in xs && p(x) {
      FilterMembership(xs, p, x);
    }
  }

  /** Some element satisfies p exactly when the count is positive. */
  lemma {:induction false} CountOfPositive<T>(xs: seq<T>, p: T -> bool)
    ensures CountOf(xs, p) > 0 <==> exists i :: 0 <= i < |xs| && p(xs[i])
  {
    if |xs| > 0 {
      var n := |xs| - 1;
      CountOfPositive(xs[..n], p);
      if exists i :: 0 <= i < n && p(xs[..n][i]) {
        var i :| 0 <= i < n && p(xs[..n][i]);
        assert xs[i] == xs[..n][i];
      }
      if exists i :: 0 <= i < |xs| && p(xs[i]) {
        var i :| 0 <= i < |xs| && p(xs[i]);
        if i < n {
          assert xs[..n][i] == xs[i];
        }
      }
    }
  }

  lemma {:induction false} CountOfBound<T>(xs: seq<T>, p: T -> bool)
    ensures CountOf(xs, p) <= |xs|
  {
    if |xs| > 0 {
      CountOfBound(xs[..|xs| - 1], p);
    }
  }

  /** f where p holds and 0 elsewhere. */
  function Masked<T>(p: T -> bool, f: T -> real): T -> real {
    x => if p(x) then f(x) else 0.0
  }

  /** Summing over the filtered elements is summing the masked function over all of them. */
  lemma {:induction false} SumOfFilter<T>(xs: seq<T>, p: T -> bool, f: T -> real)
    ensures SumOf(Filter(xs, p), f) == SumOf(xs, Masked(p, f))
  {
    if |xs| > 0 {
      var n := |xs| - 1;
      SumOfFilter(xs[..n], p, f);
      var tail := if p(xs[n]) then [xs[n]] else [];
      SumOfAppend(Filter(xs[..n], p), tail, f);
      if p(xs[n]) {
        assert tail[..0] == [];
      }
    }
  }

  lemma {:induction false} SumOfAppend<T>(xs: seq<T>, ys: seq<T>, f: T -> real)
    ensures SumOf(xs + ys, f) == SumOf(xs, f) + SumOf(ys, f)
  {
    if |ys| == 0 {
      assert xs + ys == xs;
    } else {
      assert (xs + ys)[..|xs + ys| - 1] == xs + ys[..|ys| - 1];
      SumOfAppend(xs, ys[..|ys| - 1], f);
    }
  }

  lemma {:induction false} SumAppend(xs: seq<real>, ys: seq<real>)
    ensures Sum(xs + ys) == Sum(xs) + Sum(ys)
  {
    if |ys| == 0 {
      assert xs + ys == xs;
    } else {
      assert (xs + ys)[..|xs + ys| - 1] == xs + ys[..|ys| - 1];
      SumAppend(xs, ys[..|ys| - 1]);
    }
  }

  /** A sum of terms that all lie in [lo, hi] lies in [n*lo, n*hi]. */
  lemma {:induction false} SumBounds(xs: seq<real>, lo: real, hi: real)
    requires forall i :: 0 <= i < |xs| ==> lo <= xs[i] <= hi
    ensures (|xs| as real) * lo <= Sum(xs) <= (|xs| as real) * hi
  {
    if |xs| > 0 {
      SumBounds(xs[..|xs| - 1], lo, hi);
    }
  }

  /** The sum of a constant sequence. */
  lemma {:induction false} SumConstant(xs: seq<real>, c: real)
    requires forall i :: 0 <= i < |xs| ==> xs[i] == c
    ensures Sum(xs) == (|xs| as real) * c
  {
    if |xs| > 0 {
      SumConstant(xs[..|xs| - 1], c);
    }
  }

  /** The mean of values that all lie in [lo, hi] lies in [lo, hi]. */
  lemma MeanBounds(xs: seq<real>, lo: real, hi: real)
    requires |xs| > 0
    requires forall i :: 0 <= i < |xs| ==> lo <= xs[i] <= hi
    ensures lo <= Mean(xs) <= hi
  {
    SumBounds(xs, lo, hi);
    var n := |xs| as real;
    assert n * lo <= Sum(xs) <= n * hi;
    assert Sum(xs) / n >= lo by {
      assert Sum(xs) >= lo * n;
    }
    assert Sum(xs) / n <= hi by {
      assert Sum(xs) <= hi * n;
    }
  }

  // ---------------------------------------------------------------------
  // Python's round() and int() on exact reals.
  // round(x, k) is modelled as round-half-up at k decimals; Python rounds the
  // binary float half-to-even, which only differs on exact ties.

  /** round(x) to an integer. */
  function RoundInt(x: real): int {
    (x + 0.5).Floor
  }

  /** round(x, 1). */
  function Round1(x: real): real {
    ((x * 10.0 + 0.5).Floor as real) / 10.0
  }

  /** round(x, 2). */
  function Round2(x: real): real {
    ((x * 100.0 + 0.5).Floor as real) / 100.0
  }

  /** round(x, 3). */
  function Round3(x: real): real {
    ((x * 1000.0 + 0.5).Floor as real) / 1000.0
  }

  /** int(x) on a float truncates toward zero. */
  function Trunc(x: real): (r: int)
    ensures 0.0 <= x ==> 0 <= r && r as real <= x < r as real + 1.0
    ensures x < 0.0 ==> r <= 0 && r as real - 1.0 < x <= r as real
  {
    if x >= 0.0 then x.Floor else -((-x).Floor)
  }

  lemma RoundIntError(x: real)
    ensures x - 0.5 < RoundInt(x) as real <= x + 0.5
  {
  }

  lemma RoundIntMonotone(x: real, y: real)
    requires x <= y
    ensures RoundInt(x) <= RoundInt(y)
  {
  }

  lemma Round2Error(x: real)
    ensures x - 0.005 < Round2(x) <= x + 0.005
  {
    var f := (x * 100.0 + 0.5).Floor;
    assert (f as real) <= x * 100.0 + 0.5 < (f as real) + 1.0;
  }

  lemma Round1Error(x: real)
    ensures x - 0.05 < Round1(x) <= x + 0.05
  {
    var f := (x * 10.0 + 0.5).Floor;
    assert (f as real) <= x * 10.0 + 0.5 < (f as real) + 1.0;
  }

  lemma Round2Monotone(x: real, y: real)
    requires x <= y
    ensures Round2(x) <= Round2(y)
  {
    assert (x * 100.0 + 0.5).Floor <= (y * 100.0 + 0.5).Floor;
  }

  lemma Round1Monotone(x: real, y: real)
    requires x <= y
    ensures Round1(x) <= Round1(y)
  {
    assert (x * 10.0 + 0.5).Floor <= (y * 10.0 + 0.5).Floor;
  }

  /** A value that is already a whole number of cents is left unchanged by round(x, 2). */
  lemma Round2OfCents(c: int)
    ensures Round2((c as real) / 100.0) == (c as real) / 100.0
  {
    var x := (c as real) / 100.0;
    assert x * 100.0 + 0.5 == (c as real) + 0.5;
    assert (x * 100.0 + 0.5).Floor == c;
  }

  /** Two amounts already rounded to the cent add up to a whole number of cents. */
  lemma Round2OfRoundedSum(x: real, y: real)
    ensures Round2(Round2(x) + Round2(y)) == Round2(x) + Round2(y)
  {
    var a := (x * 100.0 + 0.5).Floor;
    var b := (y * 100.0 + 0.5).Floor;
    assert Round2(x) + Round2(y) == ((a + b) as real) / 100.0;
    Round2OfCents(a + b);
  }

  lemma Round2Nonnegative(x: real)
    requires 0.0 <= x
    ensures 0.0 <= Round2(x)
  {
    Round2Monotone(0.0, x);
  }

  /** A query's .first(): the index of the first row satisfying p, if any. */
  function FirstIndex<T>(xs: seq<T>, p: T -> bool): (r: Option<nat>)
    ensures r.Some? ==> r.value < |xs| && p(xs[r.value]) && forall j :: 0 <= j < r.value ==> !p(xs[j])
    ensures r.None? ==> forall j :: 0 <= j < |xs| ==> !p(xs[j])
  {
    if |xs| == 0 then None
    else if p(xs[0]) then Some(0)
    else
      var rest := FirstIndex(xs[1..], p);
      if rest.Some? then Some(rest.value + 1) else None
  }

  // ---------------------------------------------------------------------
  // Python slices with negative or out-of-range bounds.

  /** xs[-k:] */
  function LastN<T>(xs: seq<T>, k: nat): (r: seq<T>)
    ensures |r| == IMin(k, |xs|)
  {
    xs[IMax(0, |xs| - k)..]
  }

  /** xs[:k] */
  function FirstN<T>(xs: seq<T>, k: nat): (r: seq<T>)
    ensures |r| == IMin(k, |xs|)
  {
    xs[..IMin(k, |xs|)]
  }

  /** xs[-a:-b] for a >= b */
  function SliceFromEnd<T>(xs: seq<T>, a: nat, b: nat): (r: seq<T>)
    requires b <= a
    ensures |r| == IMax(0, |xs| - b) - IMax(0, |xs| - a)
  {
    xs[IMax(0, |xs| - a)..IMax(0, |xs| - b)]
  }
}
