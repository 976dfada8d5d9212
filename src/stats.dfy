/**
 * Aggregates over lists of risk scores shared by the batch summary
 * (backend/main.py) and the dashboard (backend/routes/patients.py):
 * sum, mean-or-zero, counting by a predicate, maximum and minimum; and
 * Python's `int()` on a float, used by the handlers and the predictors.
 */
module Stats {

  /** Python `int()` on a float: truncation toward zero. */
  function Truncate(x: real): (n: int)
    ensures x >= 0.0 ==> n as real <= x < n as real + 1.0
    ensures x < 0.0 ==> n as real - 1.0 < x <= n as real
  {
    if x >= 0.0 then x.Floor else -((-x).Floor)
  }

  function Sum(xs: seq<real>): real
  {
    if xs == [] then 0.0 else xs[0] + Sum(xs[1..])
  }

  /** `sum(xs) / len(xs) if xs else 0`. */
  function MeanOrZero(xs: seq<real>): (m: real)
    ensures xs == [] ==> m == 0.0
    ensures xs != [] ==> m * (|xs| as real) == Sum(xs)
  {
    if xs == [] then 0.0 else Sum(xs) / (|xs| as real)
  }

  /** Every element within [lo, hi] puts the sum within [n * lo, n * hi]. */
  lemma {:induction false} SumWithin(xs: seq<real>, lo: real, hi: real)
    requires forall i :: 0 <= i < |xs| ==> lo <= xs[i] <= hi
    ensures (|xs| as real) * lo <= Sum(xs) <= (|xs| as real) * hi
  {
    if xs != [] {
      SumWithin(xs[1..], lo, hi);
      var n := |xs[1..]| as real;
      assert (|xs| as real) * lo == lo + n * lo;
      assert (|xs| as real) * hi == hi + n * hi;
    }
  }

  lemma ScaledBound(m: real, n: real, b: real)
    requires n > 0.0
    ensures m * n <= b * n ==> m <= b
    ensures b * n <= m * n ==> b <= m
  {
  }

  /** The mean of a non-empty list lies between any lower and upper bound of its elements. */
  lemma MeanWithin(xs: seq<real>, lo: real, hi: real)
    requires xs != []
    requires forall i :: 0 <= i < |xs| ==> lo <= xs[i] <= hi
    ensures lo <= MeanOrZero(xs) <= hi
  {
    SumWithin(xs, lo, hi);
    var n := |xs| as real;
    var m := MeanOrZero(xs);
    assert m * n == Sum(xs);
    assert n * lo == lo * n && n * hi == hi * n;
    ScaledBound(m, n, lo);
    ScaledBound(m, n, hi);
  }

  /** `sum(1 for x in xs if p(x))`. */
  function CountWhere(xs: seq<real>, p: real -> bool): (n: nat)
    ensures n <= |xs|
    ensures n == 0 <==> forall i :: 0 <= i < |xs| ==> !p(xs[i])
    ensures n == |xs| <==> forall i :: 0 <= i < |xs| ==> p(xs[i])
  {
    if xs == [] then 0
    else (if p(xs[0]) then 1 else 0) + CountWhere(xs[1..], p)
  }

  /** `max(xs)`. */
  function MaxOf(xs: seq<real>): (m: real)
    requires xs != []
    ensures m in xs
    ensures forall i :: 0 <= i < |xs| ==> xs[i] <= m
  {
    if |xs| == 1 then xs[0]
    else
      var rest := MaxOf(xs[1..]);
      if xs[0] >= rest then xs[0] else rest
  }

  /** `min(xs)`. */
  function MinOf(xs: seq<real>): (m: real)
    requires xs != []
    ensures m in xs
    ensures forall i :: 0 <= i < |xs| ==> m <= xs[i]
  {
    if |xs| == 1 then xs[0]
    else
      var rest := MinOf(xs[1..]);
      if xs[0] <= rest then xs[0] else rest
  }
}
