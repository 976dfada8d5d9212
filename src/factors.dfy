/**
 * Contributing risk factors and the "sort by points, descending, keep three"
 * step shared by the rule-based scorers
 * (`sorted(factors, key=lambda x: x['points'], reverse=True)[:3]`).
 */
module Factors {
  import opened Sorting

  datatype Factor = Factor(name: string, points: real, severity: string)

  function Min(a: int, b: int): int { if a <= b then a else b }

  /** Descending by points: `a` may precede `b` when it scores at least as much. */
  function ByPoints(): (before: (Factor, Factor) -> bool)
    ensures TotalPreorder(before)
    ensures forall a, b :: before(a, b) <==> a.points >= b.points
  {
    (a: Factor, b: Factor) => a.points >= b.points
  }

  /** The factors worth exactly `points`. */
  function Scoring(points: real): Factor -> bool
  {
    (f: Factor) => f.points == points
  }

  /**
   * `sorted(factors, key=points, reverse=True)`: a permutation, highest
   * points first, in which the factors of equal points keep their order.
   */
  function SortByPoints(factors: seq<Factor>): (r: seq<Factor>)
    ensures multiset(r) == multiset(factors)
    ensures forall i, j :: 0 <= i < j < |r| ==> r[i].points >= r[j].points
    ensures forall p :: Filter(r, Scoring(p)) == Filter(factors, Scoring(p))
  {
    SortSorted(factors, ByPoints());
    forall p ensures Filter(Sort(factors, ByPoints()), Scoring(p)) == Filter(factors, Scoring(p)) {
      SortKeepsTies(factors, p);
    }
    Sort(factors, ByPoints())
  }

  /** The factors tied under `ByPoints` with a factor worth `p` are exactly those worth `p`. */
  lemma SortKeepsTies(factors: seq<Factor>, p: real)
    ensures Filter(Sort(factors, ByPoints()), Scoring(p)) == Filter(factors, Scoring(p))
  {
    var k := Factor("", p, "");
    SortStable(factors, ByPoints(), k);
    FilterSame(Sort(factors, ByPoints()), Tied(ByPoints(), k), Scoring(p));
    FilterSame(factors, Tied(ByPoints(), k), Scoring(p));
  }

  /**
   * The three highest-scoring factors (fewer when there are fewer), best first;
   * no factor left out scores more than any factor kept, and among factors
   * of equal points the ones kept are the earliest, in their original order.
   */
  function TopThree(factors: seq<Factor>): (top: seq<Factor>)
    ensures |top| == Min(3, |factors|)
    ensures multiset(top) <= multiset(factors)
    ensures forall i, j :: 0 <= i < j < |top| ==> top[i].points >= top[j].points
    ensures forall f, g :: f in multiset(factors) - multiset(top) && g in top ==> f.points <= g.points
    ensures forall p :: Filter(top, Scoring(p)) <= Filter(factors, Scoring(p))
  {
    var k := Min(3, |factors|);
    PrefixOutranksRest(factors, k);
    forall p ensures Filter(SortByPoints(factors)[..k], Scoring(p)) <= Filter(factors, Scoring(p)) {
      PrefixKeepsTies(factors, k, p);
    }
    SortByPoints(factors)[..k]
  }

  /** Among the factors worth `p`, the first `k` sorted ones hold a prefix of them in list order. */
  lemma PrefixKeepsTies(factors: seq<Factor>, k: nat, p: real)
    requires k <= |factors|
    ensures Filter(SortByPoints(factors)[..k], Scoring(p)) <= Filter(factors, Scoring(p))
  {
    var sorted := SortByPoints(factors);
    assert sorted == sorted[..k] + sorted[k..];
    FilterKeepsOrder(sorted[..k], sorted[k..], Scoring(p));
  }

  /** The first k factors of the sorted list are the k highest, best first. */
  lemma PrefixOutranksRest(factors: seq<Factor>, k: nat)
    requires k <= |factors|
    ensures var s := Sort(factors, ByPoints());
            && multiset(s[..k]) <= multiset(factors)
            && (forall i, j :: 0 <= i < j < |s| ==> s[i].points >= s[j].points)
            && (forall f, g :: f in multiset(factors) - multiset(s[..k]) && g in s[..k] ==> f.points <= g.points)
  {
    var before := ByPoints();
    var s := Sort(factors, before);
    SortSorted(factors, before);
    PrefixPrecedesRest(factors, s, k, before);
    forall i, j | 0 <= i < j < |s| ensures s[i].points >= s[j].points {
      assert before(s[i], s[j]);
    }
    forall f, g | f in multiset(factors) - multiset(s[..k]) && g in s[..k] ensures f.points <= g.points {
      assert before(g, f);
    }
  }

  function SumPoints(factors: seq<Factor>): real
  {
    if factors == [] then 0.0 else factors[0].points + SumPoints(factors[1..])
  }

  lemma {:induction false} SumPointsAppend(a: seq<Factor>, b: seq<Factor>)
    ensures SumPoints(a + b) == SumPoints(a) + SumPoints(b)
  {
    if a == [] {
      assert a + b == b;
    } else {
      assert (a + b)[1..] == a[1..] + b;
      SumPointsAppend(a[1..], b);
    }
  }

  function Names(factors: seq<Factor>): (r: seq<string>)
    ensures |r| == |factors|
    ensures forall i :: 0 <= i < |r| ==> r[i] == factors[i].name
  {
    if factors == [] then [] else [factors[0].name] + Names(factors[1..])
  }
}
