/**
 * Python's `sorted(xs, key=k, reverse=True)` and `list.sort(...)` as a stable
 * insertion sort: `before(a, b)` holds when `a` may stand ahead of `b`
 * (for a descending sort, `k(a) >= k(b)`). An element is placed ahead of the
 * first element it may precede, so among equal keys the original order is
 * kept (`SortStable`). Also the list comprehension `[x for x in s if p(x)]`
 * and the code-point order Python uses on strings.
 */
module Sorting {

  /** `before` orders every pair and is transitive. */
  ghost predicate TotalPreorder<T(!new)>(before: (T, T) -> bool)
  {
    && (forall a, b :: before(a, b) || before(b, a))
    && (forall a, b, c :: before(a, b) && before(b, c) ==> before(a, c))
  }

  ghost predicate Sorted<T>(s: seq<T>, before: (T, T) -> bool)
  {
    forall i, j :: 0 <= i < j < |s| ==> before(s[i], s[j])
  }

  function Insert<T>(x: T, s: seq<T>, before: (T, T) -> bool): (r: seq<T>)
    ensures |r| == |s| + 1
    ensures multiset(r) == multiset(s) + multiset{x}
  {
    if s == [] || before(x, s[0]) then [x] + s
    else
      assert s == [s[0]] + s[1..];
      [s[0]] + Insert(x, s[1..], before)
  }

  function Sort<T>(s: seq<T>, before: (T, T) -> bool): (r: seq<T>)
    ensures |r| == |s|
    ensures multiset(r) == multiset(s)
  {
    if s == [] then []
    else
      assert s == [s[0]] + s[1..];
      Insert(s[0], Sort(s[1..], before), before)
  }

  lemma {:induction false} InsertSorted<T(!new)>(x: T, s: seq<T>, before: (T, T) -> bool)
    requires TotalPreorder(before)
    requires Sorted(s, before)
    ensures Sorted(Insert(x, s, before), before)
  {
    if s == [] || before(x, s[0]) {
      var r := [x] + s;
      forall i, j | 0 <= i < j < |r| ensures before(r[i], r[j]) {
        if i == 0 && j > 1 {
          assert before(s[0], s[j - 1]);
        }
      }
    } else {
      assert before(s[0], x);
      InsertSorted(x, s[1..], before);
      var t := Insert(x, s[1..], before);
      var r := [s[0]] + t;
      forall j | 0 <= j < |t| ensures before(s[0], t[j]) {
        assert t[j] in multiset(t);
        assert t[j] in multiset(s[1..]) + multiset{x};
        if t[j] != x {
          assert t[j] in s[1..];
          var k :| 0 <= k < |s[1..]| && s[1..][k] == t[j];
          assert s[k + 1] == t[j];
        }
      }
      forall i, j | 0 <= i < j < |r| ensures before(r[i], r[j]) {
        if i == 0 {
          assert r[j] == t[j - 1];
        } else {
          assert r[i] == t[i - 1] && r[j] == t[j - 1];
        }
      }
    }
  }

  lemma {:induction false} SortSorted<T(!new)>(s: seq<T>, before: (T, T) -> bool)
    requires TotalPreorder(before)
    ensures Sorted(Sort(s, before), before)
  {
    if s != [] {
      SortSorted(s[1..], before);
      InsertSorted(s[0], Sort(s[1..], before), before);
    }
  }

  /**
   * `[x for x in s if keep(x)]`: every element kept passes the test
   * (`FilterCounts` and `FilterKeepsOrder` say which are kept, and in what order).
   */
  function Filter<T(!new)>(s: seq<T>, keep: T -> bool): (r: seq<T>)
    ensures forall i :: 0 <= i < |r| ==> keep(r[i])
    ensures |r| <= |s|
  {
    if s == [] then []
    else (if keep(s[0]) then [s[0]] else []) + Filter(s[1..], keep)
  }

  /** The filter keeps each element that passes as often as it occurs, and drops every other. */
  lemma {:induction false} FilterCounts<T(!new)>(s: seq<T>, keep: T -> bool, x: T)
    ensures multiset(Filter(s, keep))[x] == if keep(x) then multiset(s)[x] else 0
  {
    if s != [] {
      assert s == [s[0]] + s[1..];
      FilterCounts(s[1..], keep, x);
    }
  }

  /**
   * The comprehension keeps order: filtering two runs one after the other is
   * filtering each run and concatenating the results.
   */
  lemma {:induction false} FilterKeepsOrder<T(!new)>(a: seq<T>, b: seq<T>, keep: T -> bool)
    ensures Filter(a + b, keep) == Filter(a, keep) + Filter(b, keep)
  {
    if a == [] {
      assert a + b == b;
    } else {
      assert (a + b)[0] == a[0];
      assert (a + b)[1..] == a[1..] + b;
      FilterKeepsOrder(a[1..], b, keep);
    }
  }

  /** Filtering by one test and then by another is filtering once by both. */
  lemma {:induction false} FilterTwice<T(!new)>(s: seq<T>, first: T -> bool, second: T -> bool, both: T -> bool)
    requires forall x :: both(x) == (first(x) && second(x))
    ensures Filter(Filter(s, first), second) == Filter(s, both)
  {
    if s != [] {
      var x, rest := s[0], s[1..];
      FilterTwice(rest, first, second, both);
      var kept := Filter(s, first);
      if first(x) {
        assert kept == [x] + Filter(rest, first);
        assert kept[0] == x && kept[1..] == Filter(rest, first);
        assert Filter(kept, second) == (if second(x) then [x] else []) + Filter(rest, both);
      } else {
        assert kept == Filter(rest, first);
      }
    }
  }

  /** Two tests that agree on every element filter alike. */
  lemma {:induction false} FilterSame<T(!new)>(s: seq<T>, keep: T -> bool, same: T -> bool)
    requires forall x :: keep(x) == same(x)
    ensures Filter(s, keep) == Filter(s, same)
  {
    if s != [] {
      FilterSame(s[1..], keep, same);
    }
  }

  /** A test every element passes keeps the whole list. */
  lemma {:induction false} FilterAll<T(!new)>(s: seq<T>, keep: T -> bool)
    requires forall x :: keep(x)
    ensures Filter(s, keep) == s
  {
    if s != [] {
      FilterAll(s[1..], keep);
      assert s == [s[0]] + s[1..];
    }
  }

  /** The elements tied with `k`: each may precede the other. */
  function Tied<T>(before: (T, T) -> bool, k: T): T -> bool
  {
    x => before(x, k) && before(k, x)
  }

  /** Filtering a list with a first element: that element, if kept, then the filtered rest. */
  lemma FilterCons<T(!new)>(x: T, s: seq<T>, keep: T -> bool)
    ensures Filter([x] + s, keep) == (if keep(x) then [x] else []) + Filter(s, keep)
  {
    assert ([x] + s)[0] == x && ([x] + s)[1..] == s;
  }

  /** An element tied with `k` may precede every element tied with `k`. */
  lemma TiedPrecede<T(!new)>(before: (T, T) -> bool, k: T, x: T)
    requires TotalPreorder(before)
    ensures forall y :: Tied(before, k)(x) && Tied(before, k)(y) ==> before(x, y)
  {
  }

  /**
   * Inserting `x` puts it after every element tied with it: among the
   * elements tied with any `k`, `x` goes first, since it is placed ahead of
   * the first element it may precede and may precede every element tied with it.
   */
  lemma {:induction false} InsertStable<T(!new)>(x: T, s: seq<T>, before: (T, T) -> bool, k: T)
    requires forall y :: Tied(before, k)(x) && Tied(before, k)(y) ==> before(x, y)
    ensures Filter(Insert(x, s, before), Tied(before, k))
            == (if Tied(before, k)(x) then [x] else []) + Filter(s, Tied(before, k))
  {
    var tied := Tied(before, k);
    if s == [] || before(x, s[0]) {
      assert Insert(x, s, before) == [x] + s;
      FilterCons(x, s, tied);
    } else {
      var head, rest := s[0], s[1..];
      assert s == [head] + rest;
      var tx := if tied(x) then [x] else [];
      var th := if tied(head) then [head] else [];
      InsertStable(x, rest, before, k);
      assert Insert(x, s, before) == [head] + Insert(x, rest, before);
      FilterCons(head, Insert(x, rest, before), tied);
      assert Filter(Insert(x, s, before), tied) == th + (tx + Filter(rest, tied));
      FilterCons(head, rest, tied);
      assert Filter(s, tied) == th + Filter(rest, tied);
      assert th + tx == tx + th;
      assert th + (tx + Filter(rest, tied)) == tx + (th + Filter(rest, tied));
    }
  }

  /**
   * The sort is stable: the elements tied with any `k` keep their original
   * order, as Python's `sorted` and `list.sort` guarantee.
   */
  lemma {:induction false} SortStable<T(!new)>(s: seq<T>, before: (T, T) -> bool, k: T)
    requires TotalPreorder(before)
    ensures Filter(Sort(s, before), Tied(before, k)) == Filter(s, Tied(before, k))
  {
    if s != [] {
      SortStable(s[1..], before, k);
      TiedPrecede(before, k, s[0]);
      InsertStable(s[0], Sort(s[1..], before), before, k);
      assert s == [s[0]] + s[1..];
      FilterCons(s[0], s[1..], Tied(before, k));
    }
  }

  /**
   * In a sorted permutation of `all`, each of the first `k` elements may
   * precede every element left out.
   */
  lemma PrefixPrecedesRest<T>(all: seq<T>, s: seq<T>, k: nat, before: (T, T) -> bool)
    requires multiset(s) == multiset(all) && Sorted(s, before) && k <= |s|
    ensures multiset(s[..k]) <= multiset(all)
    ensures forall c, d :: c in multiset(all) - multiset(s[..k]) && d in s[..k] ==> before(d, c)
  {
    assert s == s[..k] + s[k..];
    assert multiset(s) == multiset(s[..k]) + multiset(s[k..]);
    forall c, d | c in multiset(all) - multiset(s[..k]) && d in s[..k]
      ensures before(d, c)
    {
      assert c in multiset(s[k..]);
      var j :| k <= j < |s| && s[j] == c;
      var i :| 0 <= i < k && s[i] == d;
    }
  }

  /** Python's `<=` on strings: code-point lexicographic order. */
  predicate LexLe(a: string, b: string)
  {
    a == [] || (b != [] && (a[0] < b[0] || (a[0] == b[0] && LexLe(a[1..], b[1..]))))
  }

  lemma {:induction false} LexLeTotal(a: string, b: string)
    ensures LexLe(a, b) || LexLe(b, a)
  {
    if a != [] && b != [] && a[0] == b[0] {
      LexLeTotal(a[1..], b[1..]);
    }
  }

  lemma {:induction false} LexLeTransitive(a: string, b: string, c: string)
    requires LexLe(a, b) && LexLe(b, c)
    ensures LexLe(a, c)
  {
    if a != [] && a[0] == b[0] && b[0] == c[0] {
      LexLeTransitive(a[1..], b[1..], c[1..]);
    }
  }

  lemma {:induction false} LexLeAntisymmetric(a: string, b: string)
    requires LexLe(a, b) && LexLe(b, a)
    ensures a == b
  {
    if a != [] {
      LexLeAntisymmetric(a[1..], b[1..]);
      assert a == [a[0]] + a[1..] && b == [b[0]] + b[1..];
    }
  }

  /** Ascending string order, as `sorted(...)` uses it. */
  function Ascending(): (before: (string, string) -> bool)
    ensures TotalPreorder(before)
  {
    var before := (a: string, b: string) => LexLe(a, b);
    assert forall a, b :: before(a, b) || before(b, a) by {
      forall a, b ensures before(a, b) || before(b, a) { LexLeTotal(a, b); }
    }
    assert forall a, b, c :: before(a, b) && before(b, c) ==> before(a, c) by {
      forall a, b, c | before(a, b) && before(b, c) ensures before(a, c) {
        LexLeTransitive(a, b, c);
      }
    }
    before
  }

  /** The distinct elements of `s`, first occurrences kept, in order. */
  function Distinct<T(==, !new)>(s: seq<T>): (r: seq<T>)
    ensures forall x :: x in r <==> x in s
    ensures forall i, j :: 0 <= i < j < |r| ==> r[i] != r[j]
  {
    if s == [] then []
    else
      var rest := Distinct(s[..|s| - 1]);
      if s[|s| - 1] in rest then rest else rest + [s[|s| - 1]]
  }

  /** `sorted(set(s))` for strings: ascending with no repeats, same elements as `s`. */
  function SortedUnique(s: seq<string>): (r: seq<string>)
    ensures forall x :: x in r <==> x in s
    ensures forall i, j :: 0 <= i < j < |r| ==> LexLe(r[i], r[j]) && r[i] != r[j]
  {
    var d := Distinct(s);
    var r := Sort(d, Ascending());
    SortSorted(d, Ascending());
    assert forall x :: x in r <==> x in d by {
      forall x ensures x in r <==> x in d {
        assert x in r <==> x in multiset(r);
        assert x in d <==> x in multiset(d);
      }
    }
    assert |multiset(r)| == |r|;
    DistinctMultiset(d);
    MultisetDistinct(r);
    r
  }

  lemma {:induction false} DistinctMultiset<T>(s: seq<T>)
    requires forall i, j :: 0 <= i < j < |s| ==> s[i] != s[j]
    ensures forall x :: multiset(s)[x] <= 1
  {
    if s != [] {
      var t := s[..|s| - 1];
      DistinctMultiset(t);
      assert s == t + [s[|s| - 1]];
      assert s[|s| - 1] !in t;
    }
  }

  lemma {:induction false} MultisetDistinct<T>(s: seq<T>)
    requires forall x :: multiset(s)[x] <= 1
    ensures forall i, j :: 0 <= i < j < |s| ==> s[i] != s[j]
  {
    forall i, j | 0 <= i < j < |s| ensures s[i] != s[j] {
      assert s == s[..j] + s[j..];
      assert s[..j][i] == s[i];
      assert multiset(s[..j])[s[i]] >= 1;
      assert s[j..] == [s[j]] + s[j + 1..];
      assert multiset(s)[s[j]] >= multiset(s[..j])[s[j]] + 1;
    }
  }
}
