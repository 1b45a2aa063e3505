/**
 * Historical-simulation risk measures of section E of helper.py: the value at
 * risk `np.percentile(losses, alpha * 100, interpolation = 'higher')` and the
 * expected shortfall `np.mean(losses[losses >= VaR])`.
 *
 * numpy's 'higher' rule selects the k-th smallest loss, counting from 0, for
 * `k = ceil(alpha * (n - 1))` (numpy partitions the array around index `k`).
 * The k-th smallest is specified as entry `k` of the losses in ascending order,
 * with the ascending order given by an insertion sort that serves only as a
 * specification; the losses are never reordered in place.
 */
module OrderStatistics {
  import opened LinearAlgebra
  import opened Wrappers

  /** The two ways `np.percentile` refuses its arguments. */
  datatype PercentileError =
    | PercentileOutOfRange  // `ValueError`: the percentile `alpha * 100` is outside [0, 100]
    | NoScenarios           // `IndexError`: there is no loss to take a percentile of

  datatype Risk = Risk(valueAtRisk: real, expectedShortfall: real)

  predicate Sorted(s: seq<real>) {
    forall i, j :: 0 <= i < j < |s| ==> s[i] <= s[j]
  }

  /** Inserts `x` before the first entry of `s` that is not smaller than it. */
  function Insert(x: real, s: seq<real>): (r: seq<real>)
    ensures |r| == |s| + 1
    ensures multiset(r) == multiset(s) + multiset{x}
  {
    if s == [] || x <= s[0] then [x] + s
    else
      assert s == [s[0]] + s[1..];
      [s[0]] + Insert(x, s[1..])
  }

  /** The losses in ascending order. */
  function SortAscending(s: seq<real>): (r: seq<real>)
    ensures |r| == |s|
    ensures multiset(r) == multiset(s)
  {
    if s == [] then []
    else
      assert s == [s[0]] + s[1..];
      Insert(s[0], SortAscending(s[1..]))
  }

  lemma {:induction false} InsertSorted(x: real, s: seq<real>)
    requires Sorted(s)
    ensures Sorted(Insert(x, s))
  {
    if s != [] && x > s[0] {
      var rest := Insert(x, s[1..]);
      InsertSorted(x, s[1..]);
      InsertAboveFirst(x, s);
      SortedCons(s[0], rest);
    }
  }

  /** Inserting past the first entry keeps every entry at least that first entry. */
  lemma {:induction false} InsertAboveFirst(x: real, s: seq<real>)
    requires Sorted(s) && s != [] && x > s[0]
    ensures forall y :: y in Insert(x, s[1..]) ==> s[0] <= y
  {
    var rest := Insert(x, s[1..]);
    forall y | y in rest ensures s[0] <= y {
      assert y in multiset(rest);
      if y != x {
        assert y in multiset(s[1..]);
        var j :| 0 <= j < |s[1..]| && s[1..][j] == y;
        assert s[j + 1] == y;
      }
    }
  }

  /** A sorted sequence stays sorted behind an entry that is at most all of it. */
  lemma {:induction false} SortedCons(h: real, s: seq<real>)
    requires Sorted(s) && forall y :: y in s ==> h <= y
    ensures Sorted([h] + s)
  {
    var r := [h] + s;
    forall a, b | 0 <= a < b < |r| ensures r[a] <= r[b] {
      assert r[b] == s[b - 1] && s[b - 1] in s;
      if a > 0 {
        assert r[a] == s[a - 1];
      }
    }
  }

  lemma {:induction false} SortAscendingSorted(s: seq<real>)
    ensures Sorted(SortAscending(s))
  {
    if s != [] {
      SortAscendingSorted(s[1..]);
      InsertSorted(s[0], SortAscending(s[1..]));
    }
  }

  /** The first entry of a sorted sequence is at most every entry. */
  lemma {:induction false} SortedFirstIsLeast(s: seq<real>, x: real)
    requires Sorted(s) && x in s
    ensures s[0] <= x
  {
    var k :| 0 <= k < |s| && s[k] == x;
    assert s[0] <= s[k];
  }

  /** A sorted sequence is determined by its multiset of entries. */
  lemma {:induction false} SortedUnique(a: seq<real>, b: seq<real>)
    requires Sorted(a) && Sorted(b) && multiset(a) == multiset(b)
    ensures a == b
  {
    assert |a| == |multiset(a)| == |multiset(b)| == |b|;
    if a != [] {
      assert a[0] in multiset(b) && b[0] in multiset(a);
      SortedFirstIsLeast(b, a[0]);
      SortedFirstIsLeast(a, b[0]);
      assert a[0] == b[0];
      assert a == [a[0]] + a[1..] && b == [b[0]] + b[1..];
      assert multiset(a[1..]) == multiset(b[1..]) by {
        assert multiset(a) == multiset{a[0]} + multiset(a[1..]);
        assert multiset(b) == multiset{a[0]} + multiset(b[1..]);
        forall x ensures multiset(a[1..])[x] == multiset(b[1..])[x] {
          assert multiset(a)[x] == multiset{a[0]}[x] + multiset(a[1..])[x];
          assert multiset(b)[x] == multiset{a[0]}[x] + multiset(b[1..])[x];
        }
      }
      SortedUnique(a[1..], b[1..]);
    }
  }

  /** Sorting two rearrangements of the same losses gives the same sequence. */
  lemma {:induction false} SortAscendingCanonical(a: seq<real>, b: seq<real>)
    requires multiset(a) == multiset(b)
    ensures SortAscending(a) == SortAscending(b)
  {
    SortAscendingSorted(a);
    SortAscendingSorted(b);
    SortedUnique(SortAscending(a), SortAscending(b));
  }

  /** How many losses are at most `v`. */
  function CountAtMost(s: seq<real>, v: real): (c: nat)
    ensures c <= |s|
  {
    if s == [] then 0 else (if s[0] <= v then 1 else 0) + CountAtMost(s[1..], v)
  }

  /** How many losses are strictly below `v`. */
  function CountBelow(s: seq<real>, v: real): (c: nat)
    ensures c <= CountAtMost(s, v)
  {
    if s == [] then 0 else (if s[0] < v then 1 else 0) + CountBelow(s[1..], v)
  }

  /** `losses[losses >= v]`: the losses of at least `v`, in their original order. */
  function Tail(s: seq<real>, v: real): (r: seq<real>)
    ensures |r| <= |s|
    ensures forall x :: x in r ==> x in s && v <= x
  {
    if s == [] then []
    else if s[0] >= v then [s[0]] + Tail(s[1..], v)
    else Tail(s[1..], v)
  }

  /** The largest loss. */
  function Max(s: seq<real>): (m: real)
    requires s != []
    ensures m in s
    ensures forall x :: x in s ==> x <= m
  {
    if |s| == 1 then s[0]
    else
      var m := Max(s[1..]);
      assert s == [s[0]] + s[1..];
      if s[0] <= m then m else s[0]
  }

  /** The smallest integer not below `x`, as `np.ceil` computes it. */
  function Ceil(x: real): (c: int)
    ensures x <= c as real < x + 1.0
  {
    -((-x).Floor)
  }

  /** Where numpy's 'higher' rule looks in the sorted losses. */
  function HigherIndex(alpha: real, n: nat): (k: nat)
    requires 0.0 <= alpha <= 1.0 && n >= 1
    ensures k < n
    ensures alpha * (n - 1) as real <= k as real < alpha * (n - 1) as real + 1.0
  {
    var x := alpha * (n - 1) as real;
    FractionBounds(alpha, (n - 1) as real);
    var c := Ceil(x);
    assert 0.0 <= x <= (n - 1) as real;
    c
  }

  /**
   * The textbook nearest-rank percentile, for contrast with the 'higher'
   * rule: the ceil(alpha * n)-th smallest loss, that is index
   * ceil(alpha * n) - 1 in the sorted losses.
   */
  function NearestRankIndex(alpha: real, n: nat): (k: nat)
    requires 0.0 < alpha <= 1.0 && n >= 1
    ensures k < n
    ensures k as real < alpha * n as real <= k as real + 1.0
  {
    var x := alpha * n as real;
    FractionBounds(alpha, n as real);
    assert 0.0 < x;
    Ceil(x) - 1
  }

  lemma {:induction false} FractionBounds(alpha: real, m: real)
    requires 0.0 <= alpha <= 1.0 && 0.0 <= m
    ensures 0.0 <= alpha * m <= m
  {
  }

  /** The value at risk: the 'higher' `alpha` percentile of the losses. */
  function ValueAtRisk(losses: seq<real>, alpha: real): (v: real)
    requires 0.0 <= alpha <= 1.0 && losses != []
    ensures v in losses
  {
    var t := SortAscending(losses);
    var k := HigherIndex(alpha, |losses|);
    assert t[k] in multiset(t);
    t[k]
  }

  /** The expected shortfall: the mean of the losses of at least `v`. */
  function ExpectedShortfall(losses: seq<real>, v: real): real
    requires v in losses
  {
    TailContains(losses, v);
    Sum(Tail(losses, v)) / |Tail(losses, v)| as real
  }

  lemma {:induction false} TailContains(s: seq<real>, v: real)
    requires v in s
    ensures v in Tail(s, v)
  {
    if s[0] != v {
      TailContains(s[1..], v);
    }
  }

  /**
   * VaR and ES of a list of scenario losses, or the error `np.percentile`
   * raises: the percentile range is checked before the losses are looked at.
   */
  function HistoricalRisk(losses: seq<real>, alpha: real): (r: Result<Risk, PercentileError>)
    ensures r == Err(PercentileOutOfRange) <==> !(0.0 <= alpha <= 1.0)
    ensures r == Err(NoScenarios) <==> 0.0 <= alpha <= 1.0 && losses == []
  {
    if !(0.0 <= alpha <= 1.0) then Err(PercentileOutOfRange)
    else if losses == [] then Err(NoScenarios)
    else
      var v := ValueAtRisk(losses, alpha);
      Ok(Risk(v, ExpectedShortfall(losses, v)))
  }

  // ---------------------------------------------------------------------
  // The value at risk as an order statistic

  lemma {:induction false} CountsInsert(x: real, s: seq<real>, v: real)
    ensures CountAtMost(Insert(x, s), v) == CountAtMost(s, v) + (if x <= v then 1 else 0)
    ensures CountBelow(Insert(x, s), v) == CountBelow(s, v) + (if x < v then 1 else 0)
  {
    if s != [] && x > s[0] {
      CountsInsert(x, s[1..], v);
      assert Insert(x, s)[1..] == Insert(x, s[1..]);
    }
  }

  /** Sorting does not change how many losses lie below or at a level. */
  lemma {:induction false} CountsSort(s: seq<real>, v: real)
    ensures CountAtMost(SortAscending(s), v) == CountAtMost(s, v)
    ensures CountBelow(SortAscending(s), v) == CountBelow(s, v)
  {
    if s != [] {
      CountsSort(s[1..], v);
      CountsInsert(s[0], SortAscending(s[1..]), v);
    }
  }

  /** In a sorted sequence, `t[0..k+1]` are all at most `t[k]`. */
  lemma {:induction false} SortedCountAtMost(t: seq<real>, k: nat, v: real)
    requires Sorted(t) && k < |t| && t[k] <= v
    ensures CountAtMost(t, v) >= k + 1
  {
    if k > 0 {
      SortedCountAtMost(t[1..], k - 1, v);
    }
  }

  /** In a sorted sequence, `t[k..]` are all at least `t[k]`. */
  lemma {:induction false} SortedCountBelow(t: seq<real>, k: nat, v: real)
    requires Sorted(t) && k <= |t| && (k < |t| ==> v <= t[k])
    ensures CountBelow(t, v) <= k
  {
    if t != [] {
      if k > 0 {
        SortedCountBelow(t[1..], k - 1, v);
      } else {
        SortedCountBelow(t[1..], 0, v);
      }
    }
  }

  /**
   * numpy's 'higher' percentile is the unique level `v` below which at most
   * `k` losses lie and at or below which more than `k` lie, where `k` is the
   * index `ceil(alpha * (n - 1))`.
   */
  lemma {:induction false} ValueAtRiskIsOrderStatistic(losses: seq<real>, alpha: real, v: real)
    requires 0.0 <= alpha <= 1.0 && losses != []
    ensures v == ValueAtRisk(losses, alpha) <==>
      CountBelow(losses, v) <= HigherIndex(alpha, |losses|) < CountAtMost(losses, v)
  {
    var t, k := SortAscending(losses), HigherIndex(alpha, |losses|);
    SortAscendingSorted(losses);
    CountsSort(losses, v);
    if v == t[k] {
      SortedCountAtMost(t, k, v);
      SortedCountBelow(t, k, v);
    } else if v < t[k] {
      SortedCountBelow(t, k, t[k]);
      NoneAtMostBeyond(t, k, v);
    } else {
      SomeBelowUpTo(t, k, v);
    }
  }

  /** If `v < t[k]` in a sorted `t`, at most `k` entries are at most `v`. */
  lemma {:induction false} NoneAtMostBeyond(t: seq<real>, k: nat, v: real)
    requires Sorted(t) && k < |t| && v < t[k]
    ensures CountAtMost(t, v) <= k
  {
    if k > 0 {
      NoneAtMostBeyond(t[1..], k - 1, v);
    } else {
      NoneAtMost(t, v);
    }
  }

  lemma {:induction false} NoneAtMost(t: seq<real>, v: real)
    requires forall i :: 0 <= i < |t| ==> v < t[i]
    ensures CountAtMost(t, v) == 0
  {
    if t != [] {
      NoneAtMost(t[1..], v);
    }
  }

  /** If `t[k] < v` in a sorted `t`, more than `k` entries are below `v`. */
  lemma {:induction false} SomeBelowUpTo(t: seq<real>, k: nat, v: real)
    requires Sorted(t) && k < |t| && t[k] < v
    ensures CountBelow(t, v) >= k + 1
  {
    if k > 0 {
      SomeBelowUpTo(t[1..], k - 1, v);
    }
  }

  /** At least an `alpha` fraction of the losses are at most the value at risk. */
  lemma {:induction false} ValueAtRiskCoverage(losses: seq<real>, alpha: real)
    requires 0.0 <= alpha <= 1.0 && losses != []
    ensures CountAtMost(losses, ValueAtRisk(losses, alpha)) as real >= alpha * |losses| as real
  {
    var v := ValueAtRisk(losses, alpha);
    ValueAtRiskIsOrderStatistic(losses, alpha, v);
    CoverageBeyondIndex(losses, alpha, v);
  }

  lemma {:induction false} CoverageBeyondIndex(losses: seq<real>, alpha: real, v: real)
    requires 0.0 <= alpha <= 1.0 && losses != []
    requires HigherIndex(alpha, |losses|) < CountAtMost(losses, v)
    ensures CountAtMost(losses, v) as real >= alpha * |losses| as real
  {
    CoverageArithmetic(alpha, |losses|, HigherIndex(alpha, |losses|), CountAtMost(losses, v));
  }

  lemma {:induction false} CoverageArithmetic(alpha: real, n: nat, k: nat, c: nat)
    requires alpha <= 1.0 && n >= 1 && alpha * (n - 1) as real <= k as real && k < c
    ensures c as real >= alpha * n as real
  {
  }

  // ---------------------------------------------------------------------
  // The expected shortfall

  lemma {:induction false} TailBounds(s: seq<real>, v: real, hi: real)
    requires forall x :: x in s ==> x <= hi
    ensures |Tail(s, v)| as real * v <= Sum(Tail(s, v)) <= |Tail(s, v)| as real * hi
  {
    var r := Tail(s, v);
    forall i | 0 <= i < |r| ensures v <= r[i] <= hi {
      assert r[i] in r;
    }
    SumBounds(r, v, hi);
  }

  /** The mean of the losses of at least `v` lies between `v` and the largest loss. */
  lemma {:induction false} ExpectedShortfallBetween(losses: seq<real>, v: real, hi: real)
    requires v in losses
    requires forall x :: x in losses ==> x <= hi
    ensures v <= ExpectedShortfall(losses, v) <= hi
  {
    TailContains(losses, v);
    TailBounds(losses, v, hi);
    var tail := Tail(losses, v);
    var n := |tail| as real;
    assert n > 0.0;
    assert ExpectedShortfall(losses, v) == Sum(tail) / n;
    MeanBounds(Sum(tail), n, ExpectedShortfall(losses, v), v, hi);
  }

  /** The expected shortfall lies between the value at risk and the largest loss. */
  lemma {:induction false} ExpectedShortfallBounds(losses: seq<real>, alpha: real)
    requires 0.0 <= alpha <= 1.0 && losses != []
    ensures ValueAtRisk(losses, alpha) <= ExpectedShortfall(losses, ValueAtRisk(losses, alpha)) <= Max(losses)
  {
    ExpectedShortfallBetween(losses, ValueAtRisk(losses, alpha), Max(losses));
  }

  lemma {:induction false} TailInsert(x: real, s: seq<real>, v: real)
    ensures |Tail(Insert(x, s), v)| == |Tail(s, v)| + (if v <= x then 1 else 0)
    ensures Sum(Tail(Insert(x, s), v)) == Sum(Tail(s, v)) + (if v <= x then x else 0.0)
  {
    if s != [] && x > s[0] {
      TailInsert(x, s[1..], v);
      assert Insert(x, s)[1..] == Insert(x, s[1..]);
    }
  }

  lemma {:induction false} TailSort(s: seq<real>, v: real)
    ensures |Tail(SortAscending(s), v)| == |Tail(s, v)|
    ensures Sum(Tail(SortAscending(s), v)) == Sum(Tail(s, v))
  {
    if s != [] {
      TailSort(s[1..], v);
      TailInsert(s[0], SortAscending(s[1..]), v);
    }
  }

  /**
   * The order of the scenarios does not matter: any rearrangement of the
   * losses has the same value at risk and expected shortfall.
   */
  lemma {:induction false} HistoricalRiskOrderIndependent(a: seq<real>, b: seq<real>, alpha: real)
    requires multiset(a) == multiset(b)
    ensures HistoricalRisk(a, alpha) == HistoricalRisk(b, alpha)
  {
    assert |a| == |multiset(a)| == |multiset(b)| == |b|;
    if 0.0 <= alpha <= 1.0 && a != [] {
      SortAscendingCanonical(a, b);
      var v := ValueAtRisk(a, alpha);
      assert v == ValueAtRisk(b, alpha);
      TailSort(a, v);
      TailSort(b, v);
    }
  }

  // ---------------------------------------------------------------------
  // Worked scenarios

  /** Five losses at alpha 0.9: index ceil(3.6) = 4 picks the largest loss ... */
  lemma {:induction false} ValueAtRiskFiveScenarios(s: seq<real>)
    requires s == [300.0, 100.0, 500.0, 200.0, 400.0]
    ensures ValueAtRisk(s, 0.9) == 500.0
  {
    assert CountBelow([300.0, 100.0, 500.0, 200.0, 400.0], 500.0) == 4;
    assert CountAtMost([300.0, 100.0, 500.0, 200.0, 400.0], 500.0) == 5;
    assert HigherIndex(0.9, 5) == 4;
    ValueAtRiskIsOrderStatistic(s, 0.9, 500.0);
  }

  /** ... which is then also the expected shortfall. */
  lemma {:induction false} HistoricalRiskFiveScenarios(s: seq<real>)
    requires s == [300.0, 100.0, 500.0, 200.0, 400.0]
    ensures HistoricalRisk(s, 0.9) == Ok(Risk(500.0, 500.0))
  {
    ValueAtRiskFiveScenarios(s);
    ExpectedShortfallFiveScenarios(s);
  }

  lemma {:induction false} ExpectedShortfallFiveScenarios(s: seq<real>)
    requires s == [300.0, 100.0, 500.0, 200.0, 400.0]
    ensures 500.0 in s && ExpectedShortfall(s, 500.0) == 500.0
  {
    assert Tail([300.0, 100.0, 500.0, 200.0, 400.0], 500.0) == [500.0];
    ExpectedShortfallOfSingleTail(s, 500.0);
  }

  /** When the value at risk is the only loss that large, it is also the shortfall. */
  lemma {:induction false} ExpectedShortfallOfSingleTail(losses: seq<real>, v: real)
    requires v in losses && Tail(losses, v) == [v]
    ensures ExpectedShortfall(losses, v) == v
  {
    assert [v][1..] == [];
    assert Sum([v]) == v;
    assert |[v]| as real == 1.0;
  }

  /** No loss is strictly below the smallest of them, so fewer than all are below any loss. */
  lemma {:induction false} CountBelowOwnEntry(s: seq<real>, v: real)
    requires v in s
    ensures CountBelow(s, v) < |s|
  {
    if s[0] != v {
      CountBelowOwnEntry(s[1..], v);
    }
  }

  lemma {:induction false} CountAtMostMax(s: seq<real>, m: real)
    requires forall x :: x in s ==> x <= m
    ensures CountAtMost(s, m) == |s|
  {
    if s != [] {
      assert s[0] in s;
      forall x | x in s[1..] ensures x <= m {
        assert x in s;
      }
      CountAtMostMax(s[1..], m);
    }
  }

  /** When numpy's index is the last one, the value at risk is the largest loss. */
  lemma {:induction false} ValueAtRiskAtLastIndex(losses: seq<real>, alpha: real)
    requires 0.0 <= alpha <= 1.0 && losses != []
    requires HigherIndex(alpha, |losses|) == |losses| - 1
    ensures ValueAtRisk(losses, alpha) == Max(losses)
  {
    CountBelowOwnEntry(losses, Max(losses));
    CountAtMostMax(losses, Max(losses));
    ValueAtRiskIsOrderStatistic(losses, alpha, Max(losses));
  }

  /**
   * With ten scenarios at alpha 0.9 the 'higher' rule takes index
   * ceil(0.9 * 9) = 9: the value at risk is the largest of the ten losses,
   * where the nearest-rank percentile (the ceil(0.9 * 10) = 9th smallest
   * loss, index 8) would be the second largest.
   */
  lemma {:induction false} ValueAtRiskOfTenIsLargest(losses: seq<real>)
    requires |losses| == 10
    ensures HigherIndex(0.9, 10) == 9 && NearestRankIndex(0.9, 10) == 8
    ensures ValueAtRisk(losses, 0.9) == Max(losses)
  {
    assert HigherIndex(0.9, 10) == 9;
    assert NearestRankIndex(0.9, 10) == 8;
    ValueAtRiskAtLastIndex(losses, 0.9);
  }
}
