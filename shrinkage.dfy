/**
 * Section C of helper.py: `shrinkcovariance`, the constant-correlation
 * shrinkage estimator `shrinkage * V_CC + (1 - shrinkage) * V`.
 *
 * The sample covariance `V` (`estimate_V(data)`) and the correlation matrix
 * `C` (`data.corr().values`) are computed by sklearn and pandas; here they
 * are inputs. Every intermediate array of the source is a function below.
 */
module Shrinkage {
  import opened LinearAlgebra
  import opened Wrappers

  /** `rho_bar / Denominator` with `Denominator == 0.0` raises `ZeroDivisionError`. */
  datatype ShrinkError = ZeroDivision

  /** An `n` by `n` matrix, stated row by row. */
  predicate Square(m: Matrix) {
    forall i :: 0 <= i < |m| ==> |m[i]| == |m|
  }

  /** `Square` is `IsSquare` stated row by row, as the comprehensions below index the rows. */
  lemma {:induction false} SquareIsSquare(m: Matrix)
    ensures Square(m) <==> IsSquare(m, |m|)
  {
    if Square(m) {
      HasWidthFromEvery(m, |m|);
    }
    if IsSquare(m, |m|) {
      HasWidthEvery(m, |m|);
    }
  }

  predicate SameShape(a: Matrix, b: Matrix) {
    Square(a) && Square(b) && |a| == |b|
  }

  predicate NonZeroEntries(m: Matrix) {
    forall i, j :: 0 <= i < |m| && 0 <= j < |m[i]| ==> m[i][j] != 0.0
  }

  // ---------------------------------------------------------------------
  // The grand average correlation

  /** `[c[i, j] for j in range(j0, num)]`: row `i` right of column `j0`. */
  function RowFrom(c: Matrix, i: nat, j0: nat): (r: seq<real>)
    requires Square(c) && i < |c| && j0 <= |c|
    ensures |r| == |c| - j0
    decreases |c| - j0
  {
    if j0 == |c| then [] else [c[i][j0]] + RowFrom(c, i, j0 + 1)
  }

  /** `[c[i, j] for i in range(i0, num) for j in range(i + 1, num)]`. */
  function UpperFrom(c: Matrix, i0: nat): (r: seq<real>)
    requires Square(c) && i0 <= |c|
    decreases |c| - i0
  {
    if i0 == |c| then [] else RowFrom(c, i0, i0 + 1) + UpperFrom(c, i0 + 1)
  }

  /** The entries strictly above the diagonal, in the order the comprehension lists them. */
  function UpperTriangle(c: Matrix): seq<real>
    requires Square(c)
  {
    UpperFrom(c, 0)
  }

  /**
   * The grand average correlation `rho_bar`: the sum of the entries above the
   * diagonal divided by `num * (num - 1) / 2`. With fewer than two assets the
   * list is empty, its sum is the integer `0`, and `0 / 0.0` raises.
   */
  function RhoBar(c: Matrix): (r: Result<real, ShrinkError>)
    requires Square(c)
    ensures r.Err? <==> |c| < 2
  {
    if |c| < 2 then Err(ZeroDivision)
    else
      PairCount(|c|);
      Ok(Sum(UpperTriangle(c)) / Denominator(|c|))
  }

  /** `Denominator = (num * (num - 1)) / 2`, in true division. */
  function Denominator(num: nat): real {
    (num as real * (num as real - 1.0)) / 2.0
  }

  lemma {:induction false} PairCount(n: nat)
    requires n >= 2
    ensures Denominator(n) > 0.0
  {
    assert n as real - 1.0 >= 1.0;
  }

  lemma {:induction false} UpperFromLength(c: Matrix, i0: nat)
    requires Square(c) && i0 <= |c|
    ensures 2 * |UpperFrom(c, i0)| == (|c| - i0) * (|c| - i0 - 1)
    decreases |c| - i0
  {
    if i0 < |c| {
      UpperFromLength(c, i0 + 1);
      PairsStep(|c| - i0);
    }
  }

  lemma {:induction false} PairsStep(k: nat)
    requires k >= 1
    ensures 2 * (k - 1) + (k - 1) * (k - 2) == k * (k - 1)
  {
  }

  /** `num * (num - 1) / 2` counts the pairs above the diagonal. */
  lemma {:induction false} UpperTriangleLength(c: Matrix)
    requires Square(c)
    ensures 2 * |UpperTriangle(c)| == |c| * (|c| - 1)
  {
    UpperFromLength(c, 0);
  }

  lemma {:induction false} RowFromEntries(c: Matrix, i: nat, j0: nat, x: real)
    requires Square(c) && i < |c| && j0 <= |c|
    ensures x in RowFrom(c, i, j0) <==> exists j :: j0 <= j < |c| && c[i][j] == x
    decreases |c| - j0
  {
    if j0 < |c| {
      RowFromEntries(c, i, j0 + 1, x);
    }
  }

  lemma {:induction false} UpperFromEntries(c: Matrix, i0: nat, x: real)
    requires Square(c) && i0 <= |c|
    ensures x in UpperFrom(c, i0) <==> exists i, j :: i0 <= i < j < |c| && c[i][j] == x
    decreases |c| - i0
  {
    if i0 < |c| {
      var row, rest := RowFrom(c, i0, i0 + 1), UpperFrom(c, i0 + 1);
      RowFromEntries(c, i0, i0 + 1, x);
      UpperFromEntries(c, i0 + 1, x);
      assert x in row + rest <==> x in row || x in rest;
      if x in row {
        var j :| i0 + 1 <= j < |c| && c[i0][j] == x;
        assert i0 < j < |c| && c[i0][j] == x;
      } else if x in rest {
        var i, j :| i0 + 1 <= i < j < |c| && c[i][j] == x;
        assert i0 <= i < j < |c| && c[i][j] == x;
      }
      if exists i, j :: i0 <= i < j < |c| && c[i][j] == x {
        var i, j :| i0 <= i < j < |c| && c[i][j] == x;
        if i == i0 {
          assert x in row;
        } else {
          assert x in rest;
        }
      }
    }
  }

  /** The list holds exactly the entries `c[i][j]` with `i < j`. */
  lemma {:induction false} UpperTriangleEntries(c: Matrix, x: real)
    requires Square(c)
    ensures x in UpperTriangle(c) <==> exists i, j :: 0 <= i < j < |c| && c[i][j] == x
  {
    UpperFromEntries(c, 0, x);
  }

  /** `rho_bar` is the plain mean of the correlations above the diagonal. */
  lemma {:induction false} RhoBarIsMean(c: Matrix)
    requires Square(c) && |c| >= 2
    ensures RhoBar(c) == Ok(Sum(UpperTriangle(c)) / |UpperTriangle(c)| as real)
  {
    UpperTriangleLength(c);
    var n, u := |c|, UpperTriangle(c);
    HalfProduct(n, |u|);
  }

  lemma {:induction false} HalfProduct(n: nat, pairs: nat)
    requires 2 * pairs == n * (n - 1) && n >= 1
    ensures Denominator(n) == pairs as real
  {
    assert (n * (n - 1)) as real == n as real * (n as real - 1.0);
  }

  /** Correlations between -1 and 1 average to a value between -1 and 1. */
  lemma {:induction false} RhoBarBounds(c: Matrix)
    requires Square(c) && |c| >= 2
    requires forall i, j :: 0 <= i < j < |c| ==> -1.0 <= c[i][j] <= 1.0
    ensures RhoBar(c).Ok? && -1.0 <= RhoBar(c).value <= 1.0
  {
    var u := UpperTriangle(c);
    forall k | 0 <= k < |u| ensures -1.0 <= u[k] <= 1.0 {
      assert u[k] in u;
      UpperTriangleEntries(c, u[k]);
    }
    SumBounds(u, -1.0, 1.0);
    RhoBarIsMean(c);
    UpperTriangleLength(c);
    MeanBounds(Sum(u), |u| as real, RhoBar(c).value, -1.0, 1.0);
  }

  /** A matrix whose correlations are all `rho` has grand average `rho`. */
  lemma {:induction false} RhoBarOfConstantCorrelation(c: Matrix, rho: real)
    requires Square(c) && |c| >= 2
    requires forall i, j :: 0 <= i < j < |c| ==> c[i][j] == rho
    ensures RhoBar(c) == Ok(rho)
  {
    var u := UpperTriangle(c);
    forall k | 0 <= k < |u| ensures u[k] == rho {
      assert u[k] in u;
      UpperTriangleEntries(c, u[k]);
    }
    SumConstant(u, rho);
    RhoBarIsMean(c);
    UpperTriangleLength(c);
    MeanBounds(Sum(u), |u| as real, RhoBar(c).value, rho, rho);
  }

  // ---------------------------------------------------------------------
  // Element-wise numpy arithmetic on square matrices

  /** `a / b`, entry by entry. */
  function ElementDiv(a: Matrix, b: Matrix): (r: Matrix)
    requires SameShape(a, b) && NonZeroEntries(b)
    ensures SameShape(r, a)
  {
    seq(|a|, i requires 0 <= i < |a| => seq(|a|, j requires 0 <= j < |a| => a[i][j] / b[i][j]))
  }

  /** `np.identity(num) * np.diag(m)`: the diagonal of `m`, zeros elsewhere. */
  function DiagonalPart(m: Matrix): (r: Matrix)
    requires Square(m)
    ensures SameShape(r, m)
  {
    seq(|m|, i requires 0 <= i < |m| => seq(|m|, j requires 0 <= j < |m| => if i == j then m[i][i] else 0.0))
  }

  /** `a - b`, entry by entry. */
  function Sub(a: Matrix, b: Matrix): (r: Matrix)
    requires SameShape(a, b)
    ensures SameShape(r, a)
  {
    seq(|a|, i requires 0 <= i < |a| => seq(|a|, j requires 0 <= j < |a| => a[i][j] - b[i][j]))
  }

  /** `a + b`, entry by entry. */
  function AddM(a: Matrix, b: Matrix): (r: Matrix)
    requires SameShape(a, b)
    ensures SameShape(r, a)
  {
    seq(|a|, i requires 0 <= i < |a| => seq(|a|, j requires 0 <= j < |a| => a[i][j] + b[i][j]))
  }

  /** `k * m`, entry by entry. */
  function ScaleM(k: real, m: Matrix): (r: Matrix)
    requires Square(m)
    ensures SameShape(r, m)
  {
    seq(|m|, i requires 0 <= i < |m| => seq(|m|, j requires 0 <= j < |m| => k * m[i][j]))
  }

  // ---------------------------------------------------------------------
  // The shrinkage target and the shrunk covariance

  /** `SigmaiSigmaj = V / C`: the products of standard deviations. */
  function StdDevProducts(v: Matrix, c: Matrix): Matrix
    requires SameShape(v, c) && NonZeroEntries(c)
  {
    ElementDiv(v, c)
  }

  /**
   * `V_CC = WithoutDiagonals * rho_bar + Diagonals`: the covariance the assets
   * would have if every pair were correlated by `rho`.
   */
  function ConstantCorrelationTarget(v: Matrix, c: Matrix, rho: real): (r: Matrix)
    requires SameShape(v, c) && NonZeroEntries(c)
    ensures SameShape(r, v)
  {
    var products := StdDevProducts(v, c);
    var diagonals := DiagonalPart(products);
    var withoutDiagonals := Sub(products, diagonals);
    AddM(ScaleM(rho, withoutDiagonals), diagonals)
  }

  /** `shrinkage * V_CC + (1 - shrinkage) * V`. */
  function Shrunk(v: Matrix, c: Matrix, rho: real, shrinkage: real): (r: Matrix)
    requires SameShape(v, c) && NonZeroEntries(c)
    ensures SameShape(r, v)
  {
    AddM(ScaleM(shrinkage, ConstantCorrelationTarget(v, c, rho)), ScaleM(1.0 - shrinkage, v))
  }

  /**
   * `shrinkcovariance(data, shrinkage)` for `V = estimate_V(data)` and
   * `C = data.corr().values`.
   */
  function ShrinkCovariance(v: Matrix, c: Matrix, shrinkage: real): (r: Result<Matrix, ShrinkError>)
    requires SameShape(v, c) && NonZeroEntries(c)
    ensures r.Err? <==> |c| < 2
    ensures r.Ok? ==> SameShape(r.value, v)
  {
    match RhoBar(c)
    case Err(e) => Err(e)
    case Ok(rho) => Ok(Shrunk(v, c, rho, shrinkage))
  }

  /** Entry `(i, j)` of `V_CC`: `V / C` on the diagonal, `rho * V / C` off it. */
  lemma {:induction false} ConstantCorrelationTargetEntry(v: Matrix, c: Matrix, rho: real, i: nat, j: nat)
    requires SameShape(v, c) && NonZeroEntries(c) && i < |v| && j < |v|
    ensures ConstantCorrelationTarget(v, c, rho)[i][j]
         == if i == j then v[i][i] / c[i][i] else rho * (v[i][j] / c[i][j])
  {
  }

  /** Entry `(i, j)` of the shrunk covariance. */
  lemma {:induction false} ShrunkEntry(v: Matrix, c: Matrix, rho: real, shrinkage: real, i: nat, j: nat)
    requires SameShape(v, c) && NonZeroEntries(c) && i < |v| && j < |v|
    ensures Shrunk(v, c, rho, shrinkage)[i][j]
         == shrinkage * ConstantCorrelationTarget(v, c, rho)[i][j] + (1.0 - shrinkage) * v[i][j]
  {
  }

  /** Where the correlation matrix has a unit diagonal, the variances are kept. */
  lemma {:induction false} ShrunkKeepsVariances(v: Matrix, c: Matrix, rho: real, shrinkage: real, i: nat)
    requires SameShape(v, c) && NonZeroEntries(c) && i < |v| && c[i][i] == 1.0
    ensures Shrunk(v, c, rho, shrinkage)[i][i] == v[i][i]
  {
    ConstantCorrelationTargetEntry(v, c, rho, i, i);
    ShrunkEntry(v, c, rho, shrinkage, i, i);
    Blend(shrinkage, v[i][i] / c[i][i], v[i][i], Shrunk(v, c, rho, shrinkage)[i][i]);
  }

  lemma {:induction false} Blend(s: real, a: real, b: real, r: real)
    requires r == s * a + (1.0 - s) * b && a == b
    ensures r == b
  {
  }

  /** No shrinkage returns the sample covariance itself. */
  lemma {:induction false} ShrunkNone(v: Matrix, c: Matrix, rho: real)
    requires SameShape(v, c) && NonZeroEntries(c)
    ensures Shrunk(v, c, rho, 0.0) == v
  {
    var r := Shrunk(v, c, rho, 0.0);
    assert |r| == |v|;
    forall i | 0 <= i < |v| ensures r[i] == v[i] {
      forall j | 0 <= j < |v| ensures r[i][j] == v[i][j] {
        ShrunkEntry(v, c, rho, 0.0, i, j);
      }
    }
  }

  /** Full shrinkage returns the constant-correlation target. */
  lemma {:induction false} ShrunkFull(v: Matrix, c: Matrix, rho: real)
    requires SameShape(v, c) && NonZeroEntries(c)
    ensures Shrunk(v, c, rho, 1.0) == ConstantCorrelationTarget(v, c, rho)
  {
    var r, t := Shrunk(v, c, rho, 1.0), ConstantCorrelationTarget(v, c, rho);
    assert |r| == |t|;
    forall i | 0 <= i < |v| ensures r[i] == t[i] {
      forall j | 0 <= j < |v| ensures r[i][j] == t[i][j] {
        ShrunkEntry(v, c, rho, 1.0, i, j);
      }
    }
  }

  /** `shrinkcovariance` with shrinkage 0 returns `V` itself, and with shrinkage 1 the target `V_CC`. */
  lemma {:induction false} ShrinkCovarianceExtremes(v: Matrix, c: Matrix)
    requires SameShape(v, c) && NonZeroEntries(c) && |c| >= 2
    ensures ShrinkCovariance(v, c, 0.0) == Ok(v)
    ensures ShrinkCovariance(v, c, 1.0) == Ok(ConstantCorrelationTarget(v, c, RhoBar(c).value))
  {
    ShrunkNone(v, c, RhoBar(c).value);
    ShrunkFull(v, c, RhoBar(c).value);
  }

  /** A shrinkage in [0, 1] places every entry between the sample and the target entry. */
  lemma {:induction false} ShrunkBetween(v: Matrix, c: Matrix, rho: real, shrinkage: real, i: nat, j: nat)
    requires SameShape(v, c) && NonZeroEntries(c) && i < |v| && j < |v|
    requires 0.0 <= shrinkage <= 1.0
    ensures var t, r := ConstantCorrelationTarget(v, c, rho)[i][j], Shrunk(v, c, rho, shrinkage)[i][j];
      (t <= v[i][j] ==> t <= r <= v[i][j]) && (v[i][j] <= t ==> v[i][j] <= r <= t)
  {
    ShrunkEntry(v, c, rho, shrinkage, i, j);
    ConvexCombination(shrinkage, ConstantCorrelationTarget(v, c, rho)[i][j], v[i][j],
                      Shrunk(v, c, rho, shrinkage)[i][j]);
  }

  lemma {:induction false} ConvexCombination(s: real, a: real, b: real, r: real)
    requires 0.0 <= s <= 1.0 && r == s * a + (1.0 - s) * b
    ensures (a <= b ==> a <= r <= b) && (b <= a ==> b <= r <= a)
  {
    assert r - b == s * (a - b);
    assert a - r == (1.0 - s) * (a - b);
    if a <= b {
      ProductNonNegative(s, b - a);
      ProductNonNegative(1.0 - s, b - a);
    } else {
      ProductNonNegative(s, a - b);
      ProductNonNegative(1.0 - s, a - b);
    }
  }

  lemma {:induction false} ProductNonNegative(x: real, y: real)
    requires 0.0 <= x && 0.0 <= y
    ensures 0.0 <= x * y
  {
  }

  /** Symmetric covariance and correlation matrices give a symmetric estimate. */
  lemma {:induction false} ShrunkSymmetric(v: Matrix, c: Matrix, rho: real, shrinkage: real)
    requires SameShape(v, c) && NonZeroEntries(c) && IsSymmetric(v) && IsSymmetric(c)
    ensures IsSymmetric(Shrunk(v, c, rho, shrinkage))
  {
    var r := Shrunk(v, c, rho, shrinkage);
    forall i, j | 0 <= i < |r| && 0 <= j < |r| && j < |r[i]| && i < |r[j]| ensures r[i][j] == r[j][i] {
      ShrunkEntry(v, c, rho, shrinkage, i, j);
      ShrunkEntry(v, c, rho, shrinkage, j, i);
      ConstantCorrelationTargetEntry(v, c, rho, i, j);
      ConstantCorrelationTargetEntry(v, c, rho, j, i);
    }
  }

  /**
   * When `C` is the correlation of `V` (`C[i][j] * sd[i] * sd[j] == V[i][j]`
   * for positive standard deviations `sd`), the target's off-diagonal entries
   * are `rho * sd[i] * sd[j]`: the covariance under constant correlation `rho`.
   */
  lemma {:induction false} TargetFromStandardDeviations(v: Matrix, c: Matrix, sd: seq<real>, rho: real, i: nat, j: nat)
    requires SameShape(v, c) && NonZeroEntries(c) && |sd| == |v|
    requires i < |v| && j < |v| && i != j
    requires v[i][j] == c[i][j] * (sd[i] * sd[j])
    ensures ConstantCorrelationTarget(v, c, rho)[i][j] == rho * (sd[i] * sd[j])
  {
    ConstantCorrelationTargetEntry(v, c, rho, i, j);
    QuotientOfProduct(c[i][j], sd[i] * sd[j], v[i][j]);
  }

  lemma {:induction false} QuotientOfProduct(x: real, y: real, p: real)
    requires x != 0.0 && p == x * y
    ensures p / x == y
  {
  }
}
