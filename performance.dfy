/**
 * Section A of helper.py: `evaluate_portfolio_performance_on_data`. The mean
 * vector `mu` and covariance `V` come from sklearn's `EmpiricalCovariance`
 * and are taken as inputs; the square root and the Sharpe ratio are not
 * modelled.
 */
module Performance {
  import opened LinearAlgebra
  import opened Wrappers
  import Weights

  /** numpy's `ValueError` from `mu.T @ w` when `w` has the wrong number of assets. */
  datatype PerformanceError = ShapeMismatch

  datatype Performance = Performance(expectedReturn: real, variance: real)

  /** Portfolio variance `w.T @ V @ w`. */
  function Variance(w: Vector, v: Matrix): real
    requires IsSquare(v, |w|)
  {
    Dot(w, MatVec(v, w))
  }

  /**
   * `Er` and `var` of the result dictionary. A length mismatch only prints a
   * warning, after which the product `mu.T @ w` fails: that failure is the
   * `Err` branch.
   */
  function Evaluate(w: Vector, mu: Vector, v: Matrix): (r: Result<Performance, PerformanceError>)
    requires IsSquare(v, |mu|)
    ensures r.Err? <==> |w| != |mu|
  {
    if |w| != |mu| then Err(ShapeMismatch)
    else Ok(Performance(Dot(mu, w), Variance(w, v)))
  }

  /** The worked scenario: weights (0.5, 0.5), means (0.1, 0.2), variances 0.04 and 0.09. */
  lemma {:induction false} EvaluateTwoAssetExample()
    ensures Evaluate([0.5, 0.5], [0.1, 0.2], [[0.04, 0.0], [0.0, 0.09]])
         == Ok(Performance(0.15, 0.0325))
  {
  }

  /** The equal-weight portfolio earns the plain average of the asset means. */
  lemma {:induction false} EwpExpectedReturn(mu: Vector)
    requires |mu| >= 1
    ensures Dot(mu, Weights.Ewp(|mu|)) == Sum(mu) / |mu| as real
  {
    var n := |mu|;
    DotScaleRight(mu, 1.0 / n as real, Ones(n));
    DotOnes(mu);
  }

  /** Scaling every weight by `k` scales the variance by `k * k`. */
  lemma {:induction false} VarianceScale(k: real, w: Vector, v: Matrix)
    requires IsSquare(v, |w|)
    ensures Variance(Scale(k, w), v) == k * k * Variance(w, v)
  {
    MatVecScale(v, k, w);
    DotScaleLeft(k, w, Scale(k, MatVec(v, w)));
    DotScaleRight(w, k, MatVec(v, w));
  }

  lemma {:induction false} DotNonNegative(a: Vector, b: Vector)
    requires |a| == |b|
    requires forall i :: 0 <= i < |a| ==> a[i] * b[i] >= 0.0
    ensures Dot(a, b) >= 0.0
  {
    if a != [] {
      DotNonNegative(a[1..], b[1..]);
    }
  }

  /**
   * With a diagonal covariance (uncorrelated assets) of non-negative variances
   * the portfolio variance is never negative.
   */
  lemma {:induction false} DiagonalVarianceNonNegative(w: Vector, v: Matrix)
    requires IsSquare(v, |w|)
    requires forall i, j :: 0 <= i < |v| && 0 <= j < |v[i]| && i != j ==> v[i][j] == 0.0
    requires forall i :: 0 <= i < |v| && i < |v[i]| ==> v[i][i] >= 0.0
    ensures Variance(w, v) >= 0.0
  {
    var vw := MatVec(v, w);
    forall i | 0 <= i < |w| ensures w[i] * vw[i] >= 0.0 {
      MatVecAt(v, w, i);
      DotOneHot(v[i], w, i);
      assert w[i] * vw[i] == v[i][i] * (w[i] * w[i]);
    }
    DotNonNegative(w, vw);
  }
}
