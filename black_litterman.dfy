/** Section D of helper.py: Black-Litterman implied excess equilibrium returns. */
module BlackLitterman {
  import opened LinearAlgebra
  import Performance

  /** `risk_aversion * sigma.dot(w)`. */
  function ImpliedRets(riskAversion: real, sigma: Matrix, w: Vector): (r: Vector)
    requires HasWidth(sigma, |w|)
    ensures |r| == |sigma|
  {
    Scale(riskAversion, MatVec(sigma, w))
  }

  /** Asset `i` is implied to earn `riskAversion` times its covariance with the portfolio. */
  lemma {:induction false} ImpliedRetsEntry(riskAversion: real, sigma: Matrix, w: Vector, i: nat)
    requires HasWidth(sigma, |w|) && i < |sigma|
    ensures |sigma[i]| == |w|
    ensures ImpliedRets(riskAversion, sigma, w)[i] == riskAversion * Dot(sigma[i], w)
  {
    MatVecAt(sigma, w, i);
    ScaleAt(riskAversion, MatVec(sigma, w), i);
  }

  /** Implied returns are linear in the risk aversion ... */
  lemma {:induction false} ImpliedRetsLinearInRiskAversion(a: real, b: real, k: real, sigma: Matrix, w: Vector)
    requires HasWidth(sigma, |w|)
    ensures ImpliedRets(a + b, sigma, w) == Add(ImpliedRets(a, sigma, w), ImpliedRets(b, sigma, w))
    ensures ImpliedRets(k * a, sigma, w) == Scale(k, ImpliedRets(a, sigma, w))
  {
    ScaleAddScalars(a, b, MatVec(sigma, w));
    ScaleScale(k, a, MatVec(sigma, w));
  }

  /** ... and in the weights. */
  lemma {:induction false} ImpliedRetsLinearInWeights(riskAversion: real, sigma: Matrix, w1: Vector, w2: Vector, k: real)
    requires |w1| == |w2| && HasWidth(sigma, |w1|)
    ensures ImpliedRets(riskAversion, sigma, Add(w1, w2))
         == Add(ImpliedRets(riskAversion, sigma, w1), ImpliedRets(riskAversion, sigma, w2))
    ensures ImpliedRets(riskAversion, sigma, Scale(k, w1)) == Scale(k, ImpliedRets(riskAversion, sigma, w1))
  {
    MatVecAdd(sigma, w1, w2);
    ScaleAdd(riskAversion, MatVec(sigma, w1), MatVec(sigma, w2));
    MatVecScale(sigma, k, w1);
    ScaleScale(riskAversion, k, MatVec(sigma, w1));
  }

  /**
   * At the equilibrium weights the portfolio's implied excess return is the
   * risk aversion times the portfolio variance `w.T @ sigma @ w`.
   */
  lemma {:induction false} ImpliedPortfolioReturn(riskAversion: real, sigma: Matrix, w: Vector)
    requires IsSquare(sigma, |w|)
    ensures Dot(w, ImpliedRets(riskAversion, sigma, w)) == riskAversion * Performance.Variance(w, sigma)
  {
    DotScaleRight(w, riskAversion, MatVec(sigma, w));
  }

  /** The worked scenario: risk aversion 2, variances 0.04 and 0.09, equal weights. */
  lemma {:induction false} ImpliedRetsTwoAssetExample()
    ensures ImpliedRets(2.0, [[0.04, 0.0], [0.0, 0.09]], [0.5, 0.5]) == [0.04, 0.09]
  {
  }
}
