/**
 * Section B of helper.py: optimal-weight constructors. The matrix inverse
 * `np.linalg.inv(V)` is numpy's and is taken here as an input `vinv`; what is
 * modelled is the product with `mu` (or the ones vector) and the in-place
 * renormalisation `w /= np.sum(w)`.
 */
module Weights {
  import opened LinearAlgebra

  /** Equal-weight portfolio `np.ones(n)/n`; for `n == 0` numpy yields the empty vector. */
  function Ewp(n: nat): (w: Vector)
    ensures |w| == n
  {
    if n == 0 then [] else Scale(1.0 / n as real, Ones(n))
  }

  /** Every weight of the equal-weight portfolio is `1/n` and together they sum to one. */
  lemma {:induction false} EwpSumsToOne(n: nat)
    requires n >= 1
    ensures forall i :: 0 <= i < n ==> Ewp(n)[i] == 1.0 / n as real
    ensures Sum(Ewp(n)) == 1.0
  {
    forall i | 0 <= i < n ensures Ewp(n)[i] == 1.0 / n as real {
      ScaleAt(1.0 / n as real, Ones(n), i);
      OnesAt(n, i);
    }
    SumConstant(Ewp(n), 1.0 / n as real);
  }

  /** The vector `v` divided by its own sum (`w / np.sum(w)`). */
  function Normalized(v: Vector): (r: Vector)
    requires Sum(v) != 0.0
    ensures |r| == |v|
  {
    DivideBy(v, Sum(v))
  }

  /**
   * Renormalised weights sum to one, and each is its input divided by the
   * input's sum, so they are proportional to the input.
   */
  lemma {:induction false} NormalizedSumsToOne(v: Vector)
    requires Sum(v) != 0.0
    ensures Sum(Normalized(v)) == 1.0
    ensures forall i :: 0 <= i < |v| ==> Normalized(v)[i] == v[i] / Sum(v)
  {
    var d := Sum(v);
    SumDivideBy(v, d);
    DivMulCancel(d, d);
    forall i | 0 <= i < |v| ensures Normalized(v)[i] == v[i] / Sum(v) {
      DivideByAt(v, d, i);
    }
  }

  /** Renormalising is insensitive to a non-zero rescaling of its input ... */
  lemma {:induction false} NormalizedScaleInvariant(k: real, v: Vector)
    requires k != 0.0 && Sum(v) != 0.0
    ensures Sum(Scale(k, v)) != 0.0
    ensures Normalized(Scale(k, v)) == Normalized(v)
  {
    var kv := Scale(k, v);
    SumScale(k, v);
    ProductNonZero(k, Sum(v));
    forall i | 0 <= i < |v| ensures Normalized(kv)[i] == Normalized(v)[i] {
      NormalizedScaledAt(k, v, i);
    }
  }

  lemma {:induction false} NormalizedScaledAt(k: real, v: Vector, i: nat)
    requires k != 0.0 && Sum(v) != 0.0 && Sum(Scale(k, v)) != 0.0 && i < |v|
    ensures Normalized(Scale(k, v))[i] == Normalized(v)[i]
  {
    var kv := Scale(k, v);
    SumScale(k, v);
    ScaleAt(k, v, i);
    DivideByAt(kv, Sum(kv), i);
    DivideByAt(v, Sum(v), i);
    RatioOfScaled(v[i], Sum(v), k, kv[i], Sum(kv));
  }

  lemma {:induction false} ProductNonZero(a: real, b: real)
    requires a != 0.0 && b != 0.0
    ensures a * b != 0.0
  {
  }

  lemma {:induction false} RatioOfScaled(x: real, s: real, k: real, kx: real, ks: real)
    requires k != 0.0 && s != 0.0 && kx == k * x && ks == k * s
    ensures ks != 0.0 && kx / ks == x / s
  {
    DivCancelFactor(x, k, s);
  }

  /** ... and so renormalising twice changes nothing. */
  lemma {:induction false} NormalizedIdempotent(v: Vector)
    requires Sum(v) != 0.0
    ensures Sum(Normalized(v)) != 0.0
    ensures Normalized(Normalized(v)) == Normalized(v)
  {
    NormalizedSumsToOne(v);
    var n := Normalized(v);
    forall i | 0 <= i < |v| ensures Normalized(n)[i] == n[i] {
      DivideByAt(n, 1.0, i);
    }
  }

  /** `w /= np.sum(w)` on a numpy array, in place. */
  method NormalizeInPlace(w: array<real>)
    requires Sum(w[..]) != 0.0
    modifies w
    ensures w[..] == Normalized(old(w[..]))
  {
    ghost var v := w[..];
    var total := 0.0;
    var i := w.Length;
    while i > 0
      invariant 0 <= i <= w.Length
      invariant total == Sum(w[i..])
    {
      i := i - 1;
      assert w[i..][1..] == w[i + 1..];
      total := total + w[i];
    }
    assert w[0..] == v;
    var j := 0;
    while j < w.Length
      invariant 0 <= j <= w.Length
      invariant forall k :: 0 <= k < j ==> w[k] == Normalized(v)[k]
      invariant forall k :: j <= k < w.Length ==> w[k] == v[k]
    {
      DivideByAt(v, total, j);
      w[j] := w[j] / total;
      j := j + 1;
    }
  }

  /** The array holding `vinv @ x`, as numpy computes it before renormalising. */
  method MatVecArray(vinv: Matrix, x: Vector) returns (w: array<real>)
    requires HasWidth(vinv, |x|)
    ensures fresh(w) && w[..] == MatVec(vinv, x)
  {
    w := new real[|vinv|];
    for i := 0 to |vinv|
      invariant forall k :: 0 <= k < i ==> w[k] == MatVec(vinv, x)[k]
    {
      MatVecAt(vinv, x, i);
      w[i] := Dot(vinv[i], x);
    }
  }

  /**
   * Tangency portfolio `w_t = inv(V) @ mu; w_t /= sum(w_t)`, given the
   * inverse `vinv` of the covariance matrix.
   */
  method Tangency(vinv: Matrix, mu: Vector) returns (w: array<real>)
    requires IsSquare(vinv, |mu|)
    requires Sum(MatVec(vinv, mu)) != 0.0
    ensures fresh(w)
    ensures w[..] == Normalized(MatVec(vinv, mu))
    ensures Sum(w[..]) == 1.0
  {
    w := MatVecArray(vinv, mu);
    NormalizeInPlace(w);
    NormalizedSumsToOne(MatVec(vinv, mu));
  }

  /**
   * Global-minimum-variance portfolio `w_g = inv(V) @ np.ones(n); w_g /= sum(w_g)`,
   * given the inverse `vinv` of the `n` by `n` covariance matrix.
   */
  method Gmv(vinv: Matrix) returns (w: array<real>)
    requires IsSquare(vinv, |vinv|)
    requires Sum(MatVec(vinv, Ones(|vinv|))) != 0.0
    ensures fresh(w)
    ensures w[..] == Normalized(MatVec(vinv, Ones(|vinv|)))
    ensures Sum(w[..]) == 1.0
  {
    w := MatVecArray(vinv, Ones(|vinv|));
    NormalizeInPlace(w);
    NormalizedSumsToOne(MatVec(vinv, Ones(|vinv|)));
  }

  /** The vector of row sums of a matrix. */
  function RowSums(m: Matrix): (r: Vector)
    ensures |r| == |m|
  {
    if m == [] then [] else [Sum(m[0])] + RowSums(m[1..])
  }

  lemma {:induction false} MatVecOnes(m: Matrix, n: nat)
    requires HasWidth(m, n)
    ensures MatVec(m, Ones(n)) == RowSums(m)
  {
    if m != [] {
      DotOnes(m[0]);
      MatVecOnes(m[1..], n);
    }
  }

  lemma {:induction false} RowSumsAt(m: Matrix, i: nat)
    requires i < |m|
    ensures RowSums(m)[i] == Sum(m[i])
  {
    if i > 0 {
      RowSumsAt(m[1..], i - 1);
    }
  }

  /**
   * The GMV weight of asset `i` is the `i`-th row sum of `inv(V)` over the
   * sum of all entries of `inv(V)`.
   */
  lemma {:induction false} GmvWeightIsRowShare(vinv: Matrix, i: nat)
    requires IsSquare(vinv, |vinv|) && i < |vinv|
    requires Sum(RowSums(vinv)) != 0.0
    ensures Sum(MatVec(vinv, Ones(|vinv|))) != 0.0
    ensures Normalized(MatVec(vinv, Ones(|vinv|)))[i] == Sum(vinv[i]) / Sum(RowSums(vinv))
  {
    MatVecOnes(vinv, |vinv|);
    RowSumsAt(vinv, i);
    DivideByAt(RowSums(vinv), Sum(RowSums(vinv)), i);
  }
}
