/**
 * Exact real-valued vectors and matrices standing in for the numpy arrays of
 * helper.py: `np.sum`, the dot product `@` / `.dot`, element-wise scaling and
 * addition. Every operation is defined head-first by recursion; the `...At`
 * lemmas give the entry-wise reading.
 */
module LinearAlgebra {

  type Vector = seq<real>
  type Matrix = seq<seq<real>>

  /** Every row of `m` has `cols` entries (stated row by row; see `HasWidthAt`). */
  predicate HasWidth(m: Matrix, cols: nat) {
    m == [] || (|m[0]| == cols && HasWidth(m[1..], cols))
  }

  lemma {:induction false} HasWidthAt(m: Matrix, cols: nat, i: nat)
    requires HasWidth(m, cols) && i < |m|
    ensures |m[i]| == cols
  {
    if i > 0 {
      HasWidthAt(m[1..], cols, i - 1);
    }
  }

  lemma {:induction false} HasWidthEvery(m: Matrix, cols: nat)
    requires HasWidth(m, cols)
    ensures forall i :: 0 <= i < |m| ==> |m[i]| == cols
  {
    forall i | 0 <= i < |m| ensures |m[i]| == cols {
      HasWidthAt(m, cols, i);
    }
  }

  lemma {:induction false} HasWidthFromEvery(m: Matrix, cols: nat)
    requires forall i :: 0 <= i < |m| ==> |m[i]| == cols
    ensures HasWidth(m, cols)
  {
    if m != [] {
      HasWidthFromEvery(m[1..], cols);
    }
  }

  /** `m` is an `n` by `n` matrix. */
  predicate IsSquare(m: Matrix, n: nat) {
    |m| == n && HasWidth(m, n)
  }

  /** `m[i][j] == m[j][i]` wherever both entries exist. */
  predicate IsSymmetric(m: Matrix) {
    forall i, j :: 0 <= i < |m| && 0 <= j < |m| && j < |m[i]| && i < |m[j]| ==> m[i][j] == m[j][i]
  }

  /** `np.sum` of a vector. */
  function Sum(v: Vector): real {
    if v == [] then 0.0 else v[0] + Sum(v[1..])
  }

  /** Dot product `a @ b` of two vectors of equal length. */
  function Dot(a: Vector, b: Vector): real
    requires |a| == |b|
  {
    if a == [] then 0.0 else a[0] * b[0] + Dot(a[1..], b[1..])
  }

  /** `k * v`, element-wise. */
  function Scale(k: real, v: Vector): (r: Vector)
    ensures |r| == |v|
  {
    if v == [] then [] else [k * v[0]] + Scale(k, v[1..])
  }

  /** `v / d`, element-wise, for a non-zero divisor. */
  function DivideBy(v: Vector, d: real): (r: Vector)
    requires d != 0.0
    ensures |r| == |v|
  {
    if v == [] then [] else [v[0] / d] + DivideBy(v[1..], d)
  }

  /** `a + b`, element-wise, for vectors of equal length. */
  function Add(a: Vector, b: Vector): (r: Vector)
    requires |a| == |b|
    ensures |r| == |a|
  {
    if a == [] then [] else [a[0] + b[0]] + Add(a[1..], b[1..])
  }

  /** Matrix-vector product `m @ v`, row by row. */
  function MatVec(m: Matrix, v: Vector): (r: Vector)
    requires HasWidth(m, |v|)
    ensures |r| == |m|
  {
    if m == [] then [] else [Dot(m[0], v)] + MatVec(m[1..], v)
  }

  /** The vector of `n` ones, `np.ones(n)`. */
  function Ones(n: nat): (r: Vector)
    ensures |r| == n
  {
    if n == 0 then [] else [1.0] + Ones(n - 1)
  }

  /** Real-arithmetic facts, kept apart so that each is proved in a small context. */
  lemma {:induction false} DivMulCancel(x: real, d: real)
    requires d != 0.0
    ensures (x / d) * d == x && d / d == 1.0
  {
  }

  lemma {:induction false} DivCancelFactor(x: real, k: real, d: real)
    requires k != 0.0 && d != 0.0
    ensures (k * x) / (k * d) == x / d
  {
  }

  lemma {:induction false} ScaleAt(k: real, v: Vector, i: nat)
    requires i < |v|
    ensures Scale(k, v)[i] == k * v[i]
  {
    if i > 0 {
      ScaleAt(k, v[1..], i - 1);
    }
  }

  lemma {:induction false} DivideByAt(v: Vector, d: real, i: nat)
    requires d != 0.0 && i < |v|
    ensures DivideBy(v, d)[i] == v[i] / d
  {
    if i > 0 {
      DivideByAt(v[1..], d, i - 1);
    }
  }

  lemma {:induction false} AddAt(a: Vector, b: Vector, i: nat)
    requires |a| == |b| && i < |a|
    ensures Add(a, b)[i] == a[i] + b[i]
  {
    if i > 0 {
      AddAt(a[1..], b[1..], i - 1);
    }
  }

  /** Entry `i` of `m @ v` is row `i` of `m` dotted with `v`. */
  lemma {:induction false} MatVecAt(m: Matrix, v: Vector, i: nat)
    requires HasWidth(m, |v|) && i < |m|
    ensures |m[i]| == |v| && MatVec(m, v)[i] == Dot(m[i], v)
  {
    if i > 0 {
      MatVecAt(m[1..], v, i - 1);
    }
  }

  lemma {:induction false} OnesAt(n: nat, i: nat)
    requires i < n
    ensures Ones(n)[i] == 1.0
  {
    if i > 0 {
      OnesAt(n - 1, i - 1);
    }
  }

  lemma {:induction false} SumScale(k: real, v: Vector)
    ensures Sum(Scale(k, v)) == k * Sum(v)
  {
    if v != [] {
      SumScale(k, v[1..]);
    }
  }

  lemma {:induction false} SumDivideBy(v: Vector, d: real)
    requires d != 0.0
    ensures Sum(DivideBy(v, d)) == Sum(v) / d
  {
    if v != [] {
      SumDivideBy(v[1..], d);
      assert v[0] / d + Sum(v[1..]) / d == (v[0] + Sum(v[1..])) / d;
    }
  }

  /** A vector whose entries are all `c` sums to `|v| * c`. */
  lemma {:induction false} SumConstant(v: Vector, c: real)
    requires forall i :: 0 <= i < |v| ==> v[i] == c
    ensures Sum(v) == |v| as real * c
  {
    if v != [] {
      SumConstant(v[1..], c);
    }
  }

  /** If every entry lies in [lo, hi], the sum lies in [|v| * lo, |v| * hi]. */
  lemma {:induction false} SumBounds(v: Vector, lo: real, hi: real)
    requires forall i :: 0 <= i < |v| ==> lo <= v[i] <= hi
    ensures |v| as real * lo <= Sum(v) <= |v| as real * hi
  {
    if v != [] {
      SumBounds(v[1..], lo, hi);
    }
  }

  /** A mean of `n` values whose total lies in [n * lo, n * hi] lies in [lo, hi]. */
  lemma {:induction false} MeanBounds(total: real, n: real, mean: real, lo: real, hi: real)
    requires n > 0.0 && mean == total / n && n * lo <= total <= n * hi
    ensures lo <= mean <= hi
  {
  }

  lemma {:induction false} DotScaleRight(a: Vector, k: real, b: Vector)
    requires |a| == |b|
    ensures Dot(a, Scale(k, b)) == k * Dot(a, b)
  {
    if a != [] {
      DotScaleRight(a[1..], k, b[1..]);
    }
  }

  lemma {:induction false} DotScaleLeft(k: real, a: Vector, b: Vector)
    requires |a| == |b|
    ensures Dot(Scale(k, a), b) == k * Dot(a, b)
  {
    if a != [] {
      DotScaleLeft(k, a[1..], b[1..]);
    }
  }

  lemma {:induction false} DotAddRight(a: Vector, b: Vector, c: Vector)
    requires |a| == |b| == |c|
    ensures Dot(a, Add(b, c)) == Dot(a, b) + Dot(a, c)
  {
    if a != [] {
      DotAddRight(a[1..], b[1..], c[1..]);
    }
  }

  /** Dotting with the ones vector sums the entries. */
  lemma {:induction false} DotOnes(a: Vector)
    ensures Dot(a, Ones(|a|)) == Sum(a)
  {
    if a != [] {
      DotOnes(a[1..]);
    }
  }

  /** When one of the two vectors is zero at every entry but `i`, the dot product is the product at `i`. */
  lemma {:induction false} DotOneHot(a: Vector, b: Vector, i: nat)
    requires |a| == |b| && i < |a|
    requires forall j :: 0 <= j < |a| && j != i ==> a[j] == 0.0 || b[j] == 0.0
    ensures Dot(a, b) == a[i] * b[i]
  {
    if i == 0 {
      DotZeroProducts(a[1..], b[1..]);
    } else {
      DotOneHot(a[1..], b[1..], i - 1);
    }
  }

  /** Entry by entry, one factor is zero: the dot product is zero. */
  lemma {:induction false} DotZeroProducts(a: Vector, b: Vector)
    requires |a| == |b|
    requires forall j :: 0 <= j < |a| ==> a[j] == 0.0 || b[j] == 0.0
    ensures Dot(a, b) == 0.0
  {
    if a != [] {
      DotZeroProducts(a[1..], b[1..]);
    }
  }

  lemma {:induction false} MatVecScale(m: Matrix, k: real, v: Vector)
    requires HasWidth(m, |v|)
    ensures MatVec(m, Scale(k, v)) == Scale(k, MatVec(m, v))
  {
    var l, r := MatVec(m, Scale(k, v)), Scale(k, MatVec(m, v));
    forall i | 0 <= i < |m| ensures l[i] == r[i] {
      MatVecAt(m, v, i);
      MatVecAt(m, Scale(k, v), i);
      ScaleAt(k, MatVec(m, v), i);
      DotScaleRight(m[i], k, v);
    }
  }

  /** Scaling distributes over a sum of scalars ... */
  lemma {:induction false} ScaleAddScalars(a: real, b: real, v: Vector)
    ensures Scale(a + b, v) == Add(Scale(a, v), Scale(b, v))
  {
    if v != [] {
      ScaleAddScalars(a, b, v[1..]);
    }
  }

  /** ... and over a sum of vectors. */
  lemma {:induction false} ScaleAdd(k: real, a: Vector, b: Vector)
    requires |a| == |b|
    ensures Scale(k, Add(a, b)) == Add(Scale(k, a), Scale(k, b))
  {
    var l, r := Scale(k, Add(a, b)), Add(Scale(k, a), Scale(k, b));
    forall i | 0 <= i < |a| ensures l[i] == r[i] {
      AddAt(a, b, i);
      ScaleAt(k, Add(a, b), i);
      ScaleAt(k, a, i);
      ScaleAt(k, b, i);
      AddAt(Scale(k, a), Scale(k, b), i);
    }
  }

  /** Scaling twice multiplies the factors, in either order. */
  lemma {:induction false} ScaleScale(j: real, k: real, v: Vector)
    ensures Scale(j, Scale(k, v)) == Scale(j * k, v) == Scale(k, Scale(j, v))
  {
    ScaleCompose(j, k, v);
    ScaleCompose(k, j, v);
    assert k * j == j * k;
  }

  lemma {:induction false} ScaleCompose(j: real, k: real, v: Vector)
    ensures Scale(j, Scale(k, v)) == Scale(j * k, v)
  {
    var l, r := Scale(j, Scale(k, v)), Scale(j * k, v);
    forall i | 0 <= i < |v| ensures l[i] == r[i] {
      ScaleComposeAt(j, k, v, i);
    }
  }

  lemma {:induction false} ScaleComposeAt(j: real, k: real, v: Vector, i: nat)
    requires i < |v|
    ensures Scale(j, Scale(k, v))[i] == Scale(j * k, v)[i]
  {
    ScaleAt(k, v, i);
    ScaleAt(j, Scale(k, v), i);
    ScaleAt(j * k, v, i);
    ProductRegroup(j, k, v[i]);
  }

  lemma {:induction false} ProductRegroup(j: real, k: real, x: real)
    ensures j * (k * x) == (j * k) * x == k * (j * x)
  {
  }

  lemma {:induction false} MatVecAdd(m: Matrix, a: Vector, b: Vector)
    requires |a| == |b| && HasWidth(m, |a|)
    ensures MatVec(m, Add(a, b)) == Add(MatVec(m, a), MatVec(m, b))
  {
    var l, r := MatVec(m, Add(a, b)), Add(MatVec(m, a), MatVec(m, b));
    forall i | 0 <= i < |m| ensures l[i] == r[i] {
      MatVecAt(m, a, i);
      MatVecAt(m, b, i);
      MatVecAt(m, Add(a, b), i);
      AddAt(MatVec(m, a), MatVec(m, b), i);
      DotAddRight(m[i], a, b);
    }
  }
}
