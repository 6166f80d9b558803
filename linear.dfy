/**
 The small piece of linear algebra the payoff computation is written in:
 `np.sum`, `jnp.matmul` of a row vector with a matrix and of a vector with a
 vector, and the negated transpose `-A.T`. Vectors are sequences of reals and
 matrices are sequences of rows; the reals stand for the floats of the
 original, without rounding.
 */
module Linear {

  type Vector = seq<real>
  type Matrix = seq<seq<real>>

  /** `np.sum(v)`. */
  function Sum(v: Vector): real
  {
    if |v| == 0 then 0.0 else v[0] + Sum(v[1..])
  }

  /** `jnp.matmul(u, v)` of two vectors of equal length. */
  function Dot(u: Vector, v: Vector): real
    requires |u| == |v|
  {
    if |u| == 0 then 0.0 else u[0] * v[0] + Dot(u[1..], v[1..])
  }

  /** `A` has `rows` rows of `cols` entries each. */
  predicate IsMatrix(A: Matrix, rows: nat, cols: nat)
  {
    |A| == rows && forall i | 0 <= i < |A| :: |A[i]| == cols
  }

  /** Entry-wise bound `-1 <= A[i][j] <= 1`. */
  predicate EntriesInUnitRange(A: Matrix)
  {
    forall i, j | 0 <= i < |A| && 0 <= j < |A[i]| :: -1.0 <= A[i][j] <= 1.0
  }

  /** A probability vector: non-negative entries summing to one. */
  predicate IsDistribution(v: Vector)
  {
    (forall i | 0 <= i < |v| :: 0.0 <= v[i]) && Sum(v) == 1.0
  }

  function Neg(v: Vector): (r: Vector)
    ensures |r| == |v|
  {
    seq(|v|, i requires 0 <= i < |v| => -v[i])
  }

  function Add(u: Vector, v: Vector): (r: Vector)
    requires |u| == |v|
    ensures |r| == |u|
  {
    seq(|u|, i requires 0 <= i < |u| => u[i] + v[i])
  }

  function Scale(c: real, v: Vector): (r: Vector)
    ensures |r| == |v|
  {
    seq(|v|, i requires 0 <= i < |v| => c * v[i])
  }

  /** Column `j` of `A`, `A[:, j]`. */
  function Column(A: Matrix, j: nat): (r: Vector)
    requires forall i | 0 <= i < |A| :: j < |A[i]|
    ensures |r| == |A|
  {
    seq(|A|, i requires 0 <= i < |A| => A[i][j])
  }

  /** `jnp.matmul(x, A)`: the row vector `x` times the `|x|`-by-`cols` matrix `A`. */
  function VecMat(x: Vector, A: Matrix, cols: nat): (r: Vector)
    requires IsMatrix(A, |x|, cols)
    ensures |r| == cols
  {
    seq(cols, j requires 0 <= j < cols => Dot(x, Column(A, j)))
  }

  /** `A` times the column vector `y`: one dot product per row. */
  function MatVec(A: Matrix, y: Vector): (r: Vector)
    requires IsMatrix(A, |A|, |y|)
    ensures |r| == |A|
  {
    seq(|A|, i requires 0 <= i < |A| => Dot(A[i], y))
  }

  /** `jnp.matmul(jnp.matmul(x, A), y)`, the bilinear form `x A yᵀ`. */
  function Bilinear(x: Vector, A: Matrix, y: Vector): real
    requires IsMatrix(A, |x|, |y|)
  {
    Dot(VecMat(x, A, |y|), y)
  }

  /** `-A.T` for a matrix with `cols` columns. */
  function NegTranspose(A: Matrix, cols: nat): (r: Matrix)
    requires IsMatrix(A, |A|, cols)
    ensures IsMatrix(r, cols, |A|)
  {
    seq(cols, j requires 0 <= j < cols => seq(|A|, i requires 0 <= i < |A| => -A[i][j]))
  }

  /** `np.sum` of a vector of length three, written out. */
  lemma Sum3(v: Vector)
    requires |v| == 3
    ensures Sum(v) == v[0] + v[1] + v[2]
  {
    var t := v[1..];
    var u := t[1..];
    assert Sum(u[1..]) == 0.0;
    assert Sum(u) == v[2];
    assert Sum(t) == v[1] + v[2];
  }

  /** A dot product of length three, written out. */
  lemma Dot3(u: Vector, v: Vector)
    requires |u| == |v| == 3
    ensures Dot(u, v) == u[0] * v[0] + u[1] * v[1] + u[2] * v[2]
  {
    var u1, v1 := u[1..], v[1..];
    var u2, v2 := u1[1..], v1[1..];
    assert Dot(u2[1..], v2[1..]) == 0.0;
    assert Dot(u2, v2) == u[2] * v[2];
    assert Dot(u1, v1) == u[1] * v[1] + u[2] * v[2];
  }

  lemma ScaleTail(c: real, v: Vector)
    requires |v| > 0
    ensures Scale(c, v)[1..] == Scale(c, v[1..])
  {
    forall i | 0 <= i < |v| - 1
      ensures Scale(c, v)[1..][i] == Scale(c, v[1..])[i]
    {
      assert v[1..][i] == v[i + 1];
    }
  }

  /** Scaling a vector scales its sum. */
  lemma {:induction false} SumScale(c: real, v: Vector)
    ensures Sum(Scale(c, v)) == c * Sum(v)
  {
    if |v| > 0 {
      ScaleTail(c, v);
      SumScale(c, v[1..]);
    }
  }

  lemma {:induction false} DotComm(u: Vector, v: Vector)
    requires |u| == |v|
    ensures Dot(u, v) == Dot(v, u)
  {
    if |u| > 0 {
      DotComm(u[1..], v[1..]);
    }
  }

  lemma {:induction false} DotNegRight(u: Vector, v: Vector)
    requires |u| == |v|
    ensures Dot(u, Neg(v)) == -Dot(u, v)
  {
    if |u| > 0 {
      assert Neg(v)[1..] == Neg(v[1..]);
      DotNegRight(u[1..], v[1..]);
    }
  }

  lemma {:induction false} DotAddLeft(u: Vector, v: Vector, w: Vector)
    requires |u| == |v| == |w|
    ensures Dot(Add(u, v), w) == Dot(u, w) + Dot(v, w)
  {
    if |u| > 0 {
      assert Add(u, v)[1..] == Add(u[1..], v[1..]);
      DotAddLeft(u[1..], v[1..], w[1..]);
    }
  }

  lemma {:induction false} DotScaleLeft(c: real, u: Vector, w: Vector)
    requires |u| == |w|
    ensures Dot(Scale(c, u), w) == c * Dot(u, w)
  {
    if |u| > 0 {
      ScaleTail(c, u);
      DotScaleLeft(c, u[1..], w[1..]);
    }
  }

  lemma {:induction false} DotZeroLeft(u: Vector, w: Vector)
    requires |u| == |w|
    requires forall i | 0 <= i < |u| :: u[i] == 0.0
    ensures Dot(u, w) == 0.0
  {
    if |u| > 0 {
      DotZeroLeft(u[1..], w[1..]);
    }
  }

  /** Peeling the first row off a row-vector-times-matrix product. */
  lemma VecMatCons(x: Vector, A: Matrix, cols: nat)
    requires |x| > 0 && IsMatrix(A, |x|, cols)
    ensures VecMat(x, A, cols) == Add(Scale(x[0], A[0]), VecMat(x[1..], A[1..], cols))
  {
    forall j | 0 <= j < cols
      ensures VecMat(x, A, cols)[j] == Add(Scale(x[0], A[0]), VecMat(x[1..], A[1..], cols))[j]
    {
      assert Column(A, j)[1..] == Column(A[1..], j);
    }
  }

  /** Associativity of the two matrix products: `(x A) yᵀ == x (A yᵀ)`. */
  lemma {:induction false} BilinearAssoc(x: Vector, A: Matrix, y: Vector)
    requires IsMatrix(A, |x|, |y|)
    ensures Bilinear(x, A, y) == Dot(x, MatVec(A, y))
  {
    if |x| == 0 {
      DotZeroLeft(VecMat(x, A, |y|), y);
    } else {
      var n := |y|;
      var head, rest := Scale(x[0], A[0]), VecMat(x[1..], A[1..], n);
      var m := MatVec(A, y);
      VecMatCons(x, A, n);
      assert Bilinear(x, A, y) == Dot(Add(head, rest), y);
      DotAddLeft(head, rest, y);
      DotScaleLeft(x[0], A[0], y);
      assert Dot(head, y) == x[0] * m[0];
      BilinearAssoc(x[1..], A[1..], y);
      MatVecTail(A, y);
      assert Dot(rest, y) == Dot(x[1..], m[1..]);
      assert Dot(x, m) == x[0] * m[0] + Dot(x[1..], m[1..]);
    }
  }

  lemma MatVecTail(A: Matrix, y: Vector)
    requires |A| > 0 && IsMatrix(A, |A|, |y|)
    ensures MatVec(A, y)[1..] == MatVec(A[1..], y)
  {
  }

  /**
   The antisymmetry behind every zero-sum argument: scoring `y` against `x`
   with `-A.T` gives exactly the negation of scoring `x` against `y` with `A`.
   */
  lemma BilinearNegTranspose(x: Vector, A: Matrix, y: Vector)
    requires IsMatrix(A, |x|, |y|)
    ensures IsMatrix(NegTranspose(A, |y|), |y|, |x|)
    ensures Bilinear(y, NegTranspose(A, |y|), x) == -Bilinear(x, A, y)
  {
    var m := MatVec(A, y);
    var v := VecMat(y, NegTranspose(A, |y|), |x|);
    forall i | 0 <= i < |x|
      ensures v[i] == Neg(m)[i]
    {
      assert Column(NegTranspose(A, |y|), i) == Neg(A[i]);
      DotNegRight(y, A[i]);
      DotComm(y, A[i]);
    }
    assert v == Neg(m);
    DotComm(Neg(m), x);
    DotNegRight(x, m);
    BilinearAssoc(x, A, y);
  }

  /** A weighted sum of values in `[-1, 1]` lies within the total weight. */
  lemma {:induction false} DotBound(c: Vector, w: Vector)
    requires |c| == |w|
    requires forall i | 0 <= i < |c| :: -1.0 <= c[i] <= 1.0
    requires forall i | 0 <= i < |w| :: 0.0 <= w[i]
    ensures -Sum(w) <= Dot(c, w) <= Sum(w)
  {
    if |c| > 0 {
      assert -w[0] <= c[0] * w[0] <= w[0] by {
        assert (1.0 - c[0]) * w[0] >= 0.0;
        assert (1.0 + c[0]) * w[0] >= 0.0;
      }
      DotBound(c[1..], w[1..]);
    }
  }

  /** `x A yᵀ` lies in `[-1, 1]` when `x`, `y` are distributions and `A` is bounded by one. */
  lemma BilinearBound(x: Vector, A: Matrix, y: Vector)
    requires IsMatrix(A, |x|, |y|) && EntriesInUnitRange(A)
    requires IsDistribution(x) && IsDistribution(y)
    ensures -1.0 <= Bilinear(x, A, y) <= 1.0
  {
    var m := MatVec(A, y);
    forall i | 0 <= i < |m|
      ensures -1.0 <= m[i] <= 1.0
    {
      DotBound(A[i], y);
    }
    BilinearAssoc(x, A, y);
    DotComm(x, m);
    DotBound(m, x);
  }
}
