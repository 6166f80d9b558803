/**
 `get_strat_mats` and `generate_data`: a batch of 3-by-3 matrices of uniform
 draws is normalised row by row, in place, into strategy matrices; their payoff
 probabilities are computed and thresholded against a second batch of uniform
 draws to give the ±1 labels. Both batches of draws are inputs here.
 */
module Strategies {
  import opened Linear
  import opened Game

  /** `X[i, k]`: row `k` of sample `i`. */
  function Row(X: array3<real>, i: nat, k: nat): (v: Vector)
    requires i < X.Length0 && k < X.Length1 && X.Length2 == 3
    reads X
    ensures |v| == 3
  {
    [X[i, k, 0], X[i, k, 1], X[i, k, 2]]
  }

  /** `X[i]`: sample `i` as a matrix. */
  function Sample(X: array3<real>, i: nat): (M: Matrix)
    requires i < X.Length0 && X.Length1 == 3 && X.Length2 == 3
    reads X
    ensures IsMatrix(M, 3, 3)
  {
    [Row(X, i, 0), Row(X, i, 1), Row(X, i, 2)]
  }

  /**
   `v / np.sum(v)`: a non-negative vector with a positive sum becomes a
   distribution, and multiplying back by the old sum recovers `v`.
   */
  function Normalised(v: Vector): (r: Vector)
    requires forall j | 0 <= j < |v| :: 0.0 <= v[j]
    requires Sum(v) > 0.0
    ensures |r| == |v|
    ensures IsDistribution(r)
    ensures forall j | 0 <= j < |v| :: r[j] * Sum(v) == v[j]
  {
    var s := Sum(v);
    NormalisedIsDistribution(v, s);
    Divided(v, s)
  }

  /** Every entry of `v` divided by `s`. */
  function Divided(v: Vector, s: real): (r: Vector)
    requires s != 0.0
    ensures |r| == |v| && forall j | 0 <= j < |v| :: r[j] * s == v[j]
  {
    seq(|v|, j requires 0 <= j < |v| => v[j] / s)
  }

  /** Dividing by the sum gives a distribution from which the sum scales `v` back. */
  lemma NormalisedIsDistribution(v: Vector, s: real)
    requires forall j | 0 <= j < |v| :: 0.0 <= v[j]
    requires s == Sum(v) && s > 0.0
    ensures IsDistribution(Divided(v, s))
    ensures forall j | 0 <= j < |v| :: Divided(v, s)[j] * s == v[j]
  {
    NormalisedSum(v, s);
    NormalisedEntries(v, s);
  }

  lemma NormalisedSum(v: Vector, s: real)
    requires s == Sum(v) && s > 0.0
    ensures Sum(Divided(v, s)) == 1.0
  {
    DivisionIsScaling(v, s);
    SumScale(1.0 / s, v);
  }

  lemma NormalisedEntries(v: Vector, s: real)
    requires forall j | 0 <= j < |v| :: 0.0 <= v[j]
    requires s > 0.0
    ensures forall j | 0 <= j < |v| :: 0.0 <= Divided(v, s)[j]
    ensures forall j | 0 <= j < |v| :: Divided(v, s)[j] * s == v[j]
  {
    var r := Divided(v, s);
    forall j | 0 <= j < |v|
      ensures 0.0 <= r[j]
    {
      assert r[j] * s == v[j];
    }
  }

  lemma DivisionIsScaling(v: Vector, s: real)
    requires s > 0.0
    ensures Divided(v, s) == Scale(1.0 / s, v)
  {
    var r := Divided(v, s);
    forall j | 0 <= j < |v|
      ensures r[j] == Scale(1.0 / s, v)[j]
    {
      assert v[j] / s == (1.0 / s) * v[j];
    }
  }

  /**
   The draws `np.random.rand(N, 3, 3)` as the normalisation needs them:
   non-negative, and no row all zero.
   */
  predicate IsDrawBatch(X: array3<real>)
    reads X
  {
    && X.Length1 == 3 && X.Length2 == 3
    && (forall i, k, j | 0 <= i < X.Length0 && 0 <= k < 3 && 0 <= j < 3 :: 0.0 <= X[i, k, j])
    && (forall i, k | 0 <= i < X.Length0 && 0 <= k < 3 :: Sum(Row(X, i, k)) > 0.0)
  }

  /** One inner step, `X[i,k] = X[i,k] / np.sum(X[i,k])`: only row `k` of sample `i` changes. */
  method NormaliseRow(X: array3<real>, i: nat, k: nat)
    requires X.Length2 == 3 && i < X.Length0 && k < X.Length1
    requires forall j | 0 <= j < 3 :: 0.0 <= X[i, k, j]
    requires Sum(Row(X, i, k)) > 0.0
    modifies X
    ensures Row(X, i, k) == Normalised(old(Row(X, i, k)))
    ensures forall a, b, c | 0 <= a < X.Length0 && 0 <= b < X.Length1 && 0 <= c < 3 && (a != i || b != k) ::
      X[a, b, c] == old(X[a, b, c])
  {
    ghost var v := Row(X, i, k);
    Sum3(v);
    var s := X[i, k, 0] + X[i, k, 1] + X[i, k, 2];
    X[i, k, 0], X[i, k, 1], X[i, k, 2] := X[i, k, 0] / s, X[i, k, 1] / s, X[i, k, 2] / s;
    assert Row(X, i, k) == Divided(v, s);
  }

  /**
   `get_strat_mats` after its draws: every row of every sample is divided by
   its sum, in place, so that each sample becomes a strategy matrix.
   */
  method NormaliseStrategyMatrices(X: array3<real>)
    requires IsDrawBatch(X)
    modifies X
    ensures forall i, k | 0 <= i < X.Length0 && 0 <= k < 3 :: Row(X, i, k) == Normalised(old(Row(X, i, k)))
    ensures forall i | 0 <= i < X.Length0 :: IsStrategyMatrix(Sample(X, i))
  {
    for i := 0 to X.Length0
      invariant forall a, k | 0 <= a < i && 0 <= k < 3 :: Row(X, a, k) == Normalised(old(Row(X, a, k)))
      invariant forall a, k, c | i <= a < X.Length0 && 0 <= k < 3 && 0 <= c < 3 :: X[a, k, c] == old(X[a, k, c])
    {
      for k := 0 to 3
        invariant forall a, b | 0 <= a < i && 0 <= b < 3 :: Row(X, a, b) == Normalised(old(Row(X, a, b)))
        invariant forall b | 0 <= b < k :: Row(X, i, b) == Normalised(old(Row(X, i, b)))
        invariant forall b, c | k <= b < 3 && 0 <= c < 3 :: X[i, b, c] == old(X[i, b, c])
        invariant forall a, b, c | i < a < X.Length0 && 0 <= b < 3 && 0 <= c < 3 :: X[a, b, c] == old(X[a, b, c])
      {
        assert Row(X, i, k) == old(Row(X, i, k));
        NormaliseRow(X, i, k);
      }
    }
  }

  /**
   `generate_data`: normalise the draws into strategy matrices, compute their
   payoff probabilities, and label each player +1 exactly when its probability
   exceeds its draw in `r`.
   */
  method GenerateData(X: array3<real>, r: seq<Vector>) returns (Y: seq<seq<int>>, P: seq<Vector>)
    requires IsDrawBatch(X)
    requires |r| == X.Length0 && forall i | 0 <= i < |r| :: |r[i]| == 3
    modifies X
    ensures forall i, k | 0 <= i < X.Length0 && 0 <= k < 3 :: Row(X, i, k) == Normalised(old(Row(X, i, k)))
    ensures forall i | 0 <= i < X.Length0 :: IsStrategyMatrix(Sample(X, i))
    ensures |P| == X.Length0 && forall i | 0 <= i < |P| :: |P[i]| == 3 && P[i] == PayoffProbs(Sample(X, i))
    ensures forall i | 0 <= i < |P| :: (2.0 * P[i][0] - 1.0) + (2.0 * P[i][1] - 1.0) + (2.0 * P[i][2] - 1.0) == 0.0
    ensures forall i, k | 0 <= i < |P| && 0 <= k < 3 :: 0.0 <= P[i][k] <= 1.0
    ensures Y == Labels(P, r)
  {
    NormaliseStrategyMatrices(X);
    P := seq(X.Length0, i requires 0 <= i < X.Length0 reads X => PayoffProbs(Sample(X, i)));
    Y := Labels(P, r);
  }
}
