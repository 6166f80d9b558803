/**
 `model_probs`: the model's three expectation values `<Z_t>`, one per
 player, read out as the two-outcome marginal `(P(win), P(lose))` of each
 player. The expectation values themselves come from simulating the circuit
 and are an input here.
 */
module Marginals {
  import opened Linear
  import opened Game

  /** The marginal of one player: `((1 + e) / 2, (1 - e) / 2)`. */
  function Readout(e: real): (d: Vector)
    ensures |d| == 2
    ensures d[0] + d[1] == 1.0
    ensures d[0] - d[1] == e
  {
    [(1.0 + e) / 2.0, (1.0 - e) / 2.0]
  }

  /** An expectation value of a Pauli Z lies in `[-1, 1]`, and then the read-out is a distribution. */
  lemma ReadoutIsDistribution(e: real)
    ensures IsDistribution(Readout(e)) <==> -1.0 <= e <= 1.0
  {
    var d := Readout(e);
    assert Sum(d) == d[0] + Sum(d[1..]);
    assert Sum(d[1..]) == d[1] + Sum(d[2..]);
  }

  /** The expectation value is recovered from the win probability: the read-out loses nothing. */
  lemma ReadoutRoundTrip(e: real, p: real)
    ensures Readout(e)[0] == p <==> e == 2.0 * p - 1.0
  {
  }

  /**
   The model reproduces the true win probability of player `k` exactly when
   its expectation value equals half that player's expected score.
   */
  lemma ReadoutMatchesPayoff(X: Matrix, k: nat, e: real)
    requires IsMatrix(X, 3, 3) && k < 3
    ensures Readout(e)[0] == PayoffProbs(X)[k] <==> e == Scores(X)[k] / 2.0
  {
    ReadoutRoundTrip(e, PayoffProbs(X)[k]);
  }

  /**
   The true win probabilities of the three players always sum to 3/2; the
   read-out win probabilities do exactly when the three expectation values
   sum to zero, which is what the bias-invariant model keeps.
   */
  lemma WinProbabilitiesSum(X: Matrix, e0: real, e1: real, e2: real)
    requires IsMatrix(X, 3, 3)
    ensures PayoffProbs(X)[0] + PayoffProbs(X)[1] + PayoffProbs(X)[2] == 1.5
    ensures Readout(e0)[0] + Readout(e1)[0] + Readout(e2)[0] == 1.5 <==> e0 + e1 + e2 == 0.0
  {
  }

  /**
   `model_probs(model, X_test, weights)` given `expvals = model(weights, X_test)`
   as an `N`-by-3 array: a fresh `N`-by-3-by-2 array, filled one player
   column `t` at a time for every sample at once.
   */
  method ModelProbs(expvals: array2<real>) returns (probs: array3<real>)
    requires expvals.Length1 == 3
    ensures fresh(probs)
    ensures probs.Length0 == expvals.Length0 && probs.Length1 == 3 && probs.Length2 == 2
    ensures forall i, t | 0 <= i < probs.Length0 && 0 <= t < 3 ::
      probs[i, t, 0] == Readout(expvals[i, t])[0] && probs[i, t, 1] == Readout(expvals[i, t])[1]
  {
    probs := new real[expvals.Length0, 3, 2]((i, t, k) => 0.0);
    for t := 0 to 3
      invariant forall i, u | 0 <= i < probs.Length0 && 0 <= u < t ::
        probs[i, u, 0] == Readout(expvals[i, u])[0] && probs[i, u, 1] == Readout(expvals[i, u])[1]
    {
      forall i | 0 <= i < probs.Length0 {
        probs[i, t, 0] := (1.0 + expvals[i, t]) / 2.0;
      }
      forall i | 0 <= i < probs.Length0 {
        probs[i, t, 1] := (1.0 - expvals[i, t]) / 2.0;
      }
    }
  }
}
