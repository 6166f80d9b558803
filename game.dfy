/**
 The three-player rock-paper-scissors game with special actions: the
 pairwise rule matrices `A01`, `A02`, `A12` and their reverse-order versions,
 the expected score of each player under a strategy matrix (`payoff_probs`),
 and the ±1 labels drawn from those probabilities (`generate_data`).
 */
module Game {
  import opened Linear

  /** Players are numbered 0, 1, 2; actions are 0 (rock), 1 (paper), 2 (scissors). */
  type Player = p: nat | p < 3
  type Action = a: nat | a < 3

  const Rock: Action := 0
  const Paper: Action := 1
  const Scissors: Action := 2

  /** Player 0's special action is rock, player 1's paper, player 2's scissors. */
  function Special(k: Player): Action
  {
    k
  }

  /** The usual cyclic dominance: rock beats scissors, scissors beat paper, paper beats rock. */
  predicate Beats(a: Action, b: Action)
  {
    (a == Rock && b == Scissors) || (a == Scissors && b == Paper) || (a == Paper && b == Rock)
  }

  /**
   The payoff to player `p` playing `a` against player `q` playing `b`:
   different actions follow cyclic dominance; equal actions go to the player
   for whom it is the special action; otherwise a draw.
   */
  function Rule(p: Player, q: Player, a: Action, b: Action): (v: int)
    requires p != q
    ensures -1 <= v <= 1
    ensures a != b ==> v != 0
    ensures v == 0 <==> a == b && a != Special(p) && a != Special(q)
  {
    if a != b then (if Beats(a, b) then 1 else -1)
    else if a == Special(p) then 1
    else if a == Special(q) then -1
    else 0
  }

  /** Between two different actions exactly one beats the other. */
  lemma BeatsIsTournament(a: Action, b: Action)
    requires a != b
    ensures Beats(a, b) != Beats(b, a)
  {
  }

  /** Every encounter is zero-sum: what one player wins the other loses. */
  lemma RuleAntisymmetric(p: Player, q: Player, a: Action, b: Action)
    requires p != q
    ensures Rule(q, p, b, a) == -Rule(p, q, a, b)
  {
    if a != b {
      BeatsIsTournament(a, b);
    }
  }

  /** Rules for player 0 against player 1 (rows: player 0's action). */
  const A01: Matrix := [[1.0, -1.0, 1.0], [1.0, -1.0, -1.0], [-1.0, 1.0, 0.0]]
  /** Rules for player 0 against player 2. */
  const A02: Matrix := [[1.0, -1.0, 1.0], [1.0, 0.0, -1.0], [-1.0, 1.0, -1.0]]
  /** Rules for player 1 against player 2. */
  const A12: Matrix := [[0.0, -1.0, 1.0], [1.0, 1.0, -1.0], [-1.0, 1.0, -1.0]]

  /** The reverse orders are the negated transposes. */
  const A10: Matrix := NegTranspose(A01, 3)
  const A20: Matrix := NegTranspose(A02, 3)
  const A21: Matrix := NegTranspose(A12, 3)

  /** The rule matrix of player `p` against player `q`. */
  function RuleMatrix(p: Player, q: Player): (A: Matrix)
    requires p != q
    ensures IsMatrix(A, 3, 3)
  {
    if p == 0 && q == 1 then A01
    else if p == 0 then A02
    else if p == 1 && q == 2 then A12
    else if p == 1 then A10
    else if q == 0 then A20
    else A21
  }

  /** The three literal matrices agree entry by entry with the rule. */
  lemma ForwardMatricesMatchRule(a: Action, b: Action)
    ensures A01[a][b] == Rule(0, 1, a, b) as real
    ensures A02[a][b] == Rule(0, 2, a, b) as real
    ensures A12[a][b] == Rule(1, 2, a, b) as real
  {
    if a == 0 {
      if b == 0 {} else if b == 1 {} else {}
    } else if a == 1 {
      if b == 0 {} else if b == 1 {} else {}
    } else {
      if b == 0 {} else if b == 1 {} else {}
    }
  }

  /**
   Every rule matrix, forward or reverse, holds the rule's payoff in every
   entry; in particular `A10[j][i] == -A01[i][j]` is player 1's payoff.
   */
  lemma RuleMatrixMatchesRule(p: Player, q: Player, a: Action, b: Action)
    requires p != q
    ensures RuleMatrix(p, q)[a][b] == Rule(p, q, a, b) as real
  {
    ForwardMatricesMatchRule(a, b);
    ForwardMatricesMatchRule(b, a);
    if p > q {
      RuleAntisymmetric(q, p, b, a);
    }
  }

  /** Every rule matrix has entries in {-1, 0, 1}. */
  lemma RuleMatrixEntries(p: Player, q: Player)
    requires p != q
    ensures EntriesInUnitRange(RuleMatrix(p, q))
    ensures forall a: Action, b: Action :: RuleMatrix(p, q)[a][b] in {-1.0, 0.0, 1.0}
  {
    forall a: Action, b: Action
      ensures RuleMatrix(p, q)[a][b] in {-1.0, 0.0, 1.0}
    {
      RuleMatrixMatchesRule(p, q, a, b);
    }
  }

  /** A 3-by-3 matrix whose rows are the three players' strategies. */
  predicate IsStrategyMatrix(X: Matrix)
  {
    IsMatrix(X, 3, 3) && forall k | 0 <= k < 3 :: IsDistribution(X[k])
  }

  /**
   The expected number of wins minus losses of player `k`: its score against
   each of the two others, through the bilinear form of the rule matrix.
   */
  function Score(X: Matrix, k: Player): real
    requires IsMatrix(X, 3, 3)
  {
    var q, r := (k + 1) % 3, (k + 2) % 3;
    Bilinear(X[k], RuleMatrix(k, q), X[q]) + Bilinear(X[k], RuleMatrix(k, r), X[r])
  }

  /**
   The scores `n0`, `n1`, `n2` as `payoff_probs` writes them. They sum to zero
   for every 3-by-3 matrix, and lie in [-2, 2] when the rows are strategies.
   */
  function Scores(X: Matrix): (n: Vector)
    requires IsMatrix(X, 3, 3)
    ensures |n| == 3
    ensures n[0] + n[1] + n[2] == 0.0
    ensures IsStrategyMatrix(X) ==> forall k | 0 <= k < 3 :: -2.0 <= n[k] <= 2.0
  {
    var n0 := Bilinear(X[0], A01, X[1]) + Bilinear(X[0], A02, X[2]);
    var n1 := Bilinear(X[1], A10, X[0]) + Bilinear(X[1], A12, X[2]);
    var n2 := Bilinear(X[2], A20, X[0]) + Bilinear(X[2], A21, X[1]);
    ScoresCancel(X);
    PairScoresBounded(X);
    [n0, n1, n2]
  }

  /** The literal scores are the per-player scores against the two others. */
  lemma ScoresPerPlayer(X: Matrix, k: Player)
    requires IsMatrix(X, 3, 3)
    ensures Scores(X)[k] == Score(X, k)
  {
    if k == 1 {
      assert Score(X, 1) == Bilinear(X[1], A12, X[2]) + Bilinear(X[1], A10, X[0]);
    }
  }

  /** Each pair's two bilinear scores cancel, so the three scores sum to zero. */
  lemma ScoresCancel(X: Matrix)
    requires IsMatrix(X, 3, 3)
    ensures Bilinear(X[1], A10, X[0]) == -Bilinear(X[0], A01, X[1])
    ensures Bilinear(X[2], A20, X[0]) == -Bilinear(X[0], A02, X[2])
    ensures Bilinear(X[2], A21, X[1]) == -Bilinear(X[1], A12, X[2])
  {
    BilinearNegTranspose(X[0], A01, X[1]);
    BilinearNegTranspose(X[0], A02, X[2]);
    BilinearNegTranspose(X[1], A12, X[2]);
  }

  /** Against any one opponent, a strategy scores within [-1, 1]. */
  lemma PairScoresBounded(X: Matrix)
    requires IsMatrix(X, 3, 3)
    ensures IsStrategyMatrix(X) ==> forall p: Player, q: Player | p != q ::
      -1.0 <= Bilinear(X[p], RuleMatrix(p, q), X[q]) <= 1.0
  {
    if IsStrategyMatrix(X) {
      forall p: Player, q: Player | p != q
        ensures -1.0 <= Bilinear(X[p], RuleMatrix(p, q), X[q]) <= 1.0
      {
        RuleMatrixEntries(p, q);
        BilinearBound(X[p], RuleMatrix(p, q), X[q]);
      }
    }
  }

  /**
   `payoff_probs`: the probability `(n_k/2 + 1)/2` that player `k` receives a
   positive payoff. The expectations `2p_k - 1` sum to zero (the game is
   zero-sum) and are `n_k / 2`; for a strategy matrix each `p_k` is a probability.
   */
  function PayoffProbs(X: Matrix): (p: Vector)
    requires IsMatrix(X, 3, 3)
    ensures |p| == 3
    ensures (2.0 * p[0] - 1.0) + (2.0 * p[1] - 1.0) + (2.0 * p[2] - 1.0) == 0.0
    ensures forall k | 0 <= k < 3 :: 2.0 * p[k] - 1.0 == Scores(X)[k] / 2.0
    ensures IsStrategyMatrix(X) ==> forall k | 0 <= k < 3 :: 0.0 <= p[k] <= 1.0
  {
    var n := Scores(X);
    seq(3, k requires 0 <= k < 3 => (n[k] / 2.0 + 1.0) / 2.0)
  }

  /** The strategy that plays action `a` with certainty. */
  function Pure(a: Action): (x: Vector)
    ensures IsDistribution(x)
  {
    var x := seq(3, i requires 0 <= i < 3 => if i == a then 1.0 else 0.0);
    Sum3(x);
    x
  }

  /** The strategy matrix in which player `k` plays `acts[k]` with certainty. */
  function PureProfile(acts: seq<Action>): (X: Matrix)
    requires |acts| == 3
    ensures IsStrategyMatrix(X)
  {
    [Pure(acts[0]), Pure(acts[1]), Pure(acts[2])]
  }

  /** With pure strategies the bilinear form picks out one matrix entry. */
  lemma BilinearPure(a: Action, A: Matrix, b: Action)
    requires IsMatrix(A, 3, 3)
    ensures Bilinear(Pure(a), A, Pure(b)) == A[a][b]
  {
    var m := MatVec(A, Pure(b));
    forall i | 0 <= i < 3
      ensures m[i] == A[i][b]
    {
      Dot3(A[i], Pure(b));
    }
    BilinearAssoc(Pure(a), A, Pure(b));
    Dot3(Pure(a), m);
  }

  /**
   Under pure play each score is the number of players beaten minus the number
   of players lost to, counted with the game's rules.
   */
  lemma PureScore(acts: seq<Action>, k: Player)
    requires |acts| == 3
    ensures Score(PureProfile(acts), k)
         == (Rule(k, (k + 1) % 3, acts[k], acts[(k + 1) % 3]) + Rule(k, (k + 2) % 3, acts[k], acts[(k + 2) % 3])) as real
  {
    var q, r := (k + 1) % 3, (k + 2) % 3;
    BilinearPure(acts[k], RuleMatrix(k, q), acts[q]);
    BilinearPure(acts[k], RuleMatrix(k, r), acts[r]);
    RuleMatrixMatchesRule(k, q, acts[k], acts[q]);
    RuleMatrixMatchesRule(k, r, acts[k], acts[r]);
  }

  /** A player who beats both others is certain of a positive payoff. */
  lemma WinnerTakesAll(acts: seq<Action>, k: Player)
    requires |acts| == 3
    requires Rule(k, (k + 1) % 3, acts[k], acts[(k + 1) % 3]) == 1
    requires Rule(k, (k + 2) % 3, acts[k], acts[(k + 2) % 3]) == 1
    ensures PayoffProbs(PureProfile(acts))[k] == 1.0
  {
    PureScore(acts, k);
    ScoresPerPlayer(PureProfile(acts), k);
  }

  /** A player who loses to both others is certain of a negative payoff. */
  lemma LoserTakesNothing(acts: seq<Action>, k: Player)
    requires |acts| == 3
    requires Rule(k, (k + 1) % 3, acts[k], acts[(k + 1) % 3]) == -1
    requires Rule(k, (k + 2) % 3, acts[k], acts[(k + 2) % 3]) == -1
    ensures PayoffProbs(PureProfile(acts))[k] == 0.0
  {
    PureScore(acts, k);
    ScoresPerPlayer(PureProfile(acts), k);
  }

  /**
   When each player plays their own index (0 rock, 1 paper, 2 scissors) every
   score is zero and every probability one half: `n0 = A01[0][1] + A02[0][2] = 0`.
   */
  lemma IdentityStrategy()
    ensures Scores(PureProfile([0, 1, 2])) == [0.0, 0.0, 0.0]
    ensures PayoffProbs(PureProfile([0, 1, 2])) == [0.5, 0.5, 0.5]
  {
    var acts: seq<Action> := [0, 1, 2];
    var X := PureProfile(acts);
    PureScore(acts, 0);
    PureScore(acts, 1);
    PureScore(acts, 2);
    ScoresPerPlayer(X, 0);
    ScoresPerPlayer(X, 1);
    ScoresPerPlayer(X, 2);
  }

  /** `np.where(P > r, 1, -1)` for one probability and one uniform draw. */
  function Label(p: real, r: real): int
  {
    if p > r then 1 else -1
  }

  /**
   The labels of a data set: one ±1 label per player and sample, +1 exactly
   when the payoff probability exceeds its draw; the shape is that of `P`.
   */
  function Labels(P: seq<Vector>, R: seq<Vector>): (Y: seq<seq<int>>)
    requires |R| == |P| && forall i | 0 <= i < |P| :: |R[i]| == |P[i]|
    ensures |Y| == |P| && forall i | 0 <= i < |P| :: |Y[i]| == |P[i]|
    ensures forall i, k | 0 <= i < |P| && 0 <= k < |P[i]| :: Y[i][k] == 1 || Y[i][k] == -1
    ensures forall i, k | 0 <= i < |P| && 0 <= k < |P[i]| :: Y[i][k] == 1 <==> P[i][k] > R[i][k]
  {
    seq(|P|, i requires 0 <= i < |P| =>
      seq(|P[i]|, k requires 0 <= k < |P[i]| => Label(P[i][k], R[i][k])))
  }

  /**
   A draw `r` uniform on [0, 1) yields +1 exactly on [0, p): a higher
   probability never lowers the label, probability one always gives +1 and
   probability zero always gives -1.
   */
  lemma LabelThreshold(p: real, p': real, r: real)
    requires 0.0 <= r < 1.0
    ensures p <= p' ==> Label(p, r) <= Label(p', r)
    ensures p == 1.0 ==> Label(p, r) == 1
    ensures p == 0.0 ==> Label(p, r) == -1
  {
  }
}
