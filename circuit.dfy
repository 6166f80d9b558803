/**
 The structure of the three-qubit model as a list of gate descriptors: the
 input preparation, the trainable bias-invariant unitary (`param_unitary`,
 built from `swap_rot`), the two data encodings, and the fixed schedule in
 which `bias_inv_layer` strings them together. Only which gates are emitted,
 on which wires and with which angles is modelled, not what they compute.
 */
module Circuit {
  import opened Linear

  /** `np.pi`, the double closest to π. */
  const Pi: real := 3.141592653589793

  /** The hyperparameters as the demo fixes them. */
  const DefaultBlocks: nat := 1
  const DefaultLayers: nat := 2

  /** Two-qubit Pauli words used with `qml.PauliRot`. */
  datatype Pauli = XX | YY | ZZ

  /**
   One recorded operation. `StronglyEntangling(l)` stands for the library
   template applied to `weights[l]` on all three wires in the generic model.
   */
  datatype Gate =
    | Hadamard(wire: nat)
    | RY(angle: real, wire: nat)
    | RZ(angle: real, wire: nat)
    | PauliRot(angle: real, word: Pauli, first: nat, second: nat)
    | StronglyEntangling(layer: nat)

  /** `swap_rot`: the XX, YY and ZZ rotations by one angle on one pair of wires. */
  function SwapRotGates(theta: real, w0: nat, w1: nat): seq<Gate>
  {
    [PauliRot(theta, XX, w0, w1), PauliRot(theta, YY, w0, w1), PauliRot(theta, ZZ, w0, w1)]
  }

  /** Which of a block's nine weights gate `t` of the block reads. */
  function Slot(t: nat): nat
  {
    if t < 6 then t else 6 + (t - 6) / 3
  }

  /** One block of `param_unitary`, reading the nine weights `w`. */
  function BlockGates(w: Vector): (g: seq<Gate>)
    requires |w| == 9
    ensures |g| == 15
  {
    [RZ(w[0], 0), RZ(w[1], 1), RZ(w[2], 2),
     PauliRot(w[3], ZZ, 0, 1), PauliRot(w[4], ZZ, 0, 2), PauliRot(w[5], ZZ, 1, 2)]
    + SwapRotGates(w[6], 0, 1) + SwapRotGates(w[7], 1, 2) + SwapRotGates(w[8], 0, 2)
  }

  /** A weight slab of shape `(blocks, 9)`. */
  predicate IsBlockWeights(W: seq<Vector>)
  {
    forall b | 0 <= b < |W| :: |W[b]| == 9
  }

  /** `param_unitary(weights)`: the blocks one after another, in block order. */
  function ParamUnitaryGates(W: seq<Vector>): seq<Gate>
    requires IsBlockWeights(W)
  {
    if |W| == 0 then [] else ParamUnitaryGates(W[..|W| - 1]) + BlockGates(W[|W| - 1])
  }

  /** `data_encoding(x)`: one RZ per wire. */
  function DataEncodingGates(x: Vector): seq<Gate>
    requires |x| == 3
  {
    [RZ(x[0], 0), RZ(x[1], 1), RZ(x[2], 2)]
  }

  /** `data_encoding_pairs(x)`: one ZZ rotation per pair, by the product of the pair's features. */
  function DataEncodingPairsGates(x: Vector): seq<Gate>
    requires |x| == 3
  {
    [PauliRot(x[0] * x[1], ZZ, 0, 1), PauliRot(x[1] * x[2], ZZ, 1, 2), PauliRot(x[0] * x[2], ZZ, 0, 2)]
  }

  /** `input_prep(alpha)`: Hadamards on all wires, then RY by alpha and by alpha + π. */
  function InputPrepGates(alpha: real): seq<Gate>
  {
    [Hadamard(0), Hadamard(1), Hadamard(2), RY(alpha, 0), RY(alpha + Pi, 1)]
  }

  // ---------------------------------------------------------------------
  // Preprocessing shared by `bias_inv_layer` and `generic_layer`

  /** `x1`: the diagonal, each player's probability of their special action. */
  function DiagonalFeatures(x: Matrix): (x1: Vector)
    requires IsMatrix(x, 3, 3)
    ensures |x1| == 3
  {
    [x[0][0], x[1][1], x[2][2]]
  }

  /** `x2`: in each row, the next player's special action minus the one after. */
  function PairFeatures(x: Matrix): (x2: Vector)
    requires IsMatrix(x, 3, 3)
    ensures |x2| == 3
  {
    [x[0][1] - x[0][2], x[1][2] - x[1][0], x[2][0] - x[2][1]]
  }

  /** Rebuild a matrix whose rows each sum to `s` from its two feature vectors. */
  function FromFeatures(x1: Vector, x2: Vector, s: real): (x: Matrix)
    requires |x1| == 3 && |x2| == 3
    ensures IsMatrix(x, 3, 3)
  {
    seq(3, k requires 0 <= k < 3 =>
      seq(3, j requires 0 <= j < 3 =>
        if j == k then x1[k]
        else if j == (k + 1) % 3 then (s - x1[k] + x2[k]) / 2.0
        else (s - x1[k] - x2[k]) / 2.0))
  }

  /** Every row of `x` sums to `s` (one for a strategy matrix, π/2 once scaled). */
  predicate RowsSumTo(x: Matrix, s: real)
  {
    IsMatrix(x, 3, 3) && forall k | 0 <= k < 3 :: Sum(x[k]) == s
  }

  /** The preprocessing loses nothing: the features and the row sum give back the matrix. */
  lemma FeaturesRoundTrip(x: Matrix, s: real)
    requires RowsSumTo(x, s)
    ensures FromFeatures(DiagonalFeatures(x), PairFeatures(x), s) == x
  {
    var y := FromFeatures(DiagonalFeatures(x), PairFeatures(x), s);
    forall k | 0 <= k < 3
      ensures y[k] == x[k]
    {
      Sum3(x[k]);
    }
  }

  // ---------------------------------------------------------------------
  // Bias invariance as a property of the gate list

  /** A rotation whose generator commutes with Z0 + Z1 + Z2 on its own: RZ or ZZ. */
  predicate IsZRotation(g: Gate)
  {
    g.RZ? || (g.PauliRot? && g.word == ZZ)
  }

  /** Three gates forming one `swap_rot`: XX, YY, ZZ with one angle on two distinct wires. */
  predicate IsSwapRot(g: seq<Gate>)
  {
    && |g| == 3 && g[0].PauliRot? && g[0].word == XX && g[0].first != g[0].second
    && g[1] == g[0].(word := YY) && g[2] == g[0].(word := ZZ)
  }

  /**
   The list splits into Z rotations (RZ, ZZ), whose generators commute with
   Z0 + Z1 + Z2, and whole `swap_rot` triples, whose combined generator
   XX + YY + ZZ does. A lone XX or YY rotation does not.
   */
  predicate BiasInvariant(g: seq<Gate>)
    decreases |g|
  {
    |g| == 0
    || (IsZRotation(g[0]) && BiasInvariant(g[1..]))
    || (|g| >= 3 && IsSwapRot(g[..3]) && BiasInvariant(g[3..]))
  }

  /** A Z rotation in front of an invariant list. */
  lemma ZRotationAppend(a: seq<Gate>, b: seq<Gate>)
    requires |a| > 0 && IsZRotation(a[0]) && BiasInvariant(a[1..] + b)
    ensures BiasInvariant(a + b)
  {
    assert (a + b)[1..] == a[1..] + b;
  }

  /** A `swap_rot` triple in front of an invariant list. */
  lemma SwapRotAppend(a: seq<Gate>, b: seq<Gate>)
    requires |a| >= 3 && IsSwapRot(a[..3]) && BiasInvariant(a[3..] + b)
    ensures BiasInvariant(a + b)
  {
    assert (a + b)[..3] == a[..3];
    assert (a + b)[3..] == a[3..] + b;
  }

  lemma {:induction false} BiasInvariantAppend(a: seq<Gate>, b: seq<Gate>)
    requires BiasInvariant(a) && BiasInvariant(b)
    ensures BiasInvariant(a + b)
    decreases |a|
  {
    if |a| == 0 {
      assert a + b == b;
    } else if IsZRotation(a[0]) && BiasInvariant(a[1..]) {
      BiasInvariantAppend(a[1..], b);
      ZRotationAppend(a, b);
    } else {
      BiasInvariantAppend(a[3..], b);
      SwapRotAppend(a, b);
    }
  }

  lemma SwapRotIsBiasInvariant(theta: real, w0: nat, w1: nat)
    requires w0 != w1
    ensures BiasInvariant(SwapRotGates(theta, w0, w1))
  {
    var g := SwapRotGates(theta, w0, w1);
    assert g[..3] == g;
    assert BiasInvariant(g[3..]);
  }

  /** A list of Z rotations only. */
  lemma {:induction false} ZRotationsAreBiasInvariant(g: seq<Gate>)
    requires forall i | 0 <= i < |g| :: IsZRotation(g[i])
    ensures BiasInvariant(g)
    decreases |g|
  {
    if |g| > 0 {
      ZRotationsAreBiasInvariant(g[1..]);
    }
  }

  lemma BlockIsBiasInvariant(w: Vector)
    requires |w| == 9
    ensures BiasInvariant(BlockGates(w))
  {
    var head := [RZ(w[0], 0), RZ(w[1], 1), RZ(w[2], 2),
                 PauliRot(w[3], ZZ, 0, 1), PauliRot(w[4], ZZ, 0, 2), PauliRot(w[5], ZZ, 1, 2)];
    ZRotationsAreBiasInvariant(head);
    SwapRotIsBiasInvariant(w[6], 0, 1);
    SwapRotIsBiasInvariant(w[7], 1, 2);
    SwapRotIsBiasInvariant(w[8], 0, 2);
    BiasInvariantAppend(head, SwapRotGates(w[6], 0, 1));
    BiasInvariantAppend(head + SwapRotGates(w[6], 0, 1), SwapRotGates(w[7], 1, 2));
    BiasInvariantAppend(head + SwapRotGates(w[6], 0, 1) + SwapRotGates(w[7], 1, 2), SwapRotGates(w[8], 0, 2));
  }

  /** `param_unitary` emits only RZ and ZZ rotations and whole `swap_rot` triples, for every weight value. */
  lemma {:induction false} ParamUnitaryIsBiasInvariant(W: seq<Vector>)
    requires IsBlockWeights(W)
    ensures BiasInvariant(ParamUnitaryGates(W))
  {
    if |W| > 0 {
      ParamUnitaryIsBiasInvariant(W[..|W| - 1]);
      BlockIsBiasInvariant(W[|W| - 1]);
      BiasInvariantAppend(ParamUnitaryGates(W[..|W| - 1]), BlockGates(W[|W| - 1]));
    }
  }

  lemma DataEncodingsAreBiasInvariant(x: Vector)
    requires |x| == 3
    ensures BiasInvariant(DataEncodingGates(x))
    ensures BiasInvariant(DataEncodingPairsGates(x))
  {
    ZRotationsAreBiasInvariant(DataEncodingGates(x));
    ZRotationsAreBiasInvariant(DataEncodingPairsGates(x));
  }

  // ---------------------------------------------------------------------
  // Weight consumption of `param_unitary`

  /** Gate `t` of a block reads the block's weight `Slot(t)`: slots 0-5 once, 6-8 by one `swap_rot` each. */
  lemma BlockReadsSlots(w: Vector, t: nat)
    requires |w| == 9 && t < 15
    ensures !BlockGates(w)[t].Hadamard? && !BlockGates(w)[t].StronglyEntangling?
    ensures BlockGates(w)[t].angle == w[Slot(t)]
  {
  }

  /** `param_unitary` emits 15 gates per block. */
  lemma {:induction false} ParamUnitaryLength(W: seq<Vector>)
    requires IsBlockWeights(W)
    ensures |ParamUnitaryGates(W)| == 15 * |W|
  {
    if |W| > 0 {
      ParamUnitaryLength(W[..|W| - 1]);
    }
  }

  /** Block `b` occupies positions `15b .. 15b + 14`, so the blocks come in block order. */
  lemma {:induction false} ParamUnitaryAt(W: seq<Vector>, b: nat, t: nat)
    requires IsBlockWeights(W) && b < |W| && t < 15
    ensures |ParamUnitaryGates(W)| == 15 * |W|
    ensures ParamUnitaryGates(W)[15 * b + t] == BlockGates(W[b])[t]
  {
    var V := W[..|W| - 1];
    ParamUnitarySnoc(W);
    ParamUnitaryLength(V);
    var prefix := ParamUnitaryGates(V);
    if b < |V| {
      ParamUnitaryAt(V, b, t);
      assert ParamUnitaryGates(W)[15 * b + t] == prefix[15 * b + t];
      assert W[b] == V[b];
    } else {
      assert 15 * b + t == |prefix| + t;
    }
  }

  /** `param_unitary` on a slab is its first blocks followed by the last block. */
  lemma ParamUnitarySnoc(W: seq<Vector>)
    requires IsBlockWeights(W) && |W| > 0
    ensures IsBlockWeights(W[..|W| - 1])
    ensures |ParamUnitaryGates(W)| == 15 * |W|
    ensures ParamUnitaryGates(W) == ParamUnitaryGates(W[..|W| - 1]) + BlockGates(W[|W| - 1])
  {
    ParamUnitaryLength(W);
  }

  /** Each weight `W[b][s]` of a slab is the angle of some gate `param_unitary` emits. */
  lemma ParamUnitaryReadsEveryWeight(W: seq<Vector>, b: nat, s: nat)
    requires IsBlockWeights(W) && b < |W| && s < 9
    ensures 15 * b + 14 < |ParamUnitaryGates(W)|
    ensures var g := ParamUnitaryGates(W)[15 * b + (if s < 6 then s else 6 + 3 * (s - 6))];
            (g.RZ? || g.PauliRot?) && g.angle == W[b][s]
  {
    var t := if s < 6 then s else 6 + 3 * (s - 6);
    ParamUnitaryAt(W, b, t);
    BlockReadsSlots(W[b], t);
    assert Slot(t) == s;
  }

  // ---------------------------------------------------------------------
  // The schedule of `bias_inv_layer` and `generic_layer`

  /** One call in a layer schedule. */
  datatype Step = Trainable(index: nat) | EncodeSingles | EncodePairs

  /** The first `m` iterations of `for l in range(0, 2*layers, 2)`. */
  function LoopSteps(m: nat): (s: seq<Step>)
    ensures |s| == 4 * m
  {
    if m == 0 then []
    else LoopSteps(m - 1) + [Trainable(2 * (m - 1)), EncodeSingles, Trainable(2 * (m - 1) + 1), EncodePairs]
  }

  /** The whole schedule: the loop, then the final trainable call on `weights[2*layers]`. */
  function Schedule(layers: nat): seq<Step>
  {
    LoopSteps(layers) + [Trainable(2 * layers)]
  }

  /**
   The loop's steps in closed form: trainable calls at the even positions on
   `weights[0], weights[1], ...` in order, single-qubit encodings at positions
   1 mod 4 and pair encodings at positions 3 mod 4.
   */
  lemma {:induction false} LoopStepsLayout(m: nat)
    ensures forall i | 0 <= i < 4 * m ::
      && (i % 2 == 0 ==> LoopSteps(m)[i] == Trainable(i / 2))
      && (i % 4 == 1 ==> LoopSteps(m)[i] == EncodeSingles)
      && (i % 4 == 3 ==> LoopSteps(m)[i] == EncodePairs)
  {
    if m > 0 {
      LoopStepsLayout(m - 1);
    }
  }

  /** Position `i` of the loop's steps, from the closed form. */
  lemma LoopStepAt(m: nat, i: nat)
    requires i < 4 * m
    ensures i % 2 == 0 ==> LoopSteps(m)[i] == Trainable(i / 2)
    ensures i % 4 == 1 ==> LoopSteps(m)[i] == EncodeSingles
    ensures i % 4 == 3 ==> LoopSteps(m)[i] == EncodePairs
  {
    LoopStepsLayout(m);
  }

  /** Position `i` of the schedule: the loop's layout, or the final trainable call at `4*layers`. */
  lemma ScheduleAt(layers: nat, i: nat)
    requires i < 4 * layers + 1
    ensures |Schedule(layers)| == 4 * layers + 1
    ensures i % 2 == 0 ==> Schedule(layers)[i] == Trainable(i / 2)
    ensures i % 4 == 1 ==> Schedule(layers)[i] == EncodeSingles
    ensures i % 4 == 3 ==> Schedule(layers)[i] == EncodePairs
    ensures Schedule(layers)[i].Trainable? ==> Schedule(layers)[i].index <= 2 * layers
  {
    var loop := LoopSteps(layers);
    assert Schedule(layers) == loop + [Trainable(2 * layers)];
    PositionArithmetic(i, layers);
    if i < 4 * layers {
      LoopStepAt(layers, i);
      assert Schedule(layers)[i] == loop[i];
    } else {
      assert Schedule(layers)[i] == Trainable(2 * layers);
    }
  }

  /** Positions up to `4*n`: even, or 1 or 3 modulo 4; halved, at most `2*n`; `4*n` itself is even. */
  lemma PositionArithmetic(i: nat, n: nat)
    requires i <= 4 * n
    ensures i % 2 == 0 || i % 4 == 1 || i % 4 == 3
    ensures i / 2 <= 2 * n
    ensures i == 4 * n ==> i % 2 == 0 && i % 4 == 0 && i / 2 == 2 * n
  {
  }

  /**
   `bias_inv_layer` calls the trainable unitary on `weights[0..2*layers]`,
   each exactly once and in increasing order, alternately followed by the
   single and the pair encoding; `weights[2*layers+1]` is never used here.
   */
  lemma ScheduleLayout(layers: nat)
    ensures |Schedule(layers)| == 4 * layers + 1
    ensures forall i | 0 <= i < |Schedule(layers)| ::
      && (i % 2 == 0 ==> Schedule(layers)[i] == Trainable(i / 2))
      && (i % 4 == 1 ==> Schedule(layers)[i] == EncodeSingles)
      && (i % 4 == 3 ==> Schedule(layers)[i] == EncodePairs)
    ensures forall i | 0 <= i < |Schedule(layers)| :: Schedule(layers)[i].Trainable? ==> Schedule(layers)[i].index <= 2 * layers
  {
    forall i | 0 <= i < |Schedule(layers)|
      ensures i % 2 == 0 ==> Schedule(layers)[i] == Trainable(i / 2)
      ensures i % 4 == 1 ==> Schedule(layers)[i] == EncodeSingles
      ensures i % 4 == 3 ==> Schedule(layers)[i] == EncodePairs
      ensures Schedule(layers)[i].Trainable? ==> Schedule(layers)[i].index <= 2 * layers
    {
      ScheduleAt(layers, i);
    }
  }

  /**
   How many weight slabs each model takes: `2*layers + 2` for the
   bias-invariant model, whose last slab holds alpha, and `2*layers + 1` for
   the generic one.
   */
  function SlabCount(a: Ansatz, layers: nat): nat
  {
    if a == BiasInvariantAnsatz then 2 * layers + 2 else 2 * layers + 1
  }

  /**
   A weight tensor of shape `(SlabCount, blocks, 9)`; a generic slab of shape
   `(blocks, 3, 3)` is read with each block flattened to nine entries.
   */
  predicate IsLayerWeights(a: Ansatz, W: seq<seq<Vector>>, layers: nat, blocks: nat)
  {
    |W| == SlabCount(a, layers) && forall l | 0 <= l < |W| :: |W[l]| == blocks && IsBlockWeights(W[l])
  }

  /** The weights of the bias-invariant model, shape `(2*layers + 2, blocks, 9)`. */
  predicate IsModelWeights(W: seq<seq<Vector>>, layers: nat, blocks: nat)
  {
    IsLayerWeights(BiasInvariantAnsatz, W, layers, blocks)
  }

  /** Every trainable index in `steps` names a slab of `W`. */
  predicate StepsFit(steps: seq<Step>, W: seq<seq<Vector>>)
  {
    forall i | 0 <= i < |steps| :: steps[i].Trainable? ==> steps[i].index < |W| && IsBlockWeights(W[steps[i].index])
  }

  /** The two ansätze: the bias-invariant one and the generic baseline. */
  datatype Ansatz = BiasInvariantAnsatz | GenericAnsatz

  /**
   The trainable call on `weights[l]`: `param_unitary` in the bias-invariant
   ansatz, the library's entangling template in the generic one.
   */
  function TrainableGates(a: Ansatz, W: seq<seq<Vector>>, l: nat): seq<Gate>
    requires l < |W| && IsBlockWeights(W[l])
  {
    if a == BiasInvariantAnsatz then ParamUnitaryGates(W[l]) else [StronglyEntangling(l)]
  }

  /** The gates one step of a schedule emits. */
  function StepGates(a: Ansatz, s: Step, W: seq<seq<Vector>>, x1: Vector, x2: Vector): seq<Gate>
    requires |x1| == 3 && |x2| == 3
    requires s.Trainable? ==> s.index < |W| && IsBlockWeights(W[s.index])
  {
    match s
    case Trainable(l) => TrainableGates(a, W, l)
    case EncodeSingles => DataEncodingGates(x1)
    case EncodePairs => DataEncodingPairsGates(x2)
  }

  /** The gates a schedule emits, step after step. */
  function Expand(a: Ansatz, steps: seq<Step>, W: seq<seq<Vector>>, x1: Vector, x2: Vector): seq<Gate>
    requires |x1| == 3 && |x2| == 3 && StepsFit(steps, W)
  {
    if |steps| == 0 then []
    else Expand(a, steps[..|steps| - 1], W, x1, x2) + StepGates(a, steps[|steps| - 1], W, x1, x2)
  }

  /** A schedule whose trainable indices stay within `2*layers + 1` slabs fits the weights. */
  lemma ScheduleFits(a: Ansatz, layers: nat, blocks: nat, W: seq<seq<Vector>>)
    requires IsLayerWeights(a, W, layers, blocks)
    ensures StepsFit(Schedule(layers), W)
    ensures StepsFit(LoopSteps(layers), W)
  {
    var s := Schedule(layers);
    forall i | 0 <= i < |s|
      ensures s[i].Trainable? ==> s[i].index < |W| && IsBlockWeights(W[s[i].index])
    {
      ScheduleAt(layers, i);
    }
    LoopStepsFit(a, layers, layers, blocks, W);
  }

  /** `bias_inv_layer(weights, x)` (or `generic_layer`) as the list of gates it emits. */
  function LayerGates(a: Ansatz, W: seq<seq<Vector>>, x: Matrix, layers: nat, blocks: nat): seq<Gate>
    requires IsLayerWeights(a, W, layers, blocks) && IsMatrix(x, 3, 3)
  {
    ScheduleFits(a, layers, blocks, W);
    Expand(a, Schedule(layers), W, DiagonalFeatures(x), PairFeatures(x))
  }

  lemma {:induction false} ExpandIsBiasInvariant(steps: seq<Step>, W: seq<seq<Vector>>, x1: Vector, x2: Vector)
    requires |x1| == 3 && |x2| == 3 && StepsFit(steps, W)
    ensures BiasInvariant(Expand(BiasInvariantAnsatz, steps, W, x1, x2))
    decreases |steps|
  {
    if |steps| > 0 {
      var init := steps[..|steps| - 1];
      var last := steps[|steps| - 1];
      ExpandIsBiasInvariant(init, W, x1, x2);
      if last.Trainable? {
        ParamUnitaryIsBiasInvariant(W[last.index]);
      } else {
        DataEncodingsAreBiasInvariant(x1);
        DataEncodingsAreBiasInvariant(x2);
      }
      BiasInvariantAppend(Expand(BiasInvariantAnsatz, init, W, x1, x2), StepGates(BiasInvariantAnsatz, last, W, x1, x2));
    }
  }

  /**
   The bias-invariant layer emits only RZ, ZZ and whole `swap_rot` gates, for
   every weight tensor and every input: every gate is an RZ or a ZZ, whose
   generator commutes with Z0 + Z1 + Z2, or part of a whole `swap_rot` triple,
   whose combined generator XX + YY + ZZ does.
   */
  lemma BiasInvLayerIsBiasInvariant(W: seq<seq<Vector>>, x: Matrix, layers: nat, blocks: nat)
    requires IsModelWeights(W, layers, blocks) && IsMatrix(x, 3, 3)
    ensures BiasInvariant(LayerGates(BiasInvariantAnsatz, W, x, layers, blocks))
  {
    ScheduleFits(BiasInvariantAnsatz, layers, blocks, W);
    ExpandIsBiasInvariant(Schedule(layers), W, DiagonalFeatures(x), PairFeatures(x));
  }

  /** `weights[2*layers+1, 0][0]`: the input-preparation angle alpha. */
  function Alpha(W: seq<seq<Vector>>, layers: nat, blocks: nat): real
    requires IsModelWeights(W, layers, blocks) && blocks >= 1
  {
    W[2 * layers + 1][0][0]
  }

  /** `model(weights, x)` as a gate list: input preparation, then the bias-invariant layer. */
  function ModelGates(W: seq<seq<Vector>>, x: Matrix, layers: nat, blocks: nat): seq<Gate>
    requires IsModelWeights(W, layers, blocks) && blocks >= 1 && IsMatrix(x, 3, 3)
  {
    InputPrepGates(Alpha(W, layers, blocks)) + LayerGates(BiasInvariantAnsatz, W, x, layers, blocks)
  }

  /**
   The model circuit opens with the five input-preparation gates driven by
   alpha, the two RY angles differing by exactly π; every gate after them is
   an RZ, a ZZ or part of a whole `swap_rot` triple.
   */
  lemma ModelStructure(W: seq<seq<Vector>>, x: Matrix, layers: nat, blocks: nat)
    requires IsModelWeights(W, layers, blocks) && blocks >= 1 && IsMatrix(x, 3, 3)
    ensures |ModelGates(W, x, layers, blocks)| >= 5
    ensures ModelGates(W, x, layers, blocks)[3] == RY(W[2 * layers + 1][0][0], 0)
    ensures ModelGates(W, x, layers, blocks)[4].RY? && ModelGates(W, x, layers, blocks)[4].wire == 1
    ensures ModelGates(W, x, layers, blocks)[4].angle - ModelGates(W, x, layers, blocks)[3].angle == Pi
    ensures BiasInvariant(ModelGates(W, x, layers, blocks)[5..])
  {
    BiasInvLayerIsBiasInvariant(W, x, layers, blocks);
    assert ModelGates(W, x, layers, blocks)[5..] == LayerGates(BiasInvariantAnsatz, W, x, layers, blocks);
  }

  lemma ExpandSnoc(a: Ansatz, steps: seq<Step>, s: Step, W: seq<seq<Vector>>, x1: Vector, x2: Vector)
    requires |x1| == 3 && |x2| == 3 && StepsFit(steps, W)
    requires s.Trainable? ==> s.index < |W| && IsBlockWeights(W[s.index])
    ensures StepsFit(steps + [s], W)
    ensures Expand(a, steps + [s], W, x1, x2) == Expand(a, steps, W, x1, x2) + StepGates(a, s, W, x1, x2)
  {
    assert StepsFit(steps + [s], W) by {
      forall i | 0 <= i < |steps| + 1
        ensures (steps + [s])[i] == if i < |steps| then steps[i] else s
      {
      }
    }
    assert (steps + [s])[..|steps|] == steps;
  }

  /** One trainable call emits `15 * blocks` gates, an encoding three. */
  lemma StepGateCount(s: Step, W: seq<seq<Vector>>, x1: Vector, x2: Vector, blocks: nat)
    requires |x1| == 3 && |x2| == 3
    requires s.Trainable? ==> s.index < |W| && |W[s.index]| == blocks && IsBlockWeights(W[s.index])
    ensures |StepGates(BiasInvariantAnsatz, s, W, x1, x2)| == if s.Trainable? then 15 * blocks else 3
  {
    if s.Trainable? {
      ParamUnitaryLength(W[s.index]);
    }
  }

  /** One loop iteration adds `30 * blocks + 6` gates. */
  lemma IterationGateCount(s0: seq<Step>, l: nat, blocks: nat, W: seq<seq<Vector>>, x1: Vector, x2: Vector)
    requires |x1| == 3 && |x2| == 3 && StepsFit(s0, W)
    requires l + 1 < |W| && |W[l]| == blocks && |W[l + 1]| == blocks
    requires IsBlockWeights(W[l]) && IsBlockWeights(W[l + 1])
    ensures StepsFit(s0 + [Trainable(l), EncodeSingles, Trainable(l + 1), EncodePairs], W)
    ensures |Expand(BiasInvariantAnsatz, s0 + [Trainable(l), EncodeSingles, Trainable(l + 1), EncodePairs], W, x1, x2)|
         == |Expand(BiasInvariantAnsatz, s0, W, x1, x2)| + 30 * blocks + 6
  {
    PassExpand(BiasInvariantAnsatz, s0, l, W, x1, x2);
    ParamUnitaryLength(W[l]);
    ParamUnitaryLength(W[l + 1]);
  }

  /** `m * c` by repeated addition, so that counting stays linear. */
  function Times(m: nat, c: nat): nat
  {
    if m == 0 then 0 else Times(m - 1, c) + c
  }

  lemma {:induction false} TimesIsProduct(m: nat, c: nat)
    ensures Times(m, c) == m * c
  {
    if m > 0 {
      TimesIsProduct(m - 1, c);
    }
  }

  lemma LoopStepsFit(a: Ansatz, m: nat, layers: nat, blocks: nat, W: seq<seq<Vector>>)
    requires m <= layers && IsLayerWeights(a, W, layers, blocks)
    ensures StepsFit(LoopSteps(m), W)
  {
    LoopStepsLayout(m);
  }

  /** The first `m` loop iterations emit `m * (30 * blocks + 6)` gates. */
  lemma {:induction false} LoopGateCount(m: nat, layers: nat, blocks: nat, W: seq<seq<Vector>>, x1: Vector, x2: Vector)
    requires m <= layers && IsModelWeights(W, layers, blocks) && |x1| == 3 && |x2| == 3
    requires StepsFit(LoopSteps(m), W)
    ensures |Expand(BiasInvariantAnsatz, LoopSteps(m), W, x1, x2)| == Times(m, 30 * blocks + 6)
  {
    if m > 0 {
      var l := 2 * (m - 1);
      var prev := LoopSteps(m - 1);
      assert LoopSteps(m) == prev + [Trainable(l), EncodeSingles, Trainable(l + 1), EncodePairs];
      LoopStepsFit(BiasInvariantAnsatz, m - 1, layers, blocks, W);
      LoopGateCount(m - 1, layers, blocks, W, x1, x2);
      IterationGateCount(prev, l, blocks, W, x1, x2);
    }
  }

  lemma LayerCountArithmetic(layers: nat, blocks: nat)
    ensures (2 * layers + 1) * 15 * blocks + 6 * layers == Times(layers, 30 * blocks + 6) + 15 * blocks
  {
    TimesIsProduct(layers, 30 * blocks + 6);
  }

  /**
   The bias-invariant layer emits `(2*layers + 1) * 15 * blocks + 6 * layers`
   gates: 87 with the demo's one block and two layers.
   */
  lemma LayerGateCount(W: seq<seq<Vector>>, x: Matrix, layers: nat, blocks: nat)
    requires IsModelWeights(W, layers, blocks) && IsMatrix(x, 3, 3)
    ensures |LayerGates(BiasInvariantAnsatz, W, x, layers, blocks)| == (2 * layers + 1) * 15 * blocks + 6 * layers
  {
    var x1, x2 := DiagonalFeatures(x), PairFeatures(x);
    ScheduleFits(BiasInvariantAnsatz, layers, blocks, W);
    LoopStepsFit(BiasInvariantAnsatz, layers, layers, blocks, W);
    LoopGateCount(layers, layers, blocks, W, x1, x2);
    ExpandSnoc(BiasInvariantAnsatz, LoopSteps(layers), Trainable(2 * layers), W, x1, x2);
    StepGateCount(Trainable(2 * layers), W, x1, x2, blocks);
    assert LayerGates(BiasInvariantAnsatz, W, x, layers, blocks)
        == Expand(BiasInvariantAnsatz, LoopSteps(layers), W, x1, x2) + StepGates(BiasInvariantAnsatz, Trainable(2 * layers), W, x1, x2);
    LayerCountArithmetic(layers, blocks);
  }

  // ---------------------------------------------------------------------
  // The layer loop pass by pass

  /** The schedule of `m + 1` passes extends that of `m` by the four calls of pass `m`. */
  lemma NextPass(m: nat)
    ensures LoopSteps(m + 1) == LoopSteps(m) + [Trainable(2 * m), EncodeSingles, Trainable(2 * m + 1), EncodePairs]
  {
  }

  /** Four steps appended to a schedule emit one pass of the loop. */
  lemma PassExpand(a: Ansatz, s0: seq<Step>, l: nat, W: seq<seq<Vector>>, x1: Vector, x2: Vector)
    requires |x1| == 3 && |x2| == 3 && StepsFit(s0, W)
    requires l + 1 < |W| && IsBlockWeights(W[l]) && IsBlockWeights(W[l + 1])
    ensures StepsFit(s0 + [Trainable(l), EncodeSingles, Trainable(l + 1), EncodePairs], W)
    ensures Expand(a, s0 + [Trainable(l), EncodeSingles, Trainable(l + 1), EncodePairs], W, x1, x2)
         == Expand(a, s0, W, x1, x2)
            + TrainableGates(a, W, l) + DataEncodingGates(x1) + TrainableGates(a, W, l + 1) + DataEncodingPairsGates(x2)
  {
    var t0, t1 := Trainable(l), Trainable(l + 1);
    var s1 := s0 + [t0];
    var s2 := s1 + [EncodeSingles];
    var s3 := s2 + [t1];
    assert s0 + [t0, EncodeSingles, t1, EncodePairs] == s3 + [EncodePairs];
    ExpandSnoc(a, s0, t0, W, x1, x2);
    ExpandSnoc(a, s1, EncodeSingles, W, x1, x2);
    ExpandSnoc(a, s2, t1, W, x1, x2);
    ExpandSnoc(a, s3, EncodePairs, W, x1, x2);
  }

  /**
   Pass `m` of the loop of a layer, with `l = 2*m`: the trainable call on
   `weights[l]`, the single encoding, the trainable call on `weights[l+1]`
   and the pair encoding, appended to what the first `m` passes emit.
   */
  lemma LoopPass(a: Ansatz, W: seq<seq<Vector>>, x1: Vector, x2: Vector, m: nat)
    requires |x1| == 3 && |x2| == 3 && StepsFit(LoopSteps(m), W)
    requires 2 * m + 1 < |W| && IsBlockWeights(W[2 * m]) && IsBlockWeights(W[2 * m + 1])
    ensures StepsFit(LoopSteps(m + 1), W)
    ensures Expand(a, LoopSteps(m + 1), W, x1, x2)
         == Expand(a, LoopSteps(m), W, x1, x2)
            + TrainableGates(a, W, 2 * m) + DataEncodingGates(x1) + TrainableGates(a, W, 2 * m + 1) + DataEncodingPairsGates(x2)
  {
    NextPass(m);
    PassExpand(a, LoopSteps(m), 2 * m, W, x1, x2);
  }

  /** Pass `m < layers` of a layer reads the slabs `2*m` and `2*m + 1`, both present. */
  lemma PassFits(a: Ansatz, W: seq<seq<Vector>>, m: nat, layers: nat, blocks: nat)
    requires IsLayerWeights(a, W, layers, blocks) && m < layers
    ensures 2 * m + 1 < |W| && IsBlockWeights(W[2 * m]) && IsBlockWeights(W[2 * m + 1])
  {
  }

  /** A layer is its loop's `layers` passes, then the last trainable call on `weights[2*layers]`. */
  lemma LayerGatesSplit(a: Ansatz, W: seq<seq<Vector>>, x: Matrix, layers: nat, blocks: nat)
    requires IsLayerWeights(a, W, layers, blocks) && IsMatrix(x, 3, 3)
    ensures StepsFit(LoopSteps(layers), W)
    ensures LayerGates(a, W, x, layers, blocks)
         == Expand(a, LoopSteps(layers), W, DiagonalFeatures(x), PairFeatures(x)) + TrainableGates(a, W, 2 * layers)
  {
    ScheduleFits(a, layers, blocks, W);
    ExpandSnoc(a, LoopSteps(layers), Trainable(2 * layers), W, DiagonalFeatures(x), PairFeatures(x));
  }
}
