/**
 The circuit functions as the quantum library runs them: each `qml.*` call
 inside a circuit function appends one operation to the tape being recorded.
 `Tape` is that recording, and each method below is one circuit function of
 the tutorial, proved to append exactly the gate list `Circuit` gives for it.
 */
module Recording {
  import opened Linear
  import opened Circuit

  class Tape {
    /** The operations recorded so far, oldest first. */
    var ops: seq<Gate>

    /** A fresh, empty recording. */
    constructor()
      ensures ops == []
    {
      ops := [];
    }

    /** One `qml.*` call: the gate goes to the end of the tape. */
    method Apply(g: Gate)
      modifies this
      ensures ops == old(ops) + [g]
    {
      ops := ops + [g];
    }

    /** `swap_rot(theta, wires=[w0, w1])`. */
    method SwapRot(theta: real, w0: nat, w1: nat)
      modifies this
      ensures ops == old(ops) + SwapRotGates(theta, w0, w1)
    {
      Apply(PauliRot(theta, XX, w0, w1));
      Apply(PauliRot(theta, YY, w0, w1));
      Apply(PauliRot(theta, ZZ, w0, w1));
    }

    /** One pass of the block loop of `param_unitary`, on the nine weights `w`. */
    method Block(w: Vector)
      requires |w| == 9
      modifies this
      ensures ops == old(ops) + BlockGates(w)
    {
      for q := 0 to 3
        invariant ops == old(ops) + seq(q, j requires 0 <= j < q => RZ(w[j], j))
      {
        Apply(RZ(w[q], q));
      }
      ghost var rz := [RZ(w[0], 0), RZ(w[1], 1), RZ(w[2], 2)];
      assert ops == old(ops) + rz;
      Apply(PauliRot(w[3], ZZ, 0, 1));
      Apply(PauliRot(w[4], ZZ, 0, 2));
      Apply(PauliRot(w[5], ZZ, 1, 2));
      ghost var zz := [PauliRot(w[3], ZZ, 0, 1), PauliRot(w[4], ZZ, 0, 2), PauliRot(w[5], ZZ, 1, 2)];
      assert ops == old(ops) + (rz + zz);
      SwapRot(w[6], 0, 1);
      SwapRot(w[7], 1, 2);
      SwapRot(w[8], 0, 2);
      assert BlockGates(w) == (rz + zz) + SwapRotGates(w[6], 0, 1) + SwapRotGates(w[7], 1, 2) + SwapRotGates(w[8], 0, 2);
    }

    /** `param_unitary(weights)`: the blocks in order. */
    method ParamUnitary(W: seq<Vector>)
      requires IsBlockWeights(W)
      modifies this
      ensures ops == old(ops) + ParamUnitaryGates(W)
    {
      for b := 0 to |W|
        invariant ops == old(ops) + ParamUnitaryGates(W[..b])
      {
        Block(W[b]);
        assert W[..b + 1][..b] == W[..b];
      }
      assert W[..|W|] == W;
    }

    /** `data_encoding(x)`: one RZ per wire, in wire order. */
    method DataEncoding(x: Vector)
      requires |x| == 3
      modifies this
      ensures ops == old(ops) + DataEncodingGates(x)
    {
      for q := 0 to 3
        invariant ops == old(ops) + seq(q, j requires 0 <= j < q => RZ(x[j], j))
      {
        Apply(RZ(x[q], q));
      }
      assert DataEncodingGates(x) == seq(3, j requires 0 <= j < 3 => RZ(x[j], j));
    }

    /** `data_encoding_pairs(x)`. */
    method DataEncodingPairs(x: Vector)
      requires |x| == 3
      modifies this
      ensures ops == old(ops) + DataEncodingPairsGates(x)
    {
      Apply(PauliRot(x[0] * x[1], ZZ, 0, 1));
      Apply(PauliRot(x[1] * x[2], ZZ, 1, 2));
      Apply(PauliRot(x[0] * x[2], ZZ, 0, 2));
    }

    /** `input_prep(alpha)`. */
    method InputPrep(alpha: real)
      modifies this
      ensures ops == old(ops) + InputPrepGates(alpha)
    {
      Apply(Hadamard(0));
      Apply(Hadamard(1));
      Apply(Hadamard(2));
      Apply(RY(alpha, 0));
      Apply(RY(alpha + Pi, 1));
    }

    /**
     The trainable call of a layer on `weights[l]`: `param_unitary` in the
     bias-invariant ansatz, the library's entangling template in the generic one.
     */
    method TrainableUnitary(a: Ansatz, W: seq<seq<Vector>>, l: nat)
      requires l < |W| && IsBlockWeights(W[l])
      modifies this
      ensures ops == old(ops) + TrainableGates(a, W, l)
    {
      if a == BiasInvariantAnsatz {
        ParamUnitary(W[l]);
      } else {
        Apply(StronglyEntangling(l));
      }
    }

    /**
     Pass `m` of the loop of a layer, with `l = 2*m`: the trainable call on
     `weights[l]`, the single encoding, the trainable call on `weights[l+1]`,
     the pair encoding.
     */
    method Pass(a: Ansatz, W: seq<seq<Vector>>, x1: Vector, x2: Vector, m: nat)
      requires |x1| == 3 && |x2| == 3
      requires 2 * m + 1 < |W| && IsBlockWeights(W[2 * m]) && IsBlockWeights(W[2 * m + 1])
      modifies this
      ensures ops == old(ops)
        + TrainableGates(a, W, 2 * m) + DataEncodingGates(x1) + TrainableGates(a, W, 2 * m + 1) + DataEncodingPairsGates(x2)
    {
      var l := 2 * m;
      TrainableUnitary(a, W, l);
      DataEncoding(x1);
      TrainableUnitary(a, W, l + 1);
      DataEncodingPairs(x2);
    }

    /** The loop of a layer: passes `0 .. layers - 1`, on the features `x1` and `x2`. */
    method Passes(a: Ansatz, W: seq<seq<Vector>>, x1: Vector, x2: Vector, layers: nat, blocks: nat)
      requires |x1| == 3 && |x2| == 3 && IsLayerWeights(a, W, layers, blocks)
      modifies this
      ensures StepsFit(LoopSteps(layers), W)
      ensures ops == old(ops) + Expand(a, LoopSteps(layers), W, x1, x2)
    {
      ghost var start := ops;
      for m := 0 to layers
        invariant StepsFit(LoopSteps(m), W)
        invariant ops == start + Expand(a, LoopSteps(m), W, x1, x2)
      {
        PassFits(a, W, m, layers, blocks);
        RecordPass(a, W, x1, x2, m, start);
      }
    }

    /** Pass `m` recorded after `start` and the first `m` passes: the tape then holds `m + 1` passes. */
    method RecordPass(a: Ansatz, W: seq<seq<Vector>>, x1: Vector, x2: Vector, m: nat, ghost start: seq<Gate>)
      requires |x1| == 3 && |x2| == 3 && StepsFit(LoopSteps(m), W)
      requires 2 * m + 1 < |W| && IsBlockWeights(W[2 * m]) && IsBlockWeights(W[2 * m + 1])
      requires ops == start + Expand(a, LoopSteps(m), W, x1, x2)
      modifies this
      ensures StepsFit(LoopSteps(m + 1), W)
      ensures ops == start + Expand(a, LoopSteps(m + 1), W, x1, x2)
    {
      ghost var done := Expand(a, LoopSteps(m), W, x1, x2);
      LoopPass(a, W, x1, x2, m);
      Pass(a, W, x1, x2, m);
      AppendPass(start, done, TrainableGates(a, W, 2 * m), DataEncodingGates(x1),
                 TrainableGates(a, W, 2 * m + 1), DataEncodingPairsGates(x2));
    }

    /**
     `bias_inv_layer(weights, x)` (for the bias-invariant ansatz) and
     `generic_layer(weights, x)` (for the generic one): the features are
     computed once, then the loop over `l = 0, 2, ..., 2*layers - 2`, then
     the last trainable call on `weights[2*layers]`.
     */
    method Layer(a: Ansatz, W: seq<seq<Vector>>, x: Matrix, layers: nat, blocks: nat)
      requires IsLayerWeights(a, W, layers, blocks) && IsMatrix(x, 3, 3)
      modifies this
      ensures ops == old(ops) + LayerGates(a, W, x, layers, blocks)
    {
      var x1 := DiagonalFeatures(x);
      var x2 := PairFeatures(x);
      Passes(a, W, x1, x2, layers, blocks);
      ghost var loop := Expand(a, LoopSteps(layers), W, x1, x2);
      TrainableUnitary(a, W, 2 * layers);
      Regroup(old(ops), loop, TrainableGates(a, W, 2 * layers));
      LayerGatesSplit(a, W, x, layers, blocks);
    }

    /** `model(weights, x)`: input preparation driven by alpha, then the bias-invariant layer. */
    method Model(W: seq<seq<Vector>>, x: Matrix, layers: nat, blocks: nat)
      requires IsModelWeights(W, layers, blocks) && blocks >= 1 && IsMatrix(x, 3, 3)
      modifies this
      ensures ops == old(ops) + ModelGates(W, x, layers, blocks)
    {
      InputPrep(W[2 * layers + 1][0][0]);
      Layer(BiasInvariantAnsatz, W, x, layers, blocks);
    }
  }

  /** Recording `g` after `o + e` is recording `e + g` after `o`. */
  lemma Regroup(o: seq<Gate>, e: seq<Gate>, g: seq<Gate>)
    ensures o + e + g == o + (e + g)
  {
  }

  /** Recording a pass after `o + e` is recording `e` followed by the pass after `o`. */
  lemma AppendPass(o: seq<Gate>, e: seq<Gate>, g0: seq<Gate>, g1: seq<Gate>, g2: seq<Gate>, g3: seq<Gate>)
    ensures o + e + g0 + g1 + g2 + g3 == o + (e + g0 + g1 + g2 + g3)
  {
  }
}
