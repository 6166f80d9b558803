# Rock-paper-scissors contextuality demo: the zero-sum data model and the bias-invariant circuit

This project models the computational core of the PennyLane demonstration
`tutorial_contextuality.py`. The demo's three players play rock-paper-scissors
with a "special" action per player. It trains a three-qubit circuit whose
structure guarantees that the players' expected payoffs sum to zero. The
model covers:

- **the game** (`game.dfy`, module `Game`):
  - the rule of one encounter and the literal rule matrices `A01`, `A02`, `A12`;
  - their reverse-order versions `A10 = -A01.T`, `A20`, `A21`;
  - the scores `n0`, `n1`, `n2` and the payoff probabilities of `payoff_probs`;
  - the ±1 labels `generate_data` draws from those probabilities.
- **the data** (`strategies.dfy`, module `Strategies`):
  - `get_strat_mats` as the in-place, row-by-row normalisation of a batch of uniform draws, over a Dafny `array3<real>`;
  - `generate_data` composed from it.
- **the circuit** (`circuit.dfy`, module `Circuit`): the gates each circuit function emits, as a list of gate descriptors:
  - `swap_rot`, `param_unitary`, `data_encoding`, `data_encoding_pairs`, `input_prep`;
  - the schedule in which `bias_inv_layer` and `generic_layer` string them together;
  - the feature preprocessing `x1`, `x2`;
  - `model`, with alpha read from the weight tensor;
  - proofs about all of these: every gate the layer emits is an RZ, a ZZ, or part of a whole `swap_rot` triple, whose combined generator XX+YY+ZZ commutes with `Z0 + Z1 + Z2` (the first five gates of `model`, from `input_prep`, are not); weights are used slab by slab in order; gate counts; the weight shape.
- **the recording** (`recording.dfy`, module `Recording`):
  - a `Tape` class whose methods are the circuit functions themselves, with their `for` loops;
  - each method appends exactly the gate list the `Circuit` function gives for it, as a circuit function records operations on the quantum library's tape.
- **the read-out** (`marginals.dfy`, module `Marginals`):
  - `model_probs`, which fills a fresh `N`-by-3-by-2 array column by column with the two-outcome marginals `((1+e)/2, (1-e)/2)`;
  - how those marginals relate to the true payoff probabilities.
- **linear algebra** (`linear.dfy`, module `Linear`): the small amount of `numpy` the payoff computation is written in. This is sums, dot products, row-vector/matrix products, the bilinear form `x A yᵀ` and `-A.T`, with their algebraic laws.

Reals stand for the numpy floats without rounding. The two random arrays of
the source are inputs: the uniform draws of `get_strat_mats` and the draws
`r` of `generate_data`. The hyperparameters `blocks` and `layers` are module
globals in the source (1 and 2). Here they are parameters, with the source's
values as `Circuit.DefaultBlocks` and `Circuit.DefaultLayers`.

Two facts about the code that the model keeps:

- `get_strat_mats(0)` returns an empty `(0, 3, 3)` batch, and so does the model.
- The generic weights `weights_generic` have shape `(2*layers+1, blocks, 3, 3)`
  (line 611). The model reads each generic block flattened to nine entries; see "Left out".

## Model

| member | source | states |
|---|---|---|
| Game.Rule | demonstrations/tutorial_contextuality.py:68-79 | one encounter pays -1, 0 or 1; different actions never draw; a draw happens exactly when both play the same action and it is neither player's special action |
| Game.RuleAntisymmetric | demonstrations/tutorial_contextuality.py:74-82 | every encounter is zero-sum: swapping the players negates the payoff |
| Game.ForwardMatricesMatchRule | demonstrations/tutorial_contextuality.py:110-112 | each entry of the literal matrices `A01`, `A02`, `A12` is the rule's payoff for that pair of players and actions |
| Game.RuleMatrixMatchesRule | demonstrations/tutorial_contextuality.py:110-123 | every rule matrix, forward or negated transpose, holds the rule's payoff in every entry |
| Game.RuleMatrixEntries | demonstrations/tutorial_contextuality.py:110-123 | every rule matrix has entries in {-1, 0, 1} |
| Game.Special | demonstrations/tutorial_contextuality.py:71-79 | definition: player `k`'s special action is action `k`; properties in Game.Rule |
| Game.Beats | demonstrations/tutorial_contextuality.py:74-76 | definition of the usual cyclic rule; properties in Game.BeatsIsTournament and Game.Rule |
| Linear.NegTranspose | demonstrations/tutorial_contextuality.py:121-123 | `-A.T`, with the rows and columns of `A` exchanged; its meaning for scores in Linear.BilinearNegTranspose |
| Linear.BilinearNegTranspose | demonstrations/tutorial_contextuality.py:121-123 | scoring `y` against `x` with `-A.T` gives exactly minus the score of `x` against `y` with `A` |
| Linear.BilinearAssoc | demonstrations/tutorial_contextuality.py:209-211 | the nested `matmul(matmul(x, A), y)` equals `x` dotted with `A yᵀ` |
| Linear.BilinearBound | demonstrations/tutorial_contextuality.py:199 | `x A yᵀ` lies in [-1, 1] when `x`, `y` are distributions and the entries of `A` are bounded by one |
| Game.ScoresCancel | demonstrations/tutorial_contextuality.py:209-211 | each pair of players' two bilinear scores cancel, for every 3-by-3 matrix |
| Game.Scores | demonstrations/tutorial_contextuality.py:209-211 | `n0 + n1 + n2 = 0` for every 3-by-3 matrix, and each `n_k` lies in [-2, 2] when the rows are strategies |
| Game.ScoresPerPlayer | demonstrations/tutorial_contextuality.py:209-211 | the literal `n_k` is player `k`'s score against each of the two others through its rule matrix |
| Game.PairScoresBounded | demonstrations/tutorial_contextuality.py:199 | against any one opponent a strategy scores within [-1, 1] |
| Game.PayoffProbs | demonstrations/tutorial_contextuality.py:205-213 | the expectations `2p_k - 1` sum to zero and equal `n_k / 2`; each `p_k` is in [0, 1] for a strategy matrix |
| Game.PureScore | demonstrations/tutorial_contextuality.py:87-90 | under pure strategies a score is the number of players beaten minus the number lost to, by the rule |
| Game.WinnerTakesAll | demonstrations/tutorial_contextuality.py:90-92 | a player who beats both others gets a positive payoff with probability one |
| Game.LoserTakesNothing | demonstrations/tutorial_contextuality.py:90-92 | a player who loses to both others gets a negative payoff with probability one |
| Game.IdentityStrategy | demonstrations/tutorial_contextuality.py:209-212 | with each player playing their own special action every score is 0 and every probability 1/2 |
| Game.Labels | demonstrations/tutorial_contextuality.py:221-222 | labels have the shape of `P`, are ±1, and are +1 exactly when the probability exceeds its draw |
| Game.Label | demonstrations/tutorial_contextuality.py:222 | definition of one `np.where(P > r, 1, -1)` entry; properties in Game.LabelThreshold and Game.Labels |
| Game.LabelThreshold | demonstrations/tutorial_contextuality.py:221-222 | for a draw in [0, 1) the label is monotone in the probability, always +1 at probability one and always -1 at zero |
| Strategies.Normalised | demonstrations/tutorial_contextuality.py:177 | dividing a non-negative row with a positive sum by that sum gives a distribution, and multiplying back by the sum recovers the row |
| Strategies.NormalisedIsDistribution | demonstrations/tutorial_contextuality.py:177 | the divided row is non-negative, sums to one and scales back to the original |
| Strategies.NormaliseRow | demonstrations/tutorial_contextuality.py:177 | one inner step replaces row `k` of sample `i` by its normalisation and changes nothing else |
| Strategies.NormaliseStrategyMatrices | demonstrations/tutorial_contextuality.py:170-178 | after the loops every row is the normalisation of its draws and every sample is a strategy matrix |
| Strategies.GenerateData | demonstrations/tutorial_contextuality.py:218-223 | every sample is a strategy matrix; `P` holds its payoff probabilities, in [0, 1] with zero-sum expectations; `Y` thresholds `P` against `r` |
| Circuit.FeaturesRoundTrip | demonstrations/tutorial_contextuality.py:406-407 | the preprocessing of `bias_inv_layer` (and the identical lines 442-443 of `generic_layer`) loses nothing: the two feature vectors and the common row sum give back the whole matrix |
| Circuit.SwapRotGates | demonstrations/tutorial_contextuality.py:364-370 | definition; properties in Circuit.SwapRotIsBiasInvariant and Recording.Tape.SwapRot |
| Circuit.BlockGates | demonstrations/tutorial_contextuality.py:377-384 | definition; properties in Circuit.BlockIsBiasInvariant, Circuit.BlockReadsSlots and Recording.Tape.Block |
| Circuit.ParamUnitaryGates | demonstrations/tutorial_contextuality.py:372-384 | definition; properties in Circuit.ParamUnitaryIsBiasInvariant, Circuit.ParamUnitaryAt and Recording.Tape.ParamUnitary |
| Circuit.DataEncodingGates | demonstrations/tutorial_contextuality.py:386-391 | definition; properties in Circuit.DataEncodingsAreBiasInvariant and Recording.Tape.DataEncoding |
| Circuit.DataEncodingPairsGates | demonstrations/tutorial_contextuality.py:393-398 | definition; properties in Circuit.DataEncodingsAreBiasInvariant and Recording.Tape.DataEncodingPairs |
| Circuit.InputPrepGates | demonstrations/tutorial_contextuality.py:333-339 | definition; properties in Circuit.ModelStructure and Recording.Tape.InputPrep |
| Circuit.LayerGates | demonstrations/tutorial_contextuality.py:401-413 | definition, also of `generic_layer` (lines 440-449); properties in Circuit.BiasInvLayerIsBiasInvariant, Circuit.LayerGateCount, Circuit.LayerGatesSplit and Recording.Tape.Layer |
| Circuit.Alpha | demonstrations/tutorial_contextuality.py:425 | definition: the first entry of `weights[2*layers+1, 0]`; properties in Circuit.ModelStructure |
| Circuit.ModelGates | demonstrations/tutorial_contextuality.py:424-426 | definition; properties in Circuit.ModelStructure and Recording.Tape.Model |
| Circuit.SwapRotIsBiasInvariant | demonstrations/tutorial_contextuality.py:364-370 | `swap_rot` on two distinct wires is one whole XX, YY, ZZ triple |
| Circuit.BiasInvariantAppend | demonstrations/tutorial_contextuality.py:401-413 | concatenating two invariant gate lists gives an invariant list |
| Circuit.BlockIsBiasInvariant | demonstrations/tutorial_contextuality.py:376-384 | one block of `param_unitary` emits only Z rotations and whole `swap_rot` triples |
| Circuit.ParamUnitaryIsBiasInvariant | demonstrations/tutorial_contextuality.py:372-384 | `param_unitary` emits only RZ and ZZ rotations and whole `swap_rot` triples (BiasInvariant), for every weight value and block count |
| Circuit.DataEncodingsAreBiasInvariant | demonstrations/tutorial_contextuality.py:386-398 | both data encodings emit only RZ and ZZ rotations |
| Circuit.BlockReadsSlots | demonstrations/tutorial_contextuality.py:376-384 | gate `t` of a block is a rotation by the block's weight `Slot(t)` |
| Circuit.ParamUnitaryLength | demonstrations/tutorial_contextuality.py:375-384 | `param_unitary` emits 15 gates per block |
| Circuit.ParamUnitaryAt | demonstrations/tutorial_contextuality.py:375-384 | block `b` occupies positions `15b .. 15b+14`, so blocks come in order |
| Circuit.ParamUnitaryReadsEveryWeight | demonstrations/tutorial_contextuality.py:375-384 | every weight `weights[b, s]` is the angle of a gate at a known position |
| Circuit.LoopSteps | demonstrations/tutorial_contextuality.py:408-412 | definition of the call sequence of the `range(0, 2*layers, 2)` loop; properties in Circuit.LoopStepsLayout |
| Circuit.Schedule | demonstrations/tutorial_contextuality.py:408-413 | definition: the loop followed by the final call on `weights[2*layers]`; properties in Circuit.ScheduleLayout and Circuit.ScheduleAt |
| Circuit.TrainableGates | demonstrations/tutorial_contextuality.py:409-413 | definition of the trainable call on `weights[l]` (also lines 445-449 of `generic_layer`); properties in Circuit.StepGateCount and Recording.Tape.TrainableUnitary |
| Circuit.LoopStepsLayout | demonstrations/tutorial_contextuality.py:408-412 | the loop calls the trainable unitary on slab `i/2` at even positions, the single encoding at 1 mod 4, the pair encoding at 3 mod 4 |
| Circuit.ScheduleAt | demonstrations/tutorial_contextuality.py:408-413 | the same layout at one position of the whole schedule, including the final call on slab `2*layers` |
| Circuit.ScheduleLayout | demonstrations/tutorial_contextuality.py:401-413 | the layer makes `4*layers + 1` calls: slabs `0 .. 2*layers` once each, in increasing order, alternating with the two encodings; no call reads a slab above `2*layers` |
| Circuit.ScheduleFits | demonstrations/tutorial_contextuality.py:408-413 | with `2*layers + 2` (bias-invariant) or `2*layers + 1` (generic) slabs every trainable call finds its slab |
| Circuit.LoopStepsFit | demonstrations/tutorial_contextuality.py:408-412 | the first `m` passes of the loop read only slabs that exist |
| Circuit.PassFits | demonstrations/tutorial_contextuality.py:408-412 | pass `m` reads slabs `2m` and `2m+1`, both present |
| Circuit.ExpandIsBiasInvariant | demonstrations/tutorial_contextuality.py:401-413 | any schedule of `param_unitary` calls and encodings emits an invariant gate list |
| Circuit.BiasInvLayerIsBiasInvariant | demonstrations/tutorial_contextuality.py:401-413 | `bias_inv_layer` emits only RZ and ZZ rotations and whole `swap_rot` triples (BiasInvariant), for every weight tensor and every input |
| Circuit.ModelStructure | demonstrations/tutorial_contextuality.py:333-339 | the model opens with five preparation gates whose two RY angles are alpha (`weights[2*layers+1, 0][0]`) and alpha + π; every gate after them is an RZ, a ZZ or part of a whole `swap_rot` triple (BiasInvariant) |
| Circuit.StepGateCount | demonstrations/tutorial_contextuality.py:372-398 | a trainable call emits `15 * blocks` gates and an encoding three |
| Circuit.IterationGateCount | demonstrations/tutorial_contextuality.py:408-412 | one pass of the loop adds `30 * blocks + 6` gates |
| Circuit.LoopGateCount | demonstrations/tutorial_contextuality.py:408-412 | `m` passes emit `m * (30 * blocks + 6)` gates |
| Circuit.LayerGateCount | demonstrations/tutorial_contextuality.py:401-413 | the layer emits `(2*layers + 1) * 15 * blocks + 6 * layers` gates, 87 with the demo's settings |
| Circuit.PassExpand | demonstrations/tutorial_contextuality.py:409-412 | the four calls of a pass append the trainable gates of slab `l`, the single encoding, slab `l+1` and the pair encoding |
| Circuit.LoopPass | demonstrations/tutorial_contextuality.py:408-412 | the schedule of `m + 1` passes emits that of `m` followed by pass `m` |
| Circuit.LayerGatesSplit | demonstrations/tutorial_contextuality.py:408-413 | a layer is its `layers` passes followed by the trainable call on slab `2*layers` |
| Recording.Tape.SwapRot | demonstrations/tutorial_contextuality.py:364-370 | `swap_rot` appends the XX, YY, ZZ rotations by one angle on one pair of wires |
| Recording.Tape.Block | demonstrations/tutorial_contextuality.py:377-384 | one pass of the block loop appends exactly that block's 15 gates |
| Recording.Tape.ParamUnitary | demonstrations/tutorial_contextuality.py:372-384 | the block loop appends `param_unitary`'s gates, block after block |
| Recording.Tape.DataEncoding | demonstrations/tutorial_contextuality.py:386-391 | appends one RZ per wire by the matching feature |
| Recording.Tape.DataEncodingPairs | demonstrations/tutorial_contextuality.py:393-398 | appends the three ZZ rotations by the products of feature pairs |
| Recording.Tape.InputPrep | demonstrations/tutorial_contextuality.py:333-339 | appends three Hadamards, then RY by alpha on wire 0 and by alpha + π on wire 1 |
| Recording.Tape.TrainableUnitary | demonstrations/tutorial_contextuality.py:409-413 | appends `param_unitary(weights[l])` (bias-invariant) or the entangling template on slab `l` (generic) |
| Recording.Tape.Pass | demonstrations/tutorial_contextuality.py:409-412 | one pass of the layer loop appends its four calls' gates in order |
| Recording.Tape.RecordPass | demonstrations/tutorial_contextuality.py:408-412 | after `m + 1` passes the tape holds what the schedule of `m + 1` passes emits |
| Recording.Tape.Passes | demonstrations/tutorial_contextuality.py:408-412 | the whole loop appends what the schedule of `layers` passes emits |
| Recording.Tape.Layer | demonstrations/tutorial_contextuality.py:440-449 | `bias_inv_layer` and `generic_layer` append exactly `LayerGates` of their ansatz |
| Recording.Tape.Model | demonstrations/tutorial_contextuality.py:424-426 | `model` appends the input preparation driven by alpha, then the bias-invariant layer |
| Marginals.Readout | demonstrations/tutorial_contextuality.py:528-529 | the two outcome probabilities sum to one and differ by the expectation value |
| Marginals.ReadoutIsDistribution | demonstrations/tutorial_contextuality.py:528-529 | the read-out is a probability distribution exactly when the expectation lies in [-1, 1] |
| Marginals.ReadoutRoundTrip | demonstrations/tutorial_contextuality.py:238 | the win probability determines the expectation: `p = (1+e)/2` exactly when `e = 2p - 1` |
| Marginals.ReadoutMatchesPayoff | demonstrations/tutorial_contextuality.py:517-518 | the model's win probability equals the true one exactly when its expectation equals `n_k / 2` |
| Marginals.WinProbabilitiesSum | demonstrations/tutorial_contextuality.py:238-239 | the true win probabilities sum to 3/2; the read-out ones do exactly when the three expectations sum to zero |
| Marginals.ModelProbs | demonstrations/tutorial_contextuality.py:521-530 | a fresh `N`-by-3-by-2 array whose entry `[i, t]` is the read-out of expectation `[i, t]` |

## Left out

- Quantum simulation is not modelled: the device, `qnode`, `expval`, and what the gates compute. The circuit is modelled as the list of gates it emits. The bias-invariance design is stated through the gate kinds: every gate is an RZ, a ZZ, or part of a whole `swap_rot` triple, whose combined generator XX+YY+ZZ commutes with `Z0 + Z1 + Z2` (a lone XX or YY rotation does not). That this preserves the expectation value, and that the input preparation makes it zero, is physics outside the model.
- `qml.StronglyEntanglingLayers` is one opaque gate `StronglyEntangling(l)` per call. Its internals belong to the library.
- Recording.Tape.TrainableUnitary: generic slabs of shape `(blocks, 3, 3)` are read as blocks of nine flattened entries. Only their count and presence matter to the opaque template.
- `likelihood`, `kl_div`, `kl_marginals` and `get_av_test_kl` (lines 491-562) are left out. They rest on logarithms, which the model's reals do not provide.
- The optax training loop, the `tqdm` progress bar, JAX `vmap`/`jit`, the seeds and the plots are left out. They are tooling around the model.
- The random draws of `np.random.rand` are inputs rather than generated.
- Strategies.NormaliseStrategyMatrices: the model requires every row of draws to have a positive sum. The source divides without a guard and gets NaN for an all-zero row, an event of probability zero.
- The scaling of the data by π/2 (lines 604-605) is not applied. Circuit.FeaturesRoundTrip takes the row sum as a parameter, so it covers the scaled matrices too.
- Marginals.ModelProbs: the expectation values `model(weights, X_test)` are an `N`-by-3 input array. Evaluating the circuit is not modelled.
- `generic_model` (lines 452-454) is `Recording.Tape.Layer` with the generic ansatz. It adds only the measurement.
- Floating-point rounding is not modelled. π is the double `3.141592653589793`.
- The second tutorial of the repository (`tutorial_zx_calculus.py`) is not part of this model.
