# A verified model of a one-hidden-layer perceptron

This project models the training and inference engine of a small
digit-recognition network. The network has one hidden layer and is built on
numjs matrices. It also models the file-name helper that the engine's
persistence code uses.

- `wrappers.dfy`: `Option`, `Result` and `Outcome`. These stand for the
  original's optional arguments and its thrown errors.
- `matrices.dfy` (module `Matrices`): a matrix is a value with an explicit row
  count, column count and cells. The numjs primitives the network calls are
  modelled: `dot`, `.T`, element-wise `add`, `subtract` and `multiply`, scalar
  `multiply` and `subtract`, `ones`, element-wise activation, reshaping a flat
  list to a column, `tolist` with the flattening `reduce`, and `nj.array`.
  Elements are exact reals.
- `file_names.dfy` (module `FileNames`): `getFileName`.
- `network.dfy` (module `NeuralNetwork`):
  - the pure parts as functions: weight initialisation, forward propagation,
    the weight deltas, back-propagation, one training step, a run of steps,
    and decoding a parsed model;
  - the class `Network`, whose methods reassign the fields `weightsIH`,
    `weightsHO`, `LR` and `activator` as the original does;
  - `train`'s two count-down loops, as `while` loops with invariants, proved
    against those functions.

The activation strategy is an arbitrary function `real -> real`, applied to
every element. The library sigmoid is a parameter wherever the original
creates a `Sigmoid`. The randomness of `nj.random` and lodash `shuffle` is an
arbitrary choice: some matrix with every element in [0, 1), and some
permutation. Every numjs shape error the engine can meet is modelled as an
`Err` or `Fail` result, not as a precondition: `dot` with mismatched inner
dimensions, and `subtract` of arrays of different shapes.

Training is stated weight by weight. `Step` gives every new weight as the old
weight plus its delta, error·output·(1 − output)·input·LR. The hidden errors
are taken through the hidden-to-output weights from before the update.
`StepIsBackPropagation` proves that `trainStep`'s matrix pipeline computes
exactly this step. `Train` is proved to leave the network at `Run` of the
examples it visited. That list is the concatenation, epoch by epoch, of each
shuffled copy taken from its last index down to 0.

The initial weights are `nj.random(...)` minus 0.5, so they lie in the
half-open range [-0.5, 0.5). The code validates nothing itself: the only
error is the shape error numjs raises. There is no momentum and no adaptive
step size.

## Model

| member | source | states |
|---|---|---|
| FileNames.GetFileName | src/utils.ts:5-8 | a name that already ends with the extension is returned unchanged, and any other name gets the extension appended; the result always ends with the extension, has the name as a prefix, and is either as long as the name or longer by exactly the extension's length |
| FileNames.PatternTestIsSuffix | src/utils.ts:6-8 | for a plain extension, the test of the pattern `(\<ext>)$` succeeds exactly when the name ends with the extension |
| FileNames.GetFileNameIdempotent | src/utils.ts:5-8 | applying `getFileName` a second time changes nothing |
| FileNames.DefaultExtensionIsPlain | src/utils.ts:5 | the default extension ".json" is a dot followed by characters with no regular-expression meaning, so the suffix reading applies to it |
| Matrices.Column | src/network/network.ts:153 | turning a flat list into a column gives a column with one row per element of v whose row i holds v[i] |
| Matrices.Concat | src/network/network.ts:156-160 | the push-reduce over rows of one element each gives one element per row, element i being row i's element |
| Matrices.Flatten | src/network/network.ts:156-160 | flattening a column with `tolist` and the push-reduce gives one element per row, in row order |
| Matrices.FlattenColumn | src/network/network.ts:153-160 | flattening the column made from a flat list gives back that list |
| Matrices.FromListToList | src/network/network.ts:64-65 | `nj.array` of a matrix's `tolist` gives back the matrix exactly when the matrix has rows, or has neither rows nor columns |
| NeuralNetwork.InferShape | src/network/network.ts:67-68 | hiddenSize and inputSize are IH's rows and columns, and outputSize is HO's rows; HO's column count is not consulted |
| NeuralNetwork.Random | src/network/network.ts:184 | the random draw has the requested shape and every element in [0, 1) |
| NeuralNetwork.GenerateWeights | src/network/network.ts:183-185 | subtracting 0.5 keeps the shape, and every weight is its draw minus 0.5, so it lies in [-0.5, 0.5) |
| NeuralNetwork.Network.constructor | src/network/network.ts:115-118 | IH is hiddenSize by inputSize, HO is outputSize by hiddenSize, the shape inferred from them is the one asked for, every initial weight is in [-0.5, 0.5), LR is the given one (0.3 by default), and the activation is the sigmoid |
| NeuralNetwork.Forward | src/network/network.ts:208-219 | hidden outputs are hiddenSize by the input's column count, with entry (i, j) the activation of row i of IH times column j of the input; final outputs are outputSize by that count, with entry (i, j) the activation of row i of HO times column j of the hidden outputs |
| NeuralNetwork.AdditionalWeights | src/network/network.ts:194-200 | the result has a row per output unit and a column per input unit, and entry (i, j) is errors[i]·outputs[i]·(1 − outputs[i])·inputs[j]·LR |
| NeuralNetwork.BackPropagate | src/network/network.ts:228-237 | both weight matrices keep their shapes, the hidden size stays consistent, and LR and the activation are unchanged |
| NeuralNetwork.TransposeDotIsBackflow | src/network/network.ts:231 | entry i of `HO.T.dot(errors)` is the sum over output units k of HO[k][i]·errors[k] |
| NeuralNetwork.BackPropagateOutputWeight | src/network/network.ts:230-235 | every new hidden-to-output weight is the old one plus the delta of its output error, output and hidden output |
| NeuralNetwork.BackPropagateHiddenWeight | src/network/network.ts:231-236 | every new input-to-hidden weight is the old one plus its delta, the hidden error being the output errors sent back through the HO from before the update |
| NeuralNetwork.Step | src/network/network.ts:169-175 | a training step keeps both shapes and the consistent hidden size, and leaves LR and the activation unchanged |
| NeuralNetwork.BackflowIsHiddenError | src/network/network.ts:230-231 | the back-flow of the errors of a forward pass on an example is that example's hidden error |
| NeuralNetwork.OutputWeightIsDelta | src/network/network.ts:229-235 | one hidden-to-output weight after forward and back propagation equals the delta-rule step's weight |
| NeuralNetwork.HiddenWeightIsDelta | src/network/network.ts:229-236 | one input-to-hidden weight after forward and back propagation equals the delta-rule step's weight |
| NeuralNetwork.OutputLayerIsDeltaRule | src/network/network.ts:230-235 | the whole new HO of `backPropagation` after `forwardPropagation` is the delta-rule one |
| NeuralNetwork.HiddenLayerIsDeltaRule | src/network/network.ts:230-236 | the whole new IH of `backPropagation` after `forwardPropagation` is the delta-rule one |
| NeuralNetwork.StepIsBackPropagation | src/network/network.ts:169-175 | `trainStep` (column input and target, then forward and back propagation) computes exactly the delta-rule step `Step` |
| NeuralNetwork.Run | src/network/network.ts:137-141 | a sequence of training steps keeps the shapes, LR and activation of the model it starts from |
| NeuralNetwork.RunAppend | src/network/network.ts:131-145 | running two traces one after the other is running their concatenation |
| NeuralNetwork.RunSnoc | src/network/network.ts:137-141 | one more accepted training step extends a run by that step |
| NeuralNetwork.Descending | src/network/network.ts:134-141 | the count-down from the last index down to k lists one element for each index from k to the end |
| NeuralNetwork.DescendingAt | src/network/network.ts:134-141 | position i of the count-down holds the element i places before the last |
| NeuralNetwork.DescendingPrefix | src/network/network.ts:137-141 | a count-down stopped early is a prefix of the complete one, and a strict prefix if it stopped before the end |
| NeuralNetwork.DescendingMultiset | src/network/network.ts:137-141 | the count-down to k visits each element of s[k..] exactly as often as it occurs there |
| NeuralNetwork.Reverse | src/network/network.ts:134-141 | one epoch's order of visits has one entry per example of the shuffled copy |
| NeuralNetwork.ReverseAt | src/network/network.ts:134-141 | visit i of an epoch is the example i places before the last of its shuffled copy, in descending index order |
| NeuralNetwork.ReverseMultiset | src/network/network.ts:134-141 | an epoch visits every example of its shuffled copy exactly as often as it occurs |
| NeuralNetwork.ReverseAccepted | src/network/network.ts:137-141 | if every visited example is accepted, so is every example of the shuffled copy |
| NeuralNetwork.VisitsSegment | src/network/network.ts:131-145 | with n examples per epoch there are epochs·n visits, and epoch e takes positions e·n up to (e+1)·n, which hold its shuffled copy in descending index order |
| NeuralNetwork.VisitsLength | src/network/network.ts:131-145 | n examples per epoch make epochs·n visits in all |
| NeuralNetwork.Shuffle | src/network/network.ts:133 | the shuffled copy is a permutation of the training set; the training set is a value, so the caller's copy cannot change |
| NeuralNetwork.PermutationLengths | src/network/network.ts:133-134 | every shuffled copy has the training set's length, so the inner count-down starting at `trainSet.length - 1` covers it |
| NeuralNetwork.SomeRejected | src/network/network.ts:133-141 | if some example in a shuffled copy causes a shape error, some example of the training set does |
| NeuralNetwork.EpochCoversTrainSet | src/network/network.ts:133-141 | a completed epoch has trained on every example of the training set |
| NeuralNetwork.AcceptedByShape | src/network/network.ts:169-175 | two well-formed models of the same shapes accept exactly the same examples: whether a step raises a shape error depends only on the shapes of the weights |
| NeuralNetwork.Network.GetModelIsState | src/network/network.ts:94-101 | `getModel` returns the object's IH, HO, LR and activation, and that model is well-formed exactly when the object is |
| NeuralNetwork.Network.SetModel | src/network/network.ts:94-113 | after `setModel(m)`, `getModel()` returns m: the same IH, HO, LR and activation |
| NeuralNetwork.Network.Query | src/network/network.ts:152-161 | when the input length is IH's column count and the hidden sizes agree, the result is a flat list of HO's row count, and element i is output unit i of the forward pass; otherwise it is the numjs shape error. As a function that only reads the object, it changes no field |
| NeuralNetwork.Network.BackPropagation | src/network/network.ts:228-237 | both weight fields are replaced by `BackPropagate` of the old model; LR and the activation stay |
| NeuralNetwork.Network.TrainStep | src/network/network.ts:169-175 | it succeeds exactly when the example fits the weights, and then the new model is `Step` of the old one; on a shape error nothing has changed |
| NeuralNetwork.Network.TrainEpoch | src/network/network.ts:134-141 | the inner loop trains on the shuffled copy from its last index down; it completes exactly when every example fits, and then has visited `Reverse(shuffled)`; otherwise it stops with a strict prefix of that order, and the next example of that order is the rejected one; the model is `Run` of the visits, with shapes, LR and activation unchanged |
| NeuralNetwork.Network.TrainShuffledEpoch | src/network/network.ts:133-141 | one pass of the outer loop: the shuffled copy is a permutation of the training set, the epoch's steps extend the run so far, a completed epoch extends the visits by the copy from its last index down, and a stopped one leaves a strict prefix whose next example is rejected |
| NeuralNetwork.EpochAdvance | src/network/network.ts:131-145 | after one epoch the run from the start is the run so far followed by the epoch's steps; the epoch completes exactly when every training example fits; a completed epoch extends the visits by its copy, and a stopped one leaves a strict prefix whose next visit is rejected |
| NeuralNetwork.VisitsSnoc | src/network/network.ts:131-145 | one more epoch appends its shuffled copy, from its last index down, to the visits |
| NeuralNetwork.Network.Train | src/network/network.ts:126-146 | the activation is replaced only when one is given; LR and the shapes stay; each epoch's copy is a permutation of the training set; training completes exactly when epochs ≤ 0, the set is empty, or every example fits; it then takes max(epochs, 0) shuffled copies and max(epochs, 0) times the training set's length steps, visiting each copy from its last index down, epoch after epoch; on a shape error it has made one shuffled copy, the visits are a strict prefix of that copy's order, and the next example of that order is the rejected one; the final model is `Run` of the visits |
| NeuralNetwork.Decode | src/network/network.ts:63-76 | the decoded model has exactly the parsed IH, HO and LR, and the sigmoid as its activation |
| NeuralNetwork.DecodeSerialized | src/network/network.ts:42-76 | decoding what `serialize` writes gives back the weights and the learning rate, with the sigmoid in place of the original activation |
| NeuralNetwork.DecodeIsUnchecked | src/network/network.ts:63-76 | decoding does not check that IH and HO agree on the hidden size: a mismatched pair decodes to a model on which every query fails |
| NeuralNetwork.Network.Deserialize | src/network/network.ts:60-82 | the network built from parsed matrices holds exactly `Decode` of them |

## Left out

- Floating point: elements are exact reals, so rounding, overflow, NaN and infinities are not modelled.
- The activation is any function `real -> real`; the sigmoid's formula and src/network/activators.ts are not part of this model.
- Convergence and accuracy: nothing is claimed about the error shrinking under training, since the code promises nothing about it.
- File I/O and JSON: `serialize` (src/network/network.ts:37-57) and the reading and parsing in `deserialize` are left out. Only the step from parsed arrays to a network is modelled (`Decode`, `Network.Deserialize`), with `tolist` as the matrix's rows (`DecodeSerialized`).
- Randomness: `nj.random` and lodash `shuffle` are arbitrary choices, and no distribution is modelled. `getRandomInt` (src/utils.ts:1-3) is unused by the core and is left out.
- `console.time` and `console.timeEnd` in `train` are logging only.
- Network.Train: `epochs` is an integer. A fractional JavaScript number of epochs, which would run ⌈epochs⌉ epochs, is not modelled.
- Decode: a parsed IH with no rows is given 0 columns. numjs would report a one-dimensional shape, and the original would then construct its network with an undefined input size.
- Decode: ragged parsed arrays are excluded by the precondition `Rectangular`, because numjs's behaviour on them is not part of this model.
- FileNames.GetFileName: only extensions made of a dot and characters with no regular-expression meaning are covered. For other extensions, the original's pattern depends on regular-expression semantics.
- NeuralNetwork.AdditionalWeights: stated only for column-vector inputs, outputs and errors, the only shapes `backPropagation` passes it.
- NeuralNetwork.BackPropagate: stated only for the column shapes `trainStep` produces (`ColumnsFit`). `Network.TrainStep` reports a shape error instead of calling it with other shapes.
- Momentum and the RProp-style adaptive step are absent from the code and are not modelled.
- Network.GetModel and Network.SetModel: matrices are values here. In the original, `getModel` and `setModel` hand over the very `NdArray` objects, so a caller who mutates one of them changes the network. The model does not capture this aliasing. Inside the engine every update is out of place (`add` and `subtract` return new arrays), so the engine itself behaves the same either way.
- Network.constructor: the sizes are natural numbers. The original constructor does not reject negative or fractional sizes, and what numjs then does is not modelled.
- Network.Train: on a shape error the original throws out of `train`; the model returns `Fail` after the epoch in which it occurred, with the steps before it taken. The epoch counter, a local, is decremented once more than in the original on that path.
- src/digit-recognition/digit-recognition.ts (MNIST loading through a foreign library, and test stubs that only throw) and src/index.ts (re-exports) are not part of this model.
