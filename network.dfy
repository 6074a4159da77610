/**
 * The one-hidden-layer perceptron of src/network/network.ts.
 *
 * The weights are exact real matrices and the activation strategy is an
 * arbitrary function `real -> real` applied element-wise; the library sigmoid
 * is passed in wherever the original creates a `Sigmoid`. The pure parts
 * (forward propagation, the weight deltas, one training step, a run of steps,
 * the decoding of a parsed model) are functions; the class `Network` keeps the
 * fields the original reassigns and is proved against those functions.
 */
module NeuralNetwork {
  import opened Wrappers
  import opened Matrices

  /** The learning rate used when the constructor is given none. */
  const DefaultLearningRate: real := 0.3

  /** An activation strategy, reduced to the scalar function its `execute` applies to every element. */
  type Activation = real -> real

  /** One training example (`ITrainItem`). */
  datatype Sample = Sample(inputs: seq<real>, targets: seq<real>)

  /** What `getModel` returns and `setModel` takes (`ModelNN`). */
  datatype Model = Model(IH: Matrix, HO: Matrix, LR: real, activator: Activation)

  /** The two layer outputs of a forward pass (`IForwardResult`). */
  datatype ForwardResult = ForwardResult(hiddenOutputs: Matrix, finalOutputs: Matrix)

  /** The sizes passed to the constructor. */
  datatype Shape = Shape(inputSize: nat, hiddenSize: nat, outputSize: nat)

  /** The error numjs raises when the operands of `dot` or `subtract` have incompatible shapes. */
  datatype ShapeError = ShapeMismatch

  function Max0(n: int): nat {
    if n > 0 then n else 0
  }

  // ---------------------------------------------------------------------------
  // Shapes

  /** Both weight matrices are rectangular arrays (as every NdArray is). */
  predicate Wellformed(m: Model) {
    m.IH.Valid() && m.HO.Valid()
  }

  /** The hidden layer has one size: the columns of HO are the rows of IH. */
  predicate Consistent(m: Model) {
    Wellformed(m) && m.HO.cols == m.IH.rows
  }

  predicate SameShapes(a: Model, b: Model) {
    a.IH.rows == b.IH.rows && a.IH.cols == b.IH.cols &&
    a.HO.rows == b.HO.rows && a.HO.cols == b.HO.cols
  }

  /** A forward pass on this flat input goes through without a numjs shape error. */
  predicate AcceptsInput(m: Model, inputs: seq<real>) {
    Consistent(m) && |inputs| == m.IH.cols
  }

  /** A training step on this example goes through without a numjs shape error. */
  predicate AcceptsSample(m: Model, s: Sample) {
    AcceptsInput(m, s.inputs) && |s.targets| == m.HO.rows
  }

  /**
   * The destructuring `[hiddenSize, inputSize] = IH.shape`,
   * `[outputSize] = HO.shape`. HO's column count is not consulted.
   */
  function InferShape(ih: Matrix, ho: Matrix): (r: Shape)
    ensures r.hiddenSize == ih.rows && r.inputSize == ih.cols && r.outputSize == ho.rows
  {
    Shape(ih.cols, ih.rows, ho.rows)
  }

  // ---------------------------------------------------------------------------
  // Initial weights

  predicate UnitInterval(m: Matrix)
    requires m.Valid()
  {
    forall i, j :: 0 <= i < m.rows && 0 <= j < m.cols ==> 0.0 <= m.cells[i][j] < 1.0
  }

  predicate InitialRange(m: Matrix)
    requires m.Valid()
  {
    forall i, j :: 0 <= i < m.rows && 0 <= j < m.cols ==> -0.5 <= m.cells[i][j] < 0.5
  }

  /** `nj.random([rows, cols])`: some matrix of the shape with every element in [0, 1). */
  method Random(rows: nat, cols: nat) returns (m: Matrix)
    ensures HasShape(m, rows, cols) && UnitInterval(m)
  {
    var zeros := Scale(Ones(rows, cols), 0.0);
    assert HasShape(zeros, rows, cols) && UnitInterval(zeros);
    m :| HasShape(m, rows, cols) && UnitInterval(m);
  }

  /** `generateWeights`, given the draw of `nj.random`: shift every element down by 0.5. */
  function GenerateWeights(draw: Matrix): (w: Matrix)
    requires draw.Valid() && UnitInterval(draw)
    ensures HasShape(w, draw.rows, draw.cols) && InitialRange(w)
    ensures forall i, j :: 0 <= i < w.rows && 0 <= j < w.cols ==> w.cells[i][j] + 0.5 == draw.cells[i][j]
  {
    SubScalar(draw, 0.5)
  }

  // ---------------------------------------------------------------------------
  // Forward propagation

  /** `forwardPropagation`: two matrix products, each followed by the activation. */
  function Forward(m: Model, x: Matrix): (r: ForwardResult)
    requires Consistent(m) && x.Valid() && x.rows == m.IH.cols
    ensures HasShape(r.hiddenOutputs, m.IH.rows, x.cols)
    ensures HasShape(r.finalOutputs, m.HO.rows, x.cols)
    ensures forall i, j :: 0 <= i < m.IH.rows && 0 <= j < x.cols ==>
      r.hiddenOutputs.cells[i][j] == m.activator(SumProducts(m.IH, x, i, j, m.IH.cols))
    ensures forall i, j :: 0 <= i < m.HO.rows && 0 <= j < x.cols ==>
      r.finalOutputs.cells[i][j] == m.activator(SumProducts(m.HO, r.hiddenOutputs, i, j, m.HO.cols))
  {
    var hiddenOutputs := Apply(m.activator, Dot(m.IH, x));
    ForwardResult(hiddenOutputs, Apply(m.activator, Dot(m.HO, hiddenOutputs)))
  }

  // ---------------------------------------------------------------------------
  // Backward propagation

  /**
   * The delta rule for sigmoid units: the change of a weight from a unit whose
   * output is `input` into a unit whose output is `output` and whose error is
   * `error`.
   */
  function Delta(error: real, output: real, input: real, lr: real): real {
    error * output * (1.0 - output) * input * lr
  }

  /**
   * `calcAdditionalWeights` on column vectors: the outer product of
   * errors * outputs * (1 - outputs) with the inputs, times the learning rate.
   */
  function AdditionalWeights(inputs: Matrix, outputs: Matrix, errors: Matrix, lr: real): (r: Matrix)
    requires inputs.Valid() && inputs.cols == 1
    requires SameShape(errors, outputs) && outputs.cols == 1
    ensures HasShape(r, outputs.rows, inputs.rows)
    ensures forall i, j :: 0 <= i < outputs.rows && 0 <= j < inputs.rows ==>
      r.cells[i][j] == Delta(errors.cells[i][0], outputs.cells[i][0], inputs.cells[j][0], lr)
  {
    var ones := Ones(outputs.rows, outputs.cols);
    var arg1 := Multiply(Multiply(errors, outputs), Sub(ones, outputs));
    var arg2 := Transpose(inputs);
    DotOuter(arg1, arg2);
    Scale(Dot(arg1, arg2), lr)
  }

  /** The shapes `backPropagation` is called with: column input, target and layer outputs. */
  predicate ColumnsFit(m: Model, x: Matrix, t: Matrix, fr: ForwardResult) {
    Consistent(m) &&
    HasShape(x, m.IH.cols, 1) && HasShape(t, m.HO.rows, 1) &&
    HasShape(fr.hiddenOutputs, m.IH.rows, 1) && HasShape(fr.finalOutputs, m.HO.rows, 1)
  }

  /**
   * `backPropagation`: both deltas are computed from the weights before the
   * update, the hidden error from the old HO, and both matrices are replaced by
   * new ones.
   */
  function BackPropagate(m: Model, x: Matrix, t: Matrix, fr: ForwardResult): (r: Model)
    requires ColumnsFit(m, x, t, fr)
    ensures Consistent(r) && SameShapes(r, m)
    ensures r.LR == m.LR && r.activator == m.activator
  {
    var outputErrors := Sub(t, fr.finalOutputs);
    var hiddenErrors := Dot(Transpose(m.HO), outputErrors);
    var additionalHO := AdditionalWeights(fr.hiddenOutputs, fr.finalOutputs, outputErrors, m.LR);
    var additionalIH := AdditionalWeights(x, fr.hiddenOutputs, hiddenErrors, m.LR);
    m.(HO := Add(m.HO, additionalHO), IH := Add(m.IH, additionalIH))
  }

  /** The error propagated back to hidden unit i: the sum over k < n of ho[k][i] * errors[k][0]. */
  function Backflow(ho: Matrix, errors: Matrix, i: nat, n: nat): real
    requires ho.Valid() && errors.Valid() && errors.cols == 1
    requires i < ho.cols && n <= ho.rows && n <= errors.rows
  {
    if n == 0 then 0.0 else Backflow(ho, errors, i, n - 1) + ho.cells[n - 1][i] * errors.cells[n - 1][0]
  }

  /** `ho.T.dot(errors)` is the back-flow of the errors through the connections of ho. */
  lemma {:induction false} TransposeDotIsBackflow(ho: Matrix, errors: Matrix, i: nat, n: nat)
    requires ho.Valid() && errors.Valid() && errors.cols == 1 && errors.rows == ho.rows
    requires i < ho.cols && n <= ho.rows
    ensures SumProducts(Transpose(ho), errors, i, 0, n) == Backflow(ho, errors, i, n)
  {
    if n > 0 {
      TransposeDotIsBackflow(ho, errors, i, n - 1);
    }
  }

  /** Every new hidden-to-output weight is the old one plus its delta. */
  lemma BackPropagateOutputWeight(m: Model, x: Matrix, t: Matrix, fr: ForwardResult, i: nat, j: nat)
    requires ColumnsFit(m, x, t, fr)
    requires i < m.HO.rows && j < m.HO.cols
    ensures var outputErrors := Sub(t, fr.finalOutputs);
      BackPropagate(m, x, t, fr).HO.cells[i][j] ==
      m.HO.cells[i][j] + Delta(outputErrors.cells[i][0], fr.finalOutputs.cells[i][0], fr.hiddenOutputs.cells[j][0], m.LR)
  {
  }

  /**
   * Every new input-to-hidden weight is the old one plus its delta, the hidden
   * error being the output errors sent back through the OLD hidden-to-output
   * weights.
   */
  lemma BackPropagateHiddenWeight(m: Model, x: Matrix, t: Matrix, fr: ForwardResult, i: nat, j: nat)
    requires ColumnsFit(m, x, t, fr)
    requires i < m.IH.rows && j < m.IH.cols
    ensures var h := fr.hiddenOutputs.cells[i][0];
      var hiddenError := Backflow(m.HO, Sub(t, fr.finalOutputs), i, m.HO.rows);
      BackPropagate(m, x, t, fr).IH.cells[i][j] ==
      m.IH.cells[i][j] + Delta(hiddenError, h, x.cells[j][0], m.LR)
  {
    TransposeDotIsBackflow(m.HO, Sub(t, fr.finalOutputs), i, m.HO.rows);
  }

  // ---------------------------------------------------------------------------
  // Training

  /** The output of hidden unit j in the forward pass on an example's inputs. */
  function HiddenOutput(m: Model, s: Sample, j: nat): real
    requires AcceptsSample(m, s) && j < m.IH.rows
  {
    Forward(m, Column(s.inputs)).hiddenOutputs.cells[j][0]
  }

  /** The output of output unit i in the forward pass on an example's inputs. */
  function FinalOutput(m: Model, s: Sample, i: nat): real
    requires AcceptsSample(m, s) && i < m.HO.rows
  {
    Forward(m, Column(s.inputs)).finalOutputs.cells[i][0]
  }

  /** The error of output unit i: its target minus its output. */
  function OutputError(m: Model, s: Sample, i: nat): real
    requires AcceptsSample(m, s) && i < m.HO.rows
  {
    s.targets[i] - FinalOutput(m, s, i)
  }

  /**
   * The error sent back to hidden unit j: the sum over output units k < n of
   * the weight HO[k][j] times the error of unit k.
   */
  function HiddenError(m: Model, s: Sample, j: nat, n: nat): real
    requires AcceptsSample(m, s) && j < m.IH.rows && n <= m.HO.rows
  {
    if n == 0 then 0.0 else HiddenError(m, s, j, n - 1) + m.HO.cells[n - 1][j] * OutputError(m, s, n - 1)
  }

  function HOEntry(m: Model, s: Sample, i: nat, j: nat): real
    requires AcceptsSample(m, s) && i < m.HO.rows && j < m.HO.cols
  {
    m.HO.cells[i][j] + Delta(OutputError(m, s, i), FinalOutput(m, s, i), HiddenOutput(m, s, j), m.LR)
  }

  function IHEntry(m: Model, s: Sample, j: nat, k: nat): real
    requires AcceptsSample(m, s) && j < m.IH.rows && k < m.IH.cols
  {
    m.IH.cells[j][k] + Delta(HiddenError(m, s, j, m.HO.rows), HiddenOutput(m, s, j), s.inputs[k], m.LR)
  }

  /**
   * One training step on an example, stated weight by weight: every weight
   * changes by its delta, the hidden errors being taken through the weights
   * from before the step. `StepIsBackPropagation` shows that `trainStep`'s
   * matrix computation is exactly this.
   */
  function Step(m: Model, s: Sample): (r: Model)
    requires AcceptsSample(m, s)
    ensures Consistent(r) && SameShapes(r, m)
    ensures r.LR == m.LR && r.activator == m.activator
  {
    m.(HO := Matrix(m.HO.rows, m.HO.cols,
         seq(m.HO.rows, i requires 0 <= i < m.HO.rows =>
           seq(m.HO.cols, j requires 0 <= j < m.HO.cols =>
             HOEntry(m, s, i, j)))),
       IH := Matrix(m.IH.rows, m.IH.cols,
         seq(m.IH.rows, j requires 0 <= j < m.IH.rows =>
           seq(m.IH.cols, k requires 0 <= k < m.IH.cols =>
             IHEntry(m, s, j, k)))))
  }

  /** The back-flow of the output errors of a forward pass is the hidden error. */
  lemma {:induction false} BackflowIsHiddenError(m: Model, s: Sample, j: nat, n: nat)
    requires AcceptsSample(m, s) && j < m.IH.rows && n <= m.HO.rows
    ensures var fr := Forward(m, Column(s.inputs));
      Backflow(m.HO, Sub(Column(s.targets), fr.finalOutputs), j, n) == HiddenError(m, s, j, n)
  {
    if n > 0 {
      BackflowIsHiddenError(m, s, j, n - 1);
      var fr := Forward(m, Column(s.inputs));
      assert Sub(Column(s.targets), fr.finalOutputs).cells[n - 1][0] == OutputError(m, s, n - 1);
    }
  }

  lemma OutputWeightIsDelta(m: Model, s: Sample, i: nat, j: nat)
    requires AcceptsSample(m, s) && i < m.HO.rows && j < m.HO.cols
    ensures var x := Column(s.inputs);
      BackPropagate(m, x, Column(s.targets), Forward(m, x)).HO.cells[i][j] == Step(m, s).HO.cells[i][j]
  {
    var x, t := Column(s.inputs), Column(s.targets);
    var fr := Forward(m, x);
    BackPropagateOutputWeight(m, x, t, fr, i, j);
    assert OutputError(m, s, i) == Sub(t, fr.finalOutputs).cells[i][0];
    assert Step(m, s).HO.cells[i][j] == HOEntry(m, s, i, j);
  }

  lemma HiddenWeightIsDelta(m: Model, s: Sample, j: nat, k: nat)
    requires AcceptsSample(m, s) && j < m.IH.rows && k < m.IH.cols
    ensures var x := Column(s.inputs);
      BackPropagate(m, x, Column(s.targets), Forward(m, x)).IH.cells[j][k] == Step(m, s).IH.cells[j][k]
  {
    var x, t := Column(s.inputs), Column(s.targets);
    var fr := Forward(m, x);
    BackPropagateHiddenWeight(m, x, t, fr, j, k);
    BackflowIsHiddenError(m, s, j, m.HO.rows);
    assert x.cells[k][0] == s.inputs[k];
    assert Step(m, s).IH.cells[j][k] == IHEntry(m, s, j, k);
  }

  /** The hidden-to-output weights `backPropagation` computes are the delta-rule ones. */
  lemma OutputLayerIsDeltaRule(m: Model, s: Sample)
    requires AcceptsSample(m, s)
    ensures var x := Column(s.inputs);
      BackPropagate(m, x, Column(s.targets), Forward(m, x)).HO == Step(m, s).HO
  {
    var x := Column(s.inputs);
    var bp, st := BackPropagate(m, x, Column(s.targets), Forward(m, x)).HO, Step(m, s).HO;
    forall i, j | 0 <= i < m.HO.rows && 0 <= j < m.HO.cols
      ensures bp.cells[i][j] == st.cells[i][j]
    {
      OutputWeightIsDelta(m, s, i, j);
    }
    Extensionality(bp, st);
  }

  /** The input-to-hidden weights `backPropagation` computes are the delta-rule ones. */
  lemma HiddenLayerIsDeltaRule(m: Model, s: Sample)
    requires AcceptsSample(m, s)
    ensures var x := Column(s.inputs);
      BackPropagate(m, x, Column(s.targets), Forward(m, x)).IH == Step(m, s).IH
  {
    var x := Column(s.inputs);
    var bp, st := BackPropagate(m, x, Column(s.targets), Forward(m, x)).IH, Step(m, s).IH;
    forall j, k | 0 <= j < m.IH.rows && 0 <= k < m.IH.cols
      ensures bp.cells[j][k] == st.cells[j][k]
    {
      HiddenWeightIsDelta(m, s, j, k);
    }
    Extensionality(bp, st);
  }

  /**
   * `trainStep`: a forward pass on the example followed by `backPropagation`
   * computes exactly the delta-rule step.
   */
  lemma StepIsBackPropagation(m: Model, s: Sample)
    requires AcceptsSample(m, s)
    ensures var x := Column(s.inputs);
      BackPropagate(m, x, Column(s.targets), Forward(m, x)) == Step(m, s)
  {
    OutputLayerIsDeltaRule(m, s);
    HiddenLayerIsDeltaRule(m, s);
  }

  predicate AllAccepted(m: Model, samples: seq<Sample>) {
    forall k :: 0 <= k < |samples| ==> AcceptsSample(m, samples[k])
  }

  /** The model after the training steps of `trace`, taken in order. */
  function Run(m: Model, trace: seq<Sample>): (r: Model)
    requires Wellformed(m) && AllAccepted(m, trace)
    ensures Wellformed(r) && SameShapes(r, m)
    ensures r.LR == m.LR && r.activator == m.activator
    decreases |trace|
  {
    if trace == [] then m
    else
      var prev := Run(m, trace[..|trace| - 1]);
      Step(prev, trace[|trace| - 1])
  }

  /** The elements s[|s| - 1], s[|s| - 2], ..., s[k]: a count-down from the last index to k. */
  function Descending(s: seq<Sample>, k: nat): (r: seq<Sample>)
    requires k <= |s|
    ensures |r| == |s| - k
    decreases |s| - k
  {
    if k == |s| then [] else Descending(s, k + 1) + [s[k]]
  }

  /** A sequence in descending index order. */
  function Reverse(s: seq<Sample>): (r: seq<Sample>)
    ensures |r| == |s|
  {
    Descending(s, 0)
  }

  /** Position i of a count-down from the end to k holds s[|s| - 1 - i]. */
  lemma {:induction false} DescendingAt(s: seq<Sample>, k: nat, i: nat)
    requires k <= |s| && i < |s| - k
    ensures Descending(s, k)[i] == s[|s| - 1 - i]
    decreases |s| - k
  {
    if i < |s| - k - 1 {
      DescendingAt(s, k + 1, i);
    }
  }

  /** Reverse lists the elements from the last index down to index 0. */
  lemma ReverseAt(s: seq<Sample>, i: nat)
    requires i < |s|
    ensures Reverse(s)[i] == s[|s| - 1 - i]
  {
    DescendingAt(s, 0, i);
  }

  /** A model that accepts every example of the reversed sequence accepts every example of the sequence. */
  lemma ReverseAccepted(m: Model, s: seq<Sample>)
    requires AllAccepted(m, Reverse(s))
    ensures AllAccepted(m, s)
  {
    forall k | 0 <= k < |s|
      ensures AcceptsSample(m, s[k])
    {
      ReverseAt(s, |s| - 1 - k);
    }
  }

  /** A count-down stopped early is a prefix of a longer one, strictly when it stopped before. */
  lemma {:induction false} DescendingPrefix(s: seq<Sample>, k: nat, j: nat)
    requires j <= k <= |s|
    ensures Descending(s, k) <= Descending(s, j)
    ensures j < k ==> Descending(s, k) < Descending(s, j)
    decreases k - j
  {
    if j < k {
      DescendingPrefix(s, k, j + 1);
    }
  }

  /** A count-down visits every element from k on exactly as often as it occurs. */
  lemma {:induction false} DescendingMultiset(s: seq<Sample>, k: nat)
    requires k <= |s|
    ensures multiset(Descending(s, k)) == multiset(s[k..])
    decreases |s| - k
  {
    if k < |s| {
      DescendingMultiset(s, k + 1);
      assert s[k..] == [s[k]] + s[k + 1..];
    }
  }

  /** Reversing visits every element exactly as often as it occurs. */
  lemma ReverseMultiset(s: seq<Sample>)
    ensures multiset(Reverse(s)) == multiset(s)
  {
    DescendingMultiset(s, 0);
    assert s[0..] == s;
  }

  /** The examples trained on, epoch after epoch, each epoch's shuffled copy from its last index down. */
  function Visits(shuffles: seq<seq<Sample>>): seq<Sample>
  {
    if shuffles == [] then [] else Visits(shuffles[..|shuffles| - 1]) + Reverse(shuffles[|shuffles| - 1])
  }

  /** With n examples per epoch, epoch e occupies positions e*n up to (e+1)*n of the visits. */
  lemma {:induction false} VisitsSegment(shuffles: seq<seq<Sample>>, n: nat, e: nat)
    requires forall k :: 0 <= k < |shuffles| ==> |shuffles[k]| == n
    requires e < |shuffles|
    ensures |Visits(shuffles)| == |shuffles| * n
    ensures e * n + n <= |Visits(shuffles)|
    ensures Visits(shuffles)[e * n .. e * n + n] == Reverse(shuffles[e])
  {
    var last := |shuffles| - 1;
    var init := shuffles[..last];
    var before, final := Visits(init), Reverse(shuffles[last]);
    assert Visits(shuffles) == before + final;
    VisitsLength(init, n);
    MulSucc(last, n);
    if e < last {
      VisitsSegment(init, n, e);
      assert init[e] == shuffles[e];
      SliceOfLeft(before, final, e * n, e * n + n);
    } else {
      SliceOfRight(before, final);
    }
  }

  lemma {:induction false} VisitsLength(shuffles: seq<seq<Sample>>, n: nat)
    requires forall k :: 0 <= k < |shuffles| ==> |shuffles[k]| == n
    ensures |Visits(shuffles)| == |shuffles| * n
  {
    if shuffles != [] {
      VisitsLength(shuffles[..|shuffles| - 1], n);
      MulSucc(|shuffles| - 1, n);
    }
  }

  lemma MulSucc(a: nat, n: nat)
    ensures (a + 1) * n == a * n + n
  {
  }

  lemma SliceOfLeft(a: seq<Sample>, b: seq<Sample>, lo: nat, hi: nat)
    requires lo <= hi <= |a|
    ensures (a + b)[lo..hi] == a[lo..hi]
  {
  }

  lemma SliceOfRight(a: seq<Sample>, b: seq<Sample>)
    ensures (a + b)[|a|..|a| + |b|] == b
  {
  }

  /** `_shuffle(trainSet)`: some permutation of the training set, as a new sequence. */
  method Shuffle(trainSet: seq<Sample>) returns (shuffled: seq<Sample>)
    ensures multiset(shuffled) == multiset(trainSet)
  {
    shuffled :| multiset(shuffled) == multiset(trainSet);
  }

  // ---------------------------------------------------------------------------
  // Deserialization

  /**
   * The network `deserialize` returns for the parsed fields IH, HO and LR:
   * the weights are exactly the parsed arrays and the activation is the
   * library sigmoid, whatever the serialized network had.
   */
  function Decode(ih: seq<seq<real>>, ho: seq<seq<real>>, lr: real, sigmoid: Activation): (m: Model)
    requires Rectangular(ih) && Rectangular(ho)
    ensures Wellformed(m) && m.IH.cells == ih && m.HO.cells == ho
    ensures m.LR == lr && m.activator == sigmoid
  {
    Model(FromList(ih), FromList(ho), lr, sigmoid)
  }

  /**
   * Serializing (`tolist` of both matrices, and LR) and deserializing gives
   * back the weights and the learning rate, and the sigmoid in place of the
   * activation; a weight matrix with no rows would lose its column count.
   */
  lemma DecodeSerialized(m: Model, sigmoid: Activation)
    requires Wellformed(m) && m.IH.rows > 0 && m.HO.rows > 0
    ensures Rectangular(m.IH.cells) && Rectangular(m.HO.cells)
    ensures Decode(m.IH.cells, m.HO.cells, m.LR, sigmoid) == m.(activator := sigmoid)
  {
    FromListToList(m.IH);
    FromListToList(m.HO);
  }

  /** Nothing checks that IH and HO agree on the hidden size: this pair decodes to an unusable model. */
  lemma DecodeIsUnchecked(sigmoid: Activation)
    ensures Rectangular([[1.0]]) && Rectangular([[1.0, 2.0]])
    ensures !Consistent(Decode([[1.0]], [[1.0, 2.0]], 0.3, sigmoid))
    ensures !AcceptsInput(Decode([[1.0]], [[1.0, 2.0]], 0.3, sigmoid), [1.0])
  {
  }

  // ---------------------------------------------------------------------------
  // The network object

  class Network {
    var weightsIH: Matrix
    var weightsHO: Matrix
    var LR: real
    var activator: Activation

    ghost predicate Valid()
      reads this
    {
      weightsIH.Valid() && weightsHO.Valid()
    }

    /** `getModel` */
    function GetModel(): Model
      reads this
    {
      Model(weightsIH, weightsHO, LR, activator)
    }

    /**
     * `getModel` hands out the object's four fields, and the model is
     * well-formed exactly when the object is.
     */
    lemma GetModelIsState()
      ensures GetModel().IH == weightsIH && GetModel().HO == weightsHO
      ensures GetModel().LR == LR && GetModel().activator == activator
      ensures Valid() <==> Wellformed(GetModel())
    {
    }

    /**
     * `new Network(inputSize, hiddenSize, outputSize, LR)`: random initial
     * weights of the two shapes, and the sigmoid as the activation.
     */
    constructor (inputSize: nat, hiddenSize: nat, outputSize: nat, sigmoid: Activation, LR: real := DefaultLearningRate)
      ensures Valid() && Consistent(GetModel())
      ensures HasShape(weightsIH, hiddenSize, inputSize) && HasShape(weightsHO, outputSize, hiddenSize)
      ensures InferShape(weightsIH, weightsHO) == Shape(inputSize, hiddenSize, outputSize)
      ensures InitialRange(weightsIH) && InitialRange(weightsHO)
      ensures this.LR == LR && activator == sigmoid
    {
      var drawIH := Random(hiddenSize, inputSize);
      var drawHO := Random(outputSize, hiddenSize);
      weightsIH := GenerateWeights(drawIH);
      weightsHO := GenerateWeights(drawHO);
      this.LR := LR;
      activator := sigmoid;
    }

    /** `setModel`: replaces the whole state, so that `getModel` returns what was set. */
    method SetModel(model: Model)
      requires Wellformed(model)
      modifies this
      ensures Valid() && GetModel() == model
    {
      weightsIH := model.IH;
      weightsHO := model.HO;
      LR := model.LR;
      activator := model.activator;
    }

    /**
     * `query`: the output column of a forward pass, flattened; a numjs shape
     * error when the input length or the hidden sizes do not fit.
     */
    function Query(inputs: seq<real>): (r: Result<seq<real>, ShapeError>)
      reads this
      requires Valid()
      ensures r.Ok? <==> AcceptsInput(GetModel(), inputs)
      ensures r.Ok? ==> |r.value| == weightsHO.rows
      ensures r.Ok? ==> forall i :: 0 <= i < |r.value| ==>
        r.value[i] == Forward(GetModel(), Column(inputs)).finalOutputs.cells[i][0]
    {
      if AcceptsInput(GetModel(), inputs) then
        var forwardResult := Forward(GetModel(), Column(inputs));
        Ok(Flatten(forwardResult.finalOutputs))
      else
        Err(ShapeMismatch)
    }

    /** `backPropagation`: both weight fields are replaced; LR and the activation stay. */
    method BackPropagation(inputMatrix: Matrix, targetMatrix: Matrix, result: ForwardResult)
      requires ColumnsFit(GetModel(), inputMatrix, targetMatrix, result)
      modifies this
      ensures Valid()
      ensures GetModel() == BackPropagate(old(GetModel()), inputMatrix, targetMatrix, result)
    {
      var outputErrors := Sub(targetMatrix, result.finalOutputs);
      var hiddenErrors := Dot(Transpose(weightsHO), outputErrors);
      var additionalHO := AdditionalWeights(result.hiddenOutputs, result.finalOutputs, outputErrors, LR);
      var additionalIH := AdditionalWeights(inputMatrix, result.hiddenOutputs, hiddenErrors, LR);
      weightsHO := Add(weightsHO, additionalHO);
      weightsIH := Add(weightsIH, additionalIH);
    }

    /** `trainStep`; fails with the numjs shape error, before changing anything, when the example does not fit. */
    method TrainStep(inputs: seq<real>, targets: seq<real>) returns (outcome: Outcome<ShapeError>)
      requires Valid()
      modifies this
      ensures Valid()
      ensures outcome.Pass? <==> AcceptsSample(old(GetModel()), Sample(inputs, targets))
      ensures outcome.Pass? ==> GetModel() == Step(old(GetModel()), Sample(inputs, targets))
      ensures outcome.Fail? ==> GetModel() == old(GetModel())
    {
      if !AcceptsSample(GetModel(), Sample(inputs, targets)) {
        return Fail(ShapeMismatch);
      }
      var inputMatrix := Column(inputs);
      var targetMatrix := Column(targets);
      var forwardResult := Forward(GetModel(), inputMatrix);
      BackPropagation(inputMatrix, targetMatrix, forwardResult);
      StepIsBackPropagation(old(GetModel()), Sample(inputs, targets));
      outcome := Pass;
    }

    /**
     * One epoch of `train`, the inner loop: trains on `shuffled[|shuffled| - 1]`
     * down to `shuffled[0]`, stopping at the first shape error. The ghost
     * result lists the examples trained on, in order.
     */
    method TrainEpoch(shuffled: seq<Sample>) returns (outcome: Outcome<ShapeError>, ghost epochTrace: seq<Sample>)
      requires Valid()
      modifies this
      ensures Valid() && SameShapes(GetModel(), old(GetModel()))
      ensures LR == old(LR) && activator == old(activator)
      ensures AllAccepted(old(GetModel()), epochTrace)
      ensures GetModel() == Run(old(GetModel()), epochTrace)
      ensures outcome.Pass? <==> AllAccepted(old(GetModel()), shuffled)
      ensures outcome.Pass? ==> epochTrace == Reverse(shuffled)
      ensures outcome.Fail? ==> epochTrace < Reverse(shuffled)
      ensures outcome.Fail? ==> !AcceptsSample(old(GetModel()), Reverse(shuffled)[|epochTrace|])
    {
      ghost var start := GetModel();
      var trainCounter := |shuffled| - 1;
      epochTrace := [];
      while trainCounter >= 0
        invariant -1 <= trainCounter < |shuffled|
        invariant epochTrace == Descending(shuffled, trainCounter + 1)
        invariant Valid() && SameShapes(GetModel(), start)
        invariant LR == start.LR && activator == start.activator
        invariant AllAccepted(start, epochTrace)
        invariant GetModel() == Run(start, epochTrace)
        decreases trainCounter + 1
      {
        var sample := shuffled[trainCounter];
        var stepOutcome := TrainStep(sample.inputs, sample.targets);
        assert Sample(sample.inputs, sample.targets) == sample;
        if stepOutcome.Fail? {
          assert !AcceptsSample(start, shuffled[trainCounter]);
          DescendingPrefix(shuffled, trainCounter + 1, 0);
          ReverseAt(shuffled, |shuffled| - 1 - trainCounter);
          return stepOutcome, epochTrace;
        }
        assert AcceptsSample(start, sample);
        RunSnoc(start, epochTrace, sample);
        epochTrace := epochTrace + [sample];
        trainCounter := trainCounter - 1;
      }
      ReverseAccepted(start, shuffled);
      outcome := Pass;
    }

    /**
     * The body of `train`'s outer loop: a fresh shuffled copy of the training
     * set, then one epoch on it. Given the run and the visits so far, the
     * epoch's steps extend the run, and a completed epoch extends the visits
     * by the copy from its last index down; a stopped one leaves a strict
     * prefix whose next example is the rejected one.
     */
    method TrainShuffledEpoch(trainSet: seq<Sample>, ghost start: Model, ghost shuffles: seq<seq<Sample>>, ghost trace: seq<Sample>)
      returns (outcome: Outcome<ShapeError>, shuffled: seq<Sample>, ghost epochTrace: seq<Sample>)
      requires Valid() && Wellformed(start) && SameShapes(GetModel(), start)
      requires LR == start.LR && activator == start.activator
      requires trace == Visits(shuffles) && AllAccepted(start, trace)
      requires GetModel() == Run(start, trace)
      modifies this
      ensures Valid() && SameShapes(GetModel(), start)
      ensures LR == start.LR && activator == start.activator
      ensures multiset(shuffled) == multiset(trainSet)
      ensures AllAccepted(start, trace + epochTrace)
      ensures GetModel() == Run(start, trace + epochTrace)
      ensures outcome.Pass? <==> AllAccepted(start, trainSet)
      ensures outcome.Pass? ==> trace + epochTrace == Visits(shuffles + [shuffled])
      ensures outcome.Fail? ==> trace + epochTrace < Visits(shuffles + [shuffled])
      ensures outcome.Fail? ==> !AcceptsSample(start, Visits(shuffles + [shuffled])[|trace + epochTrace|])
    {
      shuffled := Shuffle(trainSet);
      ghost var mid := GetModel();
      outcome, epochTrace := TrainEpoch(shuffled);
      EpochAdvance(start, mid, trainSet, shuffles, trace, shuffled, epochTrace, outcome.Pass?);
    }

    /**
     * `train`: installs the given activation, if any, then for each of the
     * `epochs` epochs trains on every example of a fresh shuffled copy of the
     * training set, from its last index down to 0. The ghost results record
     * the shuffled copies and the examples trained on, in order. A shape error
     * stops training where it occurs, keeping the steps already taken.
     */
    method Train(trainSet: seq<Sample>, epochs: int, newActivator: Option<Activation>)
      returns (outcome: Outcome<ShapeError>, ghost shuffles: seq<seq<Sample>>, ghost trace: seq<Sample>)
      requires Valid()
      modifies this
      ensures Valid()
      ensures activator == (if newActivator.Some? then newActivator.value else old(activator))
      ensures LR == old(LR)
      ensures AllAccepted(old(GetModel()), trace)
      ensures GetModel() == Run(old(GetModel()).(activator := activator), trace)
      ensures SameShapes(GetModel(), old(GetModel()))
      ensures forall e :: 0 <= e < |shuffles| ==> multiset(shuffles[e]) == multiset(trainSet)
      ensures outcome.Pass? <==> epochs <= 0 || trainSet == [] || AllAccepted(old(GetModel()), trainSet)
      ensures outcome.Pass? ==> |shuffles| == Max0(epochs) && trace == Visits(shuffles)
      ensures outcome.Pass? ==> |trace| == Max0(epochs) * |trainSet|
      ensures outcome.Fail? ==> |shuffles| == 1 && 1 <= Max0(epochs) && trace < Visits(shuffles)
      ensures outcome.Fail? ==> !AcceptsSample(old(GetModel()), Visits(shuffles)[|trace|])
    {
      if newActivator.Some? {
        activator := newActivator.value;
      }
      ghost var start := GetModel();
      assert start == old(GetModel()).(activator := activator);
      shuffles, trace := [], [];
      outcome := Pass;
      var epochCounter := epochs;
      while epochCounter > 0 && outcome.Pass?
        invariant Valid() && SameShapes(GetModel(), start)
        invariant LR == start.LR && activator == start.activator
        invariant |shuffles| == Max0(epochs) - Max0(epochCounter)
        invariant forall e :: 0 <= e < |shuffles| ==> multiset(shuffles[e]) == multiset(trainSet)
        invariant AllAccepted(start, trace)
        invariant GetModel() == Run(start, trace)
        invariant outcome.Pass? ==> |shuffles| > 0 ==> AllAccepted(start, trainSet)
        invariant outcome.Pass? ==> trace == Visits(shuffles)
        invariant outcome.Fail? ==> |shuffles| == 1 && epochs > 0 && !AllAccepted(start, trainSet)
        invariant outcome.Fail? ==> trace < Visits(shuffles) && !AcceptsSample(start, Visits(shuffles)[|trace|])
        decreases epochCounter
      {
        var shuffled;
        ghost var epochTrace;
        outcome, shuffled, epochTrace := TrainShuffledEpoch(trainSet, start, shuffles, trace);
        shuffles := shuffles + [shuffled];
        trace := trace + epochTrace;
        epochCounter := epochCounter - 1;
      }
      PermutationLengths(shuffles, trainSet);
      VisitsLength(shuffles, |trainSet|);
      AcceptedByShape(old(GetModel()), start, trace);
      AcceptedByShape(old(GetModel()), start, trainSet);
    }

    /**
     * `deserialize` after the file has been read and parsed: a network is
     * constructed with the sizes inferred from the parsed matrices, then given
     * the parsed weights, the parsed LR and the sigmoid.
     */
    static method Deserialize(ih: seq<seq<real>>, ho: seq<seq<real>>, lr: real, sigmoid: Activation)
      returns (nn: Network)
      requires Rectangular(ih) && Rectangular(ho)
      ensures fresh(nn) && nn.Valid()
      ensures nn.GetModel() == Decode(ih, ho, lr, sigmoid)
    {
      var weightsIH := FromList(ih);
      var weightsHO := FromList(ho);
      var shape := InferShape(weightsIH, weightsHO);
      nn := new Network(shape.inputSize, shape.hiddenSize, shape.outputSize, sigmoid);
      nn.SetModel(Model(weightsIH, weightsHO, lr, sigmoid));
    }
  }

  /** Whether a model accepts an example depends only on its shapes. */
  lemma AcceptedByShape(a: Model, b: Model, samples: seq<Sample>)
    requires Wellformed(a) && Wellformed(b) && SameShapes(a, b)
    ensures AllAccepted(a, samples) <==> AllAccepted(b, samples)
  {
  }

  /** Running two traces one after the other is running their concatenation. */
  lemma {:induction false} RunAppend(m: Model, t1: seq<Sample>, t2: seq<Sample>)
    requires Wellformed(m) && AllAccepted(m, t1) && AllAccepted(m, t2)
    ensures AllAccepted(m, t1 + t2) && AllAccepted(Run(m, t1), t2)
    ensures Run(m, t1 + t2) == Run(Run(m, t1), t2)
    decreases |t2|
  {
    var mid := Run(m, t1);
    AcceptedByShape(m, mid, t2);
    if t2 == [] {
      assert t1 + t2 == t1;
    } else {
      var n := |t2| - 1;
      assert AllAccepted(m, t2[..n]);
      RunAppend(m, t1, t2[..n]);
      assert (t1 + t2)[..|t1 + t2| - 1] == t1 + t2[..n];
      assert (t1 + t2)[|t1 + t2| - 1] == t2[n];
    }
  }

  /** One more step extends a run by one. */
  lemma RunSnoc(m: Model, trace: seq<Sample>, s: Sample)
    requires Wellformed(m) && AllAccepted(m, trace) && AcceptsSample(m, s)
    ensures AllAccepted(m, trace + [s])
    ensures Run(m, trace + [s]) == Step(Run(m, trace), s)
  {
    assert (trace + [s])[..|trace|] == trace;
  }

  /** Permutations of one training set all have its length. */
  lemma PermutationLengths(shuffles: seq<seq<Sample>>, trainSet: seq<Sample>)
    requires forall e :: 0 <= e < |shuffles| ==> multiset(shuffles[e]) == multiset(trainSet)
    ensures forall e :: 0 <= e < |shuffles| ==> |shuffles[e]| == |trainSet|
  {
    forall e | 0 <= e < |shuffles|
      ensures |shuffles[e]| == |trainSet|
    {
      assert |multiset(shuffles[e])| == |multiset(trainSet)|;
    }
  }

  /**
   * The bookkeeping of one epoch of `train`: the steps of the epoch, taken
   * from the model reached so far, extend the run from the start; a completed
   * epoch extends the visits by its shuffled copy from the last index down,
   * and a stopped one leaves a strict prefix whose next example is rejected.
   */
  lemma EpochAdvance(start: Model, mid: Model, trainSet: seq<Sample>, shuffles: seq<seq<Sample>>,
                     trace: seq<Sample>, shuffled: seq<Sample>, epochTrace: seq<Sample>, pass: bool)
    requires Wellformed(start) && Wellformed(mid) && SameShapes(mid, start)
    requires multiset(shuffled) == multiset(trainSet)
    requires trace == Visits(shuffles) && AllAccepted(start, trace)
    requires AllAccepted(mid, epochTrace)
    requires pass <==> AllAccepted(mid, shuffled)
    requires pass ==> epochTrace == Reverse(shuffled)
    requires !pass ==> epochTrace < Reverse(shuffled) && !AcceptsSample(mid, Reverse(shuffled)[|epochTrace|])
    ensures AllAccepted(start, trace + epochTrace) && AllAccepted(Run(start, trace), epochTrace)
    ensures Run(start, trace + epochTrace) == Run(Run(start, trace), epochTrace)
    ensures pass <==> AllAccepted(start, trainSet)
    ensures pass ==> trace + epochTrace == Visits(shuffles + [shuffled])
    ensures !pass ==> trace + epochTrace < Visits(shuffles + [shuffled])
    ensures !pass ==> !AcceptsSample(start, Visits(shuffles + [shuffled])[|trace + epochTrace|])
  {
    AcceptedByShape(mid, start, epochTrace);
    AcceptedByShape(mid, start, shuffled);
    RunAppend(start, trace, epochTrace);
    VisitsSnoc(shuffles, shuffled);
    if pass {
      EpochCoversTrainSet(start, trainSet, shuffled);
    } else {
      SomeRejected(start, trainSet, shuffled);
      PrefixGrows(trace, epochTrace, Reverse(shuffled));
    }
  }

  /** One more epoch appends its shuffled copy, from the last index down, to the visits. */
  lemma VisitsSnoc(prior: seq<seq<Sample>>, shuffled: seq<Sample>)
    ensures Visits(prior + [shuffled]) == Visits(prior) + Reverse(shuffled)
  {
    assert (prior + [shuffled])[..|prior|] == prior;
  }

  lemma PrefixGrows(t: seq<Sample>, p: seq<Sample>, s: seq<Sample>)
    requires p < s
    ensures t + p < t + s
  {
    assert (t + s)[..|t + p|] == t + p;
  }

  /** If some example of an epoch's shuffled copy is rejected, so is some example of the training set. */
  lemma SomeRejected(m: Model, trainSet: seq<Sample>, shuffled: seq<Sample>)
    requires multiset(shuffled) == multiset(trainSet)
    requires !AllAccepted(m, shuffled)
    ensures !AllAccepted(m, trainSet)
  {
    var k :| 0 <= k < |shuffled| && !AcceptsSample(m, shuffled[k]);
    assert shuffled[k] in multiset(trainSet);
  }

  /** After a whole epoch has been accepted, so has every example of the training set. */
  lemma EpochCoversTrainSet(m: Model, trainSet: seq<Sample>, shuffled: seq<Sample>)
    requires multiset(shuffled) == multiset(trainSet)
    requires AllAccepted(m, Reverse(shuffled))
    ensures AllAccepted(m, trainSet)
  {
    ReverseMultiset(shuffled);
    forall k | 0 <= k < |trainSet|
      ensures AcceptsSample(m, trainSet[k])
    {
      assert trainSet[k] in multiset(Reverse(shuffled));
      var p :| 0 <= p < |shuffled| && Reverse(shuffled)[p] == trainSet[k];
    }
  }
}
