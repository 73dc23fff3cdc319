/**
 * MLPBinaryClassifier: the object that owns the parameter lists and the loss
 * histories and updates them in place. Every method is proved against the
 * functions of module Network, applied to a snapshot of the object's fields.
 */
module Classifier {
  import opened Wrappers
  import opened Matrices
  import opened Activations
  import opened Losses
  import opened Penalty
  import opened Network
  import opened Runs

  /** ValueError for a wrong number of activations; KeyError for a name not in the registry. */
  datatype ConfigError = ActivationCountMismatch | UnknownActivation(name: string)

  /** np.dot's ValueError when the input's width is not the first weight matrix's height. */
  datatype ShapeError = InputWidthMismatch(expected: nat, found: nat)

  /** The logging of epoch 0 reads `val_loss`, which is never assigned when y_val is missing. */
  datatype TrainError = UnboundValLoss

  // ------------------------------------------------------------ construction

  /** np.random.randn(sizes[i], sizes[i + 1]) * 0.01, with `noise` giving the normal draws */
  function InitialWeight(sizes: seq<nat>, noise: Draws, i: nat): (w: Matrix)
    requires i + 1 < |sizes|
    ensures w.rows == sizes[i] && w.cols == sizes[i + 1]
    ensures forall r, c :: 0 <= r < w.rows && 0 <= c < w.cols ==> w.data[r][c] == noise(i, r, c) * 0.01
  {
    Mat(sizes[i], sizes[i + 1], NoiseRows(noise, i, sizes[i], sizes[i + 1]))
  }

  /** The first `rows` rows of layer i's scaled draws, `cols` entries each. */
  function NoiseRows(noise: Draws, i: nat, rows: nat, cols: nat): (d: seq<seq<real>>)
    ensures |d| == rows
    ensures forall r :: 0 <= r < rows ==> d[r] == NoiseRow(noise, i, r, cols)
  {
    if rows == 0 then [] else NoiseRows(noise, i, rows - 1, cols) + [NoiseRow(noise, i, rows - 1, cols)]
  }

  /** The first `cols` entries of row r of layer i's scaled draws. */
  function NoiseRow(noise: Draws, i: nat, r: nat, cols: nat): (row: seq<real>)
    ensures |row| == cols
    ensures forall c :: 0 <= c < cols ==> row[c] == noise(i, r, c) * 0.01
  {
    if cols == 0 then [] else NoiseRow(noise, i, r, cols - 1) + [noise(i, r, cols - 1) * 0.01]
  }

  /** The first n weight matrices of the initial network. */
  function InitialWeights(sizes: seq<nat>, noise: Draws, n: nat): (ws: seq<Matrix>)
    requires n < |sizes|
    ensures |ws| == n
  {
    if n == 0 then [] else InitialWeights(sizes, noise, n - 1) + [InitialWeight(sizes, noise, n - 1)]
  }

  /** The first n bias rows of the initial network: np.zeros((1, sizes[i + 1])) each. */
  function InitialBiases(sizes: seq<nat>, n: nat): (bs: seq<Matrix>)
    requires n < |sizes|
    ensures |bs| == n
  {
    if n == 0 then [] else InitialBiases(sizes, n - 1) + [Zeros(1, sizes[n])]
  }

  /** Building layer i appends its weight matrix and its zero bias row. */
  lemma InitialLayer(sizes: seq<nat>, noise: Draws, i: nat)
    requires i + 1 < |sizes|
    ensures InitialWeights(sizes, noise, i + 1) == InitialWeights(sizes, noise, i) + [InitialWeight(sizes, noise, i)]
    ensures InitialBiases(sizes, i + 1) == InitialBiases(sizes, i) + [Zeros(1, sizes[i + 1])]
  {
  }

  /** Layer i's initial parameters: weight matrix i drawn from layer i's noise, bias row i zero. */
  lemma {:induction false} InitialParametersAt(sizes: seq<nat>, noise: Draws, n: nat, i: nat)
    requires n < |sizes| && i < n
    ensures InitialWeights(sizes, noise, n)[i] == InitialWeight(sizes, noise, i)
    ensures InitialBiases(sizes, n)[i] == Zeros(1, sizes[i + 1])
    decreases n
  {
    if i < n - 1 {
      InitialParametersAt(sizes, noise, n - 1, i);
    }
  }

  /** The index of the first name the registry does not know, or |names| if it knows them all. */
  function FirstUnknown(names: seq<string>): (k: nat)
    ensures k <= |names|
    ensures forall j :: 0 <= j < k ==> Lookup(names[j]).Some?
    ensures k < |names| ==> Lookup(names[k]).None?
  {
    if names == [] || Lookup(names[0]).None? then 0 else 1 + FirstUnknown(names[1..])
  }

  /** How many layers get their parameters: every layer up to and including the first unknown name. */
  function LayersBuilt(names: seq<string>): (n: nat)
    ensures n <= |names|
    ensures n == |names| <==> forall j :: 0 <= j < |names| - 1 ==> Lookup(names[j]).Some?
  {
    var k := FirstUnknown(names);
    if k < |names| then k + 1 else k
  }

  /** Construction stops at name i when it is the first unknown one. */
  lemma StopsAt(names: seq<string>, i: nat)
    requires i < |names| && i <= FirstUnknown(names) && Lookup(names[i]).None?
    ensures FirstUnknown(names) == i && LayersBuilt(names) == i + 1
  {
  }

  /** Construction goes past name i when it is known. */
  lemma GoesPast(names: seq<string>, i: nat)
    requires i < |names| && i <= FirstUnknown(names) && Lookup(names[i]).Some?
    ensures i + 1 <= FirstUnknown(names)
  {
  }

  /** Construction builds every layer when no name is unknown. */
  lemma AllBuilt(names: seq<string>, i: nat)
    requires i == |names| && i <= FirstUnknown(names)
    ensures FirstUnknown(names) == i && LayersBuilt(names) == i
  {
  }

  /** The activations registered under the first k names. */
  function Resolved(names: seq<string>, k: nat): (fs: seq<Activation>)
    requires k <= FirstUnknown(names)
    ensures |fs| == k && forall j :: 0 <= j < k ==> Lookup(names[j]) == Some(fs[j])
  {
    if k == 0 then [] else Resolved(names, k - 1) + [Lookup(names[k - 1]).value]
  }

  /**
   * What construction makes of the configuration: the count is checked
   * first, then the names in order.
   */
  function CheckConfig(hidden: seq<nat>, names: seq<string>): (r: Result<seq<Activation>, ConfigError>)
    ensures r.Success? <==> |names| == |hidden| + 1 && forall j :: 0 <= j < |names| ==> Lookup(names[j]).Some?
    ensures r.Success? ==> |r.value| == |names| && forall j :: 0 <= j < |names| ==> Lookup(names[j]) == Some(r.value[j])
    ensures r == Failure(ActivationCountMismatch) <==> |names| != |hidden| + 1
    ensures r.Failure? && r.error.UnknownActivation? ==> r.error.name in names && Lookup(r.error.name).None?
  {
    if |names| != |hidden| + 1 then Failure(ActivationCountMismatch)
    else
      var k := FirstUnknown(names);
      if k < |names| then Failure(UnknownActivation(names[k])) else Success(Resolved(names, k))
  }

  /** `dropout_rates if dropout_rates else [0.0] * len(hidden_layers)`: None and [] both give zeros. */
  function DefaultRates(rates: Option<seq<real>>, hiddenCount: nat): (r: seq<real>)
    ensures rates.Some? && rates.value != [] ==> r == rates.value
    ensures rates.None? || rates.value == [] ==>
      |r| == hiddenCount && NoPositiveRate(r) && forall k :: 0 <= k < |r| ==> r[k] == 0.0
  {
    if rates.Some? && rates.value != [] then rates.value else seq(hiddenCount, k => 0.0)
  }

  /** A rate of exactly 1 would divide by zero; every other rate is accepted. */
  predicate RatesAllowed(rates: Option<seq<real>>) {
    rates.Some? ==> forall k :: 0 <= k < |rates.value| ==> rates.value[k] != 1.0
  }

  /** The network a successful construction builds is well shaped, with zero biases. */
  lemma InitialNetworkShaped(inputSize: nat, hidden: seq<nat>, names: seq<string>,
                             rates: Option<seq<real>>, num: Numerics, noise: Draws)
    requires RatesAllowed(rates) && CheckConfig(hidden, names).Success?
    ensures var sizes := LayerSizes(inputSize, hidden);
            var n := |sizes| - 1;
            var net := Net(sizes, CheckConfig(hidden, names).value, DefaultRates(rates, |hidden|), num,
                           InitialWeights(sizes, noise, n), InitialBiases(sizes, n));
            Shaped(net) && |net.weights| == |hidden| + 1 &&
            forall i, c :: 0 <= i < n && 0 <= c < sizes[i + 1] ==> net.biases[i].data[0][c] == 0.0
  {
    var sizes := LayerSizes(inputSize, hidden);
    var n := |sizes| - 1;
    forall i | 0 <= i < n
      ensures InitialWeights(sizes, noise, n)[i] == InitialWeight(sizes, noise, i)
      ensures InitialBiases(sizes, n)[i] == Zeros(1, sizes[i + 1])
    {
      InitialParametersAt(sizes, noise, n, i);
    }
  }

  /** With the default rates no layer is ever dropped, the output layer included. */
  lemma DefaultRatesNeverDrop(hidden: seq<nat>, rates: Option<seq<real>>)
    requires rates.None? || rates.value == []
    ensures var r := DefaultRates(rates, |hidden|);
            |r| < |hidden| + 1 && NoPositiveRate(r)
  {
  }

  /** Appending to a history that extends an older one. */
  lemma AppendAssociative<T>(a: seq<T>, b: seq<T>, c: seq<T>)
    ensures (a + b) + c == a + (b + c)
  {
  }

  // ------------------------------------------------------------------ class

  class MlpBinaryClassifier {
    const inputSize: nat
    const hiddenLayers: seq<nat>
    /** the `activations` attribute: one registered name per layer */
    const activationNames: seq<string>
    const learningRate: real
    const epochs: nat
    const l2Lambda: real
    const dropoutRates: seq<real>
    /** the sigmoid and log the float code gets from numpy */
    const numerics: Numerics

    var weights: seq<Matrix>
    var biases: seq<Matrix>
    /** activation_funcs and activation_derivatives: an Activation names both */
    var activationFns: seq<Activation>
    var trainLosses: seq<real>
    var valLosses: seq<real>

    function Sizes(): seq<nat> {
      LayerSizes(inputSize, hiddenLayers)
    }

    /** The network the fields describe. */
    function Snapshot(): Net
      reads this`weights, this`biases, this`activationFns
    {
      Net(Sizes(), activationFns, dropoutRates, numerics, weights, biases)
    }

    ghost predicate Valid()
      reads this`weights, this`biases, this`activationFns
    {
      Shaped(Snapshot())
    }

    /** The attribute assignments of __init__, before the network is built. */
    constructor (inputSize: nat, hiddenLayers: seq<nat>, activationNames: seq<string>,
                 dropoutRates: Option<seq<real>>, learningRate: real, epochs: nat, l2Lambda: real,
                 numerics: Numerics)
      requires RatesAllowed(dropoutRates)
      ensures this.inputSize == inputSize && this.hiddenLayers == hiddenLayers
      ensures this.activationNames == activationNames && this.learningRate == learningRate
      ensures this.epochs == epochs && this.l2Lambda == l2Lambda && this.numerics == numerics
      ensures this.dropoutRates == DefaultRates(dropoutRates, |hiddenLayers|)
      ensures forall k :: 0 <= k < |this.dropoutRates| ==> this.dropoutRates[k] != 1.0
      ensures weights == [] && biases == [] && activationFns == [] && trainLosses == [] && valLosses == []
    {
      this.inputSize := inputSize;
      this.hiddenLayers := hiddenLayers;
      this.activationNames := activationNames;
      this.learningRate := learningRate;
      this.epochs := epochs;
      this.l2Lambda := l2Lambda;
      this.dropoutRates := DefaultRates(dropoutRates, |hiddenLayers|);
      this.numerics := numerics;
      weights := [];
      biases := [];
      activationFns := [];
      trainLosses := [];
      valLosses := [];
    }

    /**
     * _initialize_network: appends one weight matrix and one bias row per
     * layer, looking up the layer's activation after appending them. A wrong
     * count fails before anything is appended; an unknown name fails with
     * that layer's parameters appended and its activation not.
     */
    method InitializeNetwork(noise: Draws) returns (err: Option<ConfigError>)
      modifies this`weights, this`biases, this`activationFns
      ensures trainLosses == old(trainLosses) && valLosses == old(valLosses)
      ensures |activationNames| != |Sizes()| - 1 ==>
                err == Some(ActivationCountMismatch) &&
                weights == old(weights) && biases == old(biases) && activationFns == old(activationFns)
      ensures |activationNames| == |Sizes()| - 1 ==>
                err == (if FirstUnknown(activationNames) < |activationNames|
                        then Some(UnknownActivation(activationNames[FirstUnknown(activationNames)])) else None)
      ensures |activationNames| == |Sizes()| - 1 ==>
                weights == old(weights) + InitialWeights(Sizes(), noise, LayersBuilt(activationNames))
      ensures |activationNames| == |Sizes()| - 1 ==>
                biases == old(biases) + InitialBiases(Sizes(), LayersBuilt(activationNames))
      ensures |activationNames| == |Sizes()| - 1 ==>
                activationFns == old(activationFns) + Resolved(activationNames, FirstUnknown(activationNames))
    {
      var sizes := LayerSizes(inputSize, hiddenLayers);
      if |activationNames| != |sizes| - 1 {
        return Some(ActivationCountMismatch);
      }
      var i := 0;
      while i < |sizes| - 1
        invariant 0 <= i <= |sizes| - 1
        invariant i <= FirstUnknown(activationNames)
        invariant weights == old(weights) + InitialWeights(sizes, noise, i)
        invariant biases == old(biases) + InitialBiases(sizes, i)
        invariant activationFns == old(activationFns) + Resolved(activationNames, i)
      {
        InitialLayer(sizes, noise, i);
        var w := InitialWeight(sizes, noise, i);
        AppendAssociative(old(weights), InitialWeights(sizes, noise, i), [w]);
        weights := weights + [w];
        var b := Zeros(1, sizes[i + 1]);
        AppendAssociative(old(biases), InitialBiases(sizes, i), [b]);
        biases := biases + [b];
        var entry := Lookup(activationNames[i]);
        if entry.None? {
          StopsAt(activationNames, i);
          return Some(UnknownActivation(activationNames[i]));
        }
        GoesPast(activationNames, i);
        AppendAssociative(old(activationFns), Resolved(activationNames, i), [entry.value]);
        activationFns := activationFns + [entry.value];
        i := i + 1;
      }
      AllBuilt(activationNames, i);
      return None;
    }

    /** forward(X, training): the activation list and the mask list, layer by layer. */
    method Forward(x: Matrix, training: bool, u: Draws) returns (r: Result<Cache, ShapeError>)
      requires Valid()
      ensures r.Failure? <==> x.cols != inputSize
      ensures r.Success? ==> r.value == Network.Forward(Snapshot(), x, training, u)
    {
      if x.cols != inputSize {
        return Failure(InputWidthMismatch(inputSize, x.cols));
      }
      ghost var net := Snapshot();
      var acts := [x];
      var masks: seq<Option<Matrix>> := [];
      var a := x;
      for i := 0 to |weights|
        invariant Cache(acts, masks) == ForwardUpTo(net, x, training, u, i)
        invariant a == acts[i]
      {
        var mask;
        a, mask := Layer(i, a, training, u);
        acts := acts + [a];
        masks := masks + [mask];
      }
      return Success(Cache(acts, masks));
    }

    /** The body of forward's loop: layer i's activation, then its dropout in training mode. */
    method Layer(i: nat, a: Matrix, training: bool, u: Draws) returns (out: Matrix, mask: Option<Matrix>)
      requires Valid() && i < |weights| && a.cols == weights[i].rows
      ensures LayerOut(out, mask) == LayerStep(Snapshot(), i, a, training, u)
    {
      out := Activate(activationFns[i], numerics, weights[i], biases[i], a);
      if training && i < |dropoutRates| {
        var rate := dropoutRates[i];
        if rate > 0.0 {
          var m := DropoutMask(rate, u, i, out);
          out := Dropout(out, m, rate);
          mask := Some(m);
        } else {
          mask := None;
        }
      } else {
        mask := None;
      }
    }

    /**
     * backward: walks the layers from the output down, prepending each
     * layer's gradients, so that both lists come out aligned with the
     * parameters.
     */
    method Backward(cache: Cache, y: Matrix) returns (gradsW: seq<Matrix>, gradsB: seq<Matrix>)
      requires Valid() && CacheShaped(Snapshot(), cache, y.rows) && y.cols == 1
      ensures gradsW == WeightGrads(Snapshot(), cache, y)
      ensures gradsB == BiasGrads(Snapshot(), cache, y)
    {
      ghost var net := Snapshot();
      var last := |weights| - 1;
      var delta := Hadamard(CrossEntropyDerivatives(y, cache.acts[last + 1]),
                            Derivative(activationFns[last], cache.acts[last + 1]));
      gradsW, gradsB := [], [];
      var i := |weights|;
      while i > 0
        invariant 0 <= i <= |weights|
        invariant i > 0 ==> delta == Delta(net, cache, y, i - 1)
        invariant gradsW == WeightGradsFrom(net, cache, y, i)
        invariant gradsB == BiasGradsFrom(net, cache, y, i)
      {
        i := i - 1;
        gradsW := [MatMul(Transpose(cache.acts[i]), delta)] + gradsW;
        gradsB := [ColumnSums(delta)] + gradsB;
        if i > 0 {
          delta := Propagate(cache, y, i, delta);
        }
      }
    }

    /** The error signal of layer i - 1 from that of layer i: back through W_i, the derivative, the mask. */
    method Propagate(cache: Cache, y: Matrix, i: nat, delta: Matrix) returns (d: Matrix)
      requires Valid() && CacheShaped(Snapshot(), cache, y.rows) && y.cols == 1
      requires 0 < i < |weights| && delta == Delta(Snapshot(), cache, y, i)
      ensures d == Delta(Snapshot(), cache, y, i - 1)
    {
      d := Hadamard(MatMul(delta, Transpose(weights[i])), Derivative(activationFns[i - 1], cache.acts[i]));
      if cache.masks[i - 1].Some? {
        d := Hadamard(d, cache.masks[i - 1].value);
      }
    }

    /** update_weights: one gradient-descent step on every weight matrix and bias row. */
    method UpdateWeights(gradsW: seq<Matrix>, gradsB: seq<Matrix>)
      requires Valid() && ShapedLike(gradsW, weights) && ShapedLike(gradsB, biases)
      modifies this
      ensures weights == Descend(old(weights), learningRate, gradsW)
      ensures biases == Descend(old(biases), learningRate, gradsB)
      ensures activationFns == old(activationFns)
      ensures trainLosses == old(trainLosses) && valLosses == old(valLosses)
      ensures Valid()
    {
      var ws: seq<Matrix>, bs: seq<Matrix> := weights, biases;
      for i := 0 to |ws|
        invariant ShapedLike(ws, weights) && ShapedLike(bs, biases)
        invariant forall k :: 0 <= k < i ==> ws[k] == DescendOne(weights[k], learningRate, gradsW[k])
        invariant forall k :: i <= k < |ws| ==> ws[k] == weights[k]
        invariant forall k :: 0 <= k < i ==> bs[k] == DescendOne(biases[k], learningRate, gradsB[k])
        invariant forall k :: i <= k < |bs| ==> bs[k] == biases[k]
      {
        ws := ws[i := Subtract(ws[i], Scale(learningRate, gradsW[i]))];
        bs := bs[i := Subtract(bs[i], Scale(learningRate, gradsB[i]))];
      }
      DescendPointwise(weights, learningRate, gradsW, ws);
      DescendPointwise(biases, learningRate, gradsB, bs);
      weights, biases := ws, bs;
      DescendShaped(old(Snapshot()), learningRate, gradsW, gradsB);
    }

    /**
     * One iteration of train's loop up to the training loss: a training-mode
     * forward pass, backward, update_weights, and the loss of the outputs of
     * that pass plus the penalty on the updated weights.
     */
    method RunEpoch(x: Matrix, y: Matrix, u: Draws) returns (trainLoss: real)
      requires Valid() && x.cols == inputSize && y.rows == x.rows && y.cols == 1
      modifies this
      ensures Valid()
      ensures Snapshot() == Step(old(Snapshot()), x, y, learningRate, u)
      ensures trainLoss == StepLoss(old(Snapshot()), x, y, learningRate, l2Lambda, u)
      ensures trainLosses == old(trainLosses) && valLosses == old(valLosses)
    {
      var forward := Forward(x, true, u);
      var cache := forward.value;
      var gradsW, gradsB := Backward(cache, y);
      UpdateWeights(gradsW, gradsB);
      trainLoss := BinaryCrossEntropy(y, cache.acts[|cache.acts| - 1], numerics.log) + L2Penalty(weights, l2Lambda);
    }

    /** The validation loss of train's loop: an evaluation pass plus the penalty. */
    method ValidationLoss(xVal: Matrix, yVal: Matrix) returns (valLoss: real)
      requires Valid() && xVal.cols == inputSize && yVal.rows == xVal.rows && yVal.cols == 1
      ensures valLoss == EvalLoss(Snapshot(), l2Lambda, xVal, yVal)
    {
      var forward := Forward(xVal, false, NoDraws);
      var out := forward.value.acts[|forward.value.acts| - 1];
      valLoss := BinaryCrossEntropy(yVal, out, numerics.log) + L2Penalty(weights, l2Lambda);
    }

    /**
     * The losses of one iteration of train's loop: the epoch's update and
     * training loss, then, given both X_val and y_val, the validation loss of
     * the updated network. The run and the records of losses grow by this epoch.
     */
    method Epoch(x: Matrix, y: Matrix, xVal: Option<Matrix>, yVal: Option<Matrix>, u: EpochDraws, epoch: nat,
                 ghost nets: seq<Net>, ghost trained: seq<real>, ghost validated: seq<real>)
      returns (trainLoss: real, valLoss: Option<real>)
      requires Valid()
      requires x.cols == inputSize && y.rows == x.rows && y.cols == 1
      requires xVal.Some? && yVal.Some? ==>
        xVal.value.cols == inputSize && yVal.value.rows == xVal.value.rows && yVal.value.cols == 1
      requires IsRun(nets, EpochStep, Schedule(x, y, learningRate, l2Lambda, u)) && |nets| == epoch + 1 && Snapshot() == nets[epoch]
      requires Records(trained, nets, TrainLossOf, Schedule(x, y, learningRate, l2Lambda, u))
      requires xVal.Some? && yVal.Some? ==> Records(validated, nets, ValLossOf, Holdout(xVal.value, yVal.value, l2Lambda))
      modifies this
      ensures Valid()
      ensures IsRun(nets + [Snapshot()], EpochStep, Schedule(x, y, learningRate, l2Lambda, u))
      ensures Records(trained + [trainLoss], nets + [Snapshot()], TrainLossOf, Schedule(x, y, learningRate, l2Lambda, u))
      ensures valLoss.Some? <==> xVal.Some? && yVal.Some?
      ensures valLoss.Some? ==>
        Records(validated + [valLoss.value], nets + [Snapshot()], ValLossOf, Holdout(xVal.value, yVal.value, l2Lambda))
      ensures trainLosses == old(trainLosses) && valLosses == old(valLosses)
    {
      trainLoss := RunEpoch(x, y, DrawsAt(u, epoch));
      ghost var next := Snapshot();
      ExtendTraining(nets, trained, next, trainLoss, Schedule(x, y, learningRate, l2Lambda, u));
      if xVal.Some? && yVal.Some? {
        var v := ValidationLoss(xVal.value, yVal.value);
        ExtendValidation(nets, validated, next, v, Holdout(xVal.value, yVal.value, l2Lambda));
        valLoss := Some(v);
      } else {
        valLoss := None;
      }
    }

    /**
     * train: per epoch a training pass, backpropagation, the update, and
     * the loss records. Given X_val without y_val, the logging of epoch 0
     * fails after that epoch's update and training loss.
     */
    method Train(x: Matrix, y: Matrix, xVal: Option<Matrix>, yVal: Option<Matrix>, u: EpochDraws)
      returns (err: Option<TrainError>, ghost run: seq<Net>, ghost trained: seq<real>, ghost validated: seq<real>)
      requires Valid()
      requires x.cols == inputSize && y.rows == x.rows && y.cols == 1
      requires xVal.Some? && yVal.Some? ==>
        xVal.value.cols == inputSize && yVal.value.rows == xVal.value.rows && yVal.value.cols == 1
      modifies this
      ensures Valid()
      ensures err.Some? <==> epochs > 0 && xVal.Some? && yVal.None?
      ensures |run| == (if err.Some? then 1 else epochs) + 1
      ensures run[0] == old(Snapshot()) && Snapshot() == run[|run| - 1]
      ensures IsRun(run, EpochStep, Schedule(x, y, learningRate, l2Lambda, u))
      ensures Records(trained, run, TrainLossOf, Schedule(x, y, learningRate, l2Lambda, u))
      ensures trainLosses == old(trainLosses) + trained
      ensures xVal.Some? && yVal.Some? ==>
        && Records(validated, run, ValLossOf, Holdout(xVal.value, yVal.value, l2Lambda))
        && valLosses == old(valLosses) + validated
      ensures !(xVal.Some? && yVal.Some?) ==> valLosses == old(valLosses)
    {
      var validate := xVal.Some? && yVal.Some?;
      run, trained, validated := [Snapshot()], [], [];
      var epoch := 0;
      var failed := false;
      while epoch < epochs && !failed
        invariant 0 <= epoch <= epochs
        invariant Valid()
        invariant IsRun(run, EpochStep, Schedule(x, y, learningRate, l2Lambda, u))
        invariant Records(trained, run, TrainLossOf, Schedule(x, y, learningRate, l2Lambda, u))
        invariant |run| == epoch + 1 && run[0] == old(Snapshot()) && Snapshot() == run[epoch]
        invariant trainLosses == old(trainLosses) + trained
        invariant validate ==>
          && Records(validated, run, ValLossOf, Holdout(xVal.value, yVal.value, l2Lambda))
          && valLosses == old(valLosses) + validated
        invariant !validate ==> valLosses == old(valLosses)
        invariant failed <==> epoch > 0 && xVal.Some? && yVal.None?
        invariant failed ==> epoch == 1
      {
        var trainLoss, valLoss := Epoch(x, y, xVal, yVal, u, epoch, run, trained, validated);
        run := run + [Snapshot()];
        trainLosses := trainLosses + [trainLoss];
        AppendAssociative(old(trainLosses), trained, [trainLoss]);
        trained := trained + [trainLoss];
        if valLoss.Some? {
          valLosses := valLosses + [valLoss.value];
          AppendAssociative(old(valLosses), validated, [valLoss.value]);
          validated := validated + [valLoss.value];
        }
        failed := epoch % 100 == 0 && xVal.Some? && yVal.None?;
        epoch := epoch + 1;
      }
      err := if failed then Some(UnboundValLoss) else None;
    }

    /** predict(X): 1 where the evaluation-mode output exceeds 0.5, else 0. */
    method Predict(x: Matrix) returns (r: Result<seq<seq<int>>, ShapeError>)
      requires Valid()
      ensures r.Failure? <==> x.cols != inputSize
      ensures r.Success? ==> r.value == Predictions(Snapshot(), x)
    {
      var forward := Forward(x, false, NoDraws);
      if forward.Failure? {
        return Failure(forward.error);
      }
      var out := forward.value.acts[|forward.value.acts| - 1];
      return Success(Threshold(out));
    }
  }

  /** __init__: the attribute assignments, then the network; a configuration error escapes. */
  method Create(inputSize: nat, hiddenLayers: seq<nat>, activationNames: seq<string>,
                dropoutRates: Option<seq<real>>, learningRate: real, epochs: nat, l2Lambda: real,
                numerics: Numerics, noise: Draws)
    returns (r: Result<MlpBinaryClassifier, ConfigError>)
    requires RatesAllowed(dropoutRates)
    ensures var check := CheckConfig(hiddenLayers, activationNames);
            check.Failure? ==> r.Failure? && r.error == check.error
    ensures var check := CheckConfig(hiddenLayers, activationNames);
            var sizes := LayerSizes(inputSize, hiddenLayers);
            check.Success? ==>
              && r.Success? && fresh(r.value) && r.value.Valid()
              && r.value.inputSize == inputSize && r.value.hiddenLayers == hiddenLayers
              && r.value.activationNames == activationNames && r.value.learningRate == learningRate
              && r.value.epochs == epochs && r.value.l2Lambda == l2Lambda && r.value.numerics == numerics
              && r.value.dropoutRates == DefaultRates(dropoutRates, |hiddenLayers|)
              && r.value.weights == InitialWeights(sizes, noise, |hiddenLayers| + 1)
              && r.value.biases == InitialBiases(sizes, |hiddenLayers| + 1)
              && r.value.activationFns == check.value
              && r.value.trainLosses == [] && r.value.valLosses == []
  {
    var model := new MlpBinaryClassifier(inputSize, hiddenLayers, activationNames, dropoutRates,
                                         learningRate, epochs, l2Lambda, numerics);
    var err := model.InitializeNetwork(noise);
    if err.Some? {
      return Failure(err.value);
    }
    InitialNetworkShaped(inputSize, hiddenLayers, activationNames, dropoutRates, numerics, noise);
    return Success(model);
  }
}
