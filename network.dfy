/**
 * The multilayer perceptron as a value: its parameters, the forward pass
 * with inverted dropout, the error signals of backpropagation, the gradient
 * step and the training run, each as a function of the network and the
 * random draws. The class in module Classifier computes the same things
 * step by step and is proved against these functions.
 */
module Network {
  import opened Wrappers
  import opened Matrices
  import opened Activations
  import opened Losses
  import opened Penalty
  import opened Runs

  /** Uniform draws in [0, 1), indexed by (layer, row, column): np.random.rand for one forward pass. */
  type Draws = (nat, nat, nat) -> real

  /** One `Draws` per epoch: (epoch, layer, row, column). */
  type EpochDraws = (nat, nat, nat, nat) -> real

  /** The draws of one epoch. */
  function DrawsAt(u: EpochDraws, epoch: nat): Draws {
    (layer: nat, r: nat, c: nat) => u(epoch, layer, r, c)
  }

  /** Stands in for the draws of a pass that makes none (evaluation mode). */
  const NoDraws: Draws := (layer: nat, r: nat, c: nat) => 0.0

  datatype Net = Net(
    sizes: seq<nat>,          // [input_size] + hidden_layers + [1]
    fns: seq<Activation>,     // one activation (and its derivative) per layer
    rates: seq<real>,         // dropout_rates; layer i is subject to rates[i] if it exists
    num: Numerics,
    weights: seq<Matrix>,
    biases: seq<Matrix>)

  function LayerSizes(inputSize: nat, hidden: seq<nat>): (s: seq<nat>)
    ensures |s| == |hidden| + 2 && s[0] == inputSize && s[|s| - 1] == 1
    ensures forall k :: 0 <= k < |hidden| ==> s[k + 1] == hidden[k]
  {
    [inputSize] + hidden + [1]
  }

  /** Matrix i maps layer i's width to layer i + 1's; the last layer has one unit. */
  ghost predicate Shaped(net: Net) {
    && |net.weights| >= 1
    && |net.sizes| == |net.weights| + 1
    && |net.biases| == |net.weights|
    && |net.fns| == |net.weights|
    && net.sizes[|net.weights|] == 1
    && (forall k :: 0 <= k < |net.rates| ==> net.rates[k] != 1.0)
    && (forall i {:trigger net.weights[i]} :: 0 <= i < |net.weights| ==>
          net.weights[i].rows == net.sizes[i] && net.weights[i].cols == net.sizes[i + 1])
    && (forall i {:trigger net.biases[i]} :: 0 <= i < |net.biases| ==>
          net.biases[i].rows == 1 && net.biases[i].cols == net.sizes[i + 1])
  }

  /** Two parameter lists of the same length whose matrices pair up in shape. */
  predicate ShapedLike(a: seq<Matrix>, b: seq<Matrix>) {
    |a| == |b| && forall i :: 0 <= i < |a| ==> SameShape(a[i], b[i])
  }

  // ---------------------------------------------------------------- dropout

  /** (np.random.rand(*A.shape) > rate).astype(float) for layer `layer` */
  function DropoutMask(rate: real, u: Draws, layer: nat, a: Matrix): (m: Matrix)
    ensures SameShape(m, a)
    ensures forall i, j :: 0 <= i < a.rows && 0 <= j < a.cols ==>
      (m.data[i][j] == 1.0 <==> u(layer, i, j) > rate) &&
      (m.data[i][j] == 0.0 <==> !(u(layer, i, j) > rate))
  {
    Mat(a.rows, a.cols,
        seq(a.rows, i requires 0 <= i < a.rows =>
          seq(a.cols, j requires 0 <= j < a.cols => if u(layer, i, j) > rate then 1.0 else 0.0)))
  }

  /** A *= mask; A /= (1 - rate) */
  function Dropout(a: Matrix, mask: Matrix, rate: real): (d: Matrix)
    requires SameShape(a, mask) && rate != 1.0
    ensures SameShape(d, a)
  {
    MapEntries(Hadamard(a, mask), x => x / (1.0 - rate))
  }

  /** Inverted dropout: a dropped unit is zero and a kept unit is scaled up by 1 / (1 - rate). */
  lemma DropoutEntries(a: Matrix, mask: Matrix, rate: real, i: nat, j: nat)
    requires SameShape(a, mask) && rate != 1.0
    requires i < a.rows && j < a.cols
    requires mask.data[i][j] == 0.0 || mask.data[i][j] == 1.0
    ensures mask.data[i][j] == 0.0 ==> Dropout(a, mask, rate).data[i][j] == 0.0
    ensures mask.data[i][j] == 1.0 ==> Dropout(a, mask, rate).data[i][j] == a.data[i][j] / (1.0 - rate)
  {
    var h := Hadamard(a, mask);
    assert h.data[i][j] == a.data[i][j] * mask.data[i][j];
    assert Dropout(a, mask, rate).data[i][j] == h.data[i][j] / (1.0 - rate);
    if mask.data[i][j] == 0.0 {
      assert h.data[i][j] == 0.0;
      ZeroQuotient(h.data[i][j], 1.0 - rate);
    }
  }

  lemma ZeroQuotient(x: real, d: real)
    requires d != 0.0 && x == 0.0
    ensures x / d == 0.0
  {
  }

  // ----------------------------------------------------------- forward pass

  /** What one layer of the forward pass produces: its activation and the mask slot. */
  datatype LayerOut = LayerOut(out: Matrix, mask: Option<Matrix>)

  /** The activations list and the dropout_masks list of a forward pass. */
  datatype Cache = Cache(acts: seq<Matrix>, masks: seq<Option<Matrix>>)

  /** Whether layer i draws a dropout mask. */
  predicate Drops(net: Net, i: nat, training: bool) {
    training && i < |net.rates| && net.rates[i] > 0.0
  }

  /** Z = np.dot(A, W) + b; f(Z) */
  function Activate(f: Activation, num: Numerics, w: Matrix, b: Matrix, a: Matrix): (out: Matrix)
    requires a.cols == w.rows && b.rows == 1 && b.cols == w.cols
    ensures out.rows == a.rows && out.cols == w.cols
  {
    Apply(f, num, AddRow(MatMul(a, w), b))
  }

  /** Z = A W_i + b_i; A = f_i(Z); then dropout if the layer drops in this mode. */
  function LayerStep(net: Net, i: nat, a: Matrix, training: bool, u: Draws): (s: LayerOut)
    requires Shaped(net) && i < |net.weights| && a.cols == net.sizes[i]
    ensures s.out.rows == a.rows && s.out.cols == net.sizes[i + 1]
    ensures s.mask.Some? <==> Drops(net, i, training)
    ensures s.mask.Some? ==> SameShape(s.mask.value, s.out)
  {
    var act := Activate(net.fns[i], net.num, net.weights[i], net.biases[i], a);
    if Drops(net, i, training) then
      var mask := DropoutMask(net.rates[i], u, i, act);
      LayerOut(Dropout(act, mask, net.rates[i]), Some(mask))
    else
      LayerOut(act, None)
  }

  /** The shape facts every forward cache of a batch of n rows has. */
  ghost predicate CacheShaped(net: Net, c: Cache, n: nat) {
    && Shaped(net)
    && |c.acts| == |net.weights| + 1
    && |c.masks| == |net.weights|
    && (forall j {:trigger c.acts[j]} :: 0 <= j < |c.acts| ==> c.acts[j].rows == n && c.acts[j].cols == net.sizes[j])
    && (forall j :: 0 <= j < |c.masks| && c.masks[j].Some? ==> SameShape(c.masks[j].value, c.acts[j + 1]))
  }

  /** The forward pass through the first k layers. */
  function ForwardUpTo(net: Net, x: Matrix, training: bool, u: Draws, k: nat): (c: Cache)
    requires Shaped(net) && x.cols == net.sizes[0] && k <= |net.weights|
    ensures |c.acts| == k + 1 && |c.masks| == k && c.acts[0] == x
    ensures forall j {:trigger c.acts[j]} :: 0 <= j <= k ==> c.acts[j].rows == x.rows && c.acts[j].cols == net.sizes[j]
    ensures forall j {:trigger c.masks[j]} :: 0 <= j < k ==> (c.masks[j].Some? <==> Drops(net, j, training))
    ensures forall j :: 0 <= j < k && c.masks[j].Some? ==> SameShape(c.masks[j].value, c.acts[j + 1])
  {
    if k == 0 then Cache([x], [])
    else
      var prev := ForwardUpTo(net, x, training, u, k - 1);
      var s := LayerStep(net, k - 1, prev.acts[k - 1], training, u);
      Cache(prev.acts + [s.out], prev.masks + [s.mask])
  }

  /** forward(X, training): one activation per layer plus the input, one mask slot per layer. */
  function Forward(net: Net, x: Matrix, training: bool, u: Draws): (c: Cache)
    requires Shaped(net) && x.cols == net.sizes[0]
    ensures CacheShaped(net, c, x.rows) && c.acts[0] == x
    ensures forall j {:trigger c.masks[j]} :: 0 <= j < |net.weights| ==> (c.masks[j].Some? <==> Drops(net, j, training))
  {
    ForwardUpTo(net, x, training, u, |net.weights|)
  }

  /** Within the first k layers, layer i + 1's activation and layer i's mask come from layer i's input. */
  lemma {:induction false} ForwardLayerUpTo(net: Net, x: Matrix, training: bool, u: Draws, k: nat, i: nat)
    requires Shaped(net) && x.cols == net.sizes[0] && i < k <= |net.weights|
    ensures var c := ForwardUpTo(net, x, training, u, k);
            var s := LayerStep(net, i, c.acts[i], training, u);
            c.acts[i + 1] == s.out && c.masks[i] == s.mask
  {
    var prev := ForwardUpTo(net, x, training, u, k - 1);
    var last := LayerStep(net, k - 1, prev.acts[k - 1], training, u);
    var c := ForwardUpTo(net, x, training, u, k);
    assert c == Cache(prev.acts + [last.out], prev.masks + [last.mask]);
    if i < k - 1 {
      ForwardLayerUpTo(net, x, training, u, k - 1, i);
    }
  }

  /** Layer i + 1's activation and layer i's mask are what layer i makes of layer i's input. */
  lemma ForwardLayer(net: Net, x: Matrix, training: bool, u: Draws, i: nat)
    requires Shaped(net) && x.cols == net.sizes[0] && i < |net.weights|
    ensures var c := Forward(net, x, training, u);
            var s := LayerStep(net, i, c.acts[i], training, u);
            c.acts[i + 1] == s.out && c.masks[i] == s.mask
  {
    ForwardLayerUpTo(net, x, training, u, |net.weights|, i);
  }

  /** Every recorded mask is 0/1; where it is 0 the unit's activation is 0. */
  lemma ForwardMasks(net: Net, x: Matrix, training: bool, u: Draws, i: nat, r: nat, q: nat)
    requires Shaped(net) && x.cols == net.sizes[0] && i < |net.weights|
    requires r < x.rows && q < net.sizes[i + 1]
    ensures var c := Forward(net, x, training, u);
            c.masks[i].Some? ==>
              var m := c.masks[i].value.data[r][q];
              (m == 0.0 || m == 1.0) && (m == 0.0 ==> c.acts[i + 1].data[r][q] == 0.0)
  {
    var c := Forward(net, x, training, u);
    ForwardLayer(net, x, training, u, i);
    if c.masks[i].Some? {
      var a := c.acts[i];
      var act := Apply(net.fns[i], net.num, AddRow(MatMul(a, net.weights[i]), net.biases[i]));
      var mask := DropoutMask(net.rates[i], u, i, act);
      assert c.masks[i].value == mask;
      DropoutEntries(act, mask, net.rates[i], r, q);
    }
  }

  /** With no mask drawn the layer's activation is the plain f_i(A W_i + b_i). */
  lemma UndroppedLayer(net: Net, x: Matrix, training: bool, u: Draws, i: nat)
    requires Shaped(net) && x.cols == net.sizes[0] && i < |net.weights|
    requires !Drops(net, i, training)
    ensures var c := Forward(net, x, training, u);
            c.masks[i] == None &&
            c.acts[i + 1] == Apply(net.fns[i], net.num, AddRow(MatMul(c.acts[i], net.weights[i]), net.biases[i]))
  {
    ForwardLayer(net, x, training, u, i);
  }

  /** Evaluation mode makes no draws: its result does not depend on them. */
  lemma {:induction false} EvalIgnoresDraws(net: Net, x: Matrix, u: Draws, v: Draws, k: nat)
    requires Shaped(net) && x.cols == net.sizes[0] && k <= |net.weights|
    ensures ForwardUpTo(net, x, false, u, k) == ForwardUpTo(net, x, false, v, k)
  {
    if k > 0 {
      EvalIgnoresDraws(net, x, u, v, k - 1);
    }
  }

  predicate NoPositiveRate(rates: seq<real>) {
    forall k :: 0 <= k < |rates| ==> rates[k] <= 0.0
  }

  /** Without a positive rate (the default all-zero list) training mode is evaluation mode. */
  lemma {:induction false} TrainingWithoutDropout(net: Net, x: Matrix, u: Draws, k: nat)
    requires Shaped(net) && x.cols == net.sizes[0] && k <= |net.weights|
    requires NoPositiveRate(net.rates)
    ensures ForwardUpTo(net, x, true, u, k) == ForwardUpTo(net, x, false, u, k)
  {
    if k > 0 {
      TrainingWithoutDropout(net, x, u, k - 1);
      assert !Drops(net, k - 1, true);
    }
  }

  /** A rate list no longer than the hidden layers (the default) never drops the output layer. */
  lemma OutputNeverDropped(net: Net, x: Matrix, training: bool, u: Draws)
    requires Shaped(net) && x.cols == net.sizes[0] && |net.rates| < |net.weights|
    ensures Forward(net, x, training, u).masks[|net.weights| - 1] == None
  {
  }

  // ---------------------------------------------------------- backward pass

  /**
   * The error signal `delta` of layer j: at the output, the loss derivative
   * times the output activation's derivative; below it, the signal of the
   * layer above sent back through W_{j+1}, times layer j's derivative, and
   * times layer j's mask when it has one. The output layer's own mask is
   * never consulted.
   */
  function Delta(net: Net, c: Cache, y: Matrix, j: nat): (d: Matrix)
    requires CacheShaped(net, c, y.rows) && y.cols == 1 && j < |net.weights|
    ensures d.rows == y.rows && d.cols == net.sizes[j + 1]
    decreases |net.weights| - j
  {
    var last := |net.weights| - 1;
    if j == last then
      Hadamard(CrossEntropyDerivatives(y, c.acts[last + 1]), Derivative(net.fns[last], c.acts[last + 1]))
    else
      var back := Hadamard(MatMul(Delta(net, c, y, j + 1), Transpose(net.weights[j + 1])),
                           Derivative(net.fns[j], c.acts[j + 1]));
      match c.masks[j]
      case None => back
      case Some(m) => Hadamard(back, m)
  }

  /** np.dot(activations[i].T, delta_i) */
  function WeightGrad(net: Net, c: Cache, y: Matrix, i: nat): (g: Matrix)
    requires CacheShaped(net, c, y.rows) && y.cols == 1 && i < |net.weights|
    ensures SameShape(g, net.weights[i])
  {
    MatMul(Transpose(c.acts[i]), Delta(net, c, y, i))
  }

  /** np.sum(delta_i, axis=0, keepdims=True) */
  function BiasGrad(net: Net, c: Cache, y: Matrix, i: nat): (g: Matrix)
    requires CacheShaped(net, c, y.rows) && y.cols == 1 && i < |net.weights|
    ensures SameShape(g, net.biases[i])
  {
    ColumnSums(Delta(net, c, y, i))
  }

  /** The weight gradients of layers i and up, in layer order: what backward has prepended on reaching layer i. */
  function WeightGradsFrom(net: Net, c: Cache, y: Matrix, i: nat): (g: seq<Matrix>)
    requires CacheShaped(net, c, y.rows) && y.cols == 1 && i <= |net.weights|
    ensures |g| == |net.weights| - i
    ensures forall k {:trigger g[k]} :: 0 <= k < |g| ==> g[k] == WeightGrad(net, c, y, i + k)
    decreases |net.weights| - i
  {
    if i == |net.weights| then [] else [WeightGrad(net, c, y, i)] + WeightGradsFrom(net, c, y, i + 1)
  }

  /** The bias gradients of layers i and up, in layer order. */
  function BiasGradsFrom(net: Net, c: Cache, y: Matrix, i: nat): (g: seq<Matrix>)
    requires CacheShaped(net, c, y.rows) && y.cols == 1 && i <= |net.weights|
    ensures |g| == |net.weights| - i
    ensures forall k {:trigger g[k]} :: 0 <= k < |g| ==> g[k] == BiasGrad(net, c, y, i + k)
    decreases |net.weights| - i
  {
    if i == |net.weights| then [] else [BiasGrad(net, c, y, i)] + BiasGradsFrom(net, c, y, i + 1)
  }

  /** grads_w: aligned index for index with the weights, each shaped like its weight matrix. */
  function WeightGrads(net: Net, c: Cache, y: Matrix): (g: seq<Matrix>)
    requires CacheShaped(net, c, y.rows) && y.cols == 1
    ensures ShapedLike(g, net.weights)
    ensures forall i {:trigger g[i]} :: 0 <= i < |g| ==> g[i] == WeightGrad(net, c, y, i)
  {
    WeightGradsFrom(net, c, y, 0)
  }

  /** grads_b: aligned index for index with the biases, each a single row. */
  function BiasGrads(net: Net, c: Cache, y: Matrix): (g: seq<Matrix>)
    requires CacheShaped(net, c, y.rows) && y.cols == 1
    ensures ShapedLike(g, net.biases)
    ensures forall i {:trigger g[i]} :: 0 <= i < |g| ==> g[i] == BiasGrad(net, c, y, i)
  {
    BiasGradsFrom(net, c, y, 0)
  }

  /** Below the output layer, no error signal passes through a unit its mask dropped. */
  lemma MaskBlocksDelta(net: Net, c: Cache, y: Matrix, j: nat, r: nat, q: nat)
    requires CacheShaped(net, c, y.rows) && y.cols == 1 && j < |net.weights| - 1
    requires r < y.rows && q < net.sizes[j + 1]
    requires c.masks[j].Some? && c.masks[j].value.data[r][q] == 0.0
    ensures Delta(net, c, y, j).data[r][q] == 0.0
  {
  }

  /** A unit dropped for the whole batch gets a zero weight column and a zero bias gradient. */
  lemma DroppedUnitGradients(net: Net, c: Cache, y: Matrix, j: nat, q: nat)
    requires CacheShaped(net, c, y.rows) && y.cols == 1 && j < |net.weights| - 1
    requires q < net.sizes[j + 1] && c.masks[j].Some?
    requires forall r :: 0 <= r < y.rows ==> c.masks[j].value.data[r][q] == 0.0
    ensures forall p :: 0 <= p < net.sizes[j] ==> WeightGrad(net, c, y, j).data[p][q] == 0.0
    ensures BiasGrad(net, c, y, j).data[0][q] == 0.0
  {
    var d := Delta(net, c, y, j);
    forall r | 0 <= r < y.rows
      ensures Column(d, q)[r] == 0.0
    {
      MaskBlocksDelta(net, c, y, j, r, q);
    }
    var t := Transpose(c.acts[j]);
    forall p | 0 <= p < net.sizes[j]
      ensures WeightGrad(net, c, y, j).data[p][q] == 0.0
    {
      InnerWithZeros(t.data[p], Column(d, q));
    }
    SumOfZeros(Column(d, q));
  }

  // ---------------------------------------------------------------- update

  /** p - lr * g */
  function DescendOne(p: Matrix, lr: real, g: Matrix): (r: Matrix)
    requires SameShape(g, p)
    ensures SameShape(r, p)
    ensures forall i, j :: 0 <= i < p.rows && 0 <= j < p.cols ==> r.data[i][j] == p.data[i][j] - lr * g.data[i][j]
  {
    Subtract(p, Scale(lr, g))
  }

  /** p - lr * g for every parameter matrix, in order. */
  function Descend(params: seq<Matrix>, lr: real, grads: seq<Matrix>): (r: seq<Matrix>)
    requires ShapedLike(grads, params)
    ensures ShapedLike(r, params)
    decreases |params|
  {
    if params == [] then []
    else
      var n := |params| - 1;
      assert ShapedLike(grads[..n], params[..n]);
      Descend(params[..n], lr, grads[..n]) + [DescendOne(params[n], lr, grads[n])]
  }

  /** Matrix k of the result is matrix k stepped against gradient k. */
  lemma {:induction false} DescendAt(params: seq<Matrix>, lr: real, grads: seq<Matrix>, k: nat)
    requires ShapedLike(grads, params) && k < |params|
    ensures Descend(params, lr, grads)[k] == DescendOne(params[k], lr, grads[k])
    decreases |params|
  {
    var n := |params| - 1;
    if k < n {
      assert ShapedLike(grads[..n], params[..n]);
      DescendAt(params[..n], lr, grads[..n], k);
    }
  }

  /** A list whose every matrix is stepped against its gradient is the descended list. */
  lemma DescendPointwise(params: seq<Matrix>, lr: real, grads: seq<Matrix>, r: seq<Matrix>)
    requires ShapedLike(grads, params) && |r| == |params|
    requires forall k :: 0 <= k < |params| ==> r[k] == DescendOne(params[k], lr, grads[k])
    ensures r == Descend(params, lr, grads)
  {
    forall k | 0 <= k < |params|
      ensures r[k] == Descend(params, lr, grads)[k]
    {
      DescendAt(params, lr, grads, k);
    }
  }

  /** Updating keeps every shape, so a shaped network stays shaped. */
  lemma DescendShaped(net: Net, lr: real, gradsW: seq<Matrix>, gradsB: seq<Matrix>)
    requires Shaped(net) && ShapedLike(gradsW, net.weights) && ShapedLike(gradsB, net.biases)
    ensures Shaped(net.(weights := Descend(net.weights, lr, gradsW), biases := Descend(net.biases, lr, gradsB)))
  {
  }

  /** Stepping one matrix back with the opposite learning rate restores it. */
  lemma DescendOneUndo(p: Matrix, lr: real, g: Matrix)
    requires SameShape(g, p)
    ensures DescendOne(DescendOne(p, lr, g), -lr, g) == p
  {
    var once := DescendOne(p, lr, g);
    var twice := DescendOne(once, -lr, g);
    assert forall i, j :: 0 <= i < p.rows && 0 <= j < p.cols ==>
      twice.data[i][j] == once.data[i][j] - -lr * g.data[i][j];
    Extensionality(twice, p);
  }

  /** Stepping back with the opposite learning rate restores the parameters. */
  lemma DescendUndo(params: seq<Matrix>, lr: real, grads: seq<Matrix>)
    requires ShapedLike(grads, params)
    ensures Descend(Descend(params, lr, grads), -lr, grads) == params
  {
    var once := Descend(params, lr, grads);
    forall k | 0 <= k < |params|
      ensures Descend(once, -lr, grads)[k] == params[k]
    {
      DescendAt(params, lr, grads, k);
      DescendAt(once, -lr, grads, k);
      DescendOneUndo(params[k], lr, grads[k]);
    }
  }

  /** A zero gradient leaves a parameter matrix where it was. */
  lemma DescendZeroGradient(params: seq<Matrix>, lr: real, grads: seq<Matrix>, k: nat)
    requires ShapedLike(grads, params) && k < |params|
    requires forall i, j :: 0 <= i < grads[k].rows && 0 <= j < grads[k].cols ==> grads[k].data[i][j] == 0.0
    ensures Descend(params, lr, grads)[k] == params[k]
  {
    DescendAt(params, lr, grads, k);
    Extensionality(Descend(params, lr, grads)[k], params[k]);
  }

  // -------------------------------------------------------------- training

  /** One epoch: a training-mode forward pass, backpropagation, and the update. */
  function Step(net: Net, x: Matrix, y: Matrix, lr: real, u: Draws): (n: Net)
    requires Shaped(net) && x.cols == net.sizes[0] && y.rows == x.rows && y.cols == 1
    ensures Shaped(n)
    ensures n.sizes == net.sizes && n.fns == net.fns && n.rates == net.rates && n.num == net.num
    ensures ShapedLike(n.weights, net.weights) && ShapedLike(n.biases, net.biases)
  {
    var c := Forward(net, x, true, u);
    net.(weights := Descend(net.weights, lr, WeightGrads(net, c, y)),
         biases := Descend(net.biases, lr, BiasGrads(net, c, y)))
  }

  /** A loss plus the L2 penalty on `weights`. */
  function Penalized(crossEntropy: real, weights: seq<Matrix>, lambda: real): (loss: real)
    ensures lambda >= 0.0 ==> loss >= crossEntropy
    ensures lambda == 0.0 ==> loss == crossEntropy
  {
    crossEntropy + L2Penalty(weights, lambda)
  }

  /**
   * The training loss of one epoch run on `net`: cross-entropy of the outputs
   * of the training pass (taken before the update) plus the penalty on the
   * weights after the update.
   */
  function StepLoss(net: Net, x: Matrix, y: Matrix, lr: real, lambda: real, u: Draws): (loss: real)
    requires Shaped(net) && x.cols == net.sizes[0] && y.rows == x.rows && y.cols == 1
    ensures lambda >= 0.0 ==> loss >= BinaryCrossEntropy(y, Forward(net, x, true, u).acts[|net.weights|], net.num.log)
    ensures lambda == 0.0 ==> loss == BinaryCrossEntropy(y, Forward(net, x, true, u).acts[|net.weights|], net.num.log)
  {
    var out := Forward(net, x, true, u).acts[|net.weights|];
    Penalized(BinaryCrossEntropy(y, out, net.num.log), Step(net, x, y, lr, u).weights, lambda)
  }

  /** The validation loss of `net`: an evaluation pass plus the penalty on its weights. */
  function EvalLoss(net: Net, lambda: real, xVal: Matrix, yVal: Matrix): (loss: real)
    requires Shaped(net) && xVal.cols == net.sizes[0] && yVal.rows == xVal.rows && yVal.cols == 1
    ensures lambda >= 0.0 ==> loss >= BinaryCrossEntropy(yVal, Forward(net, xVal, false, NoDraws).acts[|net.weights|], net.num.log)
    ensures lambda == 0.0 ==> loss == BinaryCrossEntropy(yVal, Forward(net, xVal, false, NoDraws).acts[|net.weights|], net.num.log)
  {
    var out := Forward(net, xVal, false, NoDraws).acts[|net.weights|];
    Penalized(BinaryCrossEntropy(yVal, out, net.num.log), net.weights, lambda)
  }

  /** The shapes one epoch needs: X as wide as the input layer, y one label per row of X. */
  ghost predicate Fits(net: Net, x: Matrix, y: Matrix) {
    Shaped(net) && x.cols == net.sizes[0] && y.rows == x.rows && y.cols == 1
  }

  /** What train's epochs share: the data, the learning rate, the L2 coefficient and the dropout draws. */
  datatype Schedule = Schedule(x: Matrix, y: Matrix, lr: real, lambda: real, u: EpochDraws)

  /** The held-out data the validation losses are measured on, with the L2 coefficient. */
  datatype Holdout = Holdout(x: Matrix, y: Matrix, lambda: real)

  /**
   * Epoch e as a step of a run: the update with that epoch's draws. A step
   * keeps the shapes, so on a run that starts from data fitting the network
   * the branch that leaves the network alone is never taken; it only makes
   * the step total.
   */
  ghost function EpochStep(s: Schedule, e: nat, net: Net): Net {
    if Fits(net, s.x, s.y) then Step(net, s.x, s.y, s.lr, DrawsAt(s.u, e)) else net
  }

  /** The training loss epoch e records, from the network the epoch starts from. */
  ghost function TrainLossOf(s: Schedule, e: nat, before: Net, after: Net): real {
    if Fits(before, s.x, s.y) then StepLoss(before, s.x, s.y, s.lr, s.lambda, DrawsAt(s.u, e)) else 0.0
  }

  /** The validation loss epoch e records, from the network the epoch produced. */
  ghost function ValLossOf(h: Holdout, e: nat, before: Net, after: Net): real {
    if Fits(after, h.x, h.y) then EvalLoss(after, h.lambda, h.x, h.y) else 0.0
  }

  /** The network after `epochs` epochs, epoch e using the draws DrawsAt(s.u, e). */
  ghost function Trained(net: Net, s: Schedule, epochs: nat): (n: Net)
    requires Fits(net, s.x, s.y)
    ensures Fits(n, s.x, s.y)
    ensures n.sizes == net.sizes && n.fns == net.fns && n.rates == net.rates && n.num == net.num
  {
    TrainedKeepsShape(net, s, epochs);
    Iterate(EpochStep, s, net, epochs)
  }

  /** Training keeps the layer sizes, activations, rates and arithmetic of the network. */
  lemma TrainedKeepsShape(net: Net, s: Schedule, epochs: nat)
    requires Fits(net, s.x, s.y)
    ensures var n := Iterate(EpochStep, s, net, epochs);
            && Fits(n, s.x, s.y)
            && n.sizes == net.sizes && n.fns == net.fns && n.rates == net.rates && n.num == net.num
  {
    var keeps := (n: Net) =>
      Fits(n, s.x, s.y) && n.sizes == net.sizes && n.fns == net.fns && n.rates == net.rates && n.num == net.num;
    forall e: nat, n: Net | keeps(n)
      ensures keeps(EpochStep(s, e, n))
    {
      EpochStepKeepsShape(n, s, e);
    }
    IterateKeeps(EpochStep, s, net, epochs, keeps);
  }

  /** One epoch keeps the layer sizes, activations, rates and arithmetic of the network. */
  lemma EpochStepKeepsShape(net: Net, s: Schedule, e: nat)
    requires Fits(net, s.x, s.y)
    ensures var n := EpochStep(s, e, net);
            && Fits(n, s.x, s.y)
            && n.sizes == net.sizes && n.fns == net.fns && n.rates == net.rates && n.num == net.num
  {
  }

  /** Epoch e + 1 starts from the network epoch e produced: training is the epoch step repeated. */
  lemma TrainedStep(net: Net, s: Schedule, e: nat)
    requires Fits(net, s.x, s.y)
    ensures Trained(net, s, e + 1) == Step(Trained(net, s, e), s.x, s.y, s.lr, DrawsAt(s.u, e))
  {
    var before := Trained(net, s, e);
    assert Trained(net, s, e + 1) == EpochStep(s, e, before);
  }

  /** An epoch run on the last network of a run extends the run and the record of training losses. */
  lemma ExtendTraining(nets: seq<Net>, losses: seq<real>, next: Net, loss: real, s: Schedule)
    requires IsRun(nets, EpochStep, s) && Records(losses, nets, TrainLossOf, s)
    requires Fits(nets[|nets| - 1], s.x, s.y)
    requires next == Step(nets[|nets| - 1], s.x, s.y, s.lr, DrawsAt(s.u, |nets| - 1))
    requires loss == StepLoss(nets[|nets| - 1], s.x, s.y, s.lr, s.lambda, DrawsAt(s.u, |nets| - 1))
    ensures IsRun(nets + [next], EpochStep, s)
    ensures Records(losses + [loss], nets + [next], TrainLossOf, s)
  {
    assert next == EpochStep(s, |nets| - 1, nets[|nets| - 1]);
    ExtendRun(nets, next, EpochStep, s);
    assert loss == TrainLossOf(s, |losses|, nets[|losses|], next);
    ExtendRecords(losses, nets, next, loss, TrainLossOf, s);
  }

  /** The validation loss of the network an epoch produced extends the record of validation losses. */
  lemma ExtendValidation(nets: seq<Net>, losses: seq<real>, next: Net, loss: real, h: Holdout)
    requires Records(losses, nets, ValLossOf, h)
    requires Fits(next, h.x, h.y) && loss == EvalLoss(next, h.lambda, h.x, h.y)
    ensures Records(losses + [loss], nets + [next], ValLossOf, h)
  {
    assert loss == ValLossOf(h, |losses|, nets[|losses|], next);
    ExtendRecords(losses, nets, next, loss, ValLossOf, h);
  }

  /** The training loss recorded in epoch e. */
  ghost function EpochLoss(net: Net, s: Schedule, e: nat): real
    requires Fits(net, s.x, s.y)
  {
    StepLoss(Trained(net, s, e), s.x, s.y, s.lr, s.lambda, DrawsAt(s.u, e))
  }

  /** The validation loss recorded in epoch e: that of the network the epoch's update produced. */
  ghost function ValLoss(net: Net, s: Schedule, h: Holdout, e: nat): real
    requires Fits(net, s.x, s.y) && Fits(net, h.x, h.y)
  {
    EvalLoss(Trained(net, s, e + 1), h.lambda, h.x, h.y)
  }

  /** The e-th network of a run of epoch steps is the first one trained for e epochs. */
  lemma RunIsTrained(nets: seq<Net>, s: Schedule, e: nat)
    requires IsRun(nets, EpochStep, s) && Fits(nets[0], s.x, s.y) && e < |nets|
    ensures nets[e] == Trained(nets[0], s, e)
  {
    RunIsIterate(nets, EpochStep, s, e);
  }

  /** Every network of a run that starts from fitting data fits it, with the first network's layer sizes. */
  lemma RunFits(nets: seq<Net>, s: Schedule, e: nat)
    requires IsRun(nets, EpochStep, s) && Fits(nets[0], s.x, s.y) && e < |nets|
    ensures Fits(nets[e], s.x, s.y) && nets[e].sizes == nets[0].sizes
  {
    RunIsTrained(nets, s, e);
  }

  /** A recorded training loss is the loss of that epoch of training from the run's first network. */
  lemma TrainingRecordIsHistory(losses: seq<real>, nets: seq<Net>, s: Schedule, e: nat)
    requires IsRun(nets, EpochStep, s) && Fits(nets[0], s.x, s.y)
    requires Records(losses, nets, TrainLossOf, s) && e < |losses|
    ensures losses[e] == EpochLoss(nets[0], s, e)
  {
    RecordAt(losses, nets, TrainLossOf, s, e);
    RunIsTrained(nets, s, e);
    assert losses[e] == TrainLossOf(s, e, nets[e], nets[e + 1]);
  }

  /** A recorded validation loss is that of the network the epoch's update produced. */
  lemma ValidationRecordIsHistory(losses: seq<real>, nets: seq<Net>, s: Schedule, h: Holdout, e: nat)
    requires IsRun(nets, EpochStep, s) && Fits(nets[0], s.x, s.y) && Fits(nets[0], h.x, h.y)
    requires Records(losses, nets, ValLossOf, h) && e < |losses|
    ensures losses[e] == ValLoss(nets[0], s, h, e)
  {
    RecordAt(losses, nets, ValLossOf, h, e);
    RunFits(nets, s, e + 1);
    assert losses[e] == ValLossOf(h, e, nets[e], nets[e + 1]);
    RunIsTrained(nets, s, e + 1);
  }

  // ------------------------------------------------------------ prediction

  /** (p > 0.5).astype(int), entry by entry */
  function Threshold(p: Matrix): (labels: seq<seq<int>>)
    ensures |labels| == p.rows
    ensures forall i :: 0 <= i < p.rows ==> |labels[i]| == p.cols
    ensures forall i, j :: 0 <= i < p.rows && 0 <= j < p.cols ==>
      (labels[i][j] == 1 <==> p.data[i][j] > 0.5) && (labels[i][j] == 0 <==> p.data[i][j] <= 0.5)
  {
    seq(p.rows, i requires 0 <= i < p.rows =>
      seq(p.cols, j requires 0 <= j < p.cols => if p.data[i][j] > 0.5 then 1 else 0))
  }

  /** predict(X): the thresholded output of an evaluation-mode pass. */
  function Predictions(net: Net, x: Matrix): (labels: seq<seq<int>>)
    requires Shaped(net) && x.cols == net.sizes[0]
    ensures |labels| == x.rows
    ensures forall i :: 0 <= i < x.rows ==> |labels[i]| == 1 && (labels[i][0] == 0 || labels[i][0] == 1)
  {
    Threshold(Forward(net, x, false, NoDraws).acts[|net.weights|])
  }

  /** A larger output never gets a smaller label; exactly 0.5 is labelled 0. */
  lemma ThresholdMonotone(p: Matrix, q: Matrix, i: nat, j: nat)
    requires SameShape(p, q) && i < p.rows && j < p.cols
    requires p.data[i][j] <= q.data[i][j]
    ensures Threshold(p)[i][j] <= Threshold(q)[i][j]
    ensures p.data[i][j] == 0.5 ==> Threshold(p)[i][j] == 0
  {
  }
}
