# MLP binary classifier

A Dafny model of `MLPBinaryClassifier` in `train.py`. This is a hand-written
multilayer perceptron for binary classification, trained by full-batch
gradient descent with per-layer dropout and an L2 penalty in the reported
loss. The model covers the following, and proves the bookkeeping around the
arithmetic: shapes, list lengths, index alignment, the order of effects and
the error paths.

- The activation registry (`relu`, `sigmoidDerivative`, `reluDerivative`,
  `ACTIVATIONS`).
- The loss and its derivative, and the ridge penalty.
- The network's construction, the forward pass with inverted dropout,
  backpropagation, the update rule, the training loop's loss records, and
  prediction.

Modules:

- `Matrices` (matrices.dfy): real matrices that carry their shape, and the
  numpy operations the classifier uses.
- `Activations` (activations.dfy): relu, the two derivatives, and the
  registry as a lookup from name to activation.
- `Losses` (losses.dfy): binary cross-entropy and its derivative, with the
  1e-8 guard.
- `Penalty` (penalty.dfy): the L2 penalty over the weight matrices.
- `Runs` (runs.dfy): generic runs of an iterated step and the values
  recorded per round. The step and the record function are named
  functions that take the run's fixed configuration. The training loop's
  histories are stated with these: the configuration is `Network.Schedule`
  (X, y, the learning rate, the L2 coefficient and the draws) for the
  training losses, and `Network.Holdout` (X_val, y_val and the L2
  coefficient) for the validation losses.
- `Network` (network.dfy): the network as a value, and every pass as a
  function of the network and the random draws:
  - `Forward`, `Delta`, `WeightGrads`, `BiasGrads`, `Descend`
  - `Step`, the training run `Trained`, and `Predictions`
- `Classifier` (classifier.dfy): the class `MlpBinaryClassifier`. Its fields
  are the object's attributes. Its methods append to and reassign those
  fields as `train.py` does, and each is proved against the `Network`
  function applied to a snapshot of the fields.

Floating point is replaced by exact reals. `sigmoid` and `log` are function
values supplied at construction (`Numerics`). The random draws are
parameters:

- `noise(i, r, c)` is the normal draw behind entry (r, c) of weight matrix i.
- `u(epoch, layer, r, c)` is the uniform draw behind the dropout mask.

The L2 penalty enters only the recorded losses: `Network.WeightGrads` has
no L2 term, so each update is plain gradient descent on the cross-entropy.

### Where the model follows the code over the usual intent

- **Dropout on the output layer.** A binary classifier's single output
  unit is normally never dropped, since it is the prediction. The code
  applies `dropout_rates[i]` to every layer `i < len(dropout_rates)`. The
  output layer is therefore dropped when the list has a rate for every
  layer, the output layer included. `OutputNeverDropped` proves that the
  output layer gets no mask only for shorter lists, which includes the
  default.
- **Backward and dropout.** Inverted dropout normally scales the backward
  signal by the same 1/(1 - rate) as the forward pass. The code's backward
  pass differs:
  - it never reads the output layer's mask;
  - it multiplies by the 0/1 masks without the 1/(1 - rate) factor;
  - it evaluates each derivative on the post-dropout activation that
    forward recorded.
- **The output error signal.** For a sigmoid output under cross-entropy
  the error signal is normally exactly p - y, which makes a network
  without hidden layers logistic regression with gradient
  Xᵗ(sigmoid(XW+b) - y). Because of the 1e-8 in the derivative's
  denominator, the code's signal is (p - y) · s/(s + 1e-8), where
  s = p(1 - p). That is the residual damped by a factor in [0, 1)
  (`OutputErrorIsDampedResidual`).
- **An unknown activation name.** The code raises `KeyError` only after
  appending that layer's weight and bias. The model keeps those partial
  appends.

## Model

| member | source | states |
|---|---|---|
| Activations.Relu | train.py:13-14 | relu is non-negative, at least its input, and either 0 or its input |
| Activations.ReluDerivative | train.py:16-17 | the relu derivative is 0 or 1, and is 1 exactly when the output is positive |
| Activations.SigmoidDerivative | train.py:10-11 | on an output in [0, 1] the derivative a(1 - a) lies in [0, 0.25]; it is zero exactly at 0 and 1 |
| Activations.ReluDerivativeOfOutput | train.py:13-17 | the derivative taken on relu's output is relu's slope at the input |
| Activations.Lookup | train.py:20-23 | a name is missing from the registry (the KeyError case) iff it is neither "sigmoid" nor "relu" |
| Activations.LookupName | train.py:20-23 | registry names and activations correspond one to one |
| Activations.Apply | train.py:76 | applying an activation keeps the shape; relu outputs are non-negative |
| Activations.Derivative | train.py:99 | the derivative matrix has the output's shape; relu's is 0/1 everywhere |
| Losses.Mean | train.py:26 | a mean has the sign its entries share: entries all at most 0 give a mean at most 0, entries all at least 0 a mean at least 0 |
| Losses.MeanOfConstant | train.py:26 | the mean of a non-empty matrix whose entries all equal c is c |
| Losses.BinaryCrossEntropy | train.py:25-26 | on labels in [0, 1] and predictions whose two logarithms are at most 0, the loss is non-negative |
| Losses.CrossEntropySymmetric | train.py:25-26 | the loss is unchanged when both the labels and the predictions are complemented (swapping the classes) |
| Losses.CrossEntropyDerivative | train.py:28-29 | for a prediction in [0, 1] the derivative is positive iff p > y and negative iff p < y |
| Losses.CrossEntropyDerivativeAntisymmetric | train.py:28-29 | swapping the classes negates the derivative |
| Losses.OutputErrorIsDampedResidual | train.py:99 | at a sigmoid output the seed error is (p - y) times a damping factor in [0, 1) |
| Losses.CrossEntropyDerivatives | train.py:28-29 | the matrix derivative has the prediction's shape and is the scalar derivative entry by entry |
| Penalty.L2Penalty | train.py:32-33 | the penalty is non-negative for a non-negative coefficient |
| Penalty.L2PenaltyOfZeroWeights | train.py:32-33 | all-zero weights carry no penalty |
| Network.LayerSizes | train.py:55 | the layer sizes are the input size, the hidden sizes in order, then 1 |
| Network.Activate | train.py:75-76 | a layer's activation has one row per input row and the layer's output width |
| Network.Dropout | train.py:82-83 | inverted dropout keeps the activation's shape |
| Network.DropoutMask | train.py:81 | the mask has the activation's shape; an entry is 1 iff its draw exceeds the rate, else 0 |
| Network.DropoutEntries | train.py:82-83 | a dropped unit becomes 0 and a kept unit becomes its activation / (1 - rate) |
| Network.LayerStep | train.py:75-88 | a layer's output is batch rows x the next layer's width; a mask is recorded iff training, the layer has a rate and the rate is positive, and it has the output's shape |
| Network.ForwardUpTo | train.py:70-90 | after k layers: k + 1 activations starting with X, k mask slots, each activation batch rows x that layer's width, masks present exactly where dropout applies |
| Network.Forward | train.py:69-92 | forward gives one activation per layer plus the input, one mask slot per layer, all shaped, masks present exactly where dropout applies |
| Network.ForwardLayerUpTo | train.py:74-90 | within the first k layers, activation i + 1 and mask i are what layer i makes of activation i |
| Network.ForwardLayer | train.py:74-90 | activation i + 1 and mask i of a forward pass are layer i applied to activation i |
| Network.ForwardMasks | train.py:81-84 | every recorded mask is 0/1, and where it is 0 the recorded activation is 0 |
| Network.UndroppedLayer | train.py:85-88 | a layer without dropout records no mask and its activation is exactly f(A W + b) |
| Network.EvalIgnoresDraws | train.py:78 | an evaluation-mode pass does not depend on the random draws |
| Network.TrainingWithoutDropout | train.py:78-88 | with no positive rate (the default zero list), training mode computes exactly what evaluation mode does |
| Network.OutputNeverDropped | train.py:78-88 | a rate list shorter than the number of layers never gives the output layer a mask |
| Network.Delta | train.py:99-107 | each layer's error signal is batch rows x that layer's width |
| Network.WeightGrad | train.py:102 | layer i's weight gradient has the shape of weight matrix i |
| Network.BiasGrad | train.py:103 | layer i's bias gradient has the shape of bias row i |
| Network.WeightGradsFrom | train.py:101-102 | the weight gradients prepended by the time backward reaches layer i are one per layer from i up, entry k being layer i + k's gradient |
| Network.BiasGradsFrom | train.py:101-103 | the bias gradients prepended by the time backward reaches layer i are one per layer from i up, entry k being layer i + k's gradient |
| Network.WeightGrads | train.py:96-109 | grads_w is aligned index for index with the weights, each entry shaped like its weight matrix and equal to that layer's gradient |
| Network.BiasGrads | train.py:96-109 | grads_b is aligned index for index with the biases, each entry a single row equal to that layer's gradient |
| Network.MaskBlocksDelta | train.py:105-107 | below the output layer, no error signal passes through a unit that its mask dropped |
| Network.DroppedUnitGradients | train.py:102-107 | a unit dropped for the whole batch gets a zero weight-gradient column and a zero bias gradient |
| Network.DescendOne | train.py:113-114 | every entry moves to p - lr * g, and the shape is kept |
| Network.Descend | train.py:111-114 | the update keeps the list length and every matrix shape |
| Network.DescendAt | train.py:111-114 | matrix k of the update is matrix k stepped against gradient k |
| Network.DescendPointwise | train.py:111-114 | a list whose every matrix is stepped against its own gradient is the updated list |
| Network.DescendShaped | train.py:111-114 | updating the weights and biases keeps a well-shaped network well shaped |
| Network.DescendOneUndo | train.py:113-114 | stepping one matrix with -lr after lr restores it |
| Network.DescendUndo | train.py:111-114 | a step with learning rate -lr undoes a step with lr |
| Network.DescendZeroGradient | train.py:111-114 | a zero gradient leaves its parameter matrix unchanged |
| Network.Penalized | train.py:123 | adding the L2 penalty with lambda >= 0 never lowers a loss, and with lambda = 0 leaves it unchanged |
| Network.StepLoss | train.py:119-123 | for lambda >= 0 the training loss is at least the cross-entropy of the training pass's pre-update outputs, and equal to it for lambda = 0 |
| Network.EvalLoss | train.py:127-128 | for lambda >= 0 the validation loss is at least the cross-entropy of the evaluation pass's outputs, and equal to it for lambda = 0 |
| Network.Step | train.py:119-121 | one epoch keeps the network well shaped and keeps its sizes, activations, rates and every parameter shape |
| Network.Trained | train.py:118-121 | training for any number of epochs keeps the data fitting the network and keeps its sizes, activations and rates |
| Network.TrainedKeepsShape | train.py:118-121 | repeating the epoch step keeps the network's shape, activations, rates and arithmetic |
| Network.EpochStepKeepsShape | train.py:119-121 | one epoch step keeps the network's shape, activations, rates and arithmetic |
| Network.TrainedStep | train.py:118-121 | epoch e + 1 starts from the network that epoch e produced, updated with epoch e's draws |
| Network.ExtendTraining | train.py:119-124 | one epoch on the last network extends the run and the training-loss record by that epoch |
| Network.ExtendValidation | train.py:126-129 | the validation loss of the updated network extends the validation-loss record |
| Network.RunIsTrained | train.py:118-121 | the e-th network of a run is the first network trained for e epochs |
| Network.RunFits | train.py:118-121 | every network of a run that starts from fitting data fits it, with the first network's layer sizes |
| Network.TrainingRecordIsHistory | train.py:123-124 | train_losses[e] is the loss of epoch e of training from the run's first network: the pre-update outputs' cross-entropy plus the post-update penalty |
| Network.ValidationRecordIsHistory | train.py:126-129 | val_losses[e] is the evaluation loss of the network that epoch e produced |
| Network.Threshold | train.py:138 | a label is 1 iff the output exceeds 0.5 and 0 iff it is at most 0.5, with one label per entry |
| Network.Predictions | train.py:137-138 | predict gives one 0/1 label per input row |
| Network.ThresholdMonotone | train.py:138 | a larger output never gets a smaller label, and exactly 0.5 is labelled 0 |
| Runs.IterateKeeps | train.py:118-121 | a property every epoch keeps holds after any number of epochs |
| Runs.ExtendRun | train.py:118-121 | stepping the last state extends a run |
| Runs.ExtendRecords | train.py:123-129 | recording the value of the round that extended a run extends the record |
| Runs.RunIsIterate | train.py:118-121 | the k-th state of a run is the first state stepped k times |
| Runs.RunDetermined | train.py:118-121 | two runs of one step from one start with the same length are equal |
| Runs.RecordAt | train.py:123-129 | round k's recorded value is the record function of round k's states |
| Runs.RecordsDetermined | train.py:123-129 | a run determines its record |
| Classifier.InitialWeight | train.py:61 | weight matrix i is sizes[i] x sizes[i + 1], with entry (r, c) equal to 0.01 times its normal draw |
| Classifier.InitialWeights | train.py:60-61 | the first n initial weight matrices are n matrices |
| Classifier.InitialBiases | train.py:60-62 | the first n initial bias rows are n rows |
| Classifier.InitialParametersAt | train.py:60-62 | the i-th initial weight is layer i's scaled draw matrix, and the i-th bias is a zero (1, sizes[i + 1]) row |
| Classifier.FirstUnknown | train.py:64 | the names before the first unknown one are all registered, and the first unknown one is not |
| Classifier.LayersBuilt | train.py:60-64 | construction appends every layer's parameters iff only the last name may be unknown |
| Classifier.Resolved | train.py:64-66 | the resolved list has one activation per resolved name, each the registry's entry for that name |
| Classifier.CheckConfig | train.py:57-66 | construction succeeds iff there is one registered name per layer, giving one activation per name; ValueError iff the count is wrong; otherwise a KeyError names an unregistered name |
| Classifier.DefaultRates | train.py:45 | a non-empty rate list is kept; None or [] gives one 0.0 per hidden layer |
| Classifier.InitialNetworkShaped | train.py:55-62 | a successful construction builds a well-shaped network with one weight matrix per layer and all-zero biases |
| Classifier.DefaultRatesNeverDrop | train.py:45 | the default rates are shorter than the layer list and never positive, so no layer is ever dropped |
| Classifier.MlpBinaryClassifier.constructor | train.py:37-51 | the attributes are the arguments (rates defaulted), and every list is empty |
| Classifier.MlpBinaryClassifier.InitializeNetwork | train.py:54-66 | a wrong count fails with nothing appended; otherwise one weight and bias per layer is appended up to and including the first unknown name, and one activation per resolved name; the loss histories are untouched |
| Classifier.MlpBinaryClassifier.Forward | train.py:69-92 | fails iff X's width is not the input size; otherwise returns exactly Network.Forward of the current parameters |
| Classifier.MlpBinaryClassifier.Layer | train.py:75-88 | one loop iteration of forward gives layer i's step: activation, then dropout and its mask when the layer drops |
| Classifier.MlpBinaryClassifier.Backward | train.py:95-109 | the reverse loop of prepends returns exactly WeightGrads and BiasGrads |
| Classifier.MlpBinaryClassifier.Propagate | train.py:105-107 | the delta update gives the error signal of the layer below |
| Classifier.MlpBinaryClassifier.UpdateWeights | train.py:111-114 | the in-place loop sets weights and biases to their Descend; activations and histories are unchanged, and the network stays well shaped |
| Classifier.MlpBinaryClassifier.RunEpoch | train.py:119-123 | forward, backward and update make the fields Step of the old network, and return that epoch's training loss |
| Classifier.MlpBinaryClassifier.ValidationLoss | train.py:127-128 | the validation loss is EvalLoss of the current network |
| Classifier.MlpBinaryClassifier.Epoch | train.py:118-129 | one epoch extends the run by the updated network and the records by its losses; a validation loss exists iff both X_val and y_val are given |
| Classifier.MlpBinaryClassifier.Train | train.py:117-135 | train_losses grows by exactly one loss per epoch and val_losses only when both X_val and y_val are given; each entry is that epoch's loss from the training history; the final network is the last of the run; X_val without y_val fails after epoch 0 |
| Classifier.MlpBinaryClassifier.Predict | train.py:137-138 | fails iff X's width is not the input size; otherwise returns Predictions of the current network |
| Classifier.Create | train.py:37-52 | a configuration error escapes iff CheckConfig fails; otherwise a fresh, well-shaped model holds the initial weights, zero biases, resolved activations and empty histories |

## Left out

- The module-level script (train.py:140-164) is left out. It covers CSV loading, the train/test split, feature scaling, the training call and pickling, all of which are I/O and foreign library calls.
- `sigmoid`, `np.log` and `np.exp` are uninterpreted function values, so the model states no numeric value of the loss.
- IEEE rounding, overflow, infinities and NaN are not modelled; the reals are exact.
- The mean of an empty batch is NaN in numpy. The model uses 0.0 (`Losses.Mean`).
- Losses.CrossEntropyDerivative: where the denominator p(1 - p) + 1e-8 is zero (only for a prediction outside [0, 1]), numpy gives an infinity or NaN. The model uses 0.0.
- Classifier.MlpBinaryClassifier.constructor: a dropout rate of exactly 1.0 divides by zero in the forward pass. The model requires every rate to differ from 1.0 rather than modelling that division.
- Classifier.Create: requires every dropout rate to differ from 1.0, as the constructor does, for the same reason.
- Shapes that numpy would reject, or broadcast in ways the classifier never uses, are excluded by preconditions:
  - train needs X as wide as the input layer and y with one label column per row of X;
  - backward needs a cache shaped by a forward pass.
  The only shape error modelled as a value is an input whose width does not match in forward and predict.
- The logging in train (train.py:131-135) is printing, apart from one effect. When X_val is given without y_val, epoch 0 reads a `val_loss` that was never assigned, and the resulting error ends training. That effect is modelled as `UnboundValLoss`. The printed text, and the hard-coded alpha 0.001 in the printed loss, are left out.
- Network.EpochStep, Network.TrainLossOf, Network.ValLossOf: these are total by returning the network unchanged, or 0.0, when the data does not fit. On every run that starts from fitting data those branches are never taken (`Network.Trained`).
- Penalty.L2PenaltyOfZeroWeights: only one direction is stated, that zero weights give a zero penalty. The converse fails for a zero coefficient.
- Classifier.InitialWeights, Classifier.InitialBiases: their own contracts state only the length. The entries are stated by `Classifier.InitialParametersAt`.
- Global random state: `np.random.randn` and `np.random.rand` are replaced by the draw functions passed in, so reproducibility is by construction.
