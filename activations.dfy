/**
 * The activation registry: sigmoid and relu with their derivatives.
 *
 * Both derivatives take the layer's OUTPUT, not its pre-activation input.
 * The sigmoid itself needs exp, which has no exact counterpart over the
 * reals, so it is a function value the caller supplies in `Numerics`.
 */
module Activations {
  import opened Wrappers
  import opened Matrices

  datatype Activation = SigmoidActivation | ReluActivation

  /** The floating-point library functions the model leaves uninterpreted. */
  datatype Numerics = Numerics(sigmoid: real -> real, log: real -> real)

  /** np.maximum(0, x) */
  function Relu(x: real): (r: real)
    ensures r >= 0.0 && r >= x
    ensures r == 0.0 || r == x
  {
    if x > 0.0 then x else 0.0
  }

  /** (x > 0).astype(float) */
  function ReluDerivative(a: real): (d: real)
    ensures d == 0.0 || d == 1.0
    ensures d == 1.0 <==> a > 0.0
  {
    if a > 0.0 then 1.0 else 0.0
  }

  /** x * (1 - x), the sigmoid's derivative written in terms of its output */
  function SigmoidDerivative(a: real): (d: real)
    ensures 0.0 <= a <= 1.0 ==> 0.0 <= d <= 0.25
    ensures d == 0.0 <==> a == 0.0 || a == 1.0
  {
    ProductBounds(a);
    a * (1.0 - a)
  }

  lemma ProductBounds(a: real)
    ensures 0.0 <= a <= 1.0 ==> 0.0 <= a * (1.0 - a) <= 0.25
    ensures a * (1.0 - a) == 0.0 <==> a == 0.0 || a == 1.0
  {
    var e := a - 0.5;
    assert a * (1.0 - a) == 0.25 - e * e;
    assert e * e >= 0.0;
    if 0.0 <= a <= 1.0 {
      assert a * (1.0 - a) >= 0.0 * (1.0 - a);
    }
    if a != 0.0 && a != 1.0 {
      assert 1.0 - a != 0.0;
      assert a * (1.0 - a) != 0.0;
    }
  }

  /** Applied to relu's own output, the derivative is the slope of relu at the input. */
  lemma ReluDerivativeOfOutput(x: real)
    ensures ReluDerivative(Relu(x)) == (if x > 0.0 then 1.0 else 0.0)
  {
  }

  /** The name under which an activation is registered. */
  function Name(a: Activation): string
  {
    match a
    case SigmoidActivation => "sigmoid"
    case ReluActivation => "relu"
  }

  /** The ACTIVATIONS dictionary; None stands for the KeyError of a missing name. */
  function Lookup(name: string): (r: Option<Activation>)
    ensures r.None? <==> name != "sigmoid" && name != "relu"
  {
    if name == "sigmoid" then Some(SigmoidActivation)
    else if name == "relu" then Some(ReluActivation)
    else None
  }

  /** Registered names and activations correspond one to one. */
  lemma LookupName(a: Activation, name: string)
    ensures Lookup(Name(a)) == Some(a)
    ensures Lookup(name) == Some(a) ==> name == Name(a)
  {
  }

  /** The activation applied elementwise to a layer's pre-activation. */
  function Apply(a: Activation, num: Numerics, z: Matrix): (m: Matrix)
    ensures SameShape(m, z)
    ensures a == ReluActivation ==>
      forall i, j :: 0 <= i < m.rows && 0 <= j < m.cols ==> m.data[i][j] >= 0.0
  {
    match a
    case SigmoidActivation => MapEntries(z, num.sigmoid)
    case ReluActivation => MapEntries(z, Relu)
  }

  /** The activation's derivative applied elementwise to the layer's output. */
  function Derivative(a: Activation, out: Matrix): (m: Matrix)
    ensures SameShape(m, out)
    ensures a == ReluActivation ==>
      forall i, j :: 0 <= i < m.rows && 0 <= j < m.cols ==> m.data[i][j] == 0.0 || m.data[i][j] == 1.0
  {
    match a
    case SigmoidActivation => MapEntries(out, SigmoidDerivative)
    case ReluActivation => MapEntries(out, ReluDerivative)
  }
}
