/**
 * Binary cross-entropy, its derivative with respect to the prediction, and
 * the L2 (ridge) penalty over the weight matrices.
 *
 * The logarithm is uninterpreted (a function value the caller supplies);
 * everything else is exact real arithmetic.
 */
module Losses {
  import opened Matrices
  import opened Activations

  /** The 1e-8 added inside both logarithms and to the derivative's denominator. */
  const Epsilon: real := 0.00000001

  function RowsTotal(rows: seq<seq<real>>): real {
    if rows == [] then 0.0 else Sum(rows[0]) + RowsTotal(rows[1..])
  }

  lemma {:induction false} SumSign(s: seq<real>)
    ensures (forall k :: 0 <= k < |s| ==> s[k] <= 0.0) ==> Sum(s) <= 0.0
    ensures (forall k :: 0 <= k < |s| ==> s[k] >= 0.0) ==> Sum(s) >= 0.0
  {
    if s != [] {
      SumSign(s[1..]);
    }
  }

  lemma {:induction false} RowsTotalSign(rows: seq<seq<real>>)
    ensures (forall i, j :: 0 <= i < |rows| && 0 <= j < |rows[i]| ==> rows[i][j] <= 0.0) ==> RowsTotal(rows) <= 0.0
    ensures (forall i, j :: 0 <= i < |rows| && 0 <= j < |rows[i]| ==> rows[i][j] >= 0.0) ==> RowsTotal(rows) >= 0.0
  {
    if rows != [] {
      SumSign(rows[0]);
      RowsTotalSign(rows[1..]);
    }
  }

  lemma {:induction false} SumConstant(s: seq<real>, c: real)
    requires forall k :: 0 <= k < |s| ==> s[k] == c
    ensures Sum(s) == |s| as real * c
  {
    if s != [] {
      SumConstant(s[1..], c);
    }
  }

  lemma {:induction false} RowsTotalConstant(rows: seq<seq<real>>, n: nat, c: real)
    requires forall i :: 0 <= i < |rows| ==> |rows[i]| == n
    requires forall i, j :: 0 <= i < |rows| && 0 <= j < |rows[i]| ==> rows[i][j] == c
    ensures RowsTotal(rows) == |rows| as real * (n as real * c)
  {
    if rows != [] {
      SumConstant(rows[0], c);
      RowsTotalConstant(rows[1..], n, c);
    }
  }

  /**
   * np.mean over every entry; numpy's NaN for an empty array is 0.0 here.
   * A mean has the sign its entries share.
   */
  function Mean(m: Matrix): (r: real)
    ensures (forall i, j :: 0 <= i < m.rows && 0 <= j < m.cols ==> m.data[i][j] <= 0.0) ==> r <= 0.0
    ensures (forall i, j :: 0 <= i < m.rows && 0 <= j < m.cols ==> m.data[i][j] >= 0.0) ==> r >= 0.0
  {
    RowsTotalSign(m.data);
    if m.rows * m.cols == 0 then 0.0 else RowsTotal(m.data) / (m.rows * m.cols) as real
  }

  /** The mean of a non-empty matrix whose entries are all `c` is `c`. */
  lemma MeanOfConstant(m: Matrix, c: real)
    requires m.rows * m.cols > 0
    requires forall i, j :: 0 <= i < m.rows && 0 <= j < m.cols ==> m.data[i][j] == c
    ensures Mean(m) == c
  {
    var n := (m.rows * m.cols) as real;
    RowsTotalConstant(m.data, m.cols, c);
    Regroup(m.rows, m.cols, c);
    assert RowsTotal(m.data) == n * c;
    Cancel(n, c);
  }

  lemma Regroup(a: nat, b: nat, c: real)
    ensures a as real * (b as real * c) == (a * b) as real * c
  {
  }

  lemma Cancel(n: real, c: real)
    requires n > 0.0
    ensures (n * c) / n == c
  {
  }

  /** y * log(p + eps) + (1 - y) * log(1 - p + eps), entry by entry */
  function LogLikelihoods(yTrue: Matrix, yPred: Matrix, log: real -> real): (l: Matrix)
    requires SameShape(yTrue, yPred)
    ensures SameShape(l, yPred)
  {
    Mat(yPred.rows, yPred.cols,
        seq(yPred.rows, i requires 0 <= i < yPred.rows =>
          seq(yPred.cols, j requires 0 <= j < yPred.cols =>
            var y, p := yTrue.data[i][j], yPred.data[i][j];
            y * log(p + Epsilon) + (1.0 - y) * log(1.0 - p + Epsilon))))
  }

  /**
   * Labels in [0, 1] and predictions whose two logarithms are at most 0, as
   * a true logarithm gives for a prediction in [0, 1 - eps].
   */
  ghost predicate InLogRange(yTrue: Matrix, yPred: Matrix, log: real -> real)
    requires SameShape(yTrue, yPred)
  {
    forall i, j :: 0 <= i < yPred.rows && 0 <= j < yPred.cols ==>
      && 0.0 <= yTrue.data[i][j] <= 1.0
      && log(yPred.data[i][j] + Epsilon) <= 0.0
      && log(1.0 - yPred.data[i][j] + Epsilon) <= 0.0
  }

  lemma LikelihoodsNonPositive(yTrue: Matrix, yPred: Matrix, log: real -> real)
    requires SameShape(yTrue, yPred)
    ensures InLogRange(yTrue, yPred, log) ==>
      forall i, j :: 0 <= i < yPred.rows && 0 <= j < yPred.cols ==>
        LogLikelihoods(yTrue, yPred, log).data[i][j] <= 0.0
  {
    if InLogRange(yTrue, yPred, log) {
      forall i, j | 0 <= i < yPred.rows && 0 <= j < yPred.cols
        ensures LogLikelihoods(yTrue, yPred, log).data[i][j] <= 0.0
      {
        var y, p := yTrue.data[i][j], yPred.data[i][j];
        NonPositiveProduct(y, log(p + Epsilon));
        NonPositiveProduct(1.0 - y, log(1.0 - p + Epsilon));
      }
    }
  }

  lemma NonPositiveProduct(a: real, b: real)
    requires a >= 0.0 && b <= 0.0
    ensures a * b <= 0.0
  {
  }

  /** -mean(y log(p + eps) + (1 - y) log(1 - p + eps)); never negative on labels in [0, 1]. */
  function BinaryCrossEntropy(yTrue: Matrix, yPred: Matrix, log: real -> real): (loss: real)
    requires SameShape(yTrue, yPred)
    ensures InLogRange(yTrue, yPred, log) ==> loss >= 0.0
  {
    LikelihoodsNonPositive(yTrue, yPred, log);
    -Mean(LogLikelihoods(yTrue, yPred, log))
  }

  /** 1 - m: swaps the roles of the two classes */
  function Complement(m: Matrix): (c: Matrix)
    ensures SameShape(c, m)
    ensures forall i, j :: 0 <= i < m.rows && 0 <= j < m.cols ==> c.data[i][j] == 1.0 - m.data[i][j]
  {
    MapEntries(m, x => 1.0 - x)
  }

  /** The loss does not depend on which class is called positive. */
  lemma CrossEntropySymmetric(yTrue: Matrix, yPred: Matrix, log: real -> real)
    requires SameShape(yTrue, yPred)
    ensures BinaryCrossEntropy(Complement(yTrue), Complement(yPred), log) == BinaryCrossEntropy(yTrue, yPred, log)
  {
    var a := LogLikelihoods(Complement(yTrue), Complement(yPred), log);
    var b := LogLikelihoods(yTrue, yPred, log);
    forall i, j | 0 <= i < b.rows && 0 <= j < b.cols
      ensures a.data[i][j] == b.data[i][j]
    {
      var y, p := yTrue.data[i][j], yPred.data[i][j];
      assert 1.0 - (1.0 - p) == p && 1.0 - (1.0 - y) == y;
    }
    Extensionality(a, b);
  }

  /**
   * (p - y) / (p * (1 - p) + eps). The denominator is zero only for a
   * prediction outside [0, 1] (a relu output layer); floating point then
   * gives an infinity or NaN, which the reals cannot hold, and 0.0 stands
   * in for it.
   */
  function CrossEntropyDerivative(y: real, p: real): (d: real)
    ensures 0.0 <= p <= 1.0 ==> (d > 0.0 <==> p > y) && (d < 0.0 <==> p < y)
  {
    var den := p * (1.0 - p) + Epsilon;
    ProductBounds(p);
    if den == 0.0 then 0.0 else (p - y) / den
  }

  /** Swapping the classes negates the derivative. */
  lemma CrossEntropyDerivativeAntisymmetric(y: real, p: real)
    ensures CrossEntropyDerivative(1.0 - y, 1.0 - p) == -CrossEntropyDerivative(y, p)
  {
    assert (1.0 - p) * (1.0 - (1.0 - p)) == p * (1.0 - p);
  }

  /**
   * At a sigmoid output the seed error signal is the residual p - y damped
   * by a factor in [0, 1): the eps keeps it from being exactly p - y.
   */
  lemma OutputErrorIsDampedResidual(y: real, p: real)
    requires 0.0 <= p <= 1.0
    ensures var s := SigmoidDerivative(p);
            CrossEntropyDerivative(y, p) * s == (p - y) * (s / (s + Epsilon))
            && 0.0 <= s / (s + Epsilon) < 1.0
  {
    var s := SigmoidDerivative(p);
    var den := s + Epsilon;
    assert den > 0.0;
    calc {
      CrossEntropyDerivative(y, p) * s;
      ((p - y) / den) * s;
      (p - y) * (s / den);
    }
    DampingBelowOne(s);
  }

  lemma DampingBelowOne(s: real)
    requires s >= 0.0
    ensures 0.0 <= s / (s + Epsilon) < 1.0
  {
    var den := s + Epsilon;
    var q := s / den;
    assert q * den == s;
    if q >= 1.0 {
      assert false;
    }
  }

  /** Matrix form of the derivative, entry by entry. */
  function CrossEntropyDerivatives(yTrue: Matrix, yPred: Matrix): (d: Matrix)
    requires SameShape(yTrue, yPred)
    ensures SameShape(d, yPred)
    ensures forall i, j :: 0 <= i < yPred.rows && 0 <= j < yPred.cols ==>
      d.data[i][j] == CrossEntropyDerivative(yTrue.data[i][j], yPred.data[i][j])
  {
    Mat(yPred.rows, yPred.cols,
        seq(yPred.rows, i requires 0 <= i < yPred.rows =>
          seq(yPred.cols, j requires 0 <= j < yPred.cols =>
            CrossEntropyDerivative(yTrue.data[i][j], yPred.data[i][j]))))
  }
}
