/**
 * The L2 (ridge) penalty: the sum of the squared entries of every weight
 * matrix, times the regularisation coefficient. Biases are not penalised.
 */
module Penalty {
  import opened Matrices

  /** w ** 2 */
  function Square(x: real): real {
    x * x
  }

  lemma SquareNonNegative(x: real)
    ensures Square(x) >= 0.0
  {
  }

  function RowSquares(row: seq<real>): (r: real)
    ensures r >= 0.0
  {
    if row == [] then 0.0 else SquareNonNegative(row[0]); Square(row[0]) + RowSquares(row[1..])
  }

  function MatrixSquares(rows: seq<seq<real>>): (r: real)
    ensures r >= 0.0
  {
    if rows == [] then 0.0 else RowSquares(rows[0]) + MatrixSquares(rows[1..])
  }

  function WeightSquares(ws: seq<Matrix>): (r: real)
    ensures r >= 0.0
  {
    if ws == [] then 0.0 else MatrixSquares(ws[0].data) + WeightSquares(ws[1..])
  }

  /** alpha * sum(np.sum(w ** 2) for w in weights): only weights, never biases. */
  function L2Penalty(weights: seq<Matrix>, alpha: real): (r: real)
    ensures alpha >= 0.0 ==> r >= 0.0
  {
    alpha * WeightSquares(weights)
  }

  predicate AllZero(ws: seq<Matrix>) {
    forall k, i, j :: 0 <= k < |ws| && 0 <= i < ws[k].rows && 0 <= j < ws[k].cols ==> ws[k].data[i][j] == 0.0
  }

  lemma {:induction false} RowSquaresZero(row: seq<real>)
    requires forall j :: 0 <= j < |row| ==> row[j] == 0.0
    ensures RowSquares(row) == 0.0
  {
    if row != [] {
      RowSquaresZero(row[1..]);
    }
  }

  lemma {:induction false} MatrixSquaresZero(rows: seq<seq<real>>)
    requires forall i, j :: 0 <= i < |rows| && 0 <= j < |rows[i]| ==> rows[i][j] == 0.0
    ensures MatrixSquares(rows) == 0.0
  {
    if rows != [] {
      RowSquaresZero(rows[0]);
      MatrixSquaresZero(rows[1..]);
    }
  }

  lemma {:induction false} WeightSquaresZero(ws: seq<Matrix>)
    requires AllZero(ws)
    ensures WeightSquares(ws) == 0.0
  {
    if ws != [] {
      assert WellFormed(ws[0]);
      MatrixSquaresZero(ws[0].data);
      WeightSquaresZero(ws[1..]);
    }
  }

  /** All-zero weights carry no penalty, whatever the coefficient. */
  lemma L2PenaltyOfZeroWeights(weights: seq<Matrix>, alpha: real)
    requires AllZero(weights)
    ensures L2Penalty(weights, alpha) == 0.0
  {
    WeightSquaresZero(weights);
  }
}
