/**
 * Dense real matrices that carry their shape, as numpy arrays do.
 *
 * Every operation requires the operand shapes numpy would accept for the
 * way the classifier uses it (no general broadcasting), and states the
 * shape of its result, so that a caller that type-checks here is a caller
 * whose shapes line up.
 */
module Matrices {

  datatype Mat = Mat(rows: nat, cols: nat, data: seq<seq<real>>)

  ghost predicate WellFormed(m: Mat) {
    |m.data| == m.rows && forall i :: 0 <= i < m.rows ==> |m.data[i]| == m.cols
  }

  /** A `rows` x `cols` matrix; a matrix with no rows still has a column count. */
  type Matrix = m: Mat | WellFormed(m) witness Mat(0, 0, [])

  predicate SameShape(a: Matrix, b: Matrix) {
    a.rows == b.rows && a.cols == b.cols
  }

  function Sum(s: seq<real>): real {
    if s == [] then 0.0 else s[0] + Sum(s[1..])
  }

  function Inner(x: seq<real>, y: seq<real>): real
    requires |x| == |y|
  {
    if x == [] then 0.0 else x[0] * y[0] + Inner(x[1..], y[1..])
  }

  function Column(m: Matrix, j: nat): (c: seq<real>)
    requires j < m.cols
    ensures |c| == m.rows
    ensures forall i :: 0 <= i < m.rows ==> c[i] == m.data[i][j]
  {
    seq(m.rows, i requires 0 <= i < m.rows => m.data[i][j])
  }

  /** np.zeros((rows, cols)) */
  function Zeros(rows: nat, cols: nat): (z: Matrix)
    ensures z.rows == rows && z.cols == cols
    ensures forall i, j :: 0 <= i < rows && 0 <= j < cols ==> z.data[i][j] == 0.0
  {
    Mat(rows, cols, ZeroRows(rows, cols))
  }

  /** `rows` rows of `cols` zeros each. */
  function ZeroRows(rows: nat, cols: nat): (d: seq<seq<real>>)
    ensures |d| == rows && forall i :: 0 <= i < rows ==> d[i] == ZeroRow(cols)
  {
    if rows == 0 then [] else ZeroRows(rows - 1, cols) + [ZeroRow(cols)]
  }

  /** `cols` zeros. */
  function ZeroRow(cols: nat): (row: seq<real>)
    ensures |row| == cols && forall j :: 0 <= j < cols ==> row[j] == 0.0
  {
    if cols == 0 then [] else ZeroRow(cols - 1) + [0.0]
  }

  /** np.dot(a, b) */
  function MatMul(a: Matrix, b: Matrix): (c: Matrix)
    requires a.cols == b.rows
    ensures c.rows == a.rows && c.cols == b.cols
    ensures forall i, j :: 0 <= i < a.rows && 0 <= j < b.cols ==> c.data[i][j] == Inner(a.data[i], Column(b, j))
  {
    Mat(a.rows, b.cols,
        seq(a.rows, i requires 0 <= i < a.rows =>
          seq(b.cols, j requires 0 <= j < b.cols => Inner(a.data[i], Column(b, j)))))
  }

  /** a.T */
  function Transpose(a: Matrix): (t: Matrix)
    ensures t.rows == a.cols && t.cols == a.rows
    ensures forall i, j :: 0 <= i < a.cols && 0 <= j < a.rows ==> t.data[i][j] == a.data[j][i]
  {
    Mat(a.cols, a.rows, seq(a.cols, i requires 0 <= i < a.cols => Column(a, i)))
  }

  /** m + b where b is a single row broadcast over the rows of m */
  function AddRow(m: Matrix, b: Matrix): (s: Matrix)
    requires b.rows == 1 && b.cols == m.cols
    ensures SameShape(s, m)
    ensures forall i, j :: 0 <= i < m.rows && 0 <= j < m.cols ==> s.data[i][j] == m.data[i][j] + b.data[0][j]
  {
    Mat(m.rows, m.cols,
        seq(m.rows, i requires 0 <= i < m.rows =>
          seq(m.cols, j requires 0 <= j < m.cols => m.data[i][j] + b.data[0][j])))
  }

  /** np.sum(d, axis=0, keepdims=True) */
  function ColumnSums(d: Matrix): (s: Matrix)
    ensures s.rows == 1 && s.cols == d.cols
    ensures forall j :: 0 <= j < d.cols ==> s.data[0][j] == Sum(Column(d, j))
  {
    Mat(1, d.cols, [seq(d.cols, j requires 0 <= j < d.cols => Sum(Column(d, j)))])
  }

  /** a * b elementwise */
  function Hadamard(a: Matrix, b: Matrix): (h: Matrix)
    requires SameShape(a, b)
    ensures SameShape(h, a)
    ensures forall i, j :: 0 <= i < a.rows && 0 <= j < a.cols ==> h.data[i][j] == a.data[i][j] * b.data[i][j]
  {
    Mat(a.rows, a.cols,
        seq(a.rows, i requires 0 <= i < a.rows =>
          seq(a.cols, j requires 0 <= j < a.cols => a.data[i][j] * b.data[i][j])))
  }

  /** c * a */
  function Scale(c: real, a: Matrix): (s: Matrix)
    ensures SameShape(s, a)
    ensures forall i, j :: 0 <= i < a.rows && 0 <= j < a.cols ==> s.data[i][j] == c * a.data[i][j]
  {
    Mat(a.rows, a.cols,
        seq(a.rows, i requires 0 <= i < a.rows =>
          seq(a.cols, j requires 0 <= j < a.cols => c * a.data[i][j])))
  }

  /** a - b */
  function Subtract(a: Matrix, b: Matrix): (s: Matrix)
    requires SameShape(a, b)
    ensures SameShape(s, a)
    ensures forall i, j :: 0 <= i < a.rows && 0 <= j < a.cols ==> s.data[i][j] == a.data[i][j] - b.data[i][j]
  {
    Mat(a.rows, a.cols,
        seq(a.rows, i requires 0 <= i < a.rows =>
          seq(a.cols, j requires 0 <= j < a.cols => a.data[i][j] - b.data[i][j])))
  }

  /** f applied to every entry */
  function MapEntries(a: Matrix, f: real -> real): (m: Matrix)
    ensures SameShape(m, a)
    ensures forall i, j :: 0 <= i < a.rows && 0 <= j < a.cols ==> m.data[i][j] == f(a.data[i][j])
  {
    Mat(a.rows, a.cols,
        seq(a.rows, i requires 0 <= i < a.rows =>
          seq(a.cols, j requires 0 <= j < a.cols => f(a.data[i][j]))))
  }

  /** Two matrices with the same shape and entries are equal. */
  lemma Extensionality(a: Matrix, b: Matrix)
    requires SameShape(a, b)
    requires forall i, j :: 0 <= i < a.rows && 0 <= j < a.cols ==> a.data[i][j] == b.data[i][j]
    ensures a == b
  {
    forall i | 0 <= i < a.rows
      ensures a.data[i] == b.data[i]
    {
    }
  }

  lemma {:induction false} SumOfZeros(s: seq<real>)
    requires forall k :: 0 <= k < |s| ==> s[k] == 0.0
    ensures Sum(s) == 0.0
  {
    if s != [] {
      SumOfZeros(s[1..]);
    }
  }

  lemma {:induction false} InnerWithZeros(x: seq<real>, y: seq<real>)
    requires |x| == |y|
    requires forall k :: 0 <= k < |y| ==> y[k] == 0.0
    ensures Inner(x, y) == 0.0
  {
    if x != [] {
      InnerWithZeros(x[1..], y[1..]);
    }
  }
}
