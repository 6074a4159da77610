/**
 * Dense real matrices with an explicit shape, and the handful of numjs
 * primitives the network uses: dot, transpose, element-wise add, subtract
 * and multiply, multiplication and subtraction by a scalar, ones, element-wise
 * application of a scalar function, reshaping a flat list into a column,
 * `tolist` and `nj.array`. Elements are exact reals, not floating point.
 */
module Matrices {

  /** A rows-by-cols array; `cells[i][j]` is the element in row i, column j. */
  datatype Matrix = Matrix(rows: nat, cols: nat, cells: seq<seq<real>>) {
    /** The cells really have the recorded shape (every NdArray does). */
    predicate Valid() {
      |cells| == rows && forall i :: 0 <= i < |cells| ==> |cells[i]| == cols
    }
  }

  predicate HasShape(m: Matrix, rows: nat, cols: nat) {
    m.Valid() && m.rows == rows && m.cols == cols
  }

  predicate SameShape(a: Matrix, b: Matrix) {
    a.Valid() && b.Valid() && a.rows == b.rows && a.cols == b.cols
  }

  /** The sum over t < k of a[i][t] * b[t][j]. */
  function SumProducts(a: Matrix, b: Matrix, i: nat, j: nat, k: nat): real
    requires a.Valid() && b.Valid() && a.cols == b.rows
    requires i < a.rows && j < b.cols && k <= a.cols
  {
    if k == 0 then 0.0 else SumProducts(a, b, i, j, k - 1) + a.cells[i][k - 1] * b.cells[k - 1][j]
  }

  /** `nj.ones([rows, cols])` */
  function Ones(rows: nat, cols: nat): (r: Matrix)
    ensures HasShape(r, rows, cols)
    ensures forall i, j :: 0 <= i < rows && 0 <= j < cols ==> r.cells[i][j] == 1.0
  {
    Matrix(rows, cols, seq(rows, i => seq(cols, j => 1.0)))
  }

  /** `a.add(b)`: element-wise sum of two arrays of one shape. */
  function Add(a: Matrix, b: Matrix): (r: Matrix)
    requires SameShape(a, b)
    ensures HasShape(r, a.rows, a.cols)
    ensures forall i, j :: 0 <= i < a.rows && 0 <= j < a.cols ==>
      r.cells[i][j] == a.cells[i][j] + b.cells[i][j]
  {
    Matrix(a.rows, a.cols,
      seq(a.rows, i requires 0 <= i < a.rows =>
        seq(a.cols, j requires 0 <= j < a.cols => a.cells[i][j] + b.cells[i][j])))
  }

  /** `a.subtract(b)`: element-wise difference of two arrays of one shape. */
  function Sub(a: Matrix, b: Matrix): (r: Matrix)
    requires SameShape(a, b)
    ensures HasShape(r, a.rows, a.cols)
    ensures forall i, j :: 0 <= i < a.rows && 0 <= j < a.cols ==>
      r.cells[i][j] == a.cells[i][j] - b.cells[i][j]
  {
    Matrix(a.rows, a.cols,
      seq(a.rows, i requires 0 <= i < a.rows =>
        seq(a.cols, j requires 0 <= j < a.cols => a.cells[i][j] - b.cells[i][j])))
  }

  /** `a.multiply(b)` with an array argument: the element-wise product. */
  function Multiply(a: Matrix, b: Matrix): (r: Matrix)
    requires SameShape(a, b)
    ensures HasShape(r, a.rows, a.cols)
    ensures forall i, j :: 0 <= i < a.rows && 0 <= j < a.cols ==>
      r.cells[i][j] == a.cells[i][j] * b.cells[i][j]
  {
    Matrix(a.rows, a.cols,
      seq(a.rows, i requires 0 <= i < a.rows =>
        seq(a.cols, j requires 0 <= j < a.cols => a.cells[i][j] * b.cells[i][j])))
  }

  /** `m.multiply(k)` with a scalar argument. */
  function Scale(m: Matrix, k: real): (r: Matrix)
    requires m.Valid()
    ensures HasShape(r, m.rows, m.cols)
    ensures forall i, j :: 0 <= i < m.rows && 0 <= j < m.cols ==> r.cells[i][j] == m.cells[i][j] * k
  {
    Matrix(m.rows, m.cols,
      seq(m.rows, i requires 0 <= i < m.rows =>
        seq(m.cols, j requires 0 <= j < m.cols => m.cells[i][j] * k)))
  }

  /** `m.subtract(k)` with a scalar argument. */
  function SubScalar(m: Matrix, k: real): (r: Matrix)
    requires m.Valid()
    ensures HasShape(r, m.rows, m.cols)
    ensures forall i, j :: 0 <= i < m.rows && 0 <= j < m.cols ==> r.cells[i][j] == m.cells[i][j] - k
  {
    Matrix(m.rows, m.cols,
      seq(m.rows, i requires 0 <= i < m.rows =>
        seq(m.cols, j requires 0 <= j < m.cols => m.cells[i][j] - k)))
  }

  /** A scalar function applied to every element (an activation strategy's `execute`). */
  function Apply(f: real -> real, m: Matrix): (r: Matrix)
    requires m.Valid()
    ensures HasShape(r, m.rows, m.cols)
    ensures forall i, j :: 0 <= i < m.rows && 0 <= j < m.cols ==> r.cells[i][j] == f(m.cells[i][j])
  {
    Matrix(m.rows, m.cols,
      seq(m.rows, i requires 0 <= i < m.rows =>
        seq(m.cols, j requires 0 <= j < m.cols => f(m.cells[i][j]))))
  }

  /** `m.T` */
  function Transpose(m: Matrix): (r: Matrix)
    requires m.Valid()
    ensures HasShape(r, m.cols, m.rows)
    ensures forall i, j :: 0 <= i < m.cols && 0 <= j < m.rows ==> r.cells[i][j] == m.cells[j][i]
  {
    Matrix(m.cols, m.rows,
      seq(m.cols, i requires 0 <= i < m.cols =>
        seq(m.rows, j requires 0 <= j < m.rows => m.cells[j][i])))
  }

  /** `nj.dot(a, b)` on two-dimensional arrays whose inner dimensions agree. */
  function Dot(a: Matrix, b: Matrix): (r: Matrix)
    requires a.Valid() && b.Valid() && a.cols == b.rows
    ensures HasShape(r, a.rows, b.cols)
    ensures forall i, j :: 0 <= i < a.rows && 0 <= j < b.cols ==>
      r.cells[i][j] == SumProducts(a, b, i, j, a.cols)
  {
    Matrix(a.rows, b.cols,
      seq(a.rows, i requires 0 <= i < a.rows =>
        seq(b.cols, j requires 0 <= j < b.cols => SumProducts(a, b, i, j, a.cols))))
  }

  /** With inner dimension 1, dot is the outer product: one term per element. */
  lemma DotOuter(a: Matrix, b: Matrix)
    requires a.Valid() && b.Valid() && a.cols == 1 && b.rows == 1
    ensures forall i, j :: 0 <= i < a.rows && 0 <= j < b.cols ==>
      Dot(a, b).cells[i][j] == a.cells[i][0] * b.cells[0][j]
  {
    forall i, j | 0 <= i < a.rows && 0 <= j < b.cols
      ensures Dot(a, b).cells[i][j] == a.cells[i][0] * b.cells[0][j]
    {
      assert SumProducts(a, b, i, j, 0) == 0.0;
    }
  }

  /** Two arrays of one shape with the same elements are equal. */
  lemma Extensionality(a: Matrix, b: Matrix)
    requires SameShape(a, b)
    requires forall i, j :: 0 <= i < a.rows && 0 <= j < a.cols ==> a.cells[i][j] == b.cells[i][j]
    ensures a == b
  {
    forall i | 0 <= i < a.rows
      ensures a.cells[i] == b.cells[i]
    {
      assert |a.cells[i]| == |b.cells[i]|;
    }
  }

  /** `nj.array(v).reshape(1, |v|).T`: a flat list as a |v|-by-1 column. */
  function Column(v: seq<real>): (r: Matrix)
    ensures HasShape(r, |v|, 1)
    ensures forall i :: 0 <= i < |v| ==> r.cells[i][0] == v[i]
  {
    Matrix(|v|, 1, seq(|v|, i requires 0 <= i < |v| => [v[i]]))
  }

  /**
   * The rows of a list of lists concatenated in order, as
   * `reduce((res, item) => { res.push(...item); return res; }, [])` builds it
   * (left to right, each row pushed onto the end). Rows of one element each
   * give the list of those elements.
   */
  function Concat(rows: seq<seq<real>>): (r: seq<real>)
    ensures (forall i :: 0 <= i < |rows| ==> |rows[i]| == 1) ==>
      |r| == |rows| && forall i :: 0 <= i < |rows| ==> r[i] == rows[i][0]
  {
    if rows == [] then [] else Concat(rows[..|rows| - 1]) + rows[|rows| - 1]
  }

  /**
   * `tolist()` followed by the flattening reduce. A column flattens to one
   * element per row, in row order.
   */
  function Flatten(m: Matrix): (r: seq<real>)
    ensures m.Valid() && m.cols == 1 ==>
      |r| == m.rows && forall i :: 0 <= i < m.rows ==> r[i] == m.cells[i][0]
  {
    Concat(m.cells)
  }

  /** Flattening a column gives back the flat list it was made from. */
  lemma FlattenColumn(v: seq<real>)
    ensures Flatten(Column(v)) == v
  {
    var f := Flatten(Column(v));
    assert |f| == |v| && forall i :: 0 <= i < |v| ==> f[i] == v[i];
  }

  /** Every row of a parsed list of lists has the length of the first. */
  predicate Rectangular(rows: seq<seq<real>>) {
    forall i :: 0 <= i < |rows| ==> |rows[i]| == |rows[0]|
  }

  /**
   * `nj.array(rows)` on a rectangular list of lists: the shape is the number
   * of rows and the length of the first row.
   */
  function FromList(rows: seq<seq<real>>): (r: Matrix)
    requires Rectangular(rows)
    ensures r.Valid() && r.cells == rows && r.rows == |rows|
    ensures r.cols == if rows == [] then 0 else |rows[0]|
  {
    Matrix(|rows|, if rows == [] then 0 else |rows[0]|, rows)
  }

  /**
   * `nj.array(m.tolist())` gives back m, unless m has no rows but some columns:
   * its list is then empty and the column count is lost.
   */
  lemma FromListToList(m: Matrix)
    requires m.Valid()
    ensures Rectangular(m.cells)
    ensures FromList(m.cells) == m <==> m.rows > 0 || m.cols == 0
  {
  }
}
