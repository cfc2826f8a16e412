/**
 * Vectors and rectangular matrices over Fq, with the two products the
 * verifier needs: matrix times vector (what the verifier computes) and
 * matrix times matrix (the exact product the claimed matrix is compared
 * against). The central fact is associativity, A·(B·v) = (A·B)·v.
 */
module Matrices {
  import opened Field

  type Vector = seq<Fq>

  /** Rows of a matrix, each a vector. */
  type Rows = seq<seq<Fq>>

  /** A two-dimensional array with its shape; see Matrix. */
  datatype Grid = Grid(nrows: nat, ncols: nat, entries: Rows) {
    /** The shape (rows, columns), as compared by the dimension check. */
    function Dim(): (d: (nat, nat))
    {
      (nrows, ncols)
    }
  }

  predicate AllLength(rows: Rows, n: nat)
  {
    forall j | 0 <= j < |rows| :: |rows[j]| == n
  }

  /** A grid whose entries really have its declared shape. */
  predicate Rectangular(g: Grid)
  {
    |g.entries| == g.nrows && AllLength(g.entries, g.ncols)
  }

  type Matrix = g: Grid | Rectangular(g) witness Grid(0, 0, [])

  // ---------------------------------------------------------------------
  // Vector operations

  function Zeros(n: nat): (z: Vector)
    ensures |z| == n
  {
    seq(n, _ => Zero)
  }

  function VAdd(p: Vector, q: Vector): (r: Vector)
    requires |p| == |q|
    ensures |r| == |p|
  {
    seq(|p|, i requires 0 <= i < |p| => Add(p[i], q[i]))
  }

  function Scale(c: Fq, p: Vector): (r: Vector)
    ensures |r| == |p|
  {
    seq(|p|, i requires 0 <= i < |p| => Mul(c, p[i]))
  }

  /** The inner product x_0*y_0 + ... + x_(n-1)*y_(n-1). */
  function Dot(x: Vector, y: Vector): (r: Fq)
    requires |x| == |y|
  {
    if |x| == 0 then Zero else Add(Mul(x[0], y[0]), Dot(x[1..], y[1..]))
  }

  // ---------------------------------------------------------------------
  // Products

  /** Row-by-row inner products: rows · v. */
  function RowsTimes(rows: Rows, v: Vector): (r: Vector)
    requires AllLength(rows, |v|)
    ensures |r| == |rows|
  {
    seq(|rows|, j requires 0 <= j < |rows| => Dot(rows[j], v))
  }

  function ColumnOf(rows: Rows, k: nat): (col: Vector)
    requires forall j | 0 <= j < |rows| :: k < |rows[j]|
    ensures |col| == |rows|
  {
    seq(|rows|, j requires 0 <= j < |rows| => rows[j][k])
  }

  /** The row vector x times the matrix given by rows (each of length n). */
  function VecTimes(x: Vector, rows: Rows, n: nat): (r: Vector)
    requires |x| == |rows| && AllLength(rows, n)
    ensures |r| == n
  {
    seq(n, k requires 0 <= k < n => Dot(x, ColumnOf(rows, k)))
  }

  /** Matrix times vector: the n·m work the verifier does per product. */
  function MatVec(m: Matrix, v: Vector): (r: Vector)
    requires |v| == m.ncols
  {
    RowsTimes(m.entries, v)
  }

  /** The exact matrix product: entry (i, k) is row i of a dotted with column k of b. */
  function MatMul(a: Matrix, b: Matrix): (c: Matrix)
    requires a.ncols == b.nrows
    ensures c.Dim() == (a.nrows, b.ncols)
    ensures forall i, k | 0 <= i < a.nrows && 0 <= k < b.ncols ::
              c.entries[i][k] == Dot(a.entries[i], ColumnOf(b.entries, k))
  {
    Grid(a.nrows, b.ncols,
         seq(a.nrows, i requires 0 <= i < a.nrows => VecTimes(a.entries[i], b.entries, b.ncols)))
  }

  // ---------------------------------------------------------------------
  // Linearity of the inner product in its first argument

  lemma {:induction false} DotZerosLeft(v: Vector)
    ensures Dot(Zeros(|v|), v) == Zero
  {
    if |v| > 0 {
      assert Zeros(|v|)[1..] == Zeros(|v| - 1);
      DotZerosLeft(v[1..]);
      MulZero(v[0]);
    }
  }

  lemma {:induction false} DotZerosRight(x: Vector)
    ensures Dot(x, Zeros(|x|)) == Zero
  {
    if |x| > 0 {
      assert Zeros(|x|)[1..] == Zeros(|x| - 1);
      DotZerosRight(x[1..]);
      MulZero(x[0]);
    }
  }

  /** A matrix maps the zero vector to the zero vector. */
  lemma MatVecZeros(m: Matrix)
    ensures MatVec(m, Zeros(m.ncols)) == Zeros(m.nrows)
  {
    forall i | 0 <= i < m.nrows
      ensures MatVec(m, Zeros(m.ncols))[i] == Zero
    {
      DotZerosRight(m.entries[i]);
    }
  }

  lemma {:induction false} DotAddLeft(p: Vector, q: Vector, v: Vector)
    requires |p| == |q| == |v|
    ensures Dot(VAdd(p, q), v) == Add(Dot(p, v), Dot(q, v))
  {
    if |v| > 0 {
      assert VAdd(p, q)[1..] == VAdd(p[1..], q[1..]);
      DotAddLeft(p[1..], q[1..], v[1..]);
      MulAddDistrib(v[0], p[0], q[0]);
      AddInterchange(Mul(p[0], v[0]), Mul(q[0], v[0]), Dot(p[1..], v[1..]), Dot(q[1..], v[1..]));
    }
  }

  lemma {:induction false} DotScaleLeft(c: Fq, p: Vector, v: Vector)
    requires |p| == |v|
    ensures Dot(Scale(c, p), v) == Mul(c, Dot(p, v))
  {
    if |v| == 0 {
      MulZero(c);
    } else {
      assert Scale(c, p)[1..] == Scale(c, p[1..]);
      DotScaleLeft(c, p[1..], v[1..]);
      MulAssoc(c, p[0], v[0]);
      MulAddDistrib(c, Mul(p[0], v[0]), Dot(p[1..], v[1..]));
    }
  }

  // ---------------------------------------------------------------------
  // Associativity

  /** x · (rows · v) = (x · rows) · v */
  lemma {:induction false} DotRowsTimes(x: Vector, rows: Rows, v: Vector)
    requires |x| == |rows| && AllLength(rows, |v|)
    ensures Dot(x, RowsTimes(rows, v)) == Dot(VecTimes(x, rows, |v|), v)
  {
    var n := |v|;
    if |x| == 0 {
      assert VecTimes(x, rows, n) == Zeros(n);
      DotZerosLeft(v);
    } else {
      var rest := VecTimes(x[1..], rows[1..], n);
      assert RowsTimes(rows, v)[1..] == RowsTimes(rows[1..], v);
      DotRowsTimes(x[1..], rows[1..], v);
      forall k | 0 <= k < n
        ensures VecTimes(x, rows, n)[k] == VAdd(Scale(x[0], rows[0]), rest)[k]
      {
        assert ColumnOf(rows, k)[1..] == ColumnOf(rows[1..], k);
      }
      assert VecTimes(x, rows, n) == VAdd(Scale(x[0], rows[0]), rest);
      DotAddLeft(Scale(x[0], rows[0]), rest, v);
      DotScaleLeft(x[0], rows[0], v);
    }
  }

  /** A·(B·v) = (A·B)·v: the identity that makes Freivald's check complete. */
  lemma {:induction false} MatVecAssoc(a: Matrix, b: Matrix, v: Vector)
    requires a.ncols == b.nrows && |v| == b.ncols
    ensures MatVec(a, MatVec(b, v)) == MatVec(MatMul(a, b), v)
  {
    forall i | 0 <= i < a.nrows
      ensures MatVec(a, MatVec(b, v))[i] == MatVec(MatMul(a, b), v)[i]
    {
      DotRowsTimes(a.entries[i], b.entries, v);
    }
  }

  /** A zero in the first coordinate of v hides the first entry of x. */
  lemma DotIgnoresZeroHead(x: Vector, y: Vector, v: Vector)
    requires |x| == |y| == |v| > 0 && v[0] == Zero && x[1..] == y[1..]
    ensures Dot(x, v) == Dot(y, v)
  {
    MulZero(x[0]);
    MulZero(y[0]);
  }
}
