/**
 * Freivald's check that a claimed product C equals A·B: for each stored
 * verification vector v, compare A·(B·v) with C·v exactly over Fq.
 *
 * The verifier's random scalars are parameters here: `new` and
 * `with_vectors` take one scalar per vector instead of drawing it.
 */
module Freivalds {
  import opened Field
  import opened Matrices

  /**
   * The dimension precondition of `verify`: A, B and C have one and the
   * same shape. It does not demand that the shape be square.
   */
  function CheckMatrixDimensions(a: Matrix, b: Matrix, c: Matrix): (ok: bool)
    ensures ok <==> a.nrows == b.nrows == c.nrows && a.ncols == b.ncols == c.ncols
  {
    a.Dim() == b.Dim() && a.Dim() == c.Dim()
  }

  /** The dimension check accepts three equal non-square shapes too. */
  lemma DimensionCheckAdmitsNonSquare()
    ensures var m := Grid(1, 2, [[Zero, Zero]]);
            CheckMatrixDimensions(m, m, m) && m.nrows != m.ncols
  {
  }

  /**
   * When A and B share one square shape, the check passes exactly when C
   * has the shape of A·B, so a failed check rules C out as the product.
   */
  lemma DimensionCheckIsProductShape(a: Matrix, b: Matrix, c: Matrix)
    requires a.Dim() == b.Dim() && a.nrows == a.ncols
    ensures CheckMatrixDimensions(a, b, c) <==> c.Dim() == MatMul(a, b).Dim()
  {
  }

  /**
   * Without that, the check rejects true products: A of shape 1×2 and B of
   * shape 2×1 multiply, yet the check fails on their exact product.
   */
  lemma DimensionCheckRejectsConformantProduct()
    ensures var a := Grid(1, 2, [[Zero, Zero]]);
            var b := Grid(2, 1, [[Zero], [Zero]]);
            a.ncols == b.nrows && !CheckMatrixDimensions(a, b, MatMul(a, b))
  {
  }

  // ---------------------------------------------------------------------
  // Verification vectors

  /**
   * The vector `random_vector` builds from the scalar r: a zero vector
   * whose entry 1 is r and whose later entries are each the square of the
   * one before, so entry i >= 1 is r^(2^(i-1)).
   */
  function SquaringVector(n: nat, r: Fq): (v: Vector)
    ensures |v| == n
  {
    seq(n, i requires 0 <= i < n => if i == 0 then Zero else Pow(r, Pow2(i - 1)))
  }

  /** The vector the comment above the loop describes: entry i is r^i. */
  function GeometricVector(n: nat, r: Fq): (v: Vector)
    ensures |v| == n
  {
    seq(n, i requires 0 <= i < n => Pow(r, i))
  }

  /** How the entries of SquaringVector follow from one another, as the loop writes them. */
  lemma SquaringVectorSteps(n: nat, r: Fq)
    ensures n > 0 ==> SquaringVector(n, r)[0] == Zero
    ensures n > 1 ==> SquaringVector(n, r)[1] == r
    ensures forall i | 2 <= i < n ::
              SquaringVector(n, r)[i] == Mul(SquaringVector(n, r)[i - 1], SquaringVector(n, r)[i - 1])
  {
    var v := SquaringVector(n, r);
    if n > 1 {
      MulOne(r);
      assert v[1] == Pow(r, 1) == Mul(r, One);
    }
    forall i | 2 <= i < n
      ensures v[i] == Mul(v[i - 1], v[i - 1])
    {
      PowSquare(r, i - 2);
    }
  }

  /**
   * The vector built differs from the one the comment describes: entry 0
   * is zero rather than r^0 = 1, and with n = 4, r = 2 entry 3 is
   * 2^4 = 16 rather than 2^3 = 8.
   */
  lemma SquaringVectorIsNotGeometric(n: nat, r: Fq)
    requires n > 0
    ensures SquaringVector(n, r)[0] == Zero != GeometricVector(n, r)[0]
    ensures SquaringVector(4, 2)[3] == 16 && GeometricVector(4, 2)[3] == 8
  {
    assert Pow(2, 2) == 4;
    assert Pow(2, 4) == 16;
  }

  /** A zero scalar gives the all-zero vector; see ZeroScalarPassesEverything. */
  lemma ZeroScalarGivesZeroVector(n: nat)
    ensures SquaringVector(n, Zero) == Zeros(n)
  {
    forall i | 1 <= i < n
      ensures SquaringVector(n, Zero)[i] == Zero
    {
      MulZero(Pow(Zero, Pow2(i - 1) - 1));
    }
  }

  // ---------------------------------------------------------------------
  // The check for one vector

  /** Well-definedness of A·(B·v) and C·v. */
  predicate ProductsDefined(a: Matrix, b: Matrix, c: Matrix, v: Vector)
  {
    |v| == b.ncols && a.ncols == b.nrows && |v| == c.ncols && a.nrows == c.nrows
  }

  /** The vector v does not tell A·B from C: A·(B·v) equals C·v entry by entry. */
  predicate Passes(a: Matrix, b: Matrix, c: Matrix, v: Vector)
    requires ProductsDefined(a, b, c, v)
  {
    MatVec(a, MatVec(b, v)) == MatVec(c, v)
  }

  /** Every vector in vs passes. */
  predicate AllPass(a: Matrix, b: Matrix, c: Matrix, vs: seq<Vector>)
    requires forall k | 0 <= k < |vs| :: ProductsDefined(a, b, c, vs[k])
  {
    forall k | 0 <= k < |vs| :: Passes(a, b, c, vs[k])
  }

  /** A vector passes exactly when the exact product and C agree on it. */
  lemma PassesIffProductAgrees(a: Matrix, b: Matrix, c: Matrix, v: Vector)
    requires ProductsDefined(a, b, c, v)
    ensures Passes(a, b, c, v) <==> MatVec(MatMul(a, b), v) == MatVec(c, v)
  {
    MatVecAssoc(a, b, v);
  }

  /** Completeness for one vector: the exact product always passes. */
  lemma ExactProductPasses(a: Matrix, b: Matrix, c: Matrix, v: Vector)
    requires ProductsDefined(a, b, c, v) && c == MatMul(a, b)
    ensures Passes(a, b, c, v)
  {
    MatVecAssoc(a, b, v);
  }

  /**
   * Entry 0 of every built vector is zero, so column 0 of C is never
   * looked at: two claimed products that differ only there get the same
   * answer.
   */
  lemma FirstColumnNeverChecked(a: Matrix, b: Matrix, c: Matrix, c': Matrix, r: Fq)
    requires ProductsDefined(a, b, c, SquaringVector(c.ncols, r))
    requires c'.Dim() == c.Dim() && c.ncols > 0
    requires forall i | 0 <= i < c.nrows :: c.entries[i][1..] == c'.entries[i][1..]
    ensures Passes(a, b, c, SquaringVector(c.ncols, r)) == Passes(a, b, c', SquaringVector(c.ncols, r))
  {
    var v := SquaringVector(c.ncols, r);
    forall i | 0 <= i < c.nrows
      ensures MatVec(c, v)[i] == MatVec(c', v)[i]
    {
      DotIgnoresZeroHead(c.entries[i], c'.entries[i], v);
    }
    assert MatVec(c, v) == MatVec(c', v);
  }

  /** With a zero scalar every claimed product passes, whatever its shape. */
  lemma ZeroScalarPassesEverything(a: Matrix, b: Matrix, c: Matrix)
    requires ProductsDefined(a, b, c, SquaringVector(b.ncols, Zero))
    ensures Passes(a, b, c, SquaringVector(b.ncols, Zero))
  {
    ZeroScalarGivesZeroVector(b.ncols);
    MatVecZeros(b);
    MatVecZeros(a);
    MatVecZeros(c);
  }

  /**
   * For 1×1 matrices the built vector is [0], so every claimed product
   * passes, whatever the scalar.
   */
  lemma OneByOneEveryClaimPasses(a: Matrix, b: Matrix, c: Matrix, r: Fq)
    requires a.Dim() == b.Dim() == c.Dim() == (1, 1)
    ensures Passes(a, b, c, SquaringVector(1, r))
  {
    assert SquaringVector(1, r) == Zeros(1);
    MatVecZeros(b);
    MatVecZeros(a);
    MatVecZeros(c);
  }

  /**
   * In particular a wrong claimed product passes: A = B = [1], C = [0].
   */
  lemma OneByOneMismatchPasses(r: Fq)
    ensures var one := Grid(1, 1, [[One]]);
            var zero := Grid(1, 1, [[Zero]]);
            zero != MatMul(one, one) && Passes(one, one, zero, SquaringVector(1, r))
  {
    var one := Grid(1, 1, [[One]]);
    var zero := Grid(1, 1, [[Zero]]);
    var v := SquaringVector(1, r);
    assert v == [Zero];
    assert Dot([One], v) == Zero by { assert [One][1..] == v[1..] == []; }
    assert Dot([Zero], v) == Zero by { assert [Zero][1..] == v[1..] == []; }
    assert MatVec(one, v) == [Zero];
    assert MatVec(zero, v) == [Zero];
    assert Dot([One], ColumnOf(one.entries, 0)) == One by {
      assert ColumnOf(one.entries, 0) == [One];
      assert [One][1..] == [];
    }
  }

  // ---------------------------------------------------------------------
  // The verifier

  /** A Freivald verifier: its verification vectors, fixed at construction. */
  datatype Freivald = Freivald(x: seq<Vector>) {

    predicate VectorsHaveLength(n: nat)
    {
      forall k | 0 <= k < |x| :: |x[k]| == n
    }

    /** `new`: a verifier with exactly one vector, built from the scalar r. */
    static function New(arraySize: nat, r: Fq): (f: Freivald)
      ensures |f.x| == 1 && f.VectorsHaveLength(arraySize)
      ensures f.x[0] == SquaringVector(arraySize, r)
    {
      WithVectors(arraySize, [r])
    }

    /**
     * `with_vectors`: one vector per scalar, all of length arraySize; the
     * number of scalars is the number of verification vectors.
     */
    static function WithVectors(arraySize: nat, scalars: seq<Fq>): (f: Freivald)
      ensures |f.x| == |scalars| && f.VectorsHaveLength(arraySize)
      ensures forall k | 0 <= k < |scalars| :: f.x[k] == SquaringVector(arraySize, scalars[k])
    {
      Freivald(seq(|scalars|, k requires 0 <= k < |scalars| => SquaringVector(arraySize, scalars[k])))
    }

    /**
     * `random_vector`, given its scalar: fill a zeroed array from index 1
     * on, squaring the scalar after each store.
     */
    static method RandomVector(n: nat, r: Fq) returns (v: Vector)
      ensures v == SquaringVector(n, r)
    {
      var s := r;
      var arr := new Fq[n](_ => Zero);
      var i := 1;
      while i < n
        invariant 1 <= i <= if n == 0 then 1 else n
        invariant s == Pow(r, Pow2(i - 1))
        invariant forall j | 0 <= j < n :: arr[j] == if j < i then SquaringVector(n, r)[j] else Zero
      {
        arr[i] := s;
        PowSquare(r, i - 1);
        s := Mul(s, s);
        i := i + 1;
      }
      v := arr[..];
    }

    /**
     * `verify`: true exactly when every vector passes; stops at the first
     * vector that fails. A dimension mismatch aborts, and so does a vector
     * whose length does not fit the matrices; both are preconditions.
     */
    method Verify(a: Matrix, b: Matrix, c: Matrix) returns (ok: bool)
      requires CheckMatrixDimensions(a, b, c)
      requires VectorsHaveLength(a.ncols) && (|x| > 0 ==> a.nrows == a.ncols)
      ensures ok <==> AllPass(a, b, c, x)
      ensures a.nrows == a.ncols && c == MatMul(a, b) ==> ok
    {
      for k := 0 to |x|
        invariant forall j | 0 <= j < k :: Passes(a, b, c, x[j])
      {
        var v := x[k];
        var left := MatVec(a, MatVec(b, v));
        var right := MatVec(c, v);
        if left != right {
          ExactProductPasses(a, b, MatMul(a, b), v);
          return false;
        }
      }
      ok := true;
    }

    /** `verify_once`: a fresh single-vector verifier sized by C's rows, then `verify`. */
    static method VerifyOnce(a: Matrix, b: Matrix, c: Matrix, r: Fq) returns (ok: bool)
      requires CheckMatrixDimensions(a, b, c) && c.nrows == c.ncols
      ensures ok <==> Passes(a, b, c, SquaringVector(c.nrows, r))
      ensures c == MatMul(a, b) ==> ok
    {
      var f := New(c.nrows, r);
      ok := f.Verify(a, b, c);
    }
  }

  /** Completeness: if C is the exact product, every verifier accepts, whatever its vectors. */
  lemma VerifierComplete(f: Freivald, a: Matrix, b: Matrix, c: Matrix)
    requires CheckMatrixDimensions(a, b, c) && a.nrows == a.ncols
    requires f.VectorsHaveLength(a.ncols) && c == MatMul(a, b)
    ensures AllPass(a, b, c, f.x)
  {
    forall k | 0 <= k < |f.x|
      ensures Passes(a, b, c, f.x[k])
    {
      ExactProductPasses(a, b, c, f.x[k]);
    }
  }

  /**
   * `verify` reads its arguments only: two calls on the same verifier and
   * matrices agree.
   */
  method RepeatedVerify(f: Freivald, a: Matrix, b: Matrix, c: Matrix) returns (first: bool, second: bool)
    requires CheckMatrixDimensions(a, b, c)
    requires f.VectorsHaveLength(a.ncols) && (|f.x| > 0 ==> a.nrows == a.ncols)
    ensures first == second
  {
    first := f.Verify(a, b, c);
    second := f.Verify(a, b, c);
  }
}
