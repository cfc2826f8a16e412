/**
 * The prime field the verifier computes in: the base field Fq of the
 * BLS12-381 curve, seen here only as the integers modulo its prime order.
 * No curve operation is used; the verifier needs addition, multiplication,
 * the constants zero and one, and exact equality.
 */
module Field {

  /** The order q of the BLS12-381 base field (a 381-bit prime). */
  const P: int := 0x1a0111ea397fe69a4b1ba7b6434bacd764774b84f38512bf6730d2a0f6b0f6241eabfffeb153ffffb9feffffffffaaab

  /** A field element: its canonical representative in [0, P). */
  type Fq = x: int | 0 <= x < P witness 0

  const Zero: Fq := 0
  const One: Fq := 1

  function Add(a: Fq, b: Fq): (r: Fq)
  {
    (a + b) % P
  }

  function Mul(a: Fq, b: Fq): (r: Fq)
  {
    (a * b) % P
  }

  /** Field exponentiation by repeated multiplication: a^e. */
  function Pow(a: Fq, e: nat): (r: Fq)
  {
    if e == 0 then One else Mul(a, Pow(a, e - 1))
  }

  // ---------------------------------------------------------------------
  // Reduction modulo P

  /** Adding a multiple of P does not change the residue. */
  lemma ModShift(x: int, k: int)
    ensures (x + k * P) % P == x % P
  {
  }

  lemma ModAddLeft(x: int, y: int)
    ensures (x % P + y) % P == (x + y) % P
  {
    ModShift(x + y, -(x / P));
  }

  lemma ModMulLeft(x: int, y: int)
    ensures ((x % P) * y) % P == (x * y) % P
  {
    var q := x / P;
    assert x % P == x - q * P;
    assert (x - q * P) * y == x * y + (-(q * y)) * P;
    ModShift(x * y, -(q * y));
  }

  // ---------------------------------------------------------------------
  // The ring laws the verifier's completeness rests on

  lemma AddComm(a: Fq, b: Fq)
    ensures Add(a, b) == Add(b, a)
  {
  }

  lemma AddAssoc(a: Fq, b: Fq, c: Fq)
    ensures Add(Add(a, b), c) == Add(a, Add(b, c))
  {
    ModAddLeft(a + b, c);
    ModAddLeft(b + c, a);
  }

  lemma MulComm(a: Fq, b: Fq)
    ensures Mul(a, b) == Mul(b, a)
  {
  }

  lemma IntMulAssoc(x: int, y: int, z: int)
    ensures (x * y) * z == x * (y * z)
  {
  }

  lemma IntMulDistrib(x: int, y: int, z: int)
    ensures (x + y) * z == z * x + z * y
  {
  }

  lemma MulAssoc(a: Fq, b: Fq, c: Fq)
    ensures Mul(Mul(a, b), c) == Mul(a, Mul(b, c))
  {
    ModMulLeft(a * b, c);
    ModMulLeft(b * c, a);
    MulComm(Mul(b, c), a);
    IntMulAssoc(a, b, c);
  }

  lemma MulOne(a: Fq)
    ensures Mul(One, a) == a && Mul(a, One) == a
  {
  }

  lemma MulZero(a: Fq)
    ensures Mul(Zero, a) == Zero && Mul(a, Zero) == Zero
  {
  }

  /** Multiplication distributes over addition, on either side. */
  lemma MulAddDistrib(a: Fq, b: Fq, c: Fq)
    ensures Mul(a, Add(b, c)) == Add(Mul(a, b), Mul(a, c))
    ensures Mul(Add(b, c), a) == Add(Mul(b, a), Mul(c, a))
  {
    ModMulLeft(b + c, a);
    IntMulDistrib(b, c, a);
    ModAddLeft(a * b, (a * c) % P);
    ModAddLeft(a * c, a * b);
    assert Mul(Add(b, c), a) == (a * b + a * c) % P;
    MulComm(a, Add(b, c));
    MulComm(a, b);
    MulComm(a, c);
  }

  /** Rearranging a sum of four. */
  lemma AddInterchange(a: Fq, b: Fq, c: Fq, d: Fq)
    ensures Add(Add(a, b), Add(c, d)) == Add(Add(a, c), Add(b, d))
  {
    AddAssoc(a, b, Add(c, d));
    AddAssoc(b, c, d);
    AddComm(b, c);
    AddAssoc(c, b, d);
    AddAssoc(a, c, Add(b, d));
  }

  // ---------------------------------------------------------------------
  // Powers

  /** a^(i + j) = a^i * a^j */
  lemma {:induction false} PowAdd(a: Fq, i: nat, j: nat)
    ensures Pow(a, i + j) == Mul(Pow(a, i), Pow(a, j))
  {
    if i == 0 {
      MulOne(Pow(a, j));
    } else {
      PowAdd(a, i - 1, j);
      MulAssoc(a, Pow(a, i - 1), Pow(a, j));
    }
  }

  /** 2^k, the exponent of the k-th repeated squaring. */
  function Pow2(k: nat): (r: nat)
    ensures r >= 1
  {
    if k == 0 then 1 else 2 * Pow2(k - 1)
  }

  /** Squaring a^(2^k) gives a^(2^(k+1)). */
  lemma PowSquare(a: Fq, k: nat)
    ensures Mul(Pow(a, Pow2(k)), Pow(a, Pow2(k))) == Pow(a, Pow2(k + 1))
  {
    PowAdd(a, Pow2(k), Pow2(k));
  }
}
