# Freivald's verifier over Fq, modelled in Dafny

This project models the `Freivald` verifier of `rust_assignment/freivald/src/lib.rs`.
The verifier gets a claimed product C of two matrices A and B. It checks the claim
without multiplying A by B. It stores one or more verification vectors. For each
vector v it computes A·(B·v) and C·v and compares them exactly. It answers `false`
at the first vector where they differ, and `true` when all vectors agree.

Files:

- `field.dfy` (module `Field`): the base field Fq of BLS12-381, as the integers
  modulo its 381-bit prime. It defines addition, multiplication and powers, and
  proves the ring laws the verifier relies on.
- `matrix.dfy` (module `Matrices`): vectors, and matrices that carry their shape
  (`nrows`, `ncols`) like a two-dimensional array. It defines the inner product,
  the matrix–vector product and the exact matrix product. It proves
  A·(B·v) = (A·B)·v.
- `freivald.dfy` (module `Freivalds`): the verifier itself. `Freivald` is a
  datatype holding the vector list `x`, because the Rust struct is never changed
  after it is built. `new` and `with_vectors` are functions. `random_vector` is a
  method that fills a zeroed array in a loop. `verify` is a method with a loop
  that returns early. `verify_once` is a method that builds a verifier and calls
  `verify`. The free function `check_matrix_dimensions` is a function.

The random scalar that `random_vector` draws is a parameter. `New` takes one scalar.
`WithVectors` takes one scalar per vector, so the vector count is the number of
scalars. With the scalars fixed, building a verifier is deterministic.

Aborts are preconditions. `verify` aborts through `assert!` when the dimension
check fails. The array library's product also aborts when a vector's length does
not match the matrices. So `Verify` requires the dimension check and requires its
vectors to fit the matrices. It does not return `false` in these cases.
When there is at least one vector, `Verify` and `VerifyOnce` also require A to be
square. The check lets equal non-square shapes through, and the product
`matrix_a.dot(...)` at `lib.rs:46` then aborts, because B·v has as many entries
as A has rows, not columns.

## Code versus comment

The comment at `lib.rs:32` says entry i of the vector is r^i. The loop at
`lib.rs:33-37` does something else. Entry 0 stays zero. Entry 1 is r. Each later
entry is the square of the one before, because `r *= r` squares r on every step.
So entry i is r^(2^(i-1)) for i ≥ 1. The model follows the code (`SquaringVector`).
`SquaringVectorIsNotGeometric` proves the difference. `GeometricVector` is the
vector the comment describes.

Completeness does not depend on the vector's values. The zero in entry 0 has
consequences of its own, which are proved:

- column 0 of C is never checked (`FirstColumnNeverChecked`);
- for 1×1 matrices every claimed product passes (`OneByOneEveryClaimPasses`),
  including a wrong one such as A = B = [1], C = [0] (`OneByOneMismatchPasses`);
- a zero scalar gives the all-zero vector (`ZeroScalarGivesZeroVector`), and
  with it every claimed product passes (`ZeroScalarPassesEverything`).

The code also allows zero vectors: `with_vectors(n, 0)` gives an empty list, and
`verify` then returns `true`. The model allows this too (`WithVectors` with no
scalars). The base field used is `Fq`, the base field of BLS12-381, not its scalar
field. Only the ring laws are used, so the choice does not matter for the proofs.

## Model

| member | source | states |
|---|---|---|
| Freivalds.CheckMatrixDimensions | rust_assignment/freivald/src/lib.rs:75-79 | true exactly when A, B and C all have the same number of rows and the same number of columns |
| Freivalds.DimensionCheckAdmitsNonSquare | rust_assignment/freivald/src/lib.rs:78 | the dimension check accepts three equal 1×2 shapes, so it does not ensure the matrices are square |
| Freivalds.DimensionCheckIsProductShape | rust_assignment/freivald/src/lib.rs:75-79 | when A and B share one square shape, the check passes exactly when C has the shape of A·B, so a failed check rules C out as the product |
| Freivalds.DimensionCheckRejectsConformantProduct | rust_assignment/freivald/src/lib.rs:76-78 | for A of shape 1×2 and B of shape 2×1 the check fails on their exact product, so the promise above needs square matrices |
| Freivalds.Freivald.New | rust_assignment/freivald/src/lib.rs:15-18 | the verifier holds exactly one vector, of length `array_size`, and it is the vector `random_vector` builds from the scalar |
| Freivalds.Freivald.WithVectors | rust_assignment/freivald/src/lib.rs:21-26 | the verifier holds one vector per scalar, each of length `array_size`, and vector k is the one built from scalar k |
| Freivalds.Freivald.RandomVector | rust_assignment/freivald/src/lib.rs:29-39 | the in-place loop over a zeroed array yields exactly `SquaringVector(n, r)` |
| Freivalds.SquaringVectorSteps | rust_assignment/freivald/src/lib.rs:33-37 | entry 0 is zero, entry 1 is r, and each entry from 2 on is the square of the entry before it |
| Freivalds.SquaringVectorIsNotGeometric | rust_assignment/freivald/src/lib.rs:32-37 | the vector differs from the r^i the comment claims: entry 0 is 0 not 1, and for n = 4, r = 2 entry 3 is 16 not 8 |
| Freivalds.ZeroScalarGivesZeroVector | rust_assignment/freivald/src/lib.rs:31-37 | with r = 0 every entry is zero |
| Freivalds.Freivald.Verify | rust_assignment/freivald/src/lib.rs:41-56 | given the dimension check, returns true exactly when every stored vector v has A·(B·v) = C·v; with no vectors it is true; it is true whenever C is the exact product A·B |
| Freivalds.Freivald.VerifyOnce | rust_assignment/freivald/src/lib.rs:60-63 | the result is that of a one-vector verifier sized by C's rows: true exactly when that vector passes, and true when C = A·B |
| Freivalds.VerifierComplete | rust_assignment/freivald/src/lib.rs:106-113 | completeness: if C = A·B exactly, every stored vector passes, whatever the vectors are |
| Freivalds.ExactProductPasses | rust_assignment/freivald/src/lib.rs:46-49 | completeness for one vector: with C = A·B the comparison never finds a difference |
| Freivalds.PassesIffProductAgrees | rust_assignment/freivald/src/lib.rs:46-49 | a vector passes exactly when (A·B)·v = C·v |
| Freivalds.FirstColumnNeverChecked | rust_assignment/freivald/src/lib.rs:33-47 | two claimed products that differ only in column 0 get the same answer for a built vector |
| Freivalds.OneByOneEveryClaimPasses | rust_assignment/freivald/src/lib.rs:33-49 | for any 1×1 matrices A, B and C, the built vector passes, whatever the scalar |
| Freivalds.ZeroScalarPassesEverything | rust_assignment/freivald/src/lib.rs:31-49 | with r = 0, every claimed product of any fitting shape passes |
| Freivalds.OneByOneMismatchPasses | rust_assignment/freivald/src/lib.rs:34-37 | for A = B = [1] and C = [0], C is not A·B, yet the built vector passes for every scalar |
| Freivalds.RepeatedVerify | rust_assignment/freivald/src/lib.rs:41-56 | two calls of `verify` on the same verifier and matrices return the same result |
| Matrices.MatVecAssoc | rust_assignment/freivald/src/lib.rs:46-47 | A·(B·v) = (A·B)·v for all conforming shapes |
| Matrices.DotRowsTimes | rust_assignment/freivald/src/lib.rs:46 | a row vector times (B·v) equals (that row times B) times v |
| Matrices.MatMul | rust_assignment/freivald/src/lib.rs:130-132 | the exact product has shape (rows of A, columns of B), and entry (i, k) is row i of A dotted with column k of B |
| Field.PowSquare | rust_assignment/freivald/src/lib.rs:36 | squaring r^(2^k) gives r^(2^(k+1)) |

## Left out

- The random source at `lib.rs:31` is not modelled. Each scalar is a parameter, and its distribution is not modelled.
- The bound on false positives is a statement about probability. It is not modelled. The tests that expect a wrong product to be rejected rely on that bound, so they are not modelled either.
- The internals of `Fq` and of BLS12-381 are not modelled. The field is the integers modulo the prime, and primality is not used.
- The `ndarray` library is not modelled. `MatVec` and `MatMul` are defined in the model and stand in for its `dot`.
- The test helpers `random_matrix` and `dot` at `lib.rs:125-132` draw random matrices or call the library. Only the exact product they stand for (`MatMul`) is modelled.
- Freivalds.Freivald.WithVectors: it is a function, so it builds its vectors from `SquaringVector`, which is the specification of `RandomVector`, not by calling that method. `RandomVector` is proved to produce the same vector.
- Freivalds.Freivald.Verify: aborts are preconditions, not an outcome. The precondition asks every vector to fit the matrices. The source only aborts when it reaches a vector that does not fit. This is the same for every verifier that `WithVectors` builds, because all its vectors have one length.
- Freivalds.Freivald.Verify: the early exit shows only in the loop. Its result is the same as checking every vector.
- `array_size` and the vector count are `usize` in the source and `nat` here. No arithmetic is done on them, so width does not matter.
- `frontend_assignment/pages/assignment.tsx` is a web form and a contract event listener. It is UI and network code and is not part of this model.
