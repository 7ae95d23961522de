# Matrix heading inference, modelled in Dafny

`MatrixHeadingInference` is the gyroscope heading integrator of an inertial
navigation app. It keeps a 3×3 orientation matrix `c`. For every
angular-velocity sample (wX, wY, wZ) it does three things:

- It builds the skew-symmetric rate matrix B.
- It forms the incremental rotation A = (k1·B + k2·B²) + I. The
  coefficients k1 and k2 are Taylor series cut after the σ⁴ term, with
  σ² = wX² + wY² + wZ².
- It composes the increment into the state as c := c × A, with the old state
  on the left.

Heading is then read as atan2(c[1][0], c[0][0]). `clearMatrix` puts the
state back to the identity.

The model works over exact `real` arithmetic and has three files:

- `MathFunctions.dfy` is the linear-algebra kernel the integrator calls:
  identity, product, sum, scaling and factorial. Transpose and
  matrix-vector product are added for the proofs. A matrix is three rows of
  three reals, so the fixed 3×3 shape is part of the type.
- `MatrixHeadingInference.dfy` models the integrator itself.
  - B, σ², k1, k2 and A are pure functions.
  - `Integrate` and `Composed` fold a run of samples.
  - The class `MatrixHeadingInference` holds `c`, and its methods reassign
    it as the source does.
  - The heading update returns the pair (c[1][0], c[0][0]) that the angle
    is computed from. A reading with fewer than three components gets an
    error result and leaves `c` unchanged, where Java would throw.
- `CompositionOrder.dfy` proves that composition order matters. From the
  identity, a roll step followed by a pitch step moves c[1][0] away from
  zero. A pitch step followed by a roll step leaves it at zero.

The source computes σ with a square root, but σ only appears squared
(lines 63 and 71) or to the fourth power (lines 64 and 72). The model
therefore carries σ² and needs no root.

The comments above the two coefficient functions disagree with the
commented-out closed forms inside them: the sin and cos formulas are
swapped. The model follows the executed series code.

The three files are verified together, with or without
`--warn-contradictory-assumptions`:

    dafny verify --resource-limit 2000000 --verification-time-limit 0 MathFunctions.dfy MatrixHeadingInference.dfy CompositionOrder.dfy

## Model

| member | source | states |
|---|---|---|
| HeadingInference.CalcMatrixB | app/src/main/java/nisargpatel/inertialnavigation/heading/MatrixHeadingInference.java:31-35 | every diagonal entry of B is zero and B[i][j] = −B[j][i] for all i, j |
| HeadingInference.SkewIsCross | app/src/main/java/nisargpatel/inertialnavigation/heading/MatrixHeadingInference.java:31-35 | B applied to any vector v is the cross product w × v |
| HeadingInference.SkewSquare | app/src/main/java/nisargpatel/inertialnavigation/heading/MatrixHeadingInference.java:40-41 | the product B·B computed at line 41 is w·wᵀ − σ²·I, entry by entry |
| HeadingInference.CalcNormSquared | app/src/main/java/nisargpatel/inertialnavigation/heading/MatrixHeadingInference.java:56-58 | σ² is never negative and is zero for the zero sample |
| HeadingInference.CalcBScaleFactor | app/src/main/java/nisargpatel/inertialnavigation/heading/MatrixHeadingInference.java:60-66 | k1 = 1 − σ²/6 + σ⁴/120 (3! = 6, 5! = 120); k1 = 1 when σ² = 0; k1 ≥ 1/6 for every σ², so it never vanishes |
| HeadingInference.CalcBSqScaleFactor | app/src/main/java/nisargpatel/inertialnavigation/heading/MatrixHeadingInference.java:68-74 | k2 = 1/2 − σ²/24 + σ⁴/720 (4! = 24, 6! = 720); k2 = 1/2 when σ² = 0; k2 ≥ 3/16 for every σ² |
| MathFunctions.Factorial | app/src/main/java/nisargpatel/inertialnavigation/heading/MatrixHeadingInference.java:63-64 | n! is at least 1 and at least n, so it is always a valid divisor |
| MathFunctions.FactorialValues | app/src/main/java/nisargpatel/inertialnavigation/heading/MatrixHeadingInference.java:63-72 | the divisors used by the two series are 3! = 6, 4! = 24, 5! = 120 and 6! = 720 |
| MathFunctions.Multiply | app/src/main/java/nisargpatel/inertialnavigation/heading/MatrixHeadingInference.java:76-78 | entry (i, j) of a × b is row i of a times column j of b |
| MathFunctions.Scale | app/src/main/java/nisargpatel/inertialnavigation/heading/MatrixHeadingInference.java:47-48 | every entry is multiplied by the factor |
| MathFunctions.Add | app/src/main/java/nisargpatel/inertialnavigation/heading/MatrixHeadingInference.java:50-51 | the sum is taken entry by entry |
| MathFunctions.Identity | app/src/main/java/nisargpatel/inertialnavigation/heading/MatrixHeadingInference.java:80-82 | ones on the diagonal and zeros elsewhere |
| MathFunctions.MultiplyIdentity | app/src/main/java/nisargpatel/inertialnavigation/heading/MatrixHeadingInference.java:10-12 | the identity start and the identity increment are neutral on either side of the product |
| MathFunctions.MultiplyAssociative | app/src/main/java/nisargpatel/inertialnavigation/heading/MatrixHeadingInference.java:76-78 | successive compositions c × A may be regrouped |
| HeadingInference.CalcMatrixA | app/src/main/java/nisargpatel/inertialnavigation/heading/MatrixHeadingInference.java:37-54 | the increment (k1·B + k2·B²) + I, built call for call as at lines 40-51. It has no ensures of its own; its properties are proved by `SeriesEntries` (its entries), `ZeroSampleIncrementIsIdentity` (A(0) = I), `NegatedSampleTransposes` (A(−w) = A(w)ᵀ) and `IncrementFixesParallel` (A fixes the rotation axis) |
| HeadingInference.NextOrientation | app/src/main/java/nisargpatel/inertialnavigation/heading/MatrixHeadingInference.java:23-25 | one step: c × A(w), with the old state on the left as at line 77. It has no ensures of its own; `GetCurrentHeading` ties the new state to it, and `ZeroSampleKeepsOrientation` proves a zero step changes nothing |
| HeadingInference.HeadingOf | app/src/main/java/nisargpatel/inertialnavigation/heading/MatrixHeadingInference.java:28 | the pair (c[1][0], c[0][0]) that atan2 is applied to. It has no ensures of its own; `ZeroSampleKeepsOrientation`, `ProductOrder` and `OrderMatters` state what it reads |
| HeadingInference.Integrate | app/src/main/java/nisargpatel/inertialnavigation/heading/MatrixHeadingInference.java:18-29 | the state after repeated `getCurrentHeading` calls, one per sample, in order. It has no ensures of its own; `IntegrateAppend` and `IntegrateIsProduct` state what it computes |
| HeadingInference.Composed | app/src/main/java/nisargpatel/inertialnavigation/heading/MatrixHeadingInference.java:76-78 | the product A(ws[0]) × … × A(wsₙ) of the increments in arrival order. It has no ensures of its own; `IntegrateIsProduct` proves that integrating from c gives c × Composed(ws) |
| HeadingInference.SeriesEntries | app/src/main/java/nisargpatel/inertialnavigation/heading/MatrixHeadingInference.java:47-51 | entry (i, j) of A is k1·B[i][j] + k2·B²[i][j], plus 1 on the diagonal |
| HeadingInference.ZeroSampleIncrementIsIdentity | app/src/main/java/nisargpatel/inertialnavigation/heading/MatrixHeadingInference.java:37-54 | the zero sample gives A = I |
| HeadingInference.ZeroSampleKeepsOrientation | app/src/main/java/nisargpatel/inertialnavigation/heading/MatrixHeadingInference.java:23-25 | a zero-rate step leaves c unchanged, and so both heading inputs c[1][0] and c[0][0] |
| HeadingInference.NegatedSampleParts | app/src/main/java/nisargpatel/inertialnavigation/heading/MatrixHeadingInference.java:31-43 | B(−w) = B(w)ᵀ, B(−w)² = B(w)², B² is symmetric, and σ²(−w) = σ²(w) |
| HeadingInference.NegatedSampleTransposes | app/src/main/java/nisargpatel/inertialnavigation/heading/MatrixHeadingInference.java:37-54 | reversing the sample transposes the increment: A(−w) = A(w)ᵀ |
| HeadingInference.IncrementFixesParallel | app/src/main/java/nisargpatel/inertialnavigation/heading/MatrixHeadingInference.java:37-54 | every vector v with w × v = 0 satisfies A(w)·v = v |
| HeadingInference.IncrementFixesAxis | app/src/main/java/nisargpatel/inertialnavigation/heading/MatrixHeadingInference.java:37-54 | the rotation axis itself is fixed: A(w)·w = w |
| HeadingInference.TransposedFixesParallel | app/src/main/java/nisargpatel/inertialnavigation/heading/MatrixHeadingInference.java:37-54 | A(w)ᵀ also fixes every vector on the axis of w |
| HeadingInference.IntegrateAppend | app/src/main/java/nisargpatel/inertialnavigation/heading/MatrixHeadingInference.java:76-78 | feeding two runs of samples one after the other is the same as feeding their concatenation |
| HeadingInference.IntegrateIsProduct | app/src/main/java/nisargpatel/inertialnavigation/heading/MatrixHeadingInference.java:76-78 | after a run of samples, c = c₀ × A(w₁) × … × A(wₙ): the old state stays on the left and the increments are applied in arrival order |
| CompositionOrder.IntegrateTwo | app/src/main/java/nisargpatel/inertialnavigation/heading/MatrixHeadingInference.java:76-78 | two samples fed from c give (c × A(v)) × A(w) |
| CompositionOrder.RollFixesX | app/src/main/java/nisargpatel/inertialnavigation/heading/MatrixHeadingInference.java:37-54 | a pure roll sample leaves the x axis alone: column 0 of its increment is (1, 0, 0) |
| CompositionOrder.PitchFixesY | app/src/main/java/nisargpatel/inertialnavigation/heading/MatrixHeadingInference.java:37-54 | a pure pitch sample leaves the y axis alone: row 1 of its increment is (0, 1, 0) |
| CompositionOrder.RollCouples | app/src/main/java/nisargpatel/inertialnavigation/heading/MatrixHeadingInference.java:37-54 | a non-zero roll rate gives a non-zero entry A[1][2] |
| CompositionOrder.PitchCouples | app/src/main/java/nisargpatel/inertialnavigation/heading/MatrixHeadingInference.java:37-54 | a non-zero pitch rate gives a non-zero entry A[2][0] |
| CompositionOrder.ProductOrder | app/src/main/java/nisargpatel/inertialnavigation/heading/MatrixHeadingInference.java:76-78 | take a that keeps the x axis and b that keeps the y axis, both with a non-zero coupling entry; then c[1][0] is non-zero for a × b and zero for b × a |
| CompositionOrder.OrderMatters | app/src/main/java/nisargpatel/inertialnavigation/heading/MatrixHeadingInference.java:18-29 | from the identity, with non-zero rates, roll then pitch leaves a non-zero heading input c[1][0], and pitch then roll leaves it at zero |
| HeadingInference.MatrixHeadingInference.constructor | app/src/main/java/nisargpatel/inertialnavigation/heading/MatrixHeadingInference.java:10-12 | the default integrator starts at the identity, with heading inputs (0, 1) |
| HeadingInference.MatrixHeadingInference.FromMatrix | app/src/main/java/nisargpatel/inertialnavigation/heading/MatrixHeadingInference.java:14-16 | the integrator starts from the caller's matrix |
| HeadingInference.MatrixHeadingInference.GetCurrentHeading | app/src/main/java/nisargpatel/inertialnavigation/heading/MatrixHeadingInference.java:18-29 | with at least three components, the new state is old c × A(gyro[0], gyro[1], gyro[2]) and the result is (c[1][0], c[0][0]) of the new state; with fewer, an index error is returned and c is unchanged |
| HeadingInference.MatrixHeadingInference.CalcMatrixC | app/src/main/java/nisargpatel/inertialnavigation/heading/MatrixHeadingInference.java:76-78 | the new state is old c × a, with the old state on the left |
| HeadingInference.MatrixHeadingInference.ClearMatrix | app/src/main/java/nisargpatel/inertialnavigation/heading/MatrixHeadingInference.java:80-82 | the new state is the identity, with heading inputs (0, 1), whatever the old state was; so clearing twice is the same as clearing once |

## Left out

- `float` arithmetic, the `(float)` casts, `Math.pow` and `Math.sqrt`: the model computes over exact reals and carries σ² instead of σ, so rounding is not modelled.
- `Math.atan2` at line 28: the heading update returns the pair (c[1][0], c[0][0]) the angle is computed from, not the angle.
- How close the two series are to sin σ/σ and (1 − cos σ)/σ², and how far c drifts from orthonormal over many steps: these are numerical approximation questions, not exact properties of the code.
- The implementation of `MathFunctions` is not part of this model. Its operations are defined with their standard mathematical meaning, and factorial is a recursive function over `nat`.
- HeadingInference.MatrixHeadingInference.FromMatrix: the Java constructor at line 15 makes a shallow `clone()`. It copies only the outer array, so `c` keeps sharing its rows with the caller. That lasts until the first step (line 77) or clear (line 81) gives `c` a new array. In that window, a write by the caller into one of those rows also changes `c` in Java. The model copies the matrix as a value when the integrator is built, so it does not capture this sharing.
- A `null` starting matrix, which makes Java throw a NullPointerException at line 15, cannot be expressed in the model. Neither can a starting matrix that is not 3×3, because the `Matrix` type is fixed at three rows of three entries.
- A `null` or short `gyroValue`: Java throws; the model has no null and returns an error result for a reading shorter than three components.
- Android sensor acquisition, the UI and concurrent use of one integrator.
- HeadingInference.CalcNormSquared: proves that σ² is non-negative and that it is zero for the zero sample. The converse, that σ² is zero only for the zero sample, is not proved.
- HeadingInference.MatrixHeadingInference.GetCurrentHeading: its contract ties the new state to `NextOrientation` of the old one. The zero-rate case (the state is unchanged) is stated by `ZeroSampleKeepsOrientation` about `NextOrientation`, not as a clause of the method.
