/** The gyroscope heading integrator. It keeps a 3×3 orientation matrix `c`;
    each angular-velocity sample (wX, wY, wZ) is turned into an incremental
    rotation A = I + k1·B + k2·B², where B is the skew-symmetric rate matrix
    and k1, k2 are truncated Taylor series in σ² = wX² + wY² + wZ², and the
    state becomes c × A. Heading is read from c[1][0] and c[0][0]. */
module HeadingInference {
  import opened MathFunctions

  /** The two entries heading is computed from: heading = atan2(y, x). */
  datatype HeadingInputs = HeadingInputs(y: real, x: real)

  /** Why a heading update was refused. */
  datatype Error = IndexOutOfBounds

  datatype Result<T> = Ok(value: T) | Err(error: Error)

  /** The cross product `u × v`. */
  function Cross(u: Vector, v: Vector): Vector {
    Vector(u.y * v.z - u.z * v.y,
           u.z * v.x - u.x * v.z,
           u.x * v.y - u.y * v.x)
  }

  /** The skew-symmetric rate matrix of (wX, wY, wZ): the matrix of the
      map v ↦ w × v. */
  function CalcMatrixB(wX: real, wY: real, wZ: real): (b: Matrix)
    ensures forall i: Index :: b.At(i, i) == 0.0
    ensures forall i: Index, j: Index :: b.At(i, j) == -b.At(j, i)
  {
    Matrix(Vector(0.0, -wZ, wY),
           Vector(wZ, 0.0, -wX),
           Vector(-wY, wX, 0.0))
  }

  /** B is the cross-product operator: B · v == w × v for every v. */
  lemma SkewIsCross(wX: real, wY: real, wZ: real, v: Vector)
    ensures Apply(CalcMatrixB(wX, wY, wZ), v) == Cross(Vector(wX, wY, wZ), v)
  {
  }

  /** σ², the squared magnitude of the rate vector. The source takes the
      square root here, but σ only ever appears squared or to the fourth
      power, so the model keeps σ² and needs no root. */
  function CalcNormSquared(wX: real, wY: real, wZ: real): (sigmaSq: real)
    ensures sigmaSq >= 0.0
    ensures wX == 0.0 && wY == 0.0 && wZ == 0.0 ==> sigmaSq == 0.0
  {
    wX * wX + wY * wY + wZ * wZ
  }

  /** The coefficient of B: 1 − σ²/3! + σ⁴/5!, the series of sin σ / σ cut
      after the σ⁴ term. */
  function CalcBScaleFactor(sigmaSq: real): (k: real)
    ensures k == 1.0 - sigmaSq / 6.0 + sigmaSq * sigmaSq / 120.0
    ensures sigmaSq == 0.0 ==> k == 1.0
    ensures k >= 1.0 / 6.0
  {
    FactorialValues();
    assert 1.0 - sigmaSq / 6.0 + sigmaSq * sigmaSq / 120.0
        == ((sigmaSq - 10.0) * (sigmaSq - 10.0) + 20.0) / 120.0;
    1.0 - sigmaSq / Factorial(3) as real + sigmaSq * sigmaSq / Factorial(5) as real
  }

  /** The coefficient of B²: 1/2 − σ²/4! + σ⁴/6!, the series of
      (1 − cos σ) / σ² cut after the σ⁴ term. */
  function CalcBSqScaleFactor(sigmaSq: real): (k: real)
    ensures k == 0.5 - sigmaSq / 24.0 + sigmaSq * sigmaSq / 720.0
    ensures sigmaSq == 0.0 ==> k == 0.5
    ensures k >= 3.0 / 16.0
  {
    FactorialValues();
    assert 0.5 - sigmaSq / 24.0 + sigmaSq * sigmaSq / 720.0
        == ((sigmaSq - 15.0) * (sigmaSq - 15.0) + 135.0) / 720.0;
    0.5 - sigmaSq / Factorial(4) as real + sigmaSq * sigmaSq / Factorial(6) as real
  }

  /** The incremental rotation of one sample: (k1·B + k2·B²) + I. */
  function CalcMatrixA(wX: real, wY: real, wZ: real): Matrix {
    var b := CalcMatrixB(wX, wY, wZ);
    var bSq := Multiply(b, b);
    var sigmaSq := CalcNormSquared(wX, wY, wZ);
    Add(Add(Scale(b, CalcBScaleFactor(sigmaSq)), Scale(bSq, CalcBSqScaleFactor(sigmaSq))), Identity())
  }

  /** The orientation after one gyroscope reading w = (wX, wY, wZ): the old
      state on the left, the increment on the right. */
  function NextOrientation(c: Matrix, w: Vector): Matrix {
    Multiply(c, CalcMatrixA(w.x, w.y, w.z))
  }

  /** The orientation after feeding the samples `ws` one by one, in order. */
  function Integrate(c: Matrix, ws: seq<Vector>): Matrix
    decreases |ws|
  {
    if ws == [] then c else Integrate(NextOrientation(c, ws[0]), ws[1..])
  }

  /** The product A(ws[0]) × A(ws[1]) × … of the increments, in arrival order. */
  function Composed(ws: seq<Vector>): Matrix
    decreases |ws|
  {
    if ws == [] then Identity() else Multiply(CalcMatrixA(ws[0].x, ws[0].y, ws[0].z), Composed(ws[1..]))
  }

  /** What heading is read from: (c[1][0], c[0][0]). */
  function HeadingOf(c: Matrix): HeadingInputs {
    HeadingInputs(c.At(1, 0), c.At(0, 0))
  }

  /** B² = w·wᵀ − σ²·I for the skew matrix B of w. */
  lemma SkewSquare(wX: real, wY: real, wZ: real)
    ensures Multiply(CalcMatrixB(wX, wY, wZ), CalcMatrixB(wX, wY, wZ))
         == Matrix(Vector(-(wY * wY + wZ * wZ), wX * wY, wX * wZ),
                   Vector(wX * wY, -(wX * wX + wZ * wZ), wY * wZ),
                   Vector(wX * wZ, wY * wZ, -(wX * wX + wY * wY)))
  {
  }

  /** The series combination (k1·B + k2·B²) + I, entry by entry. */
  lemma SeriesEntries(b: Matrix, bSq: Matrix, k1: real, k2: real)
    ensures Add(Add(Scale(b, k1), Scale(bSq, k2)), Identity())
         == Matrix(Vector(k1 * b.r0.x + k2 * bSq.r0.x + 1.0, k1 * b.r0.y + k2 * bSq.r0.y, k1 * b.r0.z + k2 * bSq.r0.z),
                   Vector(k1 * b.r1.x + k2 * bSq.r1.x, k1 * b.r1.y + k2 * bSq.r1.y + 1.0, k1 * b.r1.z + k2 * bSq.r1.z),
                   Vector(k1 * b.r2.x + k2 * bSq.r2.x, k1 * b.r2.y + k2 * bSq.r2.y, k1 * b.r2.z + k2 * bSq.r2.z + 1.0))
  {
    SeriesRow(b.r0, bSq.r0, k1, k2, Identity().r0);
    SeriesRow(b.r1, bSq.r1, k1, k2, Identity().r1);
    SeriesRow(b.r2, bSq.r2, k1, k2, Identity().r2);
  }

  /** One row of the series combination: k1·u + k2·v + e, component by component. */
  lemma SeriesRow(u: Vector, v: Vector, k1: real, k2: real, e: Vector)
    ensures Plus(Plus(Times(k1, u), Times(k2, v)), e)
         == Vector(k1 * u.x + k2 * v.x + e.x, k1 * u.y + k2 * v.y + e.y, k1 * u.z + k2 * v.z + e.z)
  {
  }

  /** Transposition passes through the series combination term by term. */
  lemma TransposeSeries(b: Matrix, bSq: Matrix, k1: real, k2: real)
    ensures Transpose(Add(Add(Scale(b, k1), Scale(bSq, k2)), Identity()))
         == Add(Add(Scale(Transpose(b), k1), Scale(Transpose(bSq), k2)), Identity())
  {
    TransposeAdd(Add(Scale(b, k1), Scale(bSq, k2)), Identity());
    TransposeAdd(Scale(b, k1), Scale(bSq, k2));
    TransposeScale(b, k1);
    TransposeScale(bSq, k2);
    TransposeIdentity();
  }

  /** Reversing the sample transposes B, leaves B² as it is, and leaves σ² as it is. */
  lemma NegatedSampleParts(wX: real, wY: real, wZ: real)
    ensures CalcMatrixB(-wX, -wY, -wZ) == Transpose(CalcMatrixB(wX, wY, wZ))
    ensures Multiply(CalcMatrixB(-wX, -wY, -wZ), CalcMatrixB(-wX, -wY, -wZ))
         == Multiply(CalcMatrixB(wX, wY, wZ), CalcMatrixB(wX, wY, wZ))
    ensures Transpose(Multiply(CalcMatrixB(wX, wY, wZ), CalcMatrixB(wX, wY, wZ)))
         == Multiply(CalcMatrixB(wX, wY, wZ), CalcMatrixB(wX, wY, wZ))
    ensures CalcNormSquared(-wX, -wY, -wZ) == CalcNormSquared(wX, wY, wZ)
  {
    SkewSquare(wX, wY, wZ);
    SkewSquare(-wX, -wY, -wZ);
  }

  /** With B = 0 the series combination is the identity, whatever the coefficients. */
  lemma SeriesOfZero(k1: real, k2: real)
    ensures Add(Add(Scale(Zero(), k1), Scale(Zero(), k2)), Identity()) == Identity()
  {
  }

  /** A zero sample gives the identity increment. */
  lemma ZeroSampleIncrementIsIdentity()
    ensures CalcMatrixA(0.0, 0.0, 0.0) == Identity()
  {
    var b := CalcMatrixB(0.0, 0.0, 0.0);
    assert b == Zero();
    MultiplyZero(b);
    var sigmaSq := CalcNormSquared(0.0, 0.0, 0.0);
    SeriesOfZero(CalcBScaleFactor(sigmaSq), CalcBSqScaleFactor(sigmaSq));
  }

  /** A zero-rate step leaves the orientation, and so both heading inputs, as they were. */
  lemma ZeroSampleKeepsOrientation(c: Matrix)
    ensures NextOrientation(c, Vector(0.0, 0.0, 0.0)) == c
    ensures HeadingOf(NextOrientation(c, Vector(0.0, 0.0, 0.0))) == HeadingOf(c)
  {
    ZeroSampleIncrementIsIdentity();
    MultiplyIdentity(c);
  }

  /** A vector that B and B² both send to zero is left fixed by (k1·B + k2·B²) + I. */
  lemma SeriesFixes(b: Matrix, bSq: Matrix, k1: real, k2: real, w: Vector)
    requires Apply(b, w) == Origin() && Apply(bSq, w) == Origin()
    ensures Apply(Add(Add(Scale(b, k1), Scale(bSq, k2)), Identity()), w) == w
  {
    ApplyScale(b, k1, w);
    ApplyScale(bSq, k2, w);
    ApplyAdd(Scale(b, k1), Scale(bSq, k2), w);
    ApplyAdd(Add(Scale(b, k1), Scale(bSq, k2)), Identity(), w);
    ApplyIdentity(w);
  }

  /** Reversing the sample transposes the increment: A(−w) == A(w)ᵀ. */
  lemma NegatedSampleTransposes(wX: real, wY: real, wZ: real)
    ensures CalcMatrixA(-wX, -wY, -wZ) == Transpose(CalcMatrixA(wX, wY, wZ))
  {
    var b := CalcMatrixB(wX, wY, wZ);
    var sigmaSq := CalcNormSquared(wX, wY, wZ);
    NegatedSampleParts(wX, wY, wZ);
    TransposeSeries(b, Multiply(b, b), CalcBScaleFactor(sigmaSq), CalcBSqScaleFactor(sigmaSq));
  }

  /** Every vector on the rotation axis (w × v == 0) is left where it is by A(w). */
  lemma IncrementFixesParallel(w: Vector, v: Vector)
    requires Cross(w, v) == Origin()
    ensures Apply(CalcMatrixA(w.x, w.y, w.z), v) == v
  {
    var b := CalcMatrixB(w.x, w.y, w.z);
    var sigmaSq := CalcNormSquared(w.x, w.y, w.z);
    SkewIsCross(w.x, w.y, w.z, v);
    SkewIsCross(w.x, w.y, w.z, Origin());
    ApplyMultiply(b, b, v);
    SeriesFixes(b, Multiply(b, b), CalcBScaleFactor(sigmaSq), CalcBSqScaleFactor(sigmaSq), v);
  }

  /** In particular the rotation axis w itself is fixed: A(w) · w == w. */
  lemma IncrementFixesAxis(w: Vector)
    ensures Apply(CalcMatrixA(w.x, w.y, w.z), w) == w
  {
    assert Cross(w, w) == Origin();
    IncrementFixesParallel(w, w);
  }

  /** A vector on the axis of w is on the axis of −w too. */
  lemma NegatedCross(w: Vector, v: Vector)
    requires Cross(w, v) == Origin()
    ensures Cross(Vector(-w.x, -w.y, -w.z), v) == Origin()
  {
    assert (-w.y) * v.z - (-w.z) * v.y == -(w.y * v.z - w.z * v.y);
    assert (-w.z) * v.x - (-w.x) * v.z == -(w.z * v.x - w.x * v.z);
    assert (-w.x) * v.y - (-w.y) * v.x == -(w.x * v.y - w.y * v.x);
  }

  /** The transpose of A(w) fixes the rotation axis as well, since it is A(−w). */
  lemma TransposedFixesParallel(w: Vector, v: Vector)
    requires Cross(w, v) == Origin()
    ensures Apply(Transpose(CalcMatrixA(w.x, w.y, w.z)), v) == v
  {
    NegatedSampleTransposes(w.x, w.y, w.z);
    NegatedCross(w, v);
    IncrementFixesParallel(Vector(-w.x, -w.y, -w.z), v);
  }

  /** Feeding two runs of samples one after the other is feeding their concatenation. */
  lemma {:induction false} IntegrateAppend(c: Matrix, ws: seq<Vector>, vs: seq<Vector>)
    ensures Integrate(c, ws + vs) == Integrate(Integrate(c, ws), vs)
    decreases |ws|
  {
    if ws == [] {
      assert ws + vs == vs;
    } else {
      assert (ws + vs)[1..] == ws[1..] + vs;
      IntegrateAppend(NextOrientation(c, ws[0]), ws[1..], vs);
    }
  }

  /** Integrating a run of samples multiplies the starting orientation, on
      its right, by the product of their increments taken in arrival order. */
  lemma {:induction false} IntegrateIsProduct(c: Matrix, ws: seq<Vector>)
    ensures Integrate(c, ws) == Multiply(c, Composed(ws))
    decreases |ws|
  {
    if ws == [] {
      MultiplyIdentity(c);
    } else {
      IntegrateIsProduct(NextOrientation(c, ws[0]), ws[1..]);
      MultiplyAssociative(c, CalcMatrixA(ws[0].x, ws[0].y, ws[0].z), Composed(ws[1..]));
    }
  }

  /** The heading integrator: one orientation matrix, replaced by c × A on
      every gyroscope sample. Not safe for concurrent use. */
  class MatrixHeadingInference {
    var c: Matrix

    /** Starts from the identity orientation. */
    constructor ()
      ensures c == Identity()
      ensures HeadingOf(c) == HeadingInputs(0.0, 1.0)
    {
      c := Identity();
    }

    /** Starts from the caller's orientation, copied as a value. */
    constructor FromMatrix(startingMatrix: Matrix)
      ensures c == startingMatrix
    {
      c := startingMatrix;
    }

    /** Folds one gyroscope reading into the orientation and reports the
        heading inputs. A reading with fewer than three components is
        refused before the orientation is touched. */
    method GetCurrentHeading(gyroValue: seq<real>) returns (r: Result<HeadingInputs>)
      modifies this
      ensures |gyroValue| < 3 ==> r == Err(IndexOutOfBounds) && c == old(c)
      ensures |gyroValue| >= 3 ==>
                c == NextOrientation(old(c), Vector(gyroValue[0], gyroValue[1], gyroValue[2]))
                && r == Ok(HeadingOf(c))
    {
      if |gyroValue| < 3 {
        return Err(IndexOutOfBounds);
      }
      var wX, wY, wZ := gyroValue[0], gyroValue[1], gyroValue[2];
      var a := CalcMatrixA(wX, wY, wZ);
      CalcMatrixC(a);
      r := Ok(HeadingInputs(c.At(1, 0), c.At(0, 0)));
    }

    /** Composes the increment `a` into the state, old state on the left. */
    method CalcMatrixC(a: Matrix)
      modifies this
      ensures c == Multiply(old(c), a)
    {
      c := Multiply(c, a);
    }

    /** Discards the accumulated orientation: back to the identity, whatever
        the state was, so clearing twice is the same as clearing once. */
    method ClearMatrix()
      modifies this
      ensures c == Identity()
      ensures HeadingOf(c) == HeadingInputs(0.0, 1.0)
    {
      c := Identity();
    }
  }
}
