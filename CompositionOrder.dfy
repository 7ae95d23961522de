/** The order in which samples are composed matters. A roll sample keeps
    the x axis and a pitch sample keeps the y axis; composing them one way
    round moves the heading input c[1][0], the other way round leaves it at
    zero. These facts are built from small structural lemmas about single
    increments, so that no proof has to expand a whole product of
    increments. */
module CompositionOrder {
  import opened MathFunctions
  import opened HeadingInference

  /** Two samples fed from `c` give c × A(v) × A(w). */
  lemma IntegrateTwo(c: Matrix, v: Vector, w: Vector)
    ensures Integrate(c, [v, w]) == Multiply(Multiply(c, CalcMatrixA(v.x, v.y, v.z)), CalcMatrixA(w.x, w.y, w.z))
  {
    assert [v, w][1..] == [w];
    assert [w][1..] == [];
    assert Integrate(c, [v, w]) == Integrate(NextOrientation(c, v), [w]);
    assert Integrate(NextOrientation(c, v), [w]) == Integrate(NextOrientation(NextOrientation(c, v), w), []);
  }

  /** A pure roll sample (rate about x only) keeps the x axis: column 0 of its increment is (1, 0, 0). */
  lemma RollFixesX(r: real)
    ensures CalcMatrixA(r, 0.0, 0.0).Col(0) == Vector(1.0, 0.0, 0.0)
  {
    IncrementFixesParallel(Vector(r, 0.0, 0.0), Vector(1.0, 0.0, 0.0));
    ApplyUnit(CalcMatrixA(r, 0.0, 0.0));
  }

  /** A pure pitch sample (rate about y only) keeps the y axis: row 1 of its increment is (0, 1, 0). */
  lemma PitchFixesY(p: real)
    ensures CalcMatrixA(0.0, p, 0.0).r1 == Vector(0.0, 1.0, 0.0)
  {
    TransposedFixesParallel(Vector(0.0, p, 0.0), Vector(0.0, 1.0, 0.0));
    ApplyUnit(Transpose(CalcMatrixA(0.0, p, 0.0)));
    TransposeCol(CalcMatrixA(0.0, p, 0.0));
  }

  /** Entry (1, 2) of B is −wX and that of B² is wY·wZ, for every rate. */
  lemma SquareEntryRoll(wX: real, wY: real, wZ: real)
    ensures CalcMatrixB(wX, wY, wZ).r1.z == -wX
    ensures Multiply(CalcMatrixB(wX, wY, wZ), CalcMatrixB(wX, wY, wZ)).r1.z == wY * wZ
  {
    var b := CalcMatrixB(wX, wY, wZ);
    assert Multiply(b, b).r1.z == Dot(b.r1, b.Col(2));
  }

  /** Entry (2, 0) of B is −wY and that of B² is wX·wZ, for every rate. */
  lemma SquareEntryPitch(wX: real, wY: real, wZ: real)
    ensures CalcMatrixB(wX, wY, wZ).r2.x == -wY
    ensures Multiply(CalcMatrixB(wX, wY, wZ), CalcMatrixB(wX, wY, wZ)).r2.x == wX * wZ
  {
    var b := CalcMatrixB(wX, wY, wZ);
    assert Multiply(b, b).r2.x == Dot(b.r2, b.Col(0));
  }

  /** Entry (1, 2) of (k1·B + k2·B²) + I is −k1·wX + k2·wY·wZ, for every rate and coefficients. */
  lemma SeriesEntryRoll(wX: real, wY: real, wZ: real, k1: real, k2: real)
    ensures Add(Add(Scale(CalcMatrixB(wX, wY, wZ), k1),
                    Scale(Multiply(CalcMatrixB(wX, wY, wZ), CalcMatrixB(wX, wY, wZ)), k2)),
                Identity()).r1.z == k1 * -wX + k2 * (wY * wZ)
  {
    var b := CalcMatrixB(wX, wY, wZ);
    SquareEntryRoll(wX, wY, wZ);
    SeriesEntries(b, Multiply(b, b), k1, k2);
  }

  /** Entry (2, 0) of (k1·B + k2·B²) + I is −k1·wY + k2·wX·wZ, for every rate and coefficients. */
  lemma SeriesEntryPitch(wX: real, wY: real, wZ: real, k1: real, k2: real)
    ensures Add(Add(Scale(CalcMatrixB(wX, wY, wZ), k1),
                    Scale(Multiply(CalcMatrixB(wX, wY, wZ), CalcMatrixB(wX, wY, wZ)), k2)),
                Identity()).r2.x == k1 * -wY + k2 * (wX * wZ)
  {
    var b := CalcMatrixB(wX, wY, wZ);
    SquareEntryPitch(wX, wY, wZ);
    SeriesEntries(b, Multiply(b, b), k1, k2);
  }

  /** An entry equal to −k1·u + k2·(v·t) is non-zero when u is non-zero, v is
      zero and k1 is at least 1/6. */
  lemma CouplingNonZero(e: real, k1: real, k2: real, u: real, v: real, t: real)
    requires e == k1 * -u + k2 * (v * t)
    requires k1 >= 1.0 / 6.0 && u != 0.0 && v == 0.0
    ensures e != 0.0
  {
    ProductNonZero(k1, -u);
  }

  /** For a rate about x alone and any k1 at least 1/6, entry (1, 2) of
      (k1·B + k2·B²) + I is non-zero. */
  lemma RollSeriesCoupling(wX: real, wY: real, wZ: real, k1: real, k2: real)
    ensures wX != 0.0 && wY == 0.0 && k1 >= 1.0 / 6.0 ==>
      Add(Add(Scale(CalcMatrixB(wX, wY, wZ), k1),
              Scale(Multiply(CalcMatrixB(wX, wY, wZ), CalcMatrixB(wX, wY, wZ)), k2)),
          Identity()).r1.z != 0.0
  {
    var b := CalcMatrixB(wX, wY, wZ);
    SeriesEntryRoll(wX, wY, wZ, k1, k2);
    if wX != 0.0 && wY == 0.0 && k1 >= 1.0 / 6.0 {
      CouplingNonZero(Add(Add(Scale(b, k1), Scale(Multiply(b, b), k2)), Identity()).r1.z, k1, k2, wX, wY, wZ);
    }
  }

  /** For a rate about y alone and any k1 at least 1/6, entry (2, 0) of
      (k1·B + k2·B²) + I is non-zero. */
  lemma PitchSeriesCoupling(wX: real, wY: real, wZ: real, k1: real, k2: real)
    ensures wY != 0.0 && wX == 0.0 && k1 >= 1.0 / 6.0 ==>
      Add(Add(Scale(CalcMatrixB(wX, wY, wZ), k1),
              Scale(Multiply(CalcMatrixB(wX, wY, wZ), CalcMatrixB(wX, wY, wZ)), k2)),
          Identity()).r2.x != 0.0
  {
    var b := CalcMatrixB(wX, wY, wZ);
    SeriesEntryPitch(wX, wY, wZ, k1, k2);
    if wY != 0.0 && wX == 0.0 && k1 >= 1.0 / 6.0 {
      CouplingNonZero(Add(Add(Scale(b, k1), Scale(Multiply(b, b), k2)), Identity()).r2.x, k1, k2, wY, wX, wZ);
    }
  }

  /** A non-zero roll sample tilts the y axis towards z: entry (1, 2) of its increment is non-zero. */
  lemma RollCouples(r: real)
    requires r != 0.0
    ensures CalcMatrixA(r, 0.0, 0.0).r1.z != 0.0
  {
    var sigmaSq := CalcNormSquared(r, 0.0, 0.0);
    RollSeriesCoupling(r, 0.0, 0.0, CalcBScaleFactor(sigmaSq), CalcBSqScaleFactor(sigmaSq));
  }

  /** A non-zero pitch sample tilts the z axis towards x: entry (2, 0) of its increment is non-zero. */
  lemma PitchCouples(p: real)
    requires p != 0.0
    ensures CalcMatrixA(0.0, p, 0.0).r2.x != 0.0
  {
    var sigmaSq := CalcNormSquared(0.0, p, 0.0);
    PitchSeriesCoupling(0.0, p, 0.0, CalcBScaleFactor(sigmaSq), CalcBSqScaleFactor(sigmaSq));
  }

  /** c[1][0] of a × b when a[1][0] and b[1][0] are zero is a[1][2]·b[2][0]. */
  lemma CornerProduct(a: Matrix, b: Matrix)
    requires a.r1.x == 0.0 && b.r1.x == 0.0
    ensures Multiply(a, b).r1.x == a.r1.z * b.r2.x
  {
    assert Multiply(a, b).r1.x == Dot(a.r1, b.Col(0));
  }

  /** c[1][0] of a × b is zero when row 1 of a is the y axis and column 0 of b the x axis. */
  lemma AxisProduct(a: Matrix, b: Matrix)
    requires a.r1 == Vector(0.0, 1.0, 0.0) && b.Col(0) == Vector(1.0, 0.0, 0.0)
    ensures Multiply(a, b).At(1, 0) == 0.0
  {
    assert Multiply(a, b).At(1, 0) == Dot(a.r1, b.Col(0));
  }

  /** For a matrix `a` that keeps the x axis and a matrix `b` that keeps the y
      axis, each with a non-zero coupling entry, a × b and b × a differ in the
      heading input c[1][0]: the product is not commutative where heading is read. */
  lemma ProductOrder(a: Matrix, b: Matrix)
    requires a.Col(0) == Vector(1.0, 0.0, 0.0) && b.r1 == Vector(0.0, 1.0, 0.0)
    requires a.r1.z != 0.0 && b.r2.x != 0.0
    ensures HeadingOf(Multiply(a, b)).y != 0.0
    ensures HeadingOf(Multiply(b, a)).y == 0.0
  {
    CornerProduct(a, b);
    ProductNonZero(a.r1.z, b.r2.x);
    AxisProduct(b, a);
  }

  /** A product of two non-zero reals is non-zero. */
  lemma ProductNonZero(a: real, b: real)
    requires a != 0.0 && b != 0.0
    ensures a * b != 0.0
  {
  }

  /** The order of composition matters: from the identity, with non-zero
      rates, roll-then-pitch moves the heading input c[1][0] off zero while
      pitch-then-roll leaves it there, so the two orders report different
      heading inputs. */
  lemma OrderMatters(r: real, p: real)
    requires r != 0.0 && p != 0.0
    ensures HeadingOf(Integrate(Identity(), [Vector(r, 0.0, 0.0), Vector(0.0, p, 0.0)])).y != 0.0
    ensures HeadingOf(Integrate(Identity(), [Vector(0.0, p, 0.0), Vector(r, 0.0, 0.0)])).y == 0.0
  {
    var roll, pitch := Vector(r, 0.0, 0.0), Vector(0.0, p, 0.0);
    RollFixesX(r);
    PitchFixesY(p);
    RollCouples(r);
    PitchCouples(p);
    ProductOrder(CalcMatrixA(r, 0.0, 0.0), CalcMatrixA(0.0, p, 0.0));
    IntegrateTwo(Identity(), roll, pitch);
    IntegrateTwo(Identity(), pitch, roll);
    MultiplyIdentity(CalcMatrixA(r, 0.0, 0.0));
    MultiplyIdentity(CalcMatrixA(0.0, p, 0.0));
  }
}
