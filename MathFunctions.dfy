/** The small linear-algebra kernel the heading integrator is built on:
    fixed-size 3×3 real matrices with identity, product, sum, scaling and
    transpose, plus the integer factorial used for series denominators.
    The shape is part of the type, so a dimension mismatch cannot arise. */
module MathFunctions {

  /** A row or column index of a 3×3 matrix. */
  type Index = i: int | 0 <= i < 3

  /** Three reals, used both as a row of a matrix and as a column vector. */
  datatype Vector = Vector(x: real, y: real, z: real)
  {
    /** Component `j`: 0 is `x`, 1 is `y`, 2 is `z`. */
    function At(j: Index): real {
      if j == 0 then x else if j == 1 then y else z
    }
  }

  /** A 3×3 matrix of reals as its three rows, like a `float[3][3]`. */
  datatype Matrix = Matrix(r0: Vector, r1: Vector, r2: Vector)
  {
    /** Row `i`. */
    function Row(i: Index): Vector {
      if i == 0 then r0 else if i == 1 then r1 else r2
    }

    /** Column `j`. */
    function Col(j: Index): Vector {
      Vector(r0.At(j), r1.At(j), r2.At(j))
    }

    /** The entry at row `i`, column `j` (the source's `c[i][j]`). */
    function At(i: Index, j: Index): real {
      Row(i).At(j)
    }
  }

  /** The scalar product of two vectors. */
  function Dot(u: Vector, v: Vector): real {
    u.x * v.x + u.y * v.y + u.z * v.z
  }

  /** The component-wise sum of two vectors. */
  function Plus(u: Vector, v: Vector): Vector {
    Vector(u.x + v.x, u.y + v.y, u.z + v.z)
  }

  /** A vector multiplied by a scalar. */
  function Times(s: real, v: Vector): Vector {
    Vector(s * v.x, s * v.y, s * v.z)
  }

  /** The zero vector. */
  function Origin(): Vector {
    Vector(0.0, 0.0, 0.0)
  }

  /** The identity matrix: ones on the diagonal, zeros elsewhere. */
  function Identity(): (r: Matrix)
    ensures forall i: Index, j: Index :: r.At(i, j) == if i == j then 1.0 else 0.0
  {
    Matrix(Vector(1.0, 0.0, 0.0),
           Vector(0.0, 1.0, 0.0),
           Vector(0.0, 0.0, 1.0))
  }

  /** The matrix whose entries are all zero. */
  function Zero(): (r: Matrix)
    ensures forall i: Index, j: Index :: r.At(i, j) == 0.0
  {
    Matrix(Origin(), Origin(), Origin())
  }

  /** The row vector `u` multiplied on the right by `m`. */
  function RowTimes(u: Vector, m: Matrix): Vector {
    Vector(Dot(u, m.Col(0)), Dot(u, m.Col(1)), Dot(u, m.Col(2)))
  }

  /** The matrix product `a × b`. */
  function Multiply(a: Matrix, b: Matrix): (r: Matrix)
    ensures forall i: Index, j: Index :: r.At(i, j) == Dot(a.Row(i), b.Col(j))
  {
    Matrix(RowTimes(a.r0, b), RowTimes(a.r1, b), RowTimes(a.r2, b))
  }

  /** The element-wise sum `a + b`. */
  function Add(a: Matrix, b: Matrix): (r: Matrix)
    ensures forall i: Index, j: Index :: r.At(i, j) == a.At(i, j) + b.At(i, j)
  {
    Matrix(Plus(a.r0, b.r0), Plus(a.r1, b.r1), Plus(a.r2, b.r2))
  }

  /** Every entry of `a` multiplied by the scalar `s`. */
  function Scale(a: Matrix, s: real): (r: Matrix)
    ensures forall i: Index, j: Index :: r.At(i, j) == s * a.At(i, j)
  {
    Matrix(Times(s, a.r0), Times(s, a.r1), Times(s, a.r2))
  }

  /** The transpose: rows become columns. */
  function Transpose(a: Matrix): (r: Matrix)
    ensures forall i: Index, j: Index :: r.At(i, j) == a.At(j, i)
  {
    Matrix(a.Col(0), a.Col(1), a.Col(2))
  }

  /** The matrix-vector product `m · v`. */
  function Apply(m: Matrix, v: Vector): Vector {
    Vector(Dot(m.r0, v), Dot(m.r1, v), Dot(m.r2, v))
  }

  /** n!, the product 1 · 2 · … · n; never zero, so it can serve as a divisor. */
  function Factorial(n: nat): (r: nat)
    ensures r >= 1 && r >= n
  {
    if n == 0 then 1 else n * Factorial(n - 1)
  }

  /** The denominators the heading series uses. */
  lemma FactorialValues()
    ensures Factorial(0) == 1 && Factorial(3) == 6 && Factorial(4) == 24
    ensures Factorial(5) == 120 && Factorial(6) == 720
  {
  }

  /** The identity is neutral for the product on either side. */
  lemma MultiplyIdentity(a: Matrix)
    ensures Multiply(Identity(), a) == a
    ensures Multiply(a, Identity()) == a
  {
  }

  /** Scaling by one and adding the zero matrix change nothing. */
  lemma ScaleOneAddZero(a: Matrix)
    ensures Scale(a, 1.0) == a
    ensures Add(a, Zero()) == a
  {
  }

  /** (u × m) · v == u · (m × v): the product of a row, a matrix and a column may be regrouped. */
  lemma DotRegroup(u: Vector, m: Matrix, v: Vector)
    ensures Dot(RowTimes(u, m), v) == Dot(u, Apply(m, v))
  {
    var p := RowTimes(u, m);
    var q := Apply(m, v);
    assert p.x == u.x * m.r0.x + u.y * m.r1.x + u.z * m.r2.x;
    assert p.y == u.x * m.r0.y + u.y * m.r1.y + u.z * m.r2.y;
    assert p.z == u.x * m.r0.z + u.y * m.r1.z + u.z * m.r2.z;
    assert q.x == m.r0.x * v.x + m.r0.y * v.y + m.r0.z * v.z;
    assert q.y == m.r1.x * v.x + m.r1.y * v.y + m.r1.z * v.z;
    assert q.z == m.r2.x * v.x + m.r2.y * v.y + m.r2.z * v.z;
  }

  /** Multiplying by a product is multiplying by its factors in turn: (m × n) · v == m · (n · v). */
  lemma ApplyMultiply(m: Matrix, n: Matrix, v: Vector)
    ensures Apply(Multiply(m, n), v) == Apply(m, Apply(n, v))
  {
    DotRegroup(m.r0, n, v);
    DotRegroup(m.r1, n, v);
    DotRegroup(m.r2, n, v);
  }

  /** Column `j` of a product is the left factor applied to column `j` of the right factor. */
  lemma ColMultiply(b: Matrix, c: Matrix, j: Index)
    ensures Multiply(b, c).Col(j) == Apply(b, c.Col(j))
  {
  }

  /** The product is associative, so a chain of compositions may be regrouped. */
  lemma MultiplyAssociative(a: Matrix, b: Matrix, c: Matrix)
    ensures Multiply(Multiply(a, b), c) == Multiply(a, Multiply(b, c))
  {
    forall u: Vector ensures RowTimes(RowTimes(u, b), c) == RowTimes(u, Multiply(b, c)) {
      ColMultiply(b, c, 0);
      ColMultiply(b, c, 1);
      ColMultiply(b, c, 2);
      DotRegroup(u, b, c.Col(0));
      DotRegroup(u, b, c.Col(1));
      DotRegroup(u, b, c.Col(2));
    }
  }

  /** The identity leaves every vector where it is. */
  lemma ApplyIdentity(v: Vector)
    ensures Apply(Identity(), v) == v
  {
  }

  /** Applying a sum of matrices is adding the images. */
  lemma ApplyAdd(m: Matrix, n: Matrix, v: Vector)
    ensures Apply(Add(m, n), v) == Plus(Apply(m, v), Apply(n, v))
  {
  }

  /** Applying a scaled matrix is scaling the image. */
  lemma ApplyScale(m: Matrix, s: real, v: Vector)
    ensures Apply(Scale(m, s), v) == Times(s, Apply(m, v))
  {
    DotTimes(s, m.r0, v);
    DotTimes(s, m.r1, v);
    DotTimes(s, m.r2, v);
  }

  /** A scalar factor can be taken out of a scalar product. */
  lemma DotTimes(s: real, u: Vector, v: Vector)
    ensures Dot(Times(s, u), v) == s * Dot(u, v)
  {
    var su := Times(s, u);
    assert su.x == s * u.x && su.y == s * u.y && su.z == s * u.z;
  }

  /** Transposition distributes over the sum. */
  lemma TransposeAdd(a: Matrix, b: Matrix)
    ensures Transpose(Add(a, b)) == Add(Transpose(a), Transpose(b))
  {
  }

  /** Transposition commutes with scaling. */
  lemma TransposeScale(a: Matrix, s: real)
    ensures Transpose(Scale(a, s)) == Scale(Transpose(a), s)
  {
    assert Scale(a, s).Col(0) == Times(s, a.Col(0));
    assert Scale(a, s).Col(1) == Times(s, a.Col(1));
    assert Scale(a, s).Col(2) == Times(s, a.Col(2));
  }

  /** The identity is symmetric. */
  lemma TransposeIdentity()
    ensures Transpose(Identity()) == Identity()
  {
  }

  /** Column 1 of a transpose is row 1 of the original. */
  lemma TransposeCol(a: Matrix)
    ensures Transpose(a).Col(1) == a.r1
  {
  }

  /** The zero matrix absorbs any right factor. */
  lemma MultiplyZero(a: Matrix)
    ensures Multiply(Zero(), a) == Zero()
  {
    assert Dot(Origin(), a.Col(0)) == 0.0;
    assert Dot(Origin(), a.Col(1)) == 0.0;
    assert Dot(Origin(), a.Col(2)) == 0.0;
  }

  /** Applying a matrix to a unit vector picks out a column. */
  lemma ApplyUnit(m: Matrix)
    ensures Apply(m, Vector(1.0, 0.0, 0.0)) == m.Col(0)
    ensures Apply(m, Vector(0.0, 1.0, 0.0)) == m.Col(1)
  {
  }
}
