/**
 * Two-dimensional vectors and 2x2 matrices (src/server/vector.ts).
 * Every operation builds a fresh value from an expression, so both entities
 * are datatypes over `real`; the floating-point rounding of the source is not
 * modelled, and neither are the operations that need sqrt or trigonometry.
 */
module Vector {
  datatype Vec2 = Vec2(x: real, y: real)

  /** The matrix [[a, b], [c, d]]. */
  datatype Mat2 = Mat2(a: real, b: real, c: real, d: real)

  const Zero: Vec2 := Vec2(0.0, 0.0)
  const UnitX: Vec2 := Vec2(1.0, 0.0)
  const UnitY: Vec2 := Vec2(0.0, 1.0)

  function Copy(v: Vec2): (r: Vec2)
    ensures r == v && r.x == v.x && r.y == v.y
  {
    Vec2(v.x, v.y)
  }

  function Add(lhs: Vec2, rhs: Vec2): Vec2 {
    Vec2(lhs.x + rhs.x, lhs.y + rhs.y)
  }

  function Subtract(lhs: Vec2, rhs: Vec2): Vec2 {
    Vec2(lhs.x - rhs.x, lhs.y - rhs.y)
  }

  function Scale(k: real, v: Vec2): Vec2 {
    Vec2(k * v.x, k * v.y)
  }

  function Dot(lhs: Vec2, rhs: Vec2): real {
    lhs.x * rhs.x + lhs.y * rhs.y
  }

  function Cross(lhs: Vec2, rhs: Vec2): real {
    lhs.x * rhs.y - lhs.y * rhs.x
  }

  /** A product kept as a function term, so that sign facts about squares stay linear. */
  function Mul(a: real, b: real): real {
    a * b
  }

  lemma MulPositive(a: real, b: real)
    requires a > 0.0 && b > 0.0
    ensures Mul(a, b) > 0.0
  {
  }

  lemma MulNegated(a: real, b: real)
    ensures Mul(-a, -b) == Mul(a, b)
  {
  }

  lemma MulZero(a: real, b: real)
    requires a == 0.0
    ensures Mul(a, b) == 0.0
  {
  }

  /** The square of a non-zero real is positive. */
  lemma {:induction false} SquarePositive(t: real)
    requires t != 0.0
    ensures Mul(t, t) > 0.0
  {
    if t > 0.0 {
      MulPositive(t, t);
    } else {
      MulPositive(-t, -t);
      MulNegated(t, t);
    }
  }

  lemma DotSelfFacts(v: Vec2)
    ensures Dot(v, v) >= 0.0
    ensures Dot(v, v) == 0.0 <==> v == Zero
  {
    assert Dot(v, v) == Mul(v.x, v.x) + Mul(v.y, v.y);
    if v.x != 0.0 { SquarePositive(v.x); } else { MulZero(v.x, v.x); }
    if v.y != 0.0 { SquarePositive(v.y); } else { MulZero(v.y, v.y); }
  }

  /** The squared length: never negative, and zero exactly for the zero vector. */
  function Magnitude2(v: Vec2): (m: real)
    ensures m == Dot(v, v)
    ensures m >= 0.0
    ensures m == 0.0 <==> v == Zero
  {
    DotSelfFacts(v);
    Dot(v, v)
  }

  /** The vector turned a quarter turn counter-clockwise. */
  function Perpendicular(v: Vec2): Vec2 {
    Vec2(-v.y, v.x)
  }

  function CopyMat(m: Mat2): (r: Mat2)
    ensures r == m && r.a == m.a && r.b == m.b && r.c == m.c && r.d == m.d
  {
    Mat2(m.a, m.b, m.c, m.d)
  }

  function Multiply(lhs: Mat2, rhs: Mat2): Mat2 {
    Mat2(lhs.a * rhs.a + lhs.b * rhs.c, lhs.a * rhs.b + lhs.b * rhs.d,
         lhs.c * rhs.a + lhs.d * rhs.c, lhs.c * rhs.b + lhs.d * rhs.d)
  }

  function Transform(lhs: Mat2, rhs: Vec2): Vec2 {
    Vec2(lhs.a * rhs.x + lhs.b * rhs.y, lhs.c * rhs.x + lhs.d * rhs.y)
  }

  lemma AddCommutative(a: Vec2, b: Vec2)
    ensures Add(a, b) == Add(b, a)
  {
  }

  lemma AddAssociative(a: Vec2, b: Vec2, c: Vec2)
    ensures Add(Add(a, b), c) == Add(a, Add(b, c))
  {
  }

  lemma SubtractUndoesAdd(a: Vec2, b: Vec2)
    ensures Subtract(Add(a, b), b) == a
    ensures Add(Subtract(a, b), b) == a
  {
  }

  lemma ScaleDistributes(k: real, a: Vec2, b: Vec2)
    ensures Scale(k, Add(a, b)) == Add(Scale(k, a), Scale(k, b))
  {
  }

  lemma ScaleIdentity(v: Vec2)
    ensures Scale(1.0, v) == v
    ensures Scale(0.0, v) == Zero
  {
  }

  lemma DotSymmetric(a: Vec2, b: Vec2)
    ensures Dot(a, b) == Dot(b, a)
  {
  }

  lemma CrossAntisymmetric(a: Vec2, b: Vec2)
    ensures Cross(a, b) == -Cross(b, a)
    ensures Cross(a, a) == 0.0
  {
  }

  lemma PerpendicularProperties(v: Vec2)
    ensures Dot(v, Perpendicular(v)) == 0.0
    ensures Perpendicular(Perpendicular(v)) == Scale(-1.0, v)
    ensures Magnitude2(Perpendicular(v)) == Magnitude2(v)
  {
  }

  /** Transforming by a product is transforming by each factor, right one first. */
  lemma TransformMultiply(m: Mat2, n: Mat2, v: Vec2)
    ensures Transform(Multiply(m, n), v) == Transform(m, Transform(n, v))
  {
    var p, w := Multiply(m, n), Transform(n, v);
    RowByColumn(Vec2(m.a, m.b), n, v, Vec2(p.a, p.b), w);
    RowByColumn(Vec2(m.c, m.d), n, v, Vec2(p.c, p.d), w);
  }

  lemma MulRight(s: real, t: real, k: real)
    requires s == t
    ensures s * k == t * k
  {
  }

  lemma MulLeft(k: real, s: real, t: real)
    requires s == t
    ensures k * s == k * t
  {
  }

  /** The polynomial identity behind each entry of an associated product. */
  lemma EntryIdentity(x: real, z: real, y: real, u: real, v: real, w: real, p: real, q: real)
    ensures (x * y + z * u) * p + (x * v + z * w) * q == x * (y * p + v * q) + z * (u * p + w * q)
  {
    assert (x * y + z * u) * p == x * y * p + z * u * p;
    assert (x * v + z * w) * q == x * v * q + z * w * q;
    assert x * (y * p + v * q) == x * y * p + x * v * q;
    assert z * (u * p + w * q) == z * u * p + z * w * q;
  }

  /**
   * One entry of (m n) p against the same entry of m (n p): (m0, m1) is a row
   * of m, (p0, p1) a column of p, mn0/mn1 the row of m n and np0/np1 the
   * column of n p that the entry combines.
   */
  lemma {:induction false} EntryAssociative(m0: real, m1: real, n00: real, n01: real, n10: real, n11: real,
                                            p0: real, p1: real, mn0: real, mn1: real, np0: real, np1: real)
    requires mn0 == m0 * n00 + m1 * n10 && mn1 == m0 * n01 + m1 * n11
    requires np0 == n00 * p0 + n01 * p1 && np1 == n10 * p0 + n11 * p1
    ensures mn0 * p0 + mn1 * p1 == m0 * np0 + m1 * np1
  {
    MulRight(mn0, m0 * n00 + m1 * n10, p0);
    MulRight(mn1, m0 * n01 + m1 * n11, p1);
    MulLeft(m0, np0, n00 * p0 + n01 * p1);
    MulLeft(m1, np1, n10 * p0 + n11 * p1);
    EntryIdentity(m0, m1, n00, n10, n01, n11, p0, p1);
  }

  lemma {:induction false} MultiplyAssociative(m: Mat2, n: Mat2, p: Mat2)
    ensures Multiply(Multiply(m, n), p) == Multiply(m, Multiply(n, p))
  {
    AssociativeA(m, n, p);
    AssociativeB(m, n, p);
    AssociativeC(m, n, p);
    AssociativeD(m, n, p);
  }

  // Each entry of the associated product separately: together they are too
  // much nonlinear arithmetic for one proof.

  lemma {:induction false} AssociativeA(m: Mat2, n: Mat2, p: Mat2)
    ensures Multiply(Multiply(m, n), p).a == Multiply(m, Multiply(n, p)).a
  {
    var mn, np := Multiply(m, n), Multiply(n, p);
    RowByColumn(Vec2(m.a, m.b), n, Vec2(p.a, p.c), Vec2(mn.a, mn.b), Vec2(np.a, np.c));
  }

  lemma {:induction false} AssociativeB(m: Mat2, n: Mat2, p: Mat2)
    ensures Multiply(Multiply(m, n), p).b == Multiply(m, Multiply(n, p)).b
  {
    var mn, np := Multiply(m, n), Multiply(n, p);
    RowByColumn(Vec2(m.a, m.b), n, Vec2(p.b, p.d), Vec2(mn.a, mn.b), Vec2(np.b, np.d));
  }

  lemma {:induction false} AssociativeC(m: Mat2, n: Mat2, p: Mat2)
    ensures Multiply(Multiply(m, n), p).c == Multiply(m, Multiply(n, p)).c
  {
    var mn, np := Multiply(m, n), Multiply(n, p);
    RowByColumn(Vec2(m.c, m.d), n, Vec2(p.a, p.c), Vec2(mn.c, mn.d), Vec2(np.a, np.c));
  }

  lemma {:induction false} AssociativeD(m: Mat2, n: Mat2, p: Mat2)
    ensures Multiply(Multiply(m, n), p).d == Multiply(m, Multiply(n, p)).d
  {
    var mn, np := Multiply(m, n), Multiply(n, p);
    RowByColumn(Vec2(m.c, m.d), n, Vec2(p.b, p.d), Vec2(mn.c, mn.d), Vec2(np.b, np.d));
  }

  /**
   * A row of m times n, times a column of p, equals the row of m times n
   * times the column: (row n) col == row (n col).
   */
  lemma {:induction false} RowByColumn(row: Vec2, n: Mat2, col: Vec2, rowN: Vec2, nCol: Vec2)
    requires rowN.x == row.x * n.a + row.y * n.c && rowN.y == row.x * n.b + row.y * n.d
    requires nCol.x == n.a * col.x + n.b * col.y && nCol.y == n.c * col.x + n.d * col.y
    ensures rowN.x * col.x + rowN.y * col.y == row.x * nCol.x + row.y * nCol.y
  {
    EntryAssociative(row.x, row.y, n.a, n.b, n.c, n.d, col.x, col.y, rowN.x, rowN.y, nCol.x, nCol.y);
  }

  /** A matrix distributes over vector addition. */
  lemma TransformAdditive(m: Mat2, u: Vec2, v: Vec2)
    ensures Transform(m, Add(u, v)) == Add(Transform(m, u), Transform(m, v))
  {
    RowAdd(m.a, m.b, u.x, u.y, v.x, v.y);
    RowAdd(m.c, m.d, u.x, u.y, v.x, v.y);
  }

  /** A matrix commutes with scaling. */
  lemma TransformHomogeneous(m: Mat2, k: real, v: Vec2)
    ensures Transform(m, Scale(k, v)) == Scale(k, Transform(m, v))
  {
    RowScale(m.a, m.b, k, v.x, v.y);
    RowScale(m.c, m.d, k, v.x, v.y);
  }

  lemma RowAdd(a: real, b: real, x: real, y: real, x': real, y': real)
    ensures a * (x + x') + b * (y + y') == (a * x + b * y) + (a * x' + b * y')
  {
  }

  lemma RowScale(a: real, b: real, k: real, x: real, y: real)
    ensures a * (k * x) + b * (k * y) == k * (a * x + b * y)
  {
  }
}
