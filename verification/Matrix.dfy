/** Three-by-three matrices over the reals, as the client's rotation code uses them. */
module Matrix {

  datatype Vec3 = Vec3(x: real, y: real, z: real)

  /** A matrix as its three rows. */
  datatype Mat3 = Mat3(r0: Vec3, r1: Vec3, r2: Vec3)

  const IDENTITY := Mat3(Vec3(1.0, 0.0, 0.0), Vec3(0.0, 1.0, 0.0), Vec3(0.0, 0.0, 1.0))

  function Dot(u: Vec3, v: Vec3): real {
    u.x * v.x + u.y * v.y + u.z * v.z
  }

  function Add(u: Vec3, v: Vec3): Vec3 {
    Vec3(u.x + v.x, u.y + v.y, u.z + v.z)
  }

  function Cross(u: Vec3, v: Vec3): Vec3 {
    Vec3(u.y * v.z - u.z * v.y, u.z * v.x - u.x * v.z, u.x * v.y - u.y * v.x)
  }

  function Transpose(a: Mat3): Mat3 {
    Mat3(
      Vec3(a.r0.x, a.r1.x, a.r2.x),
      Vec3(a.r0.y, a.r1.y, a.r2.y),
      Vec3(a.r0.z, a.r1.z, a.r2.z))
  }

  function MulVec(a: Mat3, v: Vec3): Vec3 {
    Vec3(Dot(a.r0, v), Dot(a.r1, v), Dot(a.r2, v))
  }

  /** A row vector times a matrix. */
  function RowMul(u: Vec3, b: Mat3): Vec3 {
    var t := Transpose(b);
    Vec3(Dot(u, t.r0), Dot(u, t.r1), Dot(u, t.r2))
  }

  function Mul(a: Mat3, b: Mat3): Mat3 {
    Mat3(RowMul(a.r0, b), RowMul(a.r1, b), RowMul(a.r2, b))
  }

  function Det(a: Mat3): real {
    Dot(a.r0, Cross(a.r1, a.r2))
  }

  function Cofactors(a: Mat3): Mat3 {
    Mat3(Cross(a.r1, a.r2), Cross(a.r2, a.r0), Cross(a.r0, a.r1))
  }

  /** Orthonormal with determinant one. */
  ghost predicate IsRotation(a: Mat3) {
    Mul(a, Transpose(a)) == IDENTITY && Det(a) == 1.0
  }

  lemma DotCommutes(u: Vec3, v: Vec3)
    ensures Dot(u, v) == Dot(v, u)
  {
  }

  lemma ScalarAssociative(
    a: real, b: real, c: real,
    p00: real, p01: real, p02: real, p10: real, p11: real, p12: real, p20: real, p21: real, p22: real,
    u: real, v: real, w: real,
    x: real, y: real, z: real, q: real, r: real, s: real)
    requires x == a * p00 + b * p10 + c * p20
    requires y == a * p01 + b * p11 + c * p21
    requires z == a * p02 + b * p12 + c * p22
    requires q == p00 * u + p01 * v + p02 * w
    requires r == p10 * u + p11 * v + p12 * w
    requires s == p20 * u + p21 * v + p22 * w
    ensures x * u + y * v + z * w == a * q + b * r + c * s
  {
    assert (a * p00 + b * p10 + c * p20) * u + (a * p01 + b * p11 + c * p21) * v + (a * p02 + b * p12 + c * p22) * w
        == a * (p00 * u + p01 * v + p02 * w) + b * (p10 * u + p11 * v + p12 * w) + c * (p20 * u + p21 * v + p22 * w);
  }

  /** (u b) . v == u . (b v) */
  lemma DotThroughMatrix(u: Vec3, b: Mat3, v: Vec3)
    ensures Dot(RowMul(u, b), v) == Dot(u, MulVec(b, v))
  {
    var ub, bv := RowMul(u, b), MulVec(b, v);
    ScalarAssociative(u.x, u.y, u.z, b.r0.x, b.r0.y, b.r0.z, b.r1.x, b.r1.y, b.r1.z, b.r2.x, b.r2.y, b.r2.z,
      v.x, v.y, v.z, ub.x, ub.y, ub.z, bv.x, bv.y, bv.z);
  }

  lemma MulVecAssociative(a: Mat3, b: Mat3, v: Vec3)
    ensures MulVec(Mul(a, b), v) == MulVec(a, MulVec(b, v))
  {
    DotThroughMatrix(a.r0, b, v);
    DotThroughMatrix(a.r1, b, v);
    DotThroughMatrix(a.r2, b, v);
  }

  lemma RowMulAssociative(u: Vec3, b: Mat3, c: Mat3)
    ensures RowMul(RowMul(u, b), c) == RowMul(u, Mul(b, c))
  {
    var t := Transpose(c);
    DotThroughMatrix(u, b, t.r0);
    DotThroughMatrix(u, b, t.r1);
    DotThroughMatrix(u, b, t.r2);
  }

  lemma MulAssociative(a: Mat3, b: Mat3, c: Mat3)
    ensures Mul(Mul(a, b), c) == Mul(a, Mul(b, c))
  {
    RowMulAssociative(a.r0, b, c);
    RowMulAssociative(a.r1, b, c);
    RowMulAssociative(a.r2, b, c);
  }

  /** A row vector times a matrix is the transposed matrix times the vector. */
  lemma RowMulIsMulVec(u: Vec3, b: Mat3)
    ensures RowMul(u, b) == MulVec(Transpose(b), u)
  {
    var t := Transpose(b);
    DotCommutes(u, t.r0);
    DotCommutes(u, t.r1);
    DotCommutes(u, t.r2);
  }

  lemma TransposeOfProduct(a: Mat3, b: Mat3)
    ensures Transpose(Mul(a, b)) == Mul(Transpose(b), Transpose(a))
  {
    var t := Transpose(b);
    RowMulIsMulVec(t.r0, Transpose(a));
    RowMulIsMulVec(t.r1, Transpose(a));
    RowMulIsMulVec(t.r2, Transpose(a));
  }

  lemma IdentityIsNeutral(a: Mat3, v: Vec3)
    ensures Mul(IDENTITY, a) == a && Mul(a, IDENTITY) == a && MulVec(IDENTITY, v) == v && RowMul(v, IDENTITY) == v
  {
  }

  lemma ScalarPerpendicular(a: real, b: real, c: real, p: real, q: real, r: real, x: real, y: real, z: real)
    requires x == b * r - c * q && y == c * p - a * r && z == a * q - b * p
    ensures a * x + b * y + c * z == 0.0
    ensures p * x + q * y + r * z == 0.0
  {
    assert a * (b * r - c * q) + b * (c * p - a * r) + c * (a * q - b * p) == 0.0;
    assert p * (b * r - c * q) + q * (c * p - a * r) + r * (a * q - b * p) == 0.0;
  }

  lemma CrossIsPerpendicular(u: Vec3, v: Vec3)
    ensures Dot(u, Cross(u, v)) == 0.0
    ensures Dot(v, Cross(u, v)) == 0.0
  {
    var c := Cross(u, v);
    ScalarPerpendicular(u.x, u.y, u.z, v.x, v.y, v.z, c.x, c.y, c.z);
    assert v.x * c.x + v.y * c.y + v.z * c.z == 0.0;
    assert Dot(v, c) == 0.0;
  }

  lemma ScalarTripleProduct(
    a: real, b: real, c: real, d: real, e: real, f: real, g: real, h: real, i: real,
    x: real, y: real, z: real, k: real, l: real, m: real)
    requires x == e * i - f * h && y == f * g - d * i && z == d * h - e * g
    requires k == h * c - i * b && l == i * a - g * c && m == g * b - h * a
    ensures a * x + b * y + c * z == d * k + e * l + f * m
  {
    assert a * (e * i - f * h) + b * (f * g - d * i) + c * (d * h - e * g)
        == d * (h * c - i * b) + e * (i * a - g * c) + f * (g * b - h * a);
  }

  lemma TripleProductShifts(u: Vec3, v: Vec3, w: Vec3)
    ensures Dot(u, Cross(v, w)) == Dot(v, Cross(w, u))
  {
    var c, d := Cross(v, w), Cross(w, u);
    ScalarTripleProduct(u.x, u.y, u.z, v.x, v.y, v.z, w.x, w.y, w.z, c.x, c.y, c.z, d.x, d.y, d.z);
  }

  lemma TripleProductRotates(u: Vec3, v: Vec3, w: Vec3)
    ensures Dot(u, Cross(v, w)) == Dot(v, Cross(w, u)) == Dot(w, Cross(u, v))
  {
    TripleProductShifts(u, v, w);
    TripleProductShifts(v, w, u);
  }

  lemma TimesAdjugate(a: Mat3)
    requires Det(a) == 1.0
    ensures Mul(a, Transpose(Cofactors(a))) == IDENTITY
  {
    CrossIsPerpendicular(a.r1, a.r2);
    CrossIsPerpendicular(a.r2, a.r0);
    CrossIsPerpendicular(a.r0, a.r1);
    TripleProductRotates(a.r0, a.r1, a.r2);
  }

  lemma ScalarDetOfTranspose(
    a: real, b: real, c: real, d: real, e: real, f: real, g: real, h: real, i: real)
    ensures a * (e * i - f * h) + b * (f * g - d * i) + c * (d * h - e * g)
         == a * (e * i - h * f) + d * (h * c - b * i) + g * (b * f - e * c)
  {
  }

  lemma DetOfTranspose(a: Mat3)
    ensures Det(Transpose(a)) == Det(a)
  {
    ScalarDetOfTranspose(a.r0.x, a.r0.y, a.r0.z, a.r1.x, a.r1.y, a.r1.z, a.r2.x, a.r2.y, a.r2.z);
  }

  /** A rotation matrix is its own cofactor matrix, and its transpose inverts it on both sides. */
  lemma RotationEqualsCofactors(a: Mat3)
    requires IsRotation(a)
    ensures Mul(Transpose(a), a) == IDENTITY
    ensures Cofactors(a) == a
    ensures Cofactors(Transpose(a)) == Transpose(a)
  {
    var t := Transpose(a);
    var x, y := Transpose(Cofactors(t)), Transpose(Cofactors(a));
    DetOfTranspose(a);
    TimesAdjugate(t);
    TimesAdjugate(a);
    MulAssociative(a, t, x);
    MulAssociative(t, a, y);
    IdentityIsNeutral(a, a.r0);
    IdentityIsNeutral(t, a.r0);
    IdentityIsNeutral(x, a.r0);
    IdentityIsNeutral(y, a.r0);
  }

  /** Multiplying by a rotation keeps inner products. */
  lemma RotationKeepsDot(u: Vec3, v: Vec3, b: Mat3)
    requires IsRotation(b)
    ensures Dot(RowMul(u, b), RowMul(v, b)) == Dot(u, v)
  {
    DotThroughMatrix(u, b, RowMul(v, b));
    RowMulIsMulVec(v, b);
    MulVecAssociative(b, Transpose(b), v);
    IdentityIsNeutral(b, v);
  }

  lemma ScalarCross(
    a: real, b: real, c: real, d: real, e: real, f: real,
    p: real, q: real, r: real, s: real, t: real, u: real,
    ap: real, ds: real, as': real, dp: real, x: real, y: real, z: real, k: real, l: real, m: real)
    requires ap == a * p + b * q + c * r && ds == d * s + e * t + f * u
    requires as' == a * s + b * t + c * u && dp == d * p + e * q + f * r
    requires x == b * f - c * e && y == c * d - a * f && z == a * e - b * d
    requires k == q * u - r * t && l == r * s - p * u && m == p * t - q * s
    ensures ap * ds - as' * dp == x * k + y * l + z * m
  {
    assert (a * p + b * q + c * r) * (d * s + e * t + f * u) - (a * s + b * t + c * u) * (d * p + e * q + f * r)
        == (b * f - c * e) * (q * u - r * t) + (c * d - a * f) * (r * s - p * u) + (a * e - b * d) * (p * t - q * s);
  }

  /** (u.p)(v.q) - (u.q)(v.p) == (u x v).(p x q) */
  lemma CrossOfDots(u: Vec3, v: Vec3, p: Vec3, q: Vec3)
    ensures Dot(u, p) * Dot(v, q) - Dot(u, q) * Dot(v, p) == Dot(Cross(u, v), Cross(p, q))
  {
    var c, d := Cross(u, v), Cross(p, q);
    ScalarCross(u.x, u.y, u.z, v.x, v.y, v.z, p.x, p.y, p.z, q.x, q.y, q.z,
      Dot(u, p), Dot(v, q), Dot(u, q), Dot(v, p), c.x, c.y, c.z, d.x, d.y, d.z);
  }

  /** Rotating commutes with the cross product. */
  lemma RotationKeepsCross(u: Vec3, v: Vec3, b: Mat3)
    requires IsRotation(b)
    ensures Cross(RowMul(u, b), RowMul(v, b)) == RowMul(Cross(u, v), b)
  {
    var t := Transpose(b);
    RotationEqualsCofactors(b);
    CrossOfDots(u, v, t.r1, t.r2);
    CrossOfDots(u, v, t.r2, t.r0);
    CrossOfDots(u, v, t.r0, t.r1);
  }

  lemma RotationsCompose(a: Mat3, b: Mat3)
    requires IsRotation(a) && IsRotation(b)
    ensures IsRotation(Mul(a, b))
  {
    var m := Mul(a, b);
    var t, s := Transpose(a), Transpose(b);
    TransposeOfProduct(a, b);
    MulAssociative(a, b, Mul(s, t));
    MulAssociative(b, s, t);
    IdentityIsNeutral(t, a.r0);
    RotationKeepsCross(a.r1, a.r2, b);
    RotationKeepsDot(a.r0, Cross(a.r1, a.r2), b);
  }

  lemma RotationInverts(a: Mat3)
    requires IsRotation(a)
    ensures IsRotation(Transpose(a))
  {
    RotationEqualsCofactors(a);
    DetOfTranspose(a);
  }
}
