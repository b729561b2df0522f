/** Unit quaternions and rotation matrices. */
module Quaternion {
  import opened Matrix
  import opened Euler
  import opened EulerLaws

  datatype Quat = Quat(w: real, x: real, y: real, z: real)

  ghost predicate IsUnit(q: Quat) {
    q.w * q.w + q.x * q.x + q.y * q.y + q.z * q.z == 1.0
  }

  function Negate(q: Quat): Quat {
    Quat(-q.w, -q.x, -q.y, -q.z)
  }

  /** Rotation::quaternionToMatrix. */
  function QuaternionToMatrix(q: Quat): Mat3 {
    var Quat(w, x, y, z) := q;
    Mat3(
      Vec3(1.0 - 2.0 * y * y - 2.0 * z * z, 2.0 * x * y - 2.0 * z * w, 2.0 * x * z + 2.0 * y * w),
      Vec3(2.0 * x * y + 2.0 * z * w, 1.0 - 2.0 * x * x - 2.0 * z * z, 2.0 * y * z - 2.0 * x * w),
      Vec3(2.0 * x * z - 2.0 * y * w, 2.0 * y * z + 2.0 * x * w, 1.0 - 2.0 * x * x - 2.0 * y * y))
  }

  /** Which component the conversion takes from the square root. */
  datatype Pivot = PW | PX | PY | PZ

  function PivotOf(m: Mat3): Pivot {
    if m.r0.x + m.r1.y + m.r2.z > 0.0 then PW
    else if m.r0.x > m.r1.y && m.r0.x > m.r2.z then PX
    else if m.r1.y > m.r2.z then PY
    else PZ
  }

  /** What stands under the root of the chosen branch: positive for every matrix at all,
      so the divisor of every branch is. */
  function Radicand(m: Mat3): (r: real)
    ensures r > 0.0
  {
    match PivotOf(m)
    case PW => m.r0.x + m.r1.y + m.r2.z + 1.0
    case PX => 1.0 + m.r0.x - m.r1.y - m.r2.z
    case PY => 1.0 + m.r1.y - m.r0.x - m.r2.z
    case PZ => 1.0 + m.r2.z - m.r0.x - m.r1.y
  }

  /** The divisor of the chosen branch. */
  function Divisor(lib: MathLib, m: Mat3): (s: real)
    requires lib.Valid()
    ensures s > 0.0 && s * s == 4.0 * Radicand(m)
  {
    lib.Root(Radicand(m));
    lib.sqrt(Radicand(m)) * 2.0
  }

  /** The sums and differences of opposite entries that the branches divide. */
  datatype Products = Products(wx: real, wy: real, wz: real, xy: real, xz: real, yz: real)

  function ReadProducts(m: Mat3): Products {
    Products(
      m.r2.y - m.r1.z, m.r0.z - m.r2.x, m.r1.x - m.r0.y,
      m.r0.y + m.r1.x, m.r0.z + m.r2.x, m.r1.z + m.r2.y)
  }

  function Combine(pivot: Pivot, t: Products, s: real): Quat
    requires s != 0.0
  {
    match pivot
    case PW => Quat(0.25 * s, t.wx / s, t.wy / s, t.wz / s)
    case PX => Quat(t.wx / s, 0.25 * s, t.xy / s, t.xz / s)
    case PY => Quat(t.wy / s, t.xy / s, 0.25 * s, t.yz / s)
    case PZ => Quat(t.wz / s, t.xz / s, t.yz / s, 0.25 * s)
  }

  /** Rotation::matrixToQuaternion. */
  function MatrixToQuaternion(lib: MathLib, m: Mat3): Quat
    requires lib.Valid()
  {
    Combine(PivotOf(m), ReadProducts(m), Divisor(lib, m))
  }

  lemma RootUpToSign(s: real, v: real, p: real)
    requires s > 0.0 && s * s == 16.0 * p && p == v * v
    ensures v > 0.0 ==> s == 4.0 * v
    ensures v < 0.0 ==> s == -4.0 * v
    ensures v != 0.0
  {
    NoZeroDivisors(s - 4.0 * v, s + 4.0 * v);
  }

  lemma DivideOut(n: real, s: real, x: real)
    requires s != 0.0 && n == s * x
    ensures n / s == x
  {
  }

  /** Quotients by the divisor are the components times the sign of the pivot. */
  lemma Quotients(s: real, v: real, l: real, m: real, n: real, x: real, y: real, z: real)
    requires s > 0.0 && v != 0.0 && s == (if v > 0.0 then 4.0 * v else -4.0 * v)
    requires l == 4.0 * (v * x) && m == 4.0 * (v * y) && n == 4.0 * (v * z)
    ensures 0.25 * s == if v > 0.0 then v else -v
    ensures l / s == if v > 0.0 then x else -x
    ensures m / s == if v > 0.0 then y else -y
    ensures n / s == if v > 0.0 then z else -z
  {
    if v > 0.0 {
      DivideOut(l, s, x);
      DivideOut(m, s, y);
      DivideOut(n, s, z);
    } else {
      DivideOut(l, s, -x);
      DivideOut(m, s, -y);
      DivideOut(n, s, -z);
    }
  }

  /** Four times the products of a quaternion's components. */
  function ProductsOf(q: Quat): Products {
    Products(
      4.0 * (q.w * q.x), 4.0 * (q.w * q.y), 4.0 * (q.w * q.z),
      4.0 * (q.x * q.y), 4.0 * (q.x * q.z), 4.0 * (q.y * q.z))
  }

  function Component(q: Quat, pivot: Pivot): real {
    match pivot case PW => q.w case PX => q.x case PY => q.y case PZ => q.z
  }

  /** The products and squares of `q` that the conversion reads off a matrix. */
  ghost predicate IsMatrixOf(m: Mat3, q: Quat) {
    && ReadProducts(m) == ProductsOf(q)
    && m.r0.x + m.r1.y + m.r2.z + 1.0 == 4.0 * (q.w * q.w)
    && 1.0 + m.r0.x - m.r1.y - m.r2.z == 4.0 * (q.x * q.x)
    && 1.0 + m.r1.y - m.r0.x - m.r2.z == 4.0 * (q.y * q.y)
    && 1.0 + m.r2.z - m.r0.x - m.r1.y == 4.0 * (q.z * q.z)
  }

  lemma QuaternionToMatrixGives(q: Quat)
    requires IsUnit(q)
    ensures IsMatrixOf(QuaternionToMatrix(q), q)
  {
  }

  lemma CombineW(q: Quat, t: Products, s: real)
    requires s > 0.0 && q.w != 0.0 && s == (if q.w > 0.0 then 4.0 * q.w else -4.0 * q.w)
    requires t.wx == 4.0 * (q.w * q.x) && t.wy == 4.0 * (q.w * q.y) && t.wz == 4.0 * (q.w * q.z)
    ensures Combine(PW, t, s) == if q.w > 0.0 then q else Negate(q)
  {
    Quotients(s, q.w, t.wx, t.wy, t.wz, q.x, q.y, q.z);
  }

  lemma CombineX(q: Quat, t: Products, s: real)
    requires s > 0.0 && q.x != 0.0 && s == (if q.x > 0.0 then 4.0 * q.x else -4.0 * q.x)
    requires t.wx == 4.0 * (q.x * q.w) && t.xy == 4.0 * (q.x * q.y) && t.xz == 4.0 * (q.x * q.z)
    ensures Combine(PX, t, s) == if q.x > 0.0 then q else Negate(q)
  {
    Quotients(s, q.x, t.wx, t.xy, t.xz, q.w, q.y, q.z);
  }

  lemma CombineY(q: Quat, t: Products, s: real)
    requires s > 0.0 && q.y != 0.0 && s == (if q.y > 0.0 then 4.0 * q.y else -4.0 * q.y)
    requires t.wy == 4.0 * (q.y * q.w) && t.xy == 4.0 * (q.y * q.x) && t.yz == 4.0 * (q.y * q.z)
    ensures Combine(PY, t, s) == if q.y > 0.0 then q else Negate(q)
  {
    Quotients(s, q.y, t.wy, t.xy, t.yz, q.w, q.x, q.z);
  }

  lemma CombineZ(q: Quat, t: Products, s: real)
    requires s > 0.0 && q.z != 0.0 && s == (if q.z > 0.0 then 4.0 * q.z else -4.0 * q.z)
    requires t.wz == 4.0 * (q.z * q.w) && t.xz == 4.0 * (q.z * q.x) && t.yz == 4.0 * (q.z * q.y)
    ensures Combine(PZ, t, s) == if q.z > 0.0 then q else Negate(q)
  {
    Quotients(s, q.z, t.wz, t.xz, t.yz, q.w, q.x, q.y);
  }

  lemma RadicandOfMatrix(m: Mat3, q: Quat)
    requires IsMatrixOf(m, q)
    ensures var v := Component(q, PivotOf(m)); Radicand(m) == 4.0 * (v * v)
  {
  }

  lemma DivisorIsPivot(lib: MathLib, m: Mat3, q: Quat, v: real)
    requires lib.Valid() && IsMatrixOf(m, q) && v == Component(q, PivotOf(m))
    ensures v != 0.0 && Divisor(lib, m) == if v > 0.0 then 4.0 * v else -4.0 * v
  {
    RadicandOfMatrix(m, q);
    RootUpToSign(Divisor(lib, m), v, v * v);
  }

  lemma CombineRecovers(pivot: Pivot, q: Quat, t: Products, s: real, v: real)
    requires t == ProductsOf(q) && v == Component(q, pivot) && s > 0.0
    requires v != 0.0 && s == if v > 0.0 then 4.0 * v else -4.0 * v
    ensures Combine(pivot, t, s) == if v > 0.0 then q else Negate(q)
  {
    match pivot
    case PW => CombineW(q, t, s);
    case PX => CombineX(q, t, s);
    case PY => CombineY(q, t, s);
    case PZ => CombineZ(q, t, s);
  }

  lemma RoundTripOf(lib: MathLib, m: Mat3, q: Quat, v: real)
    requires lib.Valid() && IsMatrixOf(m, q) && v == Component(q, PivotOf(m))
    ensures v != 0.0 && MatrixToQuaternion(lib, m) == if v > 0.0 then q else Negate(q)
  {
    DivisorIsPivot(lib, m, q, v);
    CombineRecovers(PivotOf(m), q, ReadProducts(m), Divisor(lib, m), v);
  }

  /** From a unit quaternion to its matrix and back: the quaternion itself or its negation,
      whichever has a positive pivot. */
  lemma QuaternionRoundTrip(lib: MathLib, q: Quat)
    requires lib.Valid() && IsUnit(q)
    ensures
      var m := QuaternionToMatrix(q);
      var v := Component(q, PivotOf(m));
      v != 0.0 && MatrixToQuaternion(lib, m) == if v > 0.0 then q else Negate(q)
  {
    var m := QuaternionToMatrix(q);
    QuaternionToMatrixGives(q);
    RoundTripOf(lib, m, q, Component(q, PivotOf(m)));
  }

  /** The matrix depends on the pairwise products only. */
  function FromProducts(
    xx: real, yy: real, zz: real, xy: real, xz: real, yz: real, xw: real, yw: real, zw: real): Mat3
  {
    Mat3(
      Vec3(1.0 - yy - zz, xy - zw, xz + yw),
      Vec3(xy + zw, 1.0 - xx - zz, yz - xw),
      Vec3(xz - yw, yz + xw, 1.0 - xx - yy))
  }

  lemma MatrixFromProducts(
    q: Quat, xx: real, yy: real, zz: real, xy: real, xz: real, yz: real, xw: real, yw: real, zw: real)
    requires xx == 2.0 * q.x * q.x && yy == 2.0 * q.y * q.y && zz == 2.0 * q.z * q.z
    requires xy == 2.0 * q.x * q.y && xz == 2.0 * q.x * q.z && yz == 2.0 * q.y * q.z
    requires xw == 2.0 * q.x * q.w && yw == 2.0 * q.y * q.w && zw == 2.0 * q.z * q.w
    ensures QuaternionToMatrix(q) == FromProducts(xx, yy, zz, xy, xz, yz, xw, yw, zw)
  {
  }

  lemma NegationCancels(x: real, y: real, a: real, b: real) returns (product: real)
    requires a == -x && b == -y
    ensures product == 2.0 * x * y && product == 2.0 * a * b
  {
    product := 2.0 * x * y;
  }

  /** A quaternion and its negation have the same matrix. */
  lemma NegationGivesSameMatrix(q: Quat)
    ensures QuaternionToMatrix(Negate(q)) == QuaternionToMatrix(q)
  {
    var p := Negate(q);
    var xx := NegationCancels(q.x, q.x, p.x, p.x);
    var yy := NegationCancels(q.y, q.y, p.y, p.y);
    var zz := NegationCancels(q.z, q.z, p.z, p.z);
    var xy := NegationCancels(q.x, q.y, p.x, p.y);
    var xz := NegationCancels(q.x, q.z, p.x, p.z);
    var yz := NegationCancels(q.y, q.z, p.y, p.z);
    var xw := NegationCancels(q.x, q.w, p.x, p.w);
    var yw := NegationCancels(q.y, q.w, p.y, p.w);
    var zw := NegationCancels(q.z, q.w, p.z, p.w);
    MatrixFromProducts(q, xx, yy, zz, xy, xz, yz, xw, yw, zw);
    MatrixFromProducts(p, xx, yy, zz, xy, xz, yz, xw, yw, zw);
  }

  /** With the squared norm `n` in place of one, the row products are polynomial identities; the other rows
      are these with the axes rotated. */
  lemma RowNorm(w: real, x: real, y: real, z: real, a: real, b: real, c: real, n: real)
    requires n == w * w + x * x + y * y + z * z
    requires a == n - 2.0 * y * y - 2.0 * z * z && b == 2.0 * x * y - 2.0 * z * w && c == 2.0 * x * z + 2.0 * y * w
    ensures a * a + b * b + c * c == n * n
  {
    assert a == w * w + x * x - y * y - z * z;
    assert (w * w + x * x - y * y - z * z) * (w * w + x * x - y * y - z * z)
        + (2.0 * x * y - 2.0 * z * w) * (2.0 * x * y - 2.0 * z * w)
        + (2.0 * x * z + 2.0 * y * w) * (2.0 * x * z + 2.0 * y * w)
        == (w * w + x * x + y * y + z * z) * (w * w + x * x + y * y + z * z);
  }

  lemma RowsPerpendicular(
    w: real, x: real, y: real, z: real, a: real, b: real, c: real, d: real, e: real, f: real, n: real)
    requires n == w * w + x * x + y * y + z * z
    requires a == n - 2.0 * y * y - 2.0 * z * z && b == 2.0 * x * y - 2.0 * z * w && c == 2.0 * x * z + 2.0 * y * w
    requires d == 2.0 * x * y + 2.0 * z * w && e == n - 2.0 * x * x - 2.0 * z * z && f == 2.0 * y * z - 2.0 * x * w
    ensures a * d + b * e + c * f == 0.0
  {
    assert (n - 2.0 * y * y - 2.0 * z * z) * (2.0 * x * y + 2.0 * z * w)
        + (2.0 * x * y - 2.0 * z * w) * (n - 2.0 * x * x - 2.0 * z * z)
        + (2.0 * x * z + 2.0 * y * w) * (2.0 * y * z - 2.0 * x * w)
        == 4.0 * (x * y) * (n - (w * w + x * x + y * y + z * z));
  }

  lemma RowsCrossFirst(w: real, x: real, y: real, z: real, n: real, a: real, e: real, f: real, h: real, i: real)
    requires n == w * w + x * x + y * y + z * z && a == n - 2.0 * y * y - 2.0 * z * z
    requires e == n - 2.0 * x * x - 2.0 * z * z && f == 2.0 * y * z - 2.0 * x * w
    requires h == 2.0 * y * z + 2.0 * x * w && i == n - 2.0 * x * x - 2.0 * y * y
    ensures e * i - f * h == n * a
  {
    assert (n - 2.0 * x * x - 2.0 * z * z) * (n - 2.0 * x * x - 2.0 * y * y)
        - (2.0 * y * z - 2.0 * x * w) * (2.0 * y * z + 2.0 * x * w)
        == n * (n - 2.0 * y * y - 2.0 * z * z) - 4.0 * (x * x) * (n - (w * w + x * x + y * y + z * z));
  }

  lemma RowsCrossSecond(
    w: real, x: real, y: real, z: real, n: real, b: real, d: real, f: real, g: real, i: real)
    requires n == w * w + x * x + y * y + z * z && b == 2.0 * x * y - 2.0 * z * w
    requires d == 2.0 * x * y + 2.0 * z * w && f == 2.0 * y * z - 2.0 * x * w
    requires g == 2.0 * x * z - 2.0 * y * w && i == n - 2.0 * x * x - 2.0 * y * y
    ensures f * g - d * i == n * b
  {
    assert (2.0 * y * z - 2.0 * x * w) * (2.0 * x * z - 2.0 * y * w)
        - (2.0 * x * y + 2.0 * z * w) * (n - 2.0 * x * x - 2.0 * y * y)
        == n * (2.0 * x * y - 2.0 * z * w) - 4.0 * (x * y) * (n - (w * w + x * x + y * y + z * z));
  }

  lemma RowsCrossThird(
    w: real, x: real, y: real, z: real, n: real, c: real, d: real, e: real, g: real, h: real)
    requires n == w * w + x * x + y * y + z * z && c == 2.0 * x * z + 2.0 * y * w
    requires d == 2.0 * x * y + 2.0 * z * w && e == n - 2.0 * x * x - 2.0 * z * z
    requires g == 2.0 * x * z - 2.0 * y * w && h == 2.0 * y * z + 2.0 * x * w
    ensures d * h - e * g == n * c
  {
    assert (2.0 * x * y + 2.0 * z * w) * (2.0 * y * z + 2.0 * x * w)
        - (n - 2.0 * x * x - 2.0 * z * z) * (2.0 * x * z - 2.0 * y * w)
        == n * (2.0 * x * z + 2.0 * y * w) - 4.0 * (x * z) * (n - (w * w + x * x + y * y + z * z));
  }

  /** A row of `QuaternionToMatrix`, starting from its diagonal entry, with `n` in place of one. */
  ghost predicate IsRow(r: Vec3, w: real, x: real, y: real, z: real, n: real) {
    r == Vec3(n - 2.0 * y * y - 2.0 * z * z, 2.0 * x * y - 2.0 * z * w, 2.0 * x * z + 2.0 * y * w)
  }

  ghost predicate IsSquaredNorm(n: real, w: real, x: real, y: real, z: real) {
    n == w * w + x * x + y * y + z * z
  }

  function Shift1(r: Vec3): Vec3 {
    Vec3(r.y, r.z, r.x)
  }

  function Shift2(r: Vec3): Vec3 {
    Vec3(r.z, r.x, r.y)
  }

  lemma ShiftsKeepDot(r: Vec3, s: Vec3)
    ensures Dot(Shift1(r), Shift1(s)) == Dot(r, s) && Dot(Shift2(r), Shift2(s)) == Dot(r, s)
    ensures Shift1(Shift1(r)) == Shift2(r) && Shift1(Shift2(r)) == r
  {
  }

  lemma RowIsUnit(r: Vec3, w: real, x: real, y: real, z: real, n: real)
    requires IsRow(r, w, x, y, z, n) && IsSquaredNorm(n, w, x, y, z)
    ensures Dot(r, r) == n * n
  {
    RowNorm(w, x, y, z, r.x, r.y, r.z, n);
  }

  lemma RowsArePerpendicular(r: Vec3, s: Vec3, w: real, x: real, y: real, z: real, n: real)
    requires IsRow(r, w, x, y, z, n) && IsRow(Shift1(s), w, y, z, x, n) && IsSquaredNorm(n, w, x, y, z)
    ensures Dot(r, s) == 0.0
  {
    RowsPerpendicular(w, x, y, z, r.x, r.y, r.z, s.x, s.y, s.z, n);
  }

  lemma RowsCross(r: Vec3, s: Vec3, t: Vec3, w: real, x: real, y: real, z: real, n: real)
    requires IsRow(r, w, x, y, z, n) && IsRow(Shift1(s), w, y, z, x, n) && IsRow(Shift2(t), w, z, x, y, n)
    requires IsSquaredNorm(n, w, x, y, z)
    ensures Cross(s, t) == Vec3(n * r.x, n * r.y, n * r.z)
  {
    RowsCrossFirst(w, x, y, z, n, r.x, s.y, s.z, t.y, t.z);
    RowsCrossSecond(w, x, y, z, n, r.y, s.x, s.z, t.x, t.z);
    RowsCrossThird(w, x, y, z, n, r.z, s.x, s.y, t.x, t.y);
  }

  lemma FirstRowOf(q: Quat)
    ensures IsRow(QuaternionToMatrix(q).r0, q.w, q.x, q.y, q.z, 1.0)
  {
  }

  lemma SecondRowOf(q: Quat)
    ensures IsRow(Shift1(QuaternionToMatrix(q).r1), q.w, q.y, q.z, q.x, 1.0)
  {
  }

  lemma ThirdRowOf(q: Quat)
    ensures IsRow(Shift2(QuaternionToMatrix(q).r2), q.w, q.z, q.x, q.y, 1.0)
  {
  }

  lemma SquaredNorms(q: Quat)
    requires IsUnit(q)
    ensures IsSquaredNorm(1.0, q.w, q.x, q.y, q.z)
    ensures IsSquaredNorm(1.0, q.w, q.y, q.z, q.x)
    ensures IsSquaredNorm(1.0, q.w, q.z, q.x, q.y)
  {
  }

  lemma UnitRowsAreOrthonormal(q: Quat, m: Mat3)
    requires IsUnit(q) && m == QuaternionToMatrix(q)
    ensures Dot(m.r0, m.r0) == 1.0 && Dot(m.r1, m.r1) == 1.0 && Dot(m.r2, m.r2) == 1.0
    ensures Dot(m.r0, m.r1) == 0.0 && Dot(m.r0, m.r2) == 0.0 && Dot(m.r1, m.r2) == 0.0
  {
    FirstRowOf(q);
    SecondRowOf(q);
    ThirdRowOf(q);
    SquaredNorms(q);
    ShiftsKeepDot(m.r0, m.r2);
    ShiftsKeepDot(m.r1, m.r1);
    ShiftsKeepDot(m.r2, m.r2);
    ShiftsKeepDot(m.r1, m.r2);
    DotCommutes(m.r0, m.r2);
    RowIsUnit(m.r0, q.w, q.x, q.y, q.z, 1.0);
    RowIsUnit(Shift1(m.r1), q.w, q.y, q.z, q.x, 1.0);
    RowIsUnit(Shift2(m.r2), q.w, q.z, q.x, q.y, 1.0);
    RowsArePerpendicular(m.r0, m.r1, q.w, q.x, q.y, q.z, 1.0);
    RowsArePerpendicular(Shift1(m.r1), Shift1(m.r2), q.w, q.y, q.z, q.x, 1.0);
    RowsArePerpendicular(Shift2(m.r2), Shift2(m.r0), q.w, q.z, q.x, q.y, 1.0);
  }

  lemma UnitRowsCross(q: Quat, m: Mat3)
    requires IsUnit(q) && m == QuaternionToMatrix(q)
    ensures Cross(m.r1, m.r2) == m.r0
  {
    FirstRowOf(q);
    SecondRowOf(q);
    ThirdRowOf(q);
    SquaredNorms(q);
    RowsCross(m.r0, m.r1, m.r2, q.w, q.x, q.y, q.z, 1.0);
  }

  /** Every unit quaternion gives a rotation matrix. */
  lemma QuaternionMatrixIsRotation(q: Quat)
    requires IsUnit(q)
    ensures IsRotation(QuaternionToMatrix(q))
  {
    var m := QuaternionToMatrix(q);
    UnitRowsAreOrthonormal(q, m);
    UnitRowsCross(q, m);
    OrthonormalRows(m);
  }

  // ------------------------------------------------------------------
  // The matrix turns vectors as the quaternion does.

  /** The product of quaternions. */
  function Times(p: Quat, q: Quat): Quat {
    Quat(
      p.w * q.w - p.x * q.x - p.y * q.y - p.z * q.z,
      p.w * q.x + p.x * q.w + p.y * q.z - p.z * q.y,
      p.w * q.y - p.x * q.z + p.y * q.w + p.z * q.x,
      p.w * q.z + p.x * q.y - p.y * q.x + p.z * q.w)
  }

  function Conjugate(q: Quat): Quat {
    Quat(q.w, -q.x, -q.y, -q.z)
  }

  lemma ConjugationEntry(
    w: real, x: real, y: real, z: real, a: real, b: real, c: real, n: real,
    s: real, t: real, u: real, v: real, k: real, l: real, m: real)
    requires n == w * w + x * x + y * y + z * z
    requires s == -(x * a + y * b + z * c) && t == w * a + y * c - z * b
    requires u == w * b + z * a - x * c && v == w * c + x * b - y * a
    requires k == n - 2.0 * y * y - 2.0 * z * z && l == 2.0 * x * y - 2.0 * z * w && m == 2.0 * x * z + 2.0 * y * w
    ensures -s * x + t * w - u * z + v * y == k * a + l * b + m * c
  {
    assert k == w * w + x * x - y * y - z * z;
    assert (x * a + y * b + z * c) * x + (w * a + y * c - z * b) * w
        - (w * b + z * a - x * c) * z + (w * c + x * b - y * a) * y
        == (w * w + x * x - y * y - z * z) * a + (2.0 * x * y - 2.0 * z * w) * b + (2.0 * x * z + 2.0 * y * w) * c;
  }

  lemma ConjugationScalar(
    w: real, x: real, y: real, z: real, a: real, b: real, c: real, s: real, t: real, u: real, v: real)
    requires s == -(x * a + y * b + z * c) && t == w * a + y * c - z * b
    requires u == w * b + z * a - x * c && v == w * c + x * b - y * a
    ensures s * w + t * x + u * y + v * z == 0.0
  {
    assert -(x * a + y * b + z * c) * w + (w * a + y * c - z * b) * x + (w * b + z * a - x * c) * y
        + (w * c + x * b - y * a) * z == 0.0;
  }

  /** The product of a quaternion and a vector, seen from one axis. */
  ghost predicate IsHalf(w: real, x: real, y: real, z: real, p: Vec3, s: real, t: real, u: real, v: real) {
    && s == -(x * p.x + y * p.y + z * p.z) && t == w * p.x + y * p.z - z * p.y
    && u == w * p.y + z * p.x - x * p.z && v == w * p.z + x * p.y - y * p.x
  }

  lemma HalfTurned(q: Quat, p: Vec3, h: Quat)
    requires h == Times(q, Quat(0.0, p.x, p.y, p.z))
    ensures IsHalf(q.w, q.x, q.y, q.z, p, h.w, h.x, h.y, h.z)
  {
  }

  lemma HalfShifts(w: real, x: real, y: real, z: real, p: Vec3, s: real, t: real, u: real, v: real)
    requires IsHalf(w, x, y, z, p, s, t, u, v)
    ensures IsHalf(w, y, z, x, Shift1(p), s, u, v, t)
  {
  }

  lemma TurnedBack(q: Quat, h: Quat, r: Quat)
    requires r == Times(h, Conjugate(q))
    ensures r.w == h.w * q.w + h.x * q.x + h.y * q.y + h.z * q.z
    ensures r.x == -h.w * q.x + h.x * q.w - h.y * q.z + h.z * q.y
    ensures r.y == -h.w * q.y + h.y * q.w - h.z * q.x + h.x * q.z
    ensures r.z == -h.w * q.z + h.z * q.w - h.x * q.y + h.y * q.x
  {
  }

  lemma RowTurns(
    r: Vec3, w: real, x: real, y: real, z: real, n: real, p: Vec3, s: real, t: real, u: real, v: real)
    requires IsRow(r, w, x, y, z, n) && IsSquaredNorm(n, w, x, y, z) && IsHalf(w, x, y, z, p, s, t, u, v)
    ensures -s * x + t * w - u * z + v * y == Dot(r, p)
  {
    ConjugationEntry(w, x, y, z, p.x, p.y, p.z, n, s, t, u, v, r.x, r.y, r.z);
  }

  /** All three rows, from what they are. */
  lemma RowsTurn(m: Mat3, q: Quat, n: real, p: Vec3, h: Quat)
    requires IsRow(m.r0, q.w, q.x, q.y, q.z, n) && IsRow(Shift1(m.r1), q.w, q.y, q.z, q.x, n)
    requires IsRow(Shift2(m.r2), q.w, q.z, q.x, q.y, n)
    requires IsSquaredNorm(n, q.w, q.x, q.y, q.z) && IsHalf(q.w, q.x, q.y, q.z, p, h.w, h.x, h.y, h.z)
    ensures -h.w * q.x + h.x * q.w - h.y * q.z + h.z * q.y == Dot(m.r0, p)
    ensures -h.w * q.y + h.y * q.w - h.z * q.x + h.x * q.z == Dot(m.r1, p)
    ensures -h.w * q.z + h.z * q.w - h.x * q.y + h.y * q.x == Dot(m.r2, p)
  {
    RowTurns(m.r0, q.w, q.x, q.y, q.z, n, p, h.w, h.x, h.y, h.z);
    HalfShifts(q.w, q.x, q.y, q.z, p, h.w, h.x, h.y, h.z);
    RowTurns(Shift1(m.r1), q.w, q.y, q.z, q.x, n, Shift1(p), h.w, h.y, h.z, h.x);
    ShiftsKeepDot(m.r1, p);
    HalfShifts(q.w, q.y, q.z, q.x, Shift1(p), h.w, h.y, h.z, h.x);
    RowTurns(Shift2(m.r2), q.w, q.z, q.x, q.y, n, Shift2(p), h.w, h.z, h.x, h.y);
    ShiftsKeepDot(m.r2, p);
  }

  lemma TurnIsPure(q: Quat, p: Vec3, h: Quat)
    requires h == Times(q, Quat(0.0, p.x, p.y, p.z))
    ensures h.w * q.w + h.x * q.x + h.y * q.y + h.z * q.z == 0.0
  {
    HalfTurned(q, p, h);
    ConjugationScalar(q.w, q.x, q.y, q.z, p.x, p.y, p.z, h.w, h.x, h.y, h.z);
  }

  /** The meaning of the matrix: it turns a vector as conjugation by the unit quaternion does. */
  lemma MatrixIsConjugation(q: Quat, p: Vec3)
    requires IsUnit(q)
    ensures
      var t := MulVec(QuaternionToMatrix(q), p);
      Times(Times(q, Quat(0.0, p.x, p.y, p.z)), Conjugate(q)) == Quat(0.0, t.x, t.y, t.z)
  {
    var h, m := Times(q, Quat(0.0, p.x, p.y, p.z)), QuaternionToMatrix(q);
    FirstRowOf(q);
    SecondRowOf(q);
    ThirdRowOf(q);
    SquaredNorms(q);
    HalfTurned(q, p, h);
    RowsTurn(m, q, 1.0, p, h);
    TurnIsPure(q, p, h);
    TurnedBack(q, h, Times(h, Conjugate(q)));
  }

  // ------------------------------------------------------------------
  // From any rotation matrix to a quaternion and back. The sums and differences the conversion
  // reads are four times the products of one quaternion's components.

  lemma OppositeSquares(p: real, q: real, r: real, u: real, v: real, d: real, g: real)
    requires d * d + q * q + u * u == 1.0 && g * g + v * v + r * r == 1.0 && p * p + d * d + g * g == 1.0
    requires p == q * r - u * v
    ensures (v - u) * (v - u) == (p + q + r + 1.0) * (1.0 + p - q - r)
    ensures (u + v) * (u + v) == (1.0 + q - p - r) * (1.0 + r - p - q)
  {
    var uu, vv, pp, qq, rr, uv, qr := u * u, v * v, p * p, q * q, r * r, u * v, q * r;
    assert uu + vv == 1.0 + pp - qq - rr;
    calc {
      (v - u) * (v - u);
      vv - 2.0 * uv + uu;
      1.0 + 2.0 * p + pp - qq - rr - 2.0 * qr;
      (p + q + r + 1.0) * (1.0 + p - q - r);
    }
    calc {
      (u + v) * (u + v);
      vv + 2.0 * uv + uu;
      1.0 - 2.0 * p + pp - qq - rr + 2.0 * qr;
      (1.0 + q - p - r) * (1.0 + r - p - q);
    }
  }

  lemma DifferencesMultiply(
    a: real, b: real, c: real, d: real, e: real, f: real, g: real, h: real, i: real)
    requires b == f * g - d * i && d == c * h - b * i
    requires a * b + d * e + g * h == 0.0 && a * d + b * e + c * f == 0.0
    ensures (h - f) * (c - g) == (a + e + i + 1.0) * (b + d)
    ensures (h - f) * (c + g) == (1.0 + a - e - i) * (d - b)
    ensures (h + f) * (c - g) == (1.0 + e - a - i) * (d - b)
    ensures (h + f) * (c + g) == (1.0 + i - a - e) * (b + d)
  {
  }

  /** Four times the products of the components of the quaternion, as the matrix gives them. */
  datatype Grid = Grid(
    ww: real, xx: real, yy: real, zz: real, wx: real, wy: real, wz: real, xy: real, xz: real, yz: real)

  function ReadGrid(m: Mat3): Grid {
    Grid(
      m.r0.x + m.r1.y + m.r2.z + 1.0, 1.0 + m.r0.x - m.r1.y - m.r2.z,
      1.0 + m.r1.y - m.r0.x - m.r2.z, 1.0 + m.r2.z - m.r0.x - m.r1.y,
      m.r2.y - m.r1.z, m.r0.z - m.r2.x, m.r1.x - m.r0.y,
      m.r0.y + m.r1.x, m.r0.z + m.r2.x, m.r1.z + m.r2.y)
  }

  function At(g: Grid, u: Pivot, v: Pivot): real {
    match (u, v)
    case (PW, PW) => g.ww
    case (PX, PX) => g.xx
    case (PY, PY) => g.yy
    case (PZ, PZ) => g.zz
    case (PW, PX) => g.wx
    case (PX, PW) => g.wx
    case (PW, PY) => g.wy
    case (PY, PW) => g.wy
    case (PW, PZ) => g.wz
    case (PZ, PW) => g.wz
    case (PX, PY) => g.xy
    case (PY, PX) => g.xy
    case (PX, PZ) => g.xz
    case (PZ, PX) => g.xz
    case (PY, PZ) => g.yz
    case (PZ, PY) => g.yz
  }

  lemma RotationEntries(m: Mat3)
    requires IsRotation(m)
    ensures RotationEquations(m)
    ensures Dot(m.r0, m.r1) == 0.0 && Dot(m.r1, m.r2) == 0.0 && Dot(m.r2, m.r0) == 0.0
    ensures
      var t := Transpose(m);
      Dot(t.r0, t.r1) == 0.0 && Dot(t.r1, t.r2) == 0.0 && Dot(t.r2, t.r0) == 0.0
  {
    RotationObeysEquations(m);
    RotationInverts(m);
    RotationIsPerpendicular(m);
    RotationIsPerpendicular(Transpose(m));
  }

  lemma RotationIsPerpendicular(m: Mat3)
    requires IsRotation(m)
    ensures Dot(m.r0, m.r1) == 0.0 && Dot(m.r1, m.r2) == 0.0 && Dot(m.r2, m.r0) == 0.0
  {
    assert Mul(m, Transpose(m)).r0.y == Dot(m.r0, m.r1);
    assert Mul(m, Transpose(m)).r1.z == Dot(m.r1, m.r2);
    assert Mul(m, Transpose(m)).r2.x == Dot(m.r2, m.r0);
  }

  lemma SquaresX(m: Mat3, w: real, x: real, y: real, z: real, wx: real, yz: real)
    requires RotationEquations(m) && wx == m.r2.y - m.r1.z && yz == m.r1.z + m.r2.y
    requires w == m.r0.x + m.r1.y + m.r2.z + 1.0 && x == 1.0 + m.r0.x - m.r1.y - m.r2.z
    requires y == 1.0 + m.r1.y - m.r0.x - m.r2.z && z == 1.0 + m.r2.z - m.r0.x - m.r1.y
    ensures wx * wx == w * x && yz * yz == y * z
  {
    OppositeSquares(m.r0.x, m.r1.y, m.r2.z, m.r1.z, m.r2.y, m.r1.x, m.r2.x);
  }

  lemma SquaresY(m: Mat3, w: real, x: real, y: real, z: real, wy: real, xz: real)
    requires RotationEquations(m) && wy == m.r0.z - m.r2.x && xz == m.r0.z + m.r2.x
    requires w == m.r0.x + m.r1.y + m.r2.z + 1.0 && x == 1.0 + m.r0.x - m.r1.y - m.r2.z
    requires y == 1.0 + m.r1.y - m.r0.x - m.r2.z && z == 1.0 + m.r2.z - m.r0.x - m.r1.y
    ensures wy * wy == w * y && xz * xz == x * z
  {
    OppositeSquares(m.r1.y, m.r2.z, m.r0.x, m.r2.x, m.r0.z, m.r2.y, m.r0.y);
  }

  lemma SquaresZ(m: Mat3, w: real, x: real, y: real, z: real, wz: real, xy: real)
    requires RotationEquations(m) && wz == m.r1.x - m.r0.y && xy == m.r0.y + m.r1.x
    requires w == m.r0.x + m.r1.y + m.r2.z + 1.0 && x == 1.0 + m.r0.x - m.r1.y - m.r2.z
    requires y == 1.0 + m.r1.y - m.r0.x - m.r2.z && z == 1.0 + m.r2.z - m.r0.x - m.r1.y
    ensures wz * wz == w * z && xy * xy == x * y
  {
    OppositeSquares(m.r2.z, m.r0.x, m.r1.y, m.r0.y, m.r1.x, m.r0.z, m.r1.z);
  }

  ghost predicate HasGrid(m: Mat3, g: Grid) {
    RotationEquations(m) && g == ReadGrid(m)
  }

  lemma GridSquaresX(m: Mat3, g: Grid)
    requires HasGrid(m, g)
    ensures g.wx * g.wx == g.ww * g.xx && g.yz * g.yz == g.yy * g.zz
  {
    SquaresX(m, g.ww, g.xx, g.yy, g.zz, g.wx, g.yz);
  }

  lemma GridSquaresY(m: Mat3, g: Grid)
    requires HasGrid(m, g)
    ensures g.wy * g.wy == g.ww * g.yy && g.xz * g.xz == g.xx * g.zz
  {
    SquaresY(m, g.ww, g.xx, g.yy, g.zz, g.wy, g.xz);
  }

  lemma GridSquaresZ(m: Mat3, g: Grid)
    requires HasGrid(m, g)
    ensures g.wz * g.wz == g.ww * g.zz && g.xy * g.xy == g.xx * g.yy
  {
    SquaresZ(m, g.ww, g.xx, g.yy, g.zz, g.wz, g.xy);
  }

  ghost predicate PlaneEquations(m: Mat3) {
    && m.r0.y == m.r1.z * m.r2.x - m.r1.x * m.r2.z && m.r1.x == m.r0.z * m.r2.y - m.r0.y * m.r2.z
    && m.r0.x * m.r0.y + m.r1.x * m.r1.y + m.r2.x * m.r2.y == 0.0
    && m.r0.x * m.r1.x + m.r0.y * m.r1.y + m.r0.z * m.r1.z == 0.0
  }

  lemma Differences(
    m: Mat3, w: real, x: real, y: real, z: real, wx: real, wy: real, wz: real, xy: real, xz: real, yz: real)
    requires PlaneEquations(m)
    requires wx == m.r2.y - m.r1.z && wy == m.r0.z - m.r2.x && wz == m.r1.x - m.r0.y
    requires xy == m.r0.y + m.r1.x && xz == m.r0.z + m.r2.x && yz == m.r1.z + m.r2.y
    requires w == m.r0.x + m.r1.y + m.r2.z + 1.0 && x == 1.0 + m.r0.x - m.r1.y - m.r2.z
    requires y == 1.0 + m.r1.y - m.r0.x - m.r2.z && z == 1.0 + m.r2.z - m.r0.x - m.r1.y
    ensures wx * wy == w * xy && wx * xz == x * wz && yz * wy == y * wz && yz * xz == z * xy
  {
    DifferencesMultiply(m.r0.x, m.r0.y, m.r0.z, m.r1.x, m.r1.y, m.r1.z, m.r2.x, m.r2.y, m.r2.z);
  }

  lemma GridDifferences(m: Mat3, g: Grid)
    requires PlaneEquations(m) && g == ReadGrid(m)
    ensures g.wx * g.wy == g.ww * g.xy && g.wx * g.xz == g.xx * g.wz
    ensures g.yz * g.wy == g.yy * g.wz && g.yz * g.xz == g.zz * g.xy
  {
    Differences(m, g.ww, g.xx, g.yy, g.zz, g.wx, g.wy, g.wz, g.xy, g.xz, g.yz);
  }

  lemma PlaneOfRotation(m: Mat3)
    requires IsRotation(m)
    ensures PlaneEquations(m)
  {
    RotationEntries(m);
  }

  /** The grid of a matrix whose axes are relabelled. */
  function Relabelled(g: Grid): Grid {
    Grid(g.ww, g.zz, g.xx, g.yy, g.wz, g.wx, g.wy, g.xz, g.yz, g.xy)
  }

  lemma GridOfRelabelled(m: Mat3)
    ensures ReadGrid(Relabel(m)) == Relabelled(ReadGrid(m))
  {
  }

  lemma RelabelledIsRotation(m: Mat3)
    requires IsRotation(m)
    ensures IsRotation(Relabel(m))
  {
    RotationHasUnitRows(m);
    RotationIsPerpendicular(m);
    RotationEqualsCofactors(m);
    DotCommutes(m.r0, m.r2);
    ShiftKeepsProducts(m.r0, m.r0);
    ShiftKeepsProducts(m.r1, m.r1);
    ShiftKeepsProducts(m.r2, m.r2);
    ShiftKeepsProducts(m.r2, m.r0);
    ShiftKeepsProducts(m.r2, m.r1);
    DotCommutes(m.r1, m.r2);
    ShiftKeepsProducts(m.r0, m.r1);
    OrthonormalRows(Relabel(m));
  }

  /** The twelve mixed products, by relabelling the axes. */
  lemma MixedProducts(m: Mat3, g: Grid)
    requires IsRotation(m) && g == ReadGrid(m)
    ensures g.wx * g.wy == g.ww * g.xy && g.wx * g.xz == g.xx * g.wz
    ensures g.yz * g.wy == g.yy * g.wz && g.yz * g.xz == g.zz * g.xy
  {
    PlaneOfRotation(m);
    GridDifferences(m, g);
  }

  ghost predicate IsRankOneAt(g: Grid, p: Pivot, u: Pivot, v: Pivot) {
    At(g, p, u) * At(g, p, v) == At(g, p, p) * At(g, u, v)
  }

  /** The axis that takes the place of another one in the relabelled grid. */
  function Renamed(u: Pivot): Pivot {
    match u case PW => PW case PX => PY case PY => PZ case PZ => PX
  }

  lemma AtRelabelled(g: Grid, u: Pivot, v: Pivot)
    ensures At(Relabelled(g), Renamed(u), Renamed(v)) == At(g, u, v)
  {
  }

  /** The two pairs of components that belong to an axis. */
  predicate IsPair(p: Pivot, u: Pivot, a: Pivot, b: Pivot, c: Pivot) {
    (p == PW && u == a) || (p == a && u == PW) || (p == b && u == c) || (p == c && u == b)
  }

  lemma PairX(g: Grid, p: Pivot, u: Pivot)
    requires g.wx * g.wx == g.ww * g.xx && g.yz * g.yz == g.yy * g.zz && IsPair(p, u, PX, PY, PZ)
    ensures IsRankOneAt(g, p, u, u)
  {
  }

  lemma PairY(g: Grid, p: Pivot, u: Pivot)
    requires g.wy * g.wy == g.ww * g.yy && g.xz * g.xz == g.xx * g.zz && IsPair(p, u, PY, PX, PZ)
    ensures IsRankOneAt(g, p, u, u)
  {
  }

  lemma PairZ(g: Grid, p: Pivot, u: Pivot)
    requires g.wz * g.wz == g.ww * g.zz && g.xy * g.xy == g.xx * g.yy && IsPair(p, u, PZ, PX, PY)
    ensures IsRankOneAt(g, p, u, u)
  {
  }

  lemma RankOneX(m: Mat3, g: Grid, p: Pivot, u: Pivot)
    requires HasGrid(m, g) && IsPair(p, u, PX, PY, PZ)
    ensures IsRankOneAt(g, p, u, u)
  {
    GridSquaresX(m, g);
    PairX(g, p, u);
  }

  lemma RankOneY(m: Mat3, g: Grid, p: Pivot, u: Pivot)
    requires HasGrid(m, g) && IsPair(p, u, PY, PX, PZ)
    ensures IsRankOneAt(g, p, u, u)
  {
    GridSquaresY(m, g);
    PairY(g, p, u);
  }

  lemma RankOneZ(m: Mat3, g: Grid, p: Pivot, u: Pivot)
    requires HasGrid(m, g) && IsPair(p, u, PZ, PX, PY)
    ensures IsRankOneAt(g, p, u, u)
  {
    GridSquaresZ(m, g);
    PairZ(g, p, u);
  }

  lemma RankOneSquares(m: Mat3, g: Grid, p: Pivot, u: Pivot)
    requires HasGrid(m, g) && p != u
    ensures IsRankOneAt(g, p, u, u)
  {
    if IsPair(p, u, PX, PY, PZ) {
      RankOneX(m, g, p, u);
    } else if IsPair(p, u, PY, PX, PZ) {
      RankOneY(m, g, p, u);
    } else {
      RankOneZ(m, g, p, u);
    }
  }

  predicate IsBaseProduct(p: Pivot, u: Pivot, v: Pivot) {
    if p == PW || p == PZ then {u, v} == {PX, PY} else {u, v} == {PW, PZ}
  }

  lemma BaseProducts(m: Mat3, g: Grid, p: Pivot, u: Pivot, v: Pivot)
    requires IsRotation(m) && g == ReadGrid(m) && IsBaseProduct(p, u, v)
    ensures IsRankOneAt(g, p, u, v)
  {
    MixedProducts(m, g);
    assert u in {u, v} && v in {u, v};
    if p == PW || p == PZ {
      OuterCases(g, p, u, v);
    } else {
      InnerCases(g, p, u, v);
    }
  }

  lemma OuterCases(g: Grid, p: Pivot, u: Pivot, v: Pivot)
    requires g.wx * g.wy == g.ww * g.xy && g.yz * g.xz == g.zz * g.xy
    requires (p == PW || p == PZ) && ((u == PX && v == PY) || (u == PY && v == PX))
    ensures IsRankOneAt(g, p, u, v)
  {
  }

  lemma InnerCases(g: Grid, p: Pivot, u: Pivot, v: Pivot)
    requires g.wx * g.xz == g.xx * g.wz && g.yz * g.wy == g.yy * g.wz
    requires (p == PX || p == PY) && ((u == PW && v == PZ) || (u == PZ && v == PW))
    ensures IsRankOneAt(g, p, u, v)
  {
  }

  lemma RankOneRelabelled(g: Grid, p: Pivot, u: Pivot, v: Pivot)
    requires IsRankOneAt(Relabelled(g), Renamed(p), Renamed(u), Renamed(v))
    ensures IsRankOneAt(g, p, u, v)
  {
    AtRelabelled(g, p, u);
    AtRelabelled(g, p, v);
    AtRelabelled(g, p, p);
    AtRelabelled(g, u, v);
  }

  lemma RankOneProducts(m: Mat3, g: Grid, p: Pivot, u: Pivot, v: Pivot)
    requires IsRotation(m) && g == ReadGrid(m) && p != u && p != v && u != v
    ensures IsRankOneAt(g, p, u, v)
  {
    if IsBaseProduct(p, u, v) {
      BaseProducts(m, g, p, u, v);
    } else {
      RelabelledIsRotation(m);
      GridOfRelabelled(m);
      OnceRelabelled(Relabel(m), Relabelled(g), Renamed(p), Renamed(u), Renamed(v));
      RankOneRelabelled(g, p, u, v);
    }
  }

  lemma OnceRelabelled(m: Mat3, g: Grid, p: Pivot, u: Pivot, v: Pivot)
    requires IsRotation(m) && g == ReadGrid(m)
    requires IsBaseProduct(p, u, v) || IsBaseProduct(Renamed(p), Renamed(u), Renamed(v))
    ensures IsRankOneAt(g, p, u, v)
  {
    if IsBaseProduct(p, u, v) {
      BaseProducts(m, g, p, u, v);
    } else {
      RelabelledIsRotation(m);
      GridOfRelabelled(m);
      BaseProducts(Relabel(m), Relabelled(g), Renamed(p), Renamed(u), Renamed(v));
      RankOneRelabelled(g, p, u, v);
    }
  }

  lemma AtIsSymmetric(g: Grid, u: Pivot, v: Pivot)
    ensures At(g, u, v) == At(g, v, u)
  {
  }

  lemma RankOneTrivial(g: Grid, p: Pivot, u: Pivot, v: Pivot)
    requires u == p || v == p
    ensures IsRankOneAt(g, p, u, v)
  {
    AtIsSymmetric(g, p, u);
  }

  /** The products that a rotation matrix determines are those of a single quaternion. */
  lemma RotationIsRankOne(m: Mat3, p: Pivot, u: Pivot, v: Pivot)
    requires IsRotation(m)
    ensures IsRankOneAt(ReadGrid(m), p, u, v)
  {
    if u == p || v == p {
      RankOneTrivial(ReadGrid(m), p, u, v);
    } else if u == v {
      RotationEntries(m);
      RankOneSquares(m, ReadGrid(m), p, u);
    } else {
      RankOneProducts(m, ReadGrid(m), p, u, v);
    }
  }

  /** Dividing by the divisor `s` of a pivot with `s * s == 4 p`. */
  lemma QuotientProduct(s: real, p: real, n: real, k: real, nk: real)
    requires s > 0.0 && s * s == 4.0 * p && n * k == p * nk
    ensures 4.0 * ((n / s) * (k / s)) == nk
  {
    var v, w := n / s, k / s;
    var vw := v * w;
    assert v * s == n && w * s == k;
    calc {
      (s * s) * (4.0 * vw);
      4.0 * ((v * s) * (w * s));
      4.0 * (p * nk);
      (s * s) * nk;
    }
    ProductIsPositive(s, s, s * s);
    Cancel(4.0 * vw, nk, s * s);
  }

  lemma PivotOverDivisor(s: real, p: real)
    requires s > 0.0 && s * s == 4.0 * p
    ensures p / s == 0.25 * s
  {
    DivideOut(p, s, 0.25 * s);
  }

  /** Every component of the result is an entry of the pivot's row of the grid over the divisor. */
  lemma CombineComponent(pivot: Pivot, m: Mat3, s: real, u: Pivot)
    requires s > 0.0 && s * s == 4.0 * At(ReadGrid(m), pivot, pivot)
    ensures Component(Combine(pivot, ReadProducts(m), s), u) == At(ReadGrid(m), pivot, u) / s
  {
    PivotOverDivisor(s, At(ReadGrid(m), pivot, pivot));
  }

  lemma RadicandIsPivot(m: Mat3)
    ensures Radicand(m) == At(ReadGrid(m), PivotOf(m), PivotOf(m))
  {
  }

  lemma ConvertedComponent(lib: MathLib, m: Mat3, g: Grid, p: Pivot, s: real, u: Pivot)
    requires lib.Valid() && g == ReadGrid(m) && p == PivotOf(m) && s == Divisor(lib, m)
    ensures s > 0.0 && s * s == 4.0 * At(g, p, p)
    ensures Component(MatrixToQuaternion(lib, m), u) == At(g, p, u) / s
  {
    RadicandIsPivot(m);
    CombineComponent(p, m, s, u);
  }

  lemma FromRankOne(g: Grid, p: Pivot, u: Pivot, v: Pivot, s: real, a: real, b: real)
    requires IsRankOneAt(g, p, u, v) && s > 0.0 && s * s == 4.0 * At(g, p, p)
    requires a == At(g, p, u) / s && b == At(g, p, v) / s
    ensures 4.0 * (a * b) == At(g, u, v)
  {
    QuotientProduct(s, At(g, p, p), At(g, p, u), At(g, p, v), At(g, u, v));
  }

  /** The quaternion is the pivot's row of the grid over the divisor. */
  ghost predicate IsRowOver(g: Grid, p: Pivot, s: real, q: Quat) {
    s > 0.0 && s * s == 4.0 * At(g, p, p) && forall u :: Component(q, u) == At(g, p, u) / s
  }

  lemma ConversionIsRow(lib: MathLib, m: Mat3)
    requires lib.Valid()
    ensures IsRowOver(ReadGrid(m), PivotOf(m), Divisor(lib, m), MatrixToQuaternion(lib, m))
  {
    ConvertedComponent(lib, m, ReadGrid(m), PivotOf(m), Divisor(lib, m), PW);
    forall u
      ensures Component(MatrixToQuaternion(lib, m), u) == At(ReadGrid(m), PivotOf(m), u) / Divisor(lib, m)
    {
      ConvertedComponent(lib, m, ReadGrid(m), PivotOf(m), Divisor(lib, m), u);
    }
  }

  /** The quaternion's products are those of the grid. */
  ghost predicate Represents(g: Grid, q: Quat) {
    forall u, v :: 4.0 * (Component(q, u) * Component(q, v)) == At(g, u, v)
  }

  lemma RowPair(g: Grid, p: Pivot, s: real, q: Quat, u: Pivot, v: Pivot)
    requires IsRowOver(g, p, s, q) && IsRankOneAt(g, p, u, v)
    ensures 4.0 * (Component(q, u) * Component(q, v)) == At(g, u, v)
  {
    var a, b := Component(q, u), Component(q, v);
    FromRankOne(g, p, u, v, s, a, b);
  }

  lemma ConversionRepresents(lib: MathLib, m: Mat3, g: Grid, q: Quat)
    requires lib.Valid() && IsRotation(m) && g == ReadGrid(m) && q == MatrixToQuaternion(lib, m)
    ensures Represents(g, q)
  {
    ConversionIsRow(lib, m);
    forall u, v
      ensures 4.0 * (Component(q, u) * Component(q, v)) == At(g, u, v)
    {
      RotationIsRankOne(m, PivotOf(m), u, v);
      RowPair(g, PivotOf(m), Divisor(lib, m), q, u, v);
    }
  }

  lemma RepresentedSquares(g: Grid, q: Quat)
    requires Represents(g, q)
    ensures 4.0 * (q.w * q.w) == g.ww && 4.0 * (q.x * q.x) == g.xx
    ensures 4.0 * (q.y * q.y) == g.yy && 4.0 * (q.z * q.z) == g.zz
  {
    assert 4.0 * (Component(q, PW) * Component(q, PW)) == At(g, PW, PW);
    assert 4.0 * (Component(q, PX) * Component(q, PX)) == At(g, PX, PX);
    assert 4.0 * (Component(q, PY) * Component(q, PY)) == At(g, PY, PY);
    assert 4.0 * (Component(q, PZ) * Component(q, PZ)) == At(g, PZ, PZ);
  }

  lemma FirstRowProducts(g: Grid, q: Quat)
    requires Represents(g, q)
    ensures 4.0 * (q.y * q.y) == g.yy && 4.0 * (q.z * q.z) == g.zz && 4.0 * (q.x * q.y) == g.xy
    ensures 4.0 * (q.w * q.z) == g.wz && 4.0 * (q.x * q.z) == g.xz && 4.0 * (q.w * q.y) == g.wy
  {
    assert 4.0 * (Component(q, PY) * Component(q, PY)) == At(g, PY, PY);
    assert 4.0 * (Component(q, PZ) * Component(q, PZ)) == At(g, PZ, PZ);
    assert 4.0 * (Component(q, PX) * Component(q, PY)) == At(g, PX, PY);
    assert 4.0 * (Component(q, PW) * Component(q, PZ)) == At(g, PW, PZ);
    assert 4.0 * (Component(q, PX) * Component(q, PZ)) == At(g, PX, PZ);
    assert 4.0 * (Component(q, PW) * Component(q, PY)) == At(g, PW, PY);
  }

  lemma SecondRowProducts(g: Grid, q: Quat)
    requires Represents(g, q)
    ensures 4.0 * (q.z * q.z) == g.zz && 4.0 * (q.x * q.x) == g.xx && 4.0 * (q.y * q.z) == g.yz
    ensures 4.0 * (q.w * q.x) == g.wx && 4.0 * (q.x * q.y) == g.xy && 4.0 * (q.w * q.z) == g.wz
  {
    assert 4.0 * (Component(q, PZ) * Component(q, PZ)) == At(g, PZ, PZ);
    assert 4.0 * (Component(q, PX) * Component(q, PX)) == At(g, PX, PX);
    assert 4.0 * (Component(q, PY) * Component(q, PZ)) == At(g, PY, PZ);
    assert 4.0 * (Component(q, PW) * Component(q, PX)) == At(g, PW, PX);
    assert 4.0 * (Component(q, PX) * Component(q, PY)) == At(g, PX, PY);
    assert 4.0 * (Component(q, PW) * Component(q, PZ)) == At(g, PW, PZ);
  }

  lemma ThirdRowProducts(g: Grid, q: Quat)
    requires Represents(g, q)
    ensures 4.0 * (q.x * q.x) == g.xx && 4.0 * (q.y * q.y) == g.yy && 4.0 * (q.x * q.z) == g.xz
    ensures 4.0 * (q.w * q.y) == g.wy && 4.0 * (q.y * q.z) == g.yz && 4.0 * (q.w * q.x) == g.wx
  {
    assert 4.0 * (Component(q, PX) * Component(q, PX)) == At(g, PX, PX);
    assert 4.0 * (Component(q, PY) * Component(q, PY)) == At(g, PY, PY);
    assert 4.0 * (Component(q, PX) * Component(q, PZ)) == At(g, PX, PZ);
    assert 4.0 * (Component(q, PW) * Component(q, PY)) == At(g, PW, PY);
    assert 4.0 * (Component(q, PY) * Component(q, PZ)) == At(g, PY, PZ);
    assert 4.0 * (Component(q, PW) * Component(q, PX)) == At(g, PW, PX);
  }

  lemma RepresentedIsUnit(m: Mat3, g: Grid, q: Quat)
    requires Represents(g, q) && g == ReadGrid(m)
    ensures IsUnit(q)
  {
    RepresentedSquares(g, q);
  }

  lemma RowOfGrid(
    r: Vec3, w: real, x: real, y: real, z: real, yy: real, zz: real, xy: real, wz: real, xz: real, wy: real, p: Vec3)
    requires 4.0 * (y * y) == yy && 4.0 * (z * z) == zz && 4.0 * (x * y) == xy && 4.0 * (w * z) == wz
    requires 4.0 * (x * z) == xz && 4.0 * (w * y) == wy
    requires p.x == 1.0 - 0.5 * yy - 0.5 * zz && 2.0 * p.y == xy - wz && 2.0 * p.z == xz + wy
    requires IsRow(r, w, x, y, z, 1.0)
    ensures r == p
  {
  }

  lemma FirstRowBack(m: Mat3, g: Grid, q: Quat, r: Vec3)
    requires Represents(g, q) && g == ReadGrid(m) && IsRow(r, q.w, q.x, q.y, q.z, 1.0)
    ensures r == m.r0
  {
    FirstRowProducts(g, q);
    RowOfGrid(r, q.w, q.x, q.y, q.z, g.yy, g.zz, g.xy, g.wz, g.xz, g.wy, m.r0);
  }

  lemma SecondRowBack(m: Mat3, g: Grid, q: Quat, r: Vec3)
    requires Represents(g, q) && g == ReadGrid(m) && IsRow(Shift1(r), q.w, q.y, q.z, q.x, 1.0)
    ensures r == m.r1
  {
    SecondRowProducts(g, q);
    RowOfGrid(Shift1(r), q.w, q.y, q.z, q.x, g.zz, g.xx, g.yz, g.wx, g.xy, g.wz, Shift1(m.r1));
  }

  lemma ThirdRowBack(m: Mat3, g: Grid, q: Quat, r: Vec3)
    requires Represents(g, q) && g == ReadGrid(m) && IsRow(Shift2(r), q.w, q.z, q.x, q.y, 1.0)
    ensures r == m.r2
  {
    ThirdRowProducts(g, q);
    RowOfGrid(Shift2(r), q.w, q.z, q.x, q.y, g.xx, g.yy, g.xz, g.wy, g.yz, g.wx, Shift2(m.r2));
  }

  lemma MatrixBack(m: Mat3, g: Grid, q: Quat, n: Mat3)
    requires Represents(g, q) && g == ReadGrid(m) && n == QuaternionToMatrix(q)
    ensures n == m
  {
    FirstRowOf(q);
    SecondRowOf(q);
    ThirdRowOf(q);
    FirstRowBack(m, g, q, n.r0);
    SecondRowBack(m, g, q, n.r1);
    ThirdRowBack(m, g, q, n.r2);
  }

  /** From any rotation matrix to a quaternion and back: the quaternion is a unit and the matrix
      comes back exactly. */
  lemma MatrixRoundTrip(lib: MathLib, m: Mat3)
    requires lib.Valid() && IsRotation(m)
    ensures IsUnit(MatrixToQuaternion(lib, m)) && QuaternionToMatrix(MatrixToQuaternion(lib, m)) == m
  {
    var q := MatrixToQuaternion(lib, m);
    ConversionRepresents(lib, m, ReadGrid(m), q);
    RepresentedIsUnit(m, ReadGrid(m), q);
    MatrixBack(m, ReadGrid(m), q, QuaternionToMatrix(q));
  }

  /** Two unit quaternions have the same matrix exactly when they are equal or opposite. */
  lemma SameMatrixUpToSign(lib: MathLib, p: Quat, q: Quat)
    requires lib.Valid() && IsUnit(p) && IsUnit(q)
    ensures QuaternionToMatrix(p) == QuaternionToMatrix(q) <==> (p == q || p == Negate(q))
  {
    NegationGivesSameMatrix(q);
    if QuaternionToMatrix(p) == QuaternionToMatrix(q) {
      QuaternionRoundTrip(lib, p);
      QuaternionRoundTrip(lib, q);
    }
  }

  /** The conversion finds all there is to find: a unit quaternion stands for a given rotation matrix
      exactly when it is what the conversion returns or its negation. */
  lemma ConversionIsComplete(lib: MathLib, m: Mat3, q: Quat)
    requires lib.Valid() && IsRotation(m) && IsUnit(q)
    ensures QuaternionToMatrix(q) == m
       <==> (q == MatrixToQuaternion(lib, m) || q == Negate(MatrixToQuaternion(lib, m)))
  {
    MatrixRoundTrip(lib, m);
    SameMatrixUpToSign(lib, q, MatrixToQuaternion(lib, m));
  }

  /** The conversion goes by the real part when its square is over a quarter, and otherwise by an imaginary
      part that no other one exceeds. */
  lemma PivotSays(q: Quat, m: Mat3)
    requires IsUnit(q) && m == QuaternionToMatrix(q)
    ensures PivotOf(m) ==
            if q.w * q.w > 0.25 then PW
            else if q.x * q.x > q.y * q.y && q.x * q.x > q.z * q.z then PX
            else if q.y * q.y > q.z * q.z then PY
            else PZ
  {
    DiagonalSays(q, m, q.x * q.x, q.y * q.y, q.z * q.z);
  }

  lemma DiagonalSays(q: Quat, m: Mat3, xx: real, yy: real, zz: real)
    requires xx == q.x * q.x && yy == q.y * q.y && zz == q.z * q.z && m == QuaternionToMatrix(q)
    ensures m.r0.x == 1.0 - 2.0 * yy - 2.0 * zz
    ensures m.r1.y == 1.0 - 2.0 * xx - 2.0 * zz
    ensures m.r2.z == 1.0 - 2.0 * xx - 2.0 * yy
  {
    TwiceSquare(q.x, xx);
    TwiceSquare(q.y, yy);
    TwiceSquare(q.z, zz);
  }

  lemma TwiceSquare(v: real, vv: real)
    requires vv == v * v
    ensures 2.0 * v * v == 2.0 * vv
  {
  }
}
