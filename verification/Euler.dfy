/** Euler angles and rotation matrices: Rotation::eulerToMatrix and Rotation::matrixToEuler. */
module Euler {
  import opened Matrix

  datatype AxisSequence = ZXZ | XYX | YZY | ZYZ | XZX | YXY | XYZ | YZX | ZXY | XZY | ZYX | YXZ

  predicate IsProper(axis: AxisSequence) {
    axis.ZXZ? || axis.XYX? || axis.YZY? || axis.ZYZ? || axis.XZX? || axis.YXY?
  }

  /** The C math library, taken over exact reals. */
  datatype MathLib = MathLib(
    sin: real -> real,
    cos: real -> real,
    atan2: (real, real) -> real,
    sqrt: real -> real,
    pi: real)
  {
    /** All that is used of these functions: the unit circle, the square root,
        the defining equations of atan2 and the values at five angles. */
    ghost predicate Valid() {
      && (forall t {:trigger At(t)} :: At(t) ==> cos(t) * cos(t) + sin(t) * sin(t) == 1.0)
      && (forall v {:trigger At(v)} :: At(v) && v >= 0.0 ==> sqrt(v) >= 0.0 && sqrt(v) * sqrt(v) == v)
      && (forall y, x {:trigger At(y), At(x)} :: At(y) && At(x) ==>
            var r := sqrt(x * x + y * y); r * cos(atan2(y, x)) == x && r * sin(atan2(y, x)) == y)
      && cos(0.0) == 1.0 && sin(0.0) == 0.0
      && cos(-pi) == -1.0 && sin(-pi) == 0.0
      && cos(pi / 2.0) == 0.0 && sin(pi / 2.0) == 1.0
      && cos(-pi / 2.0) == 0.0 && sin(-pi / 2.0) == -1.0
    }

    /** Names the arguments at which `Valid` is used; it holds of every number. */
    static ghost predicate At(t: real) { true }

    lemma Circle(t: real)
      requires Valid()
      ensures cos(t) * cos(t) + sin(t) * sin(t) == 1.0
    {
      assert At(t);
    }

    lemma Root(v: real)
      requires Valid() && v >= 0.0
      ensures sqrt(v) >= 0.0 && sqrt(v) * sqrt(v) == v
    {
      assert At(v);
    }

    lemma Polar(y: real, x: real, w: real, r: real)
      requires Valid() && w == x * x + y * y && r == sqrt(w)
      ensures r * cos(atan2(y, x)) == x && r * sin(atan2(y, x)) == y
    {
      assert At(y) && At(x);
    }
  }

  /** The twelve matrices, entry by entry. */
  function TrigMatrix(c0: real, c1: real, c2: real, s0: real, s1: real, s2: real, axis: AxisSequence): Mat3 {
    match axis
    case XZX => Mat3(
      Vec3(c1, -c2 * s1, s1 * s2),
      Vec3(c0 * s1, c0 * c1 * c2 - s0 * s2, -c2 * s0 - c0 * c1 * s2),
      Vec3(s0 * s1, c0 * s2 + c1 * c2 * s0, c0 * c2 - c1 * s0 * s2))
    case XYX => Mat3(
      Vec3(c1, s1 * s2, c2 * s1),
      Vec3(s0 * s1, c0 * c2 - c1 * s0 * s2, -c0 * s2 - c1 * c2 * s0),
      Vec3(-c0 * s1, c2 * s0 + c0 * c1 * s2, c0 * c1 * c2 - s0 * s2))
    case YXY => Mat3(
      Vec3(c0 * c2 - c1 * s0 * s2, s0 * s1, c0 * s2 + c1 * c2 * s0),
      Vec3(s1 * s2, c1, -c2 * s1),
      Vec3(-c2 * s0 - c0 * c1 * s2, c0 * s1, c0 * c1 * c2 - s0 * s2))
    case YZY => Mat3(
      Vec3(c0 * c1 * c2 - s0 * s2, -c0 * s1, c2 * s0 + c0 * c1 * s2),
      Vec3(c2 * s1, c1, s1 * s2),
      Vec3(-c0 * s2 - c1 * c2 * s0, s0 * s1, c0 * c2 - c1 * s0 * s2))
    case ZYZ => Mat3(
      Vec3(c0 * c1 * c2 - s0 * s2, -c2 * s0 - c0 * c1 * s2, c0 * s1),
      Vec3(c0 * s2 + c1 * c2 * s0, c0 * c2 - c1 * s0 * s2, s0 * s1),
      Vec3(-c2 * s1, s1 * s2, c1))
    case ZXZ => Mat3(
      Vec3(c0 * c2 - c1 * s0 * s2, -c0 * s2 - c1 * c2 * s0, s0 * s1),
      Vec3(c2 * s0 + c0 * c1 * s2, c0 * c1 * c2 - s0 * s2, -c0 * s1),
      Vec3(s1 * s2, c2 * s1, c1))
    case XZY => Mat3(
      Vec3(c1 * c2, -s1, c1 * s2),
      Vec3(s0 * s2 + c0 * c2 * s1, c0 * c1, c0 * s1 * s2 - c2 * s0),
      Vec3(c2 * s0 * s1 - c0 * s2, c1 * s0, c0 * c2 + s0 * s1 * s2))
    case XYZ => Mat3(
      Vec3(c1 * c2, -c1 * s2, s1),
      Vec3(c0 * s2 + c2 * s0 * s1, c0 * c2 - s0 * s1 * s2, -c1 * s0),
      Vec3(s0 * s2 - c0 * c2 * s1, c2 * s0 + c0 * s1 * s2, c0 * c1))
    case YXZ => Mat3(
      Vec3(c0 * c2 + s0 * s1 * s2, c2 * s0 * s1 - c0 * s2, c1 * s0),
      Vec3(c1 * s2, c1 * c2, -s1),
      Vec3(c0 * s1 * s2 - c2 * s0, c0 * c2 * s1 + s0 * s2, c0 * c1))
    case YZX => Mat3(
      Vec3(c0 * c1, s0 * s2 - c0 * c2 * s1, c2 * s0 + c0 * s1 * s2),
      Vec3(s1, c1 * c2, -c1 * s2),
      Vec3(-c1 * s0, c0 * s2 + c2 * s0 * s1, c0 * c2 - s0 * s1 * s2))
    case ZYX => Mat3(
      Vec3(c0 * c1, c0 * s1 * s2 - c2 * s0, s0 * s2 + c0 * c2 * s1),
      Vec3(c1 * s0, c0 * c2 + s0 * s1 * s2, c2 * s0 * s1 - c0 * s2),
      Vec3(-s1, c1 * s2, c1 * c2))
    case ZXY => Mat3(
      Vec3(c0 * c2 - s0 * s1 * s2, -c1 * s0, c0 * s2 + c2 * s0 * s1),
      Vec3(c2 * s0 + c0 * s1 * s2, c0 * c1, s0 * s2 - c0 * c2 * s1),
      Vec3(-c1 * s2, s1, c1 * c2))
  }

  /** Rotation::eulerToMatrix. */
  function EulerToMatrix(lib: MathLib, rot: Vec3, axis: AxisSequence): Mat3 {
    TrigMatrix(
      lib.cos(rot.x), lib.cos(rot.y), lib.cos(rot.z),
      lib.sin(rot.x), lib.sin(rot.y), lib.sin(rot.z), axis)
  }

  const SQRT_2_EPSILON := 0.000000021073424255447

  /** The tolerance test of the singular branch; its upper bound is open. */
  predicate IsZero(v: real) {
    -SQRT_2_EPSILON <= v < SQRT_2_EPSILON
  }

  /** What the conversion back to angles reads from a matrix. For proper Euler angles
      `h` is cb, `a` sa_sb, `b` ca_sb, `c` sc_sb and `d` cc_sb; for Tait-Bryan angles
      `h` is sb, `a` sa_cb, `b` ca_cb, `c` sc_cb and `d` cc_cb. `e` is sc_ca, `f` cc_ca. */
  datatype Parts = Parts(h: real, a: real, b: real, c: real, d: real, e: real, f: real)

  function ReadParts(m: Mat3, axis: AxisSequence): Parts {
    match axis
    case XZX => Parts(m.r0.x, m.r2.x, m.r1.x, m.r0.z, -m.r0.y, m.r2.y, m.r2.z)
    case XYX => Parts(m.r0.x, m.r1.x, -m.r2.x, m.r0.y, m.r0.z, -m.r1.z, m.r1.y)
    case YXY => Parts(m.r1.y, m.r0.y, m.r2.y, m.r1.x, -m.r1.z, m.r0.z, m.r0.x)
    case YZY => Parts(m.r1.y, m.r2.y, -m.r0.y, m.r1.z, m.r1.x, -m.r2.x, m.r2.z)
    case ZYZ => Parts(m.r2.z, m.r1.z, m.r0.z, m.r2.y, -m.r2.x, m.r1.x, m.r1.y)
    case ZXZ => Parts(m.r2.z, m.r0.z, -m.r1.z, m.r2.x, m.r2.y, -m.r0.y, m.r0.x)
    case XZY => Parts(-m.r0.y, m.r2.y, m.r1.y, m.r0.z, m.r0.x, -m.r2.x, m.r2.z)
    case XYZ => Parts(m.r0.z, -m.r1.z, m.r2.z, -m.r0.y, m.r0.x, m.r1.x, m.r1.y)
    case YXZ => Parts(-m.r1.z, m.r0.z, m.r2.z, m.r1.x, m.r1.y, -m.r0.y, m.r0.x)
    case YZX => Parts(m.r1.x, -m.r2.x, m.r0.x, -m.r1.z, m.r1.y, m.r2.y, m.r2.z)
    case ZYX => Parts(-m.r2.x, m.r1.x, m.r0.x, m.r2.y, m.r2.z, -m.r1.z, m.r1.y)
    case ZXY => Parts(m.r2.y, -m.r0.y, m.r1.y, -m.r2.x, m.r2.z, m.r0.z, m.r0.x)
  }

  /** The tolerance test sends this matrix down the singular branch. */
  predicate TakesSingularBranch(m: Mat3, axis: AxisSequence) {
    var k := ReadParts(m, axis);
    (IsZero(k.a) && IsZero(k.b)) || (IsZero(k.c) && IsZero(k.d))
  }

  /** Rotation::matrixToEuler, both families. */
  function MatrixToEuler(lib: MathLib, m: Mat3, axis: AxisSequence): Vec3 {
    var k := ReadParts(m, axis);
    if TakesSingularBranch(m, axis) then
      var second :=
        if IsProper(axis) then (if k.h >= 0.0 then 0.0 else -lib.pi)
        else (if k.h >= 0.0 then lib.pi / 2.0 else -lib.pi / 2.0);
      Vec3(0.0, second, lib.atan2(k.e, k.f))
    else
      var other := MiddleRadius(lib, k.a, k.b);
      Vec3(
        lib.atan2(k.a, k.b),
        if IsProper(axis) then lib.atan2(other, k.h) else lib.atan2(k.h, other),
        lib.atan2(k.c, k.d))
  }

  /** The sine of a proper middle angle, or the cosine of a Tait-Bryan one, from the first angle. */
  function MiddleRadius(lib: MathLib, a: real, b: real): real {
    var first := lib.atan2(a, b);
    a * lib.sin(first) + b * lib.cos(first)
  }

  // ------------------------------------------------------------------
  // The twelve sequences share one shape.

  /** The two entries the conversion does not read, signed so that every sequence obeys
      the same relations. */
  datatype Rest = Rest(p: real, q: real)

  function ReadRest(m: Mat3, axis: AxisSequence): Rest {
    match axis
    case XZX => Rest(-m.r1.z, -m.r1.y)
    case XYX => Rest(m.r2.y, -m.r2.z)
    case YXY => Rest(-m.r2.x, -m.r2.z)
    case YZY => Rest(m.r0.z, -m.r0.x)
    case ZYZ => Rest(-m.r0.y, -m.r0.x)
    case ZXZ => Rest(m.r1.x, -m.r1.y)
    case XZY => Rest(-m.r1.z, m.r1.x)
    case XYZ => Rest(m.r2.y, m.r2.x)
    case YXZ => Rest(-m.r2.x, m.r2.y)
    case YZX => Rest(m.r0.z, m.r0.y)
    case ZYX => Rest(-m.r0.y, m.r0.z)
    case ZXY => Rest(m.r1.x, m.r1.z)
  }

  /** `h`, negated for the left-handed Tait-Bryan sequences. */
  function Signed(axis: AxisSequence, h: real): real {
    if axis.XZY? || axis.YXZ? || axis.ZYX? then -h else h
  }

  /** The parts in terms of the first and last angle, with `h` and `r` the cosine and sine
      of the middle angle for proper sequences and its sine and cosine otherwise. */
  function TrigParts(c0: real, s0: real, c2: real, s2: real, h: real, r: real, g: real): Parts {
    Parts(h, s0 * r, c0 * r, s2 * r, c2 * r, c0 * s2 + g * c2 * s0, c0 * c2 - g * s0 * s2)
  }

  function TrigRest(c0: real, s0: real, c2: real, s2: real, g: real): Rest {
    Rest(c2 * s0 + g * c0 * s2, s0 * s2 - g * c0 * c2)
  }

  /** The sequence after renaming the axes x to y, y to z and z to x. */
  function Next(axis: AxisSequence): AxisSequence {
    match axis
    case XZX => YXY
    case YXY => ZYZ
    case ZYZ => XZX
    case XYX => YZY
    case YZY => ZXZ
    case ZXZ => XYX
    case XYZ => YZX
    case YZX => ZXY
    case ZXY => XYZ
    case XZY => YXZ
    case YXZ => ZYX
    case ZYX => XZY
  }

  predicate IsBase(axis: AxisSequence) {
    axis.XZX? || axis.XYX? || axis.XYZ? || axis.XZY?
  }

  function Shift(v: Vec3): Vec3 {
    Vec3(v.z, v.x, v.y)
  }

  /** A matrix after the same renaming. */
  function Relabel(m: Mat3): Mat3 {
    Mat3(Shift(m.r2), Shift(m.r0), Shift(m.r1))
  }

  lemma RelabelParts(m: Mat3, axis: AxisSequence)
    ensures ReadParts(Relabel(m), Next(axis)) == ReadParts(m, axis)
    ensures ReadRest(Relabel(m), Next(axis)) == ReadRest(m, axis)
    ensures IsProper(Next(axis)) == IsProper(axis)
    ensures forall h :: Signed(Next(axis), h) == Signed(axis, h)
  {
  }

  lemma RelabelTrigMatrix(c0: real, c1: real, c2: real, s0: real, s1: real, s2: real, axis: AxisSequence)
    ensures TrigMatrix(c0, c1, c2, s0, s1, s2, Next(axis)) == Relabel(TrigMatrix(c0, c1, c2, s0, s1, s2, axis))
  {
  }

  ghost predicate HasTrigShape(c0: real, c1: real, c2: real, s0: real, s1: real, s2: real, axis: AxisSequence) {
    var m := TrigMatrix(c0, c1, c2, s0, s1, s2, axis);
    var (h, r) := if IsProper(axis) then (c1, s1) else (s1, c1);
    && ReadParts(m, axis) == TrigParts(c0, s0, c2, s2, h, r, Signed(axis, h))
    && ReadRest(m, axis) == TrigRest(c0, s0, c2, s2, Signed(axis, h))
  }

  lemma ShapeXZX(c0: real, c1: real, c2: real, s0: real, s1: real, s2: real)
    ensures ReadParts(TrigMatrix(c0, c1, c2, s0, s1, s2, XZX), XZX) == TrigParts(c0, s0, c2, s2, c1, s1, c1)
    ensures ReadRest(TrigMatrix(c0, c1, c2, s0, s1, s2, XZX), XZX) == TrigRest(c0, s0, c2, s2, c1)
  {
  }

  lemma ShapeXYX(c0: real, c1: real, c2: real, s0: real, s1: real, s2: real)
    ensures ReadParts(TrigMatrix(c0, c1, c2, s0, s1, s2, XYX), XYX) == TrigParts(c0, s0, c2, s2, c1, s1, c1)
    ensures ReadRest(TrigMatrix(c0, c1, c2, s0, s1, s2, XYX), XYX) == TrigRest(c0, s0, c2, s2, c1)
  {
  }

  lemma ShapeXYZ(c0: real, c1: real, c2: real, s0: real, s1: real, s2: real)
    ensures ReadParts(TrigMatrix(c0, c1, c2, s0, s1, s2, XYZ), XYZ) == TrigParts(c0, s0, c2, s2, s1, c1, s1)
    ensures ReadRest(TrigMatrix(c0, c1, c2, s0, s1, s2, XYZ), XYZ) == TrigRest(c0, s0, c2, s2, s1)
  {
  }

  lemma ShapeXZY(c0: real, c1: real, c2: real, s0: real, s1: real, s2: real)
    ensures ReadParts(TrigMatrix(c0, c1, c2, s0, s1, s2, XZY), XZY) == TrigParts(c0, s0, c2, s2, s1, c1, -s1)
    ensures ReadRest(TrigMatrix(c0, c1, c2, s0, s1, s2, XZY), XZY) == TrigRest(c0, s0, c2, s2, -s1)
  {
  }

  lemma PartsOfTrigMatrix(c0: real, c1: real, c2: real, s0: real, s1: real, s2: real, axis: AxisSequence)
    ensures HasTrigShape(c0, c1, c2, s0, s1, s2, axis)
  {
    ShapeXZX(c0, c1, c2, s0, s1, s2);
    ShapeXYX(c0, c1, c2, s0, s1, s2);
    ShapeXYZ(c0, c1, c2, s0, s1, s2);
    ShapeXZY(c0, c1, c2, s0, s1, s2);
    if !IsBase(axis) {
      var before := Next(Next(axis));
      if !IsBase(before) {
        RelabelTrigMatrix(c0, c1, c2, s0, s1, s2, Next(axis));
        RelabelParts(TrigMatrix(c0, c1, c2, s0, s1, s2, Next(axis)), Next(axis));
      }
      RelabelTrigMatrix(c0, c1, c2, s0, s1, s2, before);
      RelabelParts(TrigMatrix(c0, c1, c2, s0, s1, s2, before), before);
    }
  }

  lemma PartsDetermineMatrix(m: Mat3, n: Mat3, axis: AxisSequence)
    requires ReadParts(m, axis) == ReadParts(n, axis) && ReadRest(m, axis) == ReadRest(n, axis)
    ensures m == n
  {
  }

  /** What being a rotation says of the parts, with `g` the signed `h`. */
  ghost predicate Related(k: Parts, t: Rest, g: real) {
    && g * g == k.h * k.h
    && k.h * k.h + k.a * k.a + k.b * k.b == 1.0
    && k.h * k.h + k.c * k.c + k.d * k.d == 1.0
    && k.a * k.a + k.e * k.e + k.f * k.f == 1.0
    && k.e == k.c * k.b + g * t.p
    && k.f == k.d * k.b - g * t.q
    && t.p == k.d * k.a + g * k.e
    && t.q == k.c * k.a - g * k.f
  }

  ghost predicate ObeysRelations(m: Mat3, axis: AxisSequence) {
    var k := ReadParts(m, axis);
    Related(k, ReadRest(m, axis), Signed(axis, k.h))
  }

  /** Unit rows, unit columns, and every entry its own cofactor. */
  ghost predicate RotationEquations(m: Mat3) {
    var t := Transpose(m);
    && Dot(m.r0, m.r0) == 1.0 && Dot(m.r1, m.r1) == 1.0 && Dot(m.r2, m.r2) == 1.0
    && Dot(t.r0, t.r0) == 1.0 && Dot(t.r1, t.r1) == 1.0 && Dot(t.r2, t.r2) == 1.0
    && Cofactors(m) == m
  }

  lemma RotationHasUnitRows(m: Mat3)
    requires IsRotation(m)
    ensures Dot(m.r0, m.r0) == 1.0 && Dot(m.r1, m.r1) == 1.0 && Dot(m.r2, m.r2) == 1.0
  {
    assert Mul(m, Transpose(m)).r0.x == Dot(m.r0, m.r0);
    assert Mul(m, Transpose(m)).r1.y == Dot(m.r1, m.r1);
    assert Mul(m, Transpose(m)).r2.z == Dot(m.r2, m.r2);
  }

  lemma RotationObeysEquations(m: Mat3)
    requires IsRotation(m)
    ensures RotationEquations(m)
  {
    RotationEqualsCofactors(m);
    RotationInverts(m);
    RotationHasUnitRows(m);
    RotationHasUnitRows(Transpose(m));
  }

  lemma ShiftKeepsProducts(u: Vec3, v: Vec3)
    ensures Dot(Shift(u), Shift(v)) == Dot(u, v)
    ensures Cross(Shift(u), Shift(v)) == Shift(Cross(u, v))
  {
  }

  lemma RelabelEquations(m: Mat3)
    requires RotationEquations(m)
    ensures RotationEquations(Relabel(m))
  {
    var t := Transpose(m);
    ShiftKeepsProducts(m.r0, m.r0);
    ShiftKeepsProducts(m.r1, m.r1);
    ShiftKeepsProducts(m.r2, m.r2);
    ShiftKeepsProducts(t.r0, t.r0);
    ShiftKeepsProducts(t.r1, t.r1);
    ShiftKeepsProducts(t.r2, t.r2);
    ShiftKeepsProducts(m.r0, m.r1);
    ShiftKeepsProducts(m.r1, m.r2);
    ShiftKeepsProducts(m.r2, m.r0);
    assert Transpose(Relabel(m)) == Mat3(Shift(t.r2), Shift(t.r0), Shift(t.r1));
  }

  lemma RelationsXZX(m: Mat3)
    requires RotationEquations(m)
    ensures Related(ReadParts(m, XZX), ReadRest(m, XZX), ReadParts(m, XZX).h)
  {
  }

  lemma RelationsXYX(m: Mat3)
    requires RotationEquations(m)
    ensures Related(ReadParts(m, XYX), ReadRest(m, XYX), ReadParts(m, XYX).h)
  {
  }

  lemma RelationsXYZ(m: Mat3)
    requires RotationEquations(m)
    ensures Related(ReadParts(m, XYZ), ReadRest(m, XYZ), ReadParts(m, XYZ).h)
  {
  }

  lemma RelationsXZY(m: Mat3)
    requires RotationEquations(m)
    ensures Related(ReadParts(m, XZY), ReadRest(m, XZY), -ReadParts(m, XZY).h)
  {
  }

  lemma BaseRelations(m: Mat3, axis: AxisSequence)
    requires RotationEquations(m) && IsBase(axis)
    ensures ObeysRelations(m, axis)
  {
    match axis
    case XZX => RelationsXZX(m);
    case XYX => RelationsXYX(m);
    case XYZ => RelationsXYZ(m);
    case XZY => RelationsXZY(m);
  }

  lemma RotationIsRelated(m: Mat3, axis: AxisSequence)
    requires IsRotation(m)
    ensures ObeysRelations(m, axis)
  {
    RotationObeysEquations(m);
    RelatedThroughLabels(m, axis);
  }

  lemma RelatedThroughLabels(m: Mat3, axis: AxisSequence)
    requires RotationEquations(m)
    ensures ObeysRelations(m, axis)
    decreases if IsBase(axis) then 0 else if IsBase(Next(axis)) then 1 else 2
  {
    if IsBase(axis) {
      BaseRelations(m, axis);
    } else {
      RelabelEquations(m);
      RelatedThroughLabels(Relabel(m), Next(axis));
      RelabelParts(m, axis);
    }
  }

  // ------------------------------------------------------------------
  // The way back.

  lemma RootOfOne(lib: MathLib)
    requires lib.Valid()
    ensures lib.sqrt(1.0) == 1.0
  {
    lib.Root(1.0);
    var r := lib.sqrt(1.0);
    UnitSquare(r);
  }

  lemma UnitSquare(h: real)
    requires h * h == 1.0
    ensures h == if h >= 0.0 then 1.0 else -1.0
  {
    NoZeroDivisors(h - 1.0, h + 1.0);
  }

  lemma NoZeroDivisors(x: real, y: real)
    requires x * y == 0.0
    ensures x == 0.0 || y == 0.0
  {
  }

  lemma Cancel(x: real, y: real, r: real)
    requires r != 0.0 && r * x == r * y
    ensures x == y
  {
    assert r * (x - y) == 0.0;
  }

  lemma Eliminate(x: real, y: real, m: real, n: real, g: real, w: real)
    requires x == m + g * y && y == n + g * x && w == 1.0 - g * g
    ensures w * x == m + g * n
    ensures w * y == n + g * m
  {
    assert g * y == g * n + g * g * x;
    assert g * x == g * m + g * g * y;
  }

  lemma ProductOfScaled(m: real, n: real, r: real, u: real, v: real)
    requires m == r * u && n == r * v
    ensures m * n == r * r * (u * v)
  {
    calc { m * n; == (r * u) * n; == (r * u) * (r * v); == r * r * (u * v); }
  }

  lemma CancelProduct(x: real, e: real, r: real, g: real, mn: real, uv: real, pq: real, yz: real)
    requires r != 0.0 && r * r * e == mn + g * pq
    requires mn == r * r * uv && pq == r * r * yz
    requires x == uv + g * yz
    ensures x == e
  {
    calc { r * (r * x); == r * (r * (uv + g * yz)); == r * r * uv + g * (r * r * yz); == mn + g * pq; == r * (r * e); }
    Cancel(r * x, r * e, r);
    Cancel(x, e, r);
  }

  /** One pair of entries recovered from the four products: with `x == m + g y` and `y == n + g x`,
      the angles that reproduce the products reproduce `x` and `y`. */
  lemma RecoverPair(x: real, y: real, g: real, r: real, mn: real, pq: real, uv: real, yz: real)
    requires r != 0.0 && x == mn + g * y && y == pq + g * x && r * r == 1.0 - g * g
    requires mn == r * r * uv && pq == r * r * yz
    ensures uv + g * yz == x
    ensures yz + g * uv == y
  {
    Eliminate(x, y, mn, pq, g, r * r);
    CancelProduct(uv + g * yz, x, r, g, mn, uv, pq, yz);
    CancelProduct(yz + g * uv, y, r, g, pq, yz, mn, uv);
  }

  lemma RecoverEntries(
    a: real, b: real, c: real, d: real, e: real, f: real, p: real, q: real, g: real,
    r: real, c0: real, s0: real, c2: real, s2: real)
    requires r != 0.0 && r * r == 1.0 - g * g
    requires e == c * b + g * p && p == d * a + g * e
    requires f == d * b - g * q && q == c * a - g * f
    requires a == r * s0 && b == r * c0 && c == r * s2 && d == r * c2
    ensures c0 * s2 + g * c2 * s0 == e
    ensures c0 * c2 - g * s0 * s2 == f
    ensures c2 * s0 + g * c0 * s2 == p
    ensures s0 * s2 - g * c0 * c2 == q
  {
    ProductOfScaled(c, b, r, s2, c0);
    ProductOfScaled(d, a, r, c2, s0);
    RecoverPair(e, p, g, r, c * b, d * a, s2 * c0, c2 * s0);
    ProductOfScaled(d, b, r, c2, c0);
    ProductOfScaled(c, a, r, s2, s0);
    RecoverPair(f, q, -g, r, d * b, c * a, c2 * c0, s2 * s0);
  }

  /** Angles that reproduce the four products of a regular matrix reproduce the whole matrix. */
  lemma RegularPartsMatch(k: Parts, t: Rest, g: real, r: real, c0: real, s0: real, c2: real, s2: real)
    requires Related(k, t, g) && r != 0.0 && r * r == k.a * k.a + k.b * k.b
    requires r * c0 == k.b && r * s0 == k.a && r * c2 == k.d && r * s2 == k.c
    ensures TrigParts(c0, s0, c2, s2, k.h, r, g) == k
    ensures TrigRest(c0, s0, c2, s2, g) == t
  {
    RecoverEntries(k.a, k.b, k.c, k.d, k.e, k.f, t.p, t.q, g, r, c0, s0, c2, s2);
  }

  lemma SquaresVanish(x: real, y: real)
    requires x * x + y * y <= 0.0
    ensures x == 0.0 && y == 0.0
  {
    SquareIsPositive(x, x * x);
    SquareIsPositive(y, y * y);
  }

  lemma ProductIsPositive(x: real, y: real, p: real)
    requires p == x * y && x > 0.0 && y > 0.0
    ensures p > 0.0
  {
  }

  lemma SquareIsPositive(x: real, w: real)
    requires w == x * x
    ensures w >= 0.0 && (x != 0.0 ==> w > 0.0)
  {
    if x > 0.0 { ProductIsPositive(x, x, w); }
    if x < 0.0 { ProductIsPositive(-x, -x, w); }
  }

  lemma RadiusFromAngle(lib: MathLib, a: real, b: real, r: real)
    requires lib.Valid()
    requires r * lib.cos(lib.atan2(a, b)) == b && r * lib.sin(lib.atan2(a, b)) == a
    ensures MiddleRadius(lib, a, b) == r
  {
    var first := lib.atan2(a, b);
    var u, v := lib.cos(first), lib.sin(first);
    lib.Circle(first);
    calc { a * v + b * u; == (r * v) * v + (r * u) * u; == r * (u * u + v * v); == r; }
  }

  lemma UnitAngle(lib: MathLib, y: real, x: real)
    requires lib.Valid() && x * x + y * y == 1.0
    ensures lib.cos(lib.atan2(y, x)) == x && lib.sin(lib.atan2(y, x)) == y
  {
    RootOfOne(lib);
    lib.Polar(y, x, 1.0, 1.0);
  }

  lemma RadiusIsPositive(lib: MathLib, a: real, b: real, w: real)
    requires lib.Valid() && !(a == 0.0 && b == 0.0) && w == a * a + b * b
    ensures var r := lib.sqrt(w); r > 0.0 && r * r == w
  {
    SquareIsPositive(a, a * a);
    SquareIsPositive(b, b * b);
    lib.Root(w);
  }

  /** The angles computed for four products of a regular matrix reproduce them. */
  lemma RegularAngles(lib: MathLib, a: real, b: real, c: real, d: real, w: real) returns (r: real)
    requires lib.Valid() && !(a == 0.0 && b == 0.0) && w == a * a + b * b == c * c + d * d
    ensures r > 0.0 && r * r == w && MiddleRadius(lib, a, b) == r
    ensures var first := lib.atan2(a, b); r * lib.cos(first) == b && r * lib.sin(first) == a
    ensures var last := lib.atan2(c, d); r * lib.cos(last) == d && r * lib.sin(last) == c
  {
    r := lib.sqrt(w);
    RadiusIsPositive(lib, a, b, w);
    lib.Polar(a, b, w, r);
    lib.Polar(c, d, w, r);
    RadiusFromAngle(lib, a, b, r);
  }

  /** The sines and cosines of three angles give these parts. */
  ghost predicate AnglesGiveParts(lib: MathLib, rot: Vec3, axis: AxisSequence, k: Parts, t: Rest) {
    var (h, r) := if IsProper(axis) then (lib.cos(rot.y), lib.sin(rot.y)) else (lib.sin(rot.y), lib.cos(rot.y));
    var c0, s0, c2, s2, g := lib.cos(rot.x), lib.sin(rot.x), lib.cos(rot.z), lib.sin(rot.z), Signed(axis, h);
    k == TrigParts(c0, s0, c2, s2, h, r, g) && t == TrigRest(c0, s0, c2, s2, g)
  }

  lemma PartsOfEuler(lib: MathLib, rot: Vec3, axis: AxisSequence)
    ensures
      var n := EulerToMatrix(lib, rot, axis);
      AnglesGiveParts(lib, rot, axis, ReadParts(n, axis), ReadRest(n, axis))
  {
    PartsOfTrigMatrix(
      lib.cos(rot.x), lib.cos(rot.y), lib.cos(rot.z), lib.sin(rot.x), lib.sin(rot.y), lib.sin(rot.z), axis);
  }

  lemma MatrixFromParts(lib: MathLib, rot: Vec3, axis: AxisSequence, m: Mat3)
    requires AnglesGiveParts(lib, rot, axis, ReadParts(m, axis), ReadRest(m, axis))
    ensures EulerToMatrix(lib, rot, axis) == m
  {
    PartsOfEuler(lib, rot, axis);
    PartsDetermineMatrix(EulerToMatrix(lib, rot, axis), m, axis);
  }

  lemma AnglesFit(lib: MathLib, k: Parts, t: Rest, axis: AxisSequence, rot: Vec3, r: real)
    requires Related(k, t, Signed(axis, k.h)) && r != 0.0 && r * r == k.a * k.a + k.b * k.b
    requires r * lib.cos(rot.x) == k.b && r * lib.sin(rot.x) == k.a
    requires r * lib.cos(rot.z) == k.d && r * lib.sin(rot.z) == k.c
    requires (k.h, r) == if IsProper(axis) then (lib.cos(rot.y), lib.sin(rot.y)) else (lib.sin(rot.y), lib.cos(rot.y))
    ensures AnglesGiveParts(lib, rot, axis, k, t)
  {
    RegularPartsMatch(k, t, Signed(axis, k.h), r, lib.cos(rot.x), lib.sin(rot.x), lib.cos(rot.z), lib.sin(rot.z));
  }

  ghost predicate IsRegularChoice(lib: MathLib, k: Parts, axis: AxisSequence, rot: Vec3) {
    var other := MiddleRadius(lib, k.a, k.b);
    && rot.x == lib.atan2(k.a, k.b) && rot.z == lib.atan2(k.c, k.d)
    && rot.y == if IsProper(axis) then lib.atan2(other, k.h) else lib.atan2(k.h, other)
  }

  lemma RegularChoiceAngles(lib: MathLib, k: Parts, axis: AxisSequence, rot: Vec3) returns (r: real)
    requires lib.Valid() && !(k.a == 0.0 && k.b == 0.0) && IsRegularChoice(lib, k, axis, rot)
    requires k.h * k.h + k.a * k.a + k.b * k.b == 1.0 && k.h * k.h + k.c * k.c + k.d * k.d == 1.0
    ensures r > 0.0 && r * r == k.a * k.a + k.b * k.b
    ensures r * lib.cos(rot.x) == k.b && r * lib.sin(rot.x) == k.a
    ensures r * lib.cos(rot.z) == k.d && r * lib.sin(rot.z) == k.c
    ensures (k.h, r) == if IsProper(axis) then (lib.cos(rot.y), lib.sin(rot.y)) else (lib.sin(rot.y), lib.cos(rot.y))
  {
    r := RegularAngles(lib, k.a, k.b, k.c, k.d, k.a * k.a + k.b * k.b);
    if IsProper(axis) { UnitAngle(lib, r, k.h); } else { UnitAngle(lib, k.h, r); }
  }

  lemma RegularAnglesGiveParts(lib: MathLib, k: Parts, t: Rest, axis: AxisSequence, rot: Vec3)
    requires lib.Valid() && IsRegularChoice(lib, k, axis, rot) && !(k.a == 0.0 && k.b == 0.0)
    requires Related(k, t, Signed(axis, k.h))
    ensures AnglesGiveParts(lib, rot, axis, k, t)
  {
    var r := RegularChoiceAngles(lib, k, axis, rot);
    AnglesFit(lib, k, t, axis, rot, r);
  }

  lemma RegularBranchChoice(lib: MathLib, m: Mat3, axis: AxisSequence)
    requires !TakesSingularBranch(m, axis)
    ensures IsRegularChoice(lib, ReadParts(m, axis), axis, MatrixToEuler(lib, m, axis))
    ensures !(ReadParts(m, axis).a == 0.0 && ReadParts(m, axis).b == 0.0)
  {
  }

  /** Away from the singular branch the round trip is exact for every rotation matrix. */
  lemma RegularRoundTrip(lib: MathLib, m: Mat3, axis: AxisSequence)
    requires lib.Valid() && IsRotation(m) && !TakesSingularBranch(m, axis)
    ensures EulerToMatrix(lib, MatrixToEuler(lib, m, axis), axis) == m
  {
    RotationIsRelated(m, axis);
    RegularBranchChoice(lib, m, axis);
    RegularAnglesGiveParts(lib, ReadParts(m, axis), ReadRest(m, axis), axis, MatrixToEuler(lib, m, axis));
    MatrixFromParts(lib, MatrixToEuler(lib, m, axis), axis, m);
  }

  /** What the singular branch rebuilds, as parts: every product with the middle radius is
      zero, and the last angle is that of the unread pair (sc_ca, cc_ca). */
  ghost predicate IsSingularRebuild(k: Parts, x: Parts, y: Rest, u: real, g: real, w: real) {
    && u == (if k.h >= 0.0 then 1.0 else -1.0)
    && x.h == u && x.a == 0.0 && x.b == 0.0 && x.c == 0.0 && x.d == 0.0
    && w >= 0.0 && w * w == k.e * k.e + k.f * k.f
    && w * x.e == k.e && w * x.f == k.f && y.p == g * x.e && y.q == -g * x.f
  }

  ghost predicate IsSingularChoice(lib: MathLib, k: Parts, axis: AxisSequence, rot: Vec3) {
    && rot.x == 0.0 && rot.z == lib.atan2(k.e, k.f)
    && rot.y == (
      if IsProper(axis) then (if k.h >= 0.0 then 0.0 else -lib.pi)
      else (if k.h >= 0.0 then lib.pi / 2.0 else -lib.pi / 2.0))
  }

  lemma SingularTrig(lib: MathLib, k: Parts, rot: Vec3, axis: AxisSequence, x: Parts, y: Rest, u: real)
    requires lib.Valid() && AnglesGiveParts(lib, rot, axis, x, y) && IsSingularChoice(lib, k, axis, rot)
    requires u == if k.h >= 0.0 then 1.0 else -1.0
    ensures x == Parts(u, 0.0, 0.0, 0.0, 0.0, lib.sin(rot.z), lib.cos(rot.z))
    ensures var g := Signed(axis, u); y == Rest(g * x.e, -g * x.f)
  {
  }

  lemma SingularFits(k: Parts, x: Parts, y: Rest, u: real, g: real, w: real)
    requires u == (if k.h >= 0.0 then 1.0 else -1.0) && x == Parts(u, 0.0, 0.0, 0.0, 0.0, x.e, x.f)
    requires y == Rest(g * x.e, -g * x.f) && w >= 0.0 && w * w == k.e * k.e + k.f * k.f
    requires w * x.e == k.e && w * x.f == k.f
    ensures IsSingularRebuild(k, x, y, u, g, w)
  {
  }

  lemma SingularAngles(lib: MathLib, k: Parts, rot: Vec3, axis: AxisSequence, x: Parts, y: Rest)
    returns (u: real, w: real)
    requires lib.Valid() && AnglesGiveParts(lib, rot, axis, x, y) && IsSingularChoice(lib, k, axis, rot)
    ensures IsSingularRebuild(k, x, y, u, Signed(axis, u), w)
  {
    u := if k.h >= 0.0 then 1.0 else -1.0;
    w := RadiusOfPair(lib, k.e, k.f);
    SingularTrig(lib, k, rot, axis, x, y, u);
    SingularFits(k, x, y, u, Signed(axis, u), w);
  }

  lemma RadiusOfPair(lib: MathLib, y: real, x: real) returns (w: real)
    requires lib.Valid()
    ensures w >= 0.0 && w * w == y * y + x * x
    ensures w * lib.cos(lib.atan2(y, x)) == x && w * lib.sin(lib.atan2(y, x)) == y
  {
    var sum := x * x + y * y;
    SquareIsPositive(x, x * x);
    SquareIsPositive(y, y * y);
    w := lib.sqrt(sum);
    lib.Root(sum);
    lib.Polar(y, x, sum, w);
  }

  lemma SingularRebuild(lib: MathLib, m: Mat3, axis: AxisSequence) returns (x: Parts, y: Rest, u: real, w: real)
    requires lib.Valid() && TakesSingularBranch(m, axis)
    ensures
      var n := EulerToMatrix(lib, MatrixToEuler(lib, m, axis), axis);
      && x == ReadParts(n, axis) && y == ReadRest(n, axis)
      && IsSingularRebuild(ReadParts(m, axis), x, y, u, Signed(axis, u), w)
  {
    var rot := MatrixToEuler(lib, m, axis);
    var n := EulerToMatrix(lib, rot, axis);
    x, y := ReadParts(n, axis), ReadRest(n, axis);
    PartsOfEuler(lib, rot, axis);
    u, w := SingularAngles(lib, ReadParts(m, axis), rot, axis, x, y);
  }

  /** The middle angle is exactly singular. */
  predicate IsExactlySingular(m: Mat3, axis: AxisSequence) {
    var k := ReadParts(m, axis);
    k.a == 0.0 && k.b == 0.0
  }

  lemma ExactRebuild(k: Parts, t: Rest, x: Parts, y: Rest, u: real, g: real, w: real)
    requires (g == u || g == -u) && IsSingularRebuild(k, x, y, u, g, w)
    requires Related(k, t, if g == u then k.h else -k.h) && k.a == 0.0 && k.b == 0.0
    ensures x == k && y == t
  {
    UnitSquare(k.h);
    SquaresVanish(k.c, k.d);
    UnitSquare(w);
  }

  lemma ExactlySingularRoundTrip(lib: MathLib, m: Mat3, axis: AxisSequence)
    requires lib.Valid() && ObeysRelations(m, axis) && IsExactlySingular(m, axis)
    ensures TakesSingularBranch(m, axis)
    ensures EulerToMatrix(lib, MatrixToEuler(lib, m, axis), axis) == m
  {
    var x, y, u, w := SingularRebuild(lib, m, axis);
    ExactRebuild(ReadParts(m, axis), ReadRest(m, axis), x, y, u, Signed(axis, u), w);
    PartsDetermineMatrix(EulerToMatrix(lib, MatrixToEuler(lib, m, axis), axis), m, axis);
  }

  /** The Euler round trip, for every rotation matrix and every axis sequence: it is exact
      unless the tolerance test catches a matrix that is not exactly singular, and then never. */
  lemma EulerRoundTrip(lib: MathLib, m: Mat3, axis: AxisSequence)
    requires lib.Valid() && IsRotation(m)
    ensures EulerToMatrix(lib, MatrixToEuler(lib, m, axis), axis) == m
       <==> (!TakesSingularBranch(m, axis) || IsExactlySingular(m, axis))
  {
    RotationIsRelated(m, axis);
    if !TakesSingularBranch(m, axis) {
      RegularRoundTrip(lib, m, axis);
    } else if IsExactlySingular(m, axis) {
      ExactlySingularRoundTrip(lib, m, axis);
    } else {
      var x, y, u, w := SingularRebuild(lib, m, axis);
      assert x.a == 0.0 && x.b == 0.0;
    }
  }
}
