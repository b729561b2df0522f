/** What the Euler matrices mean: a rotation about each named axis in turn. */
module EulerLaws {
  import opened Matrix
  import opened Euler

  datatype Axis = X | Y | Z

  /** A row vector times the matrix of a rotation about one coordinate axis, vy the angle
      with the given cosine and sine. */
  function Spin(axis: Axis, c: real, s: real, v: Vec3): Vec3 {
    match axis
    case X => Vec3(v.x, v.y * c + v.z * s, v.z * c - v.y * s)
    case Y => Vec3(v.x * c - v.z * s, v.y, v.x * s + v.z * c)
    case Z => Vec3(v.x * c + v.y * s, v.y * c - v.x * s, v.z)
  }

  /** The axes a sequence names, in the order in which the angles are given. */
  function Letters(axis: AxisSequence): (Axis, Axis, Axis) {
    match axis
    case ZXZ => (Z, X, Z)
    case XYX => (X, Y, X)
    case YZY => (Y, Z, Y)
    case ZYZ => (Z, Y, Z)
    case XZX => (X, Z, X)
    case YXY => (Y, X, Y)
    case XYZ => (X, Y, Z)
    case YZX => (Y, Z, X)
    case ZXY => (Z, X, Y)
    case XZY => (X, Z, Y)
    case ZYX => (Z, Y, X)
    case YXZ => (Y, X, Z)
  }

  /** rotX, rotY and rotZ, which go through the ZYX matrix. */
  function RotAbout(lib: MathLib, axis: Axis, angle: real): Mat3 {
    match axis
    case X => EulerToMatrix(lib, Vec3(0.0, 0.0, angle), ZYX)
    case Y => EulerToMatrix(lib, Vec3(0.0, angle, 0.0), ZYX)
    case Z => EulerToMatrix(lib, Vec3(angle, 0.0, 0.0), ZYX)
  }

  function Spins(c0: real, c1: real, c2: real, s0: real, s1: real, s2: real, axis: AxisSequence, v: Vec3): Vec3 {
    var (i, j, k) := Letters(axis);
    Spin(k, c2, s2, Spin(j, c1, s1, Spin(i, c0, s0, v)))
  }

  lemma SpinsXZX(
    x: real, y: real, z: real, c0: real, c1: real, c2: real, s0: real, s1: real, s2: real,
    py: real, pz: real, qx: real, qy: real, qz: real,
    ux: real, uy: real, uz: real, vx: real, vy: real, vz: real, wx: real, wy: real, wz: real)
    requires py == y * c0 + z * s0 && pz == z * c0 - y * s0
    requires qx == x * c1 + py * s1 && qy == py * c1 - x * s1 && qz == pz
    requires ux == c1 && uy == c0 * s1 && uz == s0 * s1
    requires vx == -c2 * s1 && vy == c0 * c1 * c2 - s0 * s2 && vz == c0 * s2 + c1 * c2 * s0
    requires wx == s1 * s2 && wy == -c2 * s0 - c0 * c1 * s2 && wz == c0 * c2 - c1 * s0 * s2
    ensures qx == x * ux + y * uy + z * uz
    ensures qy * c2 + qz * s2 == x * vx + y * vy + z * vz
    ensures qz * c2 - qy * s2 == x * wx + y * wy + z * wz
  {
    calc {
      x * ux + y * uy + z * uz;
      x * c1 + y * uy + z * uz;
      x * c1 + y * (c0 * s1) + z * uz;
      x * c1 + y * (c0 * s1) + z * (s0 * s1);
      x * c1 + py * s1;
      qx;
    }
    calc {
      x * vx + y * vy + z * vz;
      x * (-c2 * s1) + y * vy + z * vz;
      x * (-c2 * s1) + y * (c0 * c1 * c2 - s0 * s2) + z * vz;
      x * (-c2 * s1) + y * (c0 * c1 * c2 - s0 * s2) + z * (c0 * s2 + c1 * c2 * s0);
      (py * c1 - x * s1) * c2 + pz * s2;
      qy * c2 + qz * s2;
    }
    calc {
      x * wx + y * wy + z * wz;
      x * (s1 * s2) + y * wy + z * wz;
      x * (s1 * s2) + y * (-c2 * s0 - c0 * c1 * s2) + z * wz;
      x * (s1 * s2) + y * (-c2 * s0 - c0 * c1 * s2) + z * (c0 * c2 - c1 * s0 * s2);
      pz * c2 - (py * c1 - x * s1) * s2;
      qz * c2 - qy * s2;
    }
  }

  lemma SpinsXYX(
    x: real, y: real, z: real, c0: real, c1: real, c2: real, s0: real, s1: real, s2: real,
    py: real, pz: real, qx: real, qy: real, qz: real,
    ux: real, uy: real, uz: real, vx: real, vy: real, vz: real, wx: real, wy: real, wz: real)
    requires py == y * c0 + z * s0 && pz == z * c0 - y * s0
    requires qx == x * c1 - pz * s1 && qy == py && qz == x * s1 + pz * c1
    requires ux == c1 && uy == s0 * s1 && uz == -c0 * s1
    requires vx == s1 * s2 && vy == c0 * c2 - c1 * s0 * s2 && vz == c2 * s0 + c0 * c1 * s2
    requires wx == c2 * s1 && wy == -c0 * s2 - c1 * c2 * s0 && wz == c0 * c1 * c2 - s0 * s2
    ensures qx == x * ux + y * uy + z * uz
    ensures qy * c2 + qz * s2 == x * vx + y * vy + z * vz
    ensures qz * c2 - qy * s2 == x * wx + y * wy + z * wz
  {
    calc {
      x * ux + y * uy + z * uz;
      x * c1 + y * uy + z * uz;
      x * c1 + y * (s0 * s1) + z * uz;
      x * c1 + y * (s0 * s1) + z * (-c0 * s1);
      x * c1 - pz * s1;
      qx;
    }
    calc {
      x * vx + y * vy + z * vz;
      x * (s1 * s2) + y * vy + z * vz;
      x * (s1 * s2) + y * (c0 * c2 - c1 * s0 * s2) + z * vz;
      x * (s1 * s2) + y * (c0 * c2 - c1 * s0 * s2) + z * (c2 * s0 + c0 * c1 * s2);
      py * c2 + (x * s1 + pz * c1) * s2;
      qy * c2 + qz * s2;
    }
    calc {
      x * wx + y * wy + z * wz;
      x * (c2 * s1) + y * wy + z * wz;
      x * (c2 * s1) + y * (-c0 * s2 - c1 * c2 * s0) + z * wz;
      x * (c2 * s1) + y * (-c0 * s2 - c1 * c2 * s0) + z * (c0 * c1 * c2 - s0 * s2);
      (x * s1 + pz * c1) * c2 - py * s2;
      qz * c2 - qy * s2;
    }
  }

  lemma SpinsXYZ(
    x: real, y: real, z: real, c0: real, c1: real, c2: real, s0: real, s1: real, s2: real,
    py: real, pz: real, qx: real, qy: real, qz: real,
    ux: real, uy: real, uz: real, vx: real, vy: real, vz: real, wx: real, wy: real, wz: real)
    requires py == y * c0 + z * s0 && pz == z * c0 - y * s0
    requires qx == x * c1 - pz * s1 && qy == py && qz == x * s1 + pz * c1
    requires ux == c1 * c2 && uy == c0 * s2 + c2 * s0 * s1 && uz == s0 * s2 - c0 * c2 * s1
    requires vx == -c1 * s2 && vy == c0 * c2 - s0 * s1 * s2 && vz == c2 * s0 + c0 * s1 * s2
    requires wx == s1 && wy == -c1 * s0 && wz == c0 * c1
    ensures qx * c2 + qy * s2 == x * ux + y * uy + z * uz
    ensures qy * c2 - qx * s2 == x * vx + y * vy + z * vz
    ensures qz == x * wx + y * wy + z * wz
  {
    calc {
      x * ux + y * uy + z * uz;
      x * (c1 * c2) + y * uy + z * uz;
      x * (c1 * c2) + y * (c0 * s2 + c2 * s0 * s1) + z * uz;
      x * (c1 * c2) + y * (c0 * s2 + c2 * s0 * s1) + z * (s0 * s2 - c0 * c2 * s1);
      (x * c1 - pz * s1) * c2 + py * s2;
      qx * c2 + qy * s2;
    }
    calc {
      x * vx + y * vy + z * vz;
      x * (-c1 * s2) + y * vy + z * vz;
      x * (-c1 * s2) + y * (c0 * c2 - s0 * s1 * s2) + z * vz;
      x * (-c1 * s2) + y * (c0 * c2 - s0 * s1 * s2) + z * (c2 * s0 + c0 * s1 * s2);
      py * c2 - (x * c1 - pz * s1) * s2;
      qy * c2 - qx * s2;
    }
    calc {
      x * wx + y * wy + z * wz;
      x * s1 + y * wy + z * wz;
      x * s1 + y * (-c1 * s0) + z * wz;
      x * s1 + y * (-c1 * s0) + z * (c0 * c1);
      x * s1 + pz * c1;
      qz;
    }
  }

  lemma SpinsXZY(
    x: real, y: real, z: real, c0: real, c1: real, c2: real, s0: real, s1: real, s2: real,
    py: real, pz: real, qx: real, qy: real, qz: real,
    ux: real, uy: real, uz: real, vx: real, vy: real, vz: real, wx: real, wy: real, wz: real)
    requires py == y * c0 + z * s0 && pz == z * c0 - y * s0
    requires qx == x * c1 + py * s1 && qy == py * c1 - x * s1 && qz == pz
    requires ux == c1 * c2 && uy == s0 * s2 + c0 * c2 * s1 && uz == c2 * s0 * s1 - c0 * s2
    requires vx == -s1 && vy == c0 * c1 && vz == c1 * s0
    requires wx == c1 * s2 && wy == c0 * s1 * s2 - c2 * s0 && wz == c0 * c2 + s0 * s1 * s2
    ensures qx * c2 - qz * s2 == x * ux + y * uy + z * uz
    ensures qy == x * vx + y * vy + z * vz
    ensures qx * s2 + qz * c2 == x * wx + y * wy + z * wz
  {
    calc {
      x * ux + y * uy + z * uz;
      x * (c1 * c2) + y * uy + z * uz;
      x * (c1 * c2) + y * (s0 * s2 + c0 * c2 * s1) + z * uz;
      x * (c1 * c2) + y * (s0 * s2 + c0 * c2 * s1) + z * (c2 * s0 * s1 - c0 * s2);
      (x * c1 + py * s1) * c2 - pz * s2;
      qx * c2 - qz * s2;
    }
    calc {
      x * vx + y * vy + z * vz;
      x * (-s1) + y * vy + z * vz;
      x * (-s1) + y * (c0 * c1) + z * vz;
      x * (-s1) + y * (c0 * c1) + z * (c1 * s0);
      py * c1 - x * s1;
      qy;
    }
    calc {
      x * wx + y * wy + z * wz;
      x * (c1 * s2) + y * wy + z * wz;
      x * (c1 * s2) + y * (c0 * s1 * s2 - c2 * s0) + z * wz;
      x * (c1 * s2) + y * (c0 * s1 * s2 - c2 * s0) + z * (c0 * c2 + s0 * s1 * s2);
      (x * c1 + py * s1) * s2 + pz * c2;
      qx * s2 + qz * c2;
    }
  }

  lemma RelabelRowMul(v: Vec3, m: Mat3)
    ensures RowMul(Shift(v), Relabel(m)) == Shift(RowMul(v, m))
  {
    var t := Transpose(m);
    assert Transpose(Relabel(m)) == Mat3(Shift(t.r2), Shift(t.r0), Shift(t.r1));
    ShiftKeepsProducts(v, t.r0);
    ShiftKeepsProducts(v, t.r1);
    ShiftKeepsProducts(v, t.r2);
  }

  function NextAxis(axis: Axis): Axis {
    match axis case X => Y case Y => Z case Z => X
  }

  lemma RelabelSpin(axis: Axis, c: real, s: real, v: Vec3)
    ensures Spin(NextAxis(axis), c, s, Shift(v)) == Shift(Spin(axis, c, s, v))
  {
  }

  lemma RowMulXZX(c0: real, c1: real, c2: real, s0: real, s1: real, s2: real, v: Vec3)
    ensures RowMul(v, TrigMatrix(c0, c1, c2, s0, s1, s2, XZX))
         == Spin(X, c2, s2, Spin(Z, c1, s1, Spin(X, c0, s0, v)))
  {
    var t := Transpose(TrigMatrix(c0, c1, c2, s0, s1, s2, XZX));
    var p := Spin(X, c0, s0, v);
    var q := Spin(Z, c1, s1, p);
    SpinsXZX(v.x, v.y, v.z, c0, c1, c2, s0, s1, s2, p.y, p.z, q.x, q.y, q.z,
      t.r0.x, t.r0.y, t.r0.z, t.r1.x, t.r1.y, t.r1.z, t.r2.x, t.r2.y, t.r2.z);
  }

  lemma RowMulXYX(c0: real, c1: real, c2: real, s0: real, s1: real, s2: real, v: Vec3)
    ensures RowMul(v, TrigMatrix(c0, c1, c2, s0, s1, s2, XYX))
         == Spin(X, c2, s2, Spin(Y, c1, s1, Spin(X, c0, s0, v)))
  {
    var t := Transpose(TrigMatrix(c0, c1, c2, s0, s1, s2, XYX));
    var p := Spin(X, c0, s0, v);
    var q := Spin(Y, c1, s1, p);
    SpinsXYX(v.x, v.y, v.z, c0, c1, c2, s0, s1, s2, p.y, p.z, q.x, q.y, q.z,
      t.r0.x, t.r0.y, t.r0.z, t.r1.x, t.r1.y, t.r1.z, t.r2.x, t.r2.y, t.r2.z);
  }

  lemma RowMulXYZ(c0: real, c1: real, c2: real, s0: real, s1: real, s2: real, v: Vec3)
    ensures RowMul(v, TrigMatrix(c0, c1, c2, s0, s1, s2, XYZ))
         == Spin(Z, c2, s2, Spin(Y, c1, s1, Spin(X, c0, s0, v)))
  {
    var t := Transpose(TrigMatrix(c0, c1, c2, s0, s1, s2, XYZ));
    var p := Spin(X, c0, s0, v);
    var q := Spin(Y, c1, s1, p);
    SpinsXYZ(v.x, v.y, v.z, c0, c1, c2, s0, s1, s2, p.y, p.z, q.x, q.y, q.z,
      t.r0.x, t.r0.y, t.r0.z, t.r1.x, t.r1.y, t.r1.z, t.r2.x, t.r2.y, t.r2.z);
  }

  lemma RowMulXZY(c0: real, c1: real, c2: real, s0: real, s1: real, s2: real, v: Vec3)
    ensures RowMul(v, TrigMatrix(c0, c1, c2, s0, s1, s2, XZY))
         == Spin(Y, c2, s2, Spin(Z, c1, s1, Spin(X, c0, s0, v)))
  {
    var t := Transpose(TrigMatrix(c0, c1, c2, s0, s1, s2, XZY));
    var p := Spin(X, c0, s0, v);
    var q := Spin(Z, c1, s1, p);
    SpinsXZY(v.x, v.y, v.z, c0, c1, c2, s0, s1, s2, p.y, p.z, q.x, q.y, q.z,
      t.r0.x, t.r0.y, t.r0.z, t.r1.x, t.r1.y, t.r1.z, t.r2.x, t.r2.y, t.r2.z);
  }

  lemma PlaneKeepsDot(
    x: real, y: real, z: real, w: real, c: real, s: real, a: real, b: real, p: real, q: real)
    requires c * c + s * s == 1.0
    requires a == x * c + y * s && b == y * c - x * s && p == z * c + w * s && q == w * c - z * s
    ensures a * p + b * q == x * z + y * w
  {
    var k := x * z + y * w;
    calc {
      a * p + b * q;
      (x * c + y * s) * (z * c + w * s) + (y * c - x * s) * (w * c - z * s);
      (c * c + s * s) * k;
      k;
    }
  }

  lemma PlaneKeepsArea(
    x: real, y: real, z: real, w: real, c: real, s: real, a: real, b: real, p: real, q: real)
    requires c * c + s * s == 1.0
    requires a == x * c + y * s && b == y * c - x * s && p == z * c + w * s && q == w * c - z * s
    ensures a * q - b * p == x * w - y * z
  {
    var k := x * w - y * z;
    calc {
      a * q - b * p;
      (x * c + y * s) * (w * c - z * s) - (y * c - x * s) * (z * c + w * s);
      (c * c + s * s) * k;
      k;
    }
  }

  /** Turning about any axis keeps inner products. */
  lemma SpinKeepsDot(axis: Axis, c: real, s: real, u: Vec3, v: Vec3)
    requires c * c + s * s == 1.0
    ensures Dot(Spin(axis, c, s, u), Spin(axis, c, s, v)) == Dot(u, v)
    decreases match axis case X => 0 case Z => 1 case Y => 2
  {
    if axis == X {
      var p, q := Spin(X, c, s, u), Spin(X, c, s, v);
      PlaneKeepsDot(u.y, u.z, v.y, v.z, c, s, p.y, p.z, q.y, q.z);
    } else {
      SpinKeepsDot(NextAxis(axis), c, s, Shift(u), Shift(v));
      RelabelSpin(axis, c, s, u);
      RelabelSpin(axis, c, s, v);
      ShiftKeepsProducts(u, v);
      ShiftKeepsProducts(Spin(axis, c, s, u), Spin(axis, c, s, v));
    }
  }

  lemma TurnedCross(
    x: real, y: real, z: real, u: real, v: real, w: real, c: real, s: real,
    py: real, pz: real, qy: real, qz: real, m: real, n: real)
    requires py == y * c + z * s && pz == z * c - y * s && qy == v * c + w * s && qz == w * c - v * s
    requires m == z * u - x * w && n == x * v - y * u
    ensures pz * u - x * qz == m * c + n * s
    ensures x * qy - py * u == n * c - m * s
  {
    calc {
      m * c + n * s;
      (z * u - x * w) * c + (x * v - y * u) * s;
      (z * c - y * s) * u - x * (w * c - v * s);
      pz * u - x * qz;
    }
    calc {
      n * c - m * s;
      (x * v - y * u) * c - (z * u - x * w) * s;
      x * (v * c + w * s) - (y * c + z * s) * u;
      x * qy - py * u;
    }
  }

  lemma SpinXKeepsArea(c: real, s: real, u: Vec3, v: Vec3)
    requires c * c + s * s == 1.0
    ensures Cross(Spin(X, c, s, u), Spin(X, c, s, v)).x == Cross(u, v).x
  {
    var p, q := Spin(X, c, s, u), Spin(X, c, s, v);
    PlaneKeepsArea(u.y, u.z, v.y, v.z, c, s, p.y, p.z, q.y, q.z);
  }

  lemma SpinXTurnsCross(c: real, s: real, u: Vec3, v: Vec3)
    ensures Cross(Spin(X, c, s, u), Spin(X, c, s, v)).y == Spin(X, c, s, Cross(u, v)).y
    ensures Cross(Spin(X, c, s, u), Spin(X, c, s, v)).z == Spin(X, c, s, Cross(u, v)).z
  {
    var p, q, w := Spin(X, c, s, u), Spin(X, c, s, v), Cross(u, v);
    TurnedCross(u.x, u.y, u.z, v.x, v.y, v.z, c, s, p.y, p.z, q.y, q.z, w.y, w.z);
  }

  lemma SpinXKeepsCross(c: real, s: real, u: Vec3, v: Vec3)
    requires c * c + s * s == 1.0
    ensures Cross(Spin(X, c, s, u), Spin(X, c, s, v)) == Spin(X, c, s, Cross(u, v))
  {
    SpinXKeepsArea(c, s, u, v);
    SpinXTurnsCross(c, s, u, v);
  }

  /** Turning about any axis commutes with the cross product. */
  lemma SpinKeepsCross(axis: Axis, c: real, s: real, u: Vec3, v: Vec3)
    requires c * c + s * s == 1.0
    ensures Cross(Spin(axis, c, s, u), Spin(axis, c, s, v)) == Spin(axis, c, s, Cross(u, v))
    decreases match axis case X => 0 case Z => 1 case Y => 2
  {
    if axis == X {
      SpinXKeepsCross(c, s, u, v);
    } else {
      SpinKeepsCross(NextAxis(axis), c, s, Shift(u), Shift(v));
      RelabelSpin(axis, c, s, u);
      RelabelSpin(axis, c, s, v);
      RelabelSpin(axis, c, s, Cross(u, v));
      ShiftKeepsProducts(u, v);
      ShiftKeepsProducts(Spin(axis, c, s, u), Spin(axis, c, s, v));
    }
  }

  // ------------------------------------------------------------------

  lemma RowMulIsSpins(c0: real, c1: real, c2: real, s0: real, s1: real, s2: real, axis: AxisSequence, v: Vec3)
    ensures RowMul(v, TrigMatrix(c0, c1, c2, s0, s1, s2, axis)) == Spins(c0, c1, c2, s0, s1, s2, axis, v)
    decreases if IsBase(axis) then 0 else if IsBase(Next(axis)) then 1 else 2
  {
    if IsBase(axis) {
      BaseSpins(c0, c1, c2, s0, s1, s2, axis, v);
    } else {
      var m := TrigMatrix(c0, c1, c2, s0, s1, s2, axis);
      var (i, j, k) := Letters(axis);
      RowMulIsSpins(c0, c1, c2, s0, s1, s2, Next(axis), Shift(v));
      RelabelTrigMatrix(c0, c1, c2, s0, s1, s2, axis);
      RelabelRowMul(v, m);
      RelabelSpin(i, c0, s0, v);
      RelabelSpin(j, c1, s1, Spin(i, c0, s0, v));
      RelabelSpin(k, c2, s2, Spin(j, c1, s1, Spin(i, c0, s0, v)));
    }
  }

  lemma BaseSpins(c0: real, c1: real, c2: real, s0: real, s1: real, s2: real, axis: AxisSequence, v: Vec3)
    requires IsBase(axis)
    ensures RowMul(v, TrigMatrix(c0, c1, c2, s0, s1, s2, axis)) == Spins(c0, c1, c2, s0, s1, s2, axis, v)
  {
    match axis
    case XZX => RowMulXZX(c0, c1, c2, s0, s1, s2, v);
    case XYX => RowMulXYX(c0, c1, c2, s0, s1, s2, v);
    case XYZ => RowMulXYZ(c0, c1, c2, s0, s1, s2, v);
    case XZY => RowMulXZY(c0, c1, c2, s0, s1, s2, v);
  }

  lemma SpinsKeepProducts(
    c0: real, c1: real, c2: real, s0: real, s1: real, s2: real, axis: AxisSequence, u: Vec3, v: Vec3)
    requires c0 * c0 + s0 * s0 == 1.0 && c1 * c1 + s1 * s1 == 1.0 && c2 * c2 + s2 * s2 == 1.0
    ensures Dot(Spins(c0, c1, c2, s0, s1, s2, axis, u), Spins(c0, c1, c2, s0, s1, s2, axis, v)) == Dot(u, v)
    ensures Cross(Spins(c0, c1, c2, s0, s1, s2, axis, u), Spins(c0, c1, c2, s0, s1, s2, axis, v))
         == Spins(c0, c1, c2, s0, s1, s2, axis, Cross(u, v))
  {
    var (i, j, k) := Letters(axis);
    var u1, v1 := Spin(i, c0, s0, u), Spin(i, c0, s0, v);
    var u2, v2 := Spin(j, c1, s1, u1), Spin(j, c1, s1, v1);
    SpinKeepsDot(i, c0, s0, u, v);
    SpinKeepsDot(j, c1, s1, u1, v1);
    SpinKeepsDot(k, c2, s2, u2, v2);
    SpinKeepsCross(i, c0, s0, u, v);
    SpinKeepsCross(j, c1, s1, u1, v1);
    SpinKeepsCross(k, c2, s2, u2, v2);
  }

  const E0 := Vec3(1.0, 0.0, 0.0)
  const E1 := Vec3(0.0, 1.0, 0.0)
  const E2 := Vec3(0.0, 0.0, 1.0)

  lemma RowsAreImages(m: Mat3)
    ensures m == Mat3(RowMul(E0, m), RowMul(E1, m), RowMul(E2, m))
  {
    IdentityIsNeutral(m, E0);
  }

  lemma ProductsWithUnits(u: Vec3)
    ensures Dot(u, E0) == u.x && Dot(u, E1) == u.y && Dot(u, E2) == u.z
    ensures Cross(u, E2) == Vec3(u.y, -u.x, 0.0)
  {
  }

  lemma UnitProducts()
    ensures Dot(E0, E0) == 1.0 && Dot(E1, E1) == 1.0 && Dot(E2, E2) == 1.0
    ensures Dot(E0, E1) == 0.0 && Dot(E0, E2) == 0.0 && Dot(E1, E2) == 0.0
    ensures Cross(E1, E2) == E0
  {
    ProductsWithUnits(E0);
    ProductsWithUnits(E1);
    ProductsWithUnits(E2);
  }

  lemma OrthonormalRows(m: Mat3)
    requires Dot(m.r0, m.r0) == 1.0 && Dot(m.r1, m.r1) == 1.0 && Dot(m.r2, m.r2) == 1.0
    requires Dot(m.r0, m.r1) == 0.0 && Dot(m.r0, m.r2) == 0.0 && Dot(m.r1, m.r2) == 0.0
    requires Cross(m.r1, m.r2) == m.r0
    ensures IsRotation(m)
  {
    DotCommutes(m.r1, m.r0);
    DotCommutes(m.r2, m.r0);
    DotCommutes(m.r2, m.r1);
    assert Transpose(Transpose(m)) == m;
  }

  lemma RowProducts(
    c0: real, c1: real, c2: real, s0: real, s1: real, s2: real, axis: AxisSequence, m: Mat3, u: Vec3, v: Vec3)
    requires c0 * c0 + s0 * s0 == 1.0 && c1 * c1 + s1 * s1 == 1.0 && c2 * c2 + s2 * s2 == 1.0
    requires m == TrigMatrix(c0, c1, c2, s0, s1, s2, axis)
    ensures Dot(RowMul(u, m), RowMul(v, m)) == Dot(u, v)
    ensures Cross(RowMul(u, m), RowMul(v, m)) == RowMul(Cross(u, v), m)
  {
    RowMulIsSpins(c0, c1, c2, s0, s1, s2, axis, u);
    RowMulIsSpins(c0, c1, c2, s0, s1, s2, axis, v);
    RowMulIsSpins(c0, c1, c2, s0, s1, s2, axis, Cross(u, v));
    SpinsKeepProducts(c0, c1, c2, s0, s1, s2, axis, u, v);
  }

  /** Every Euler matrix is a rotation matrix. */
  lemma EulerMatrixIsRotation(lib: MathLib, rot: Vec3, axis: AxisSequence)
    requires lib.Valid()
    ensures IsRotation(EulerToMatrix(lib, rot, axis))
  {
    lib.Circle(rot.x);
    lib.Circle(rot.y);
    lib.Circle(rot.z);
    TrigMatrixIsRotation(
      lib.cos(rot.x), lib.cos(rot.y), lib.cos(rot.z), lib.sin(rot.x), lib.sin(rot.y), lib.sin(rot.z), axis,
      EulerToMatrix(lib, rot, axis));
  }

  lemma TrigMatrixIsRotation(
    c0: real, c1: real, c2: real, s0: real, s1: real, s2: real, axis: AxisSequence, m: Mat3)
    requires c0 * c0 + s0 * s0 == 1.0 && c1 * c1 + s1 * s1 == 1.0 && c2 * c2 + s2 * s2 == 1.0
    requires m == TrigMatrix(c0, c1, c2, s0, s1, s2, axis)
    ensures IsRotation(m)
  {
    RowsAreImages(m);
    UnitProducts();
    RowProducts(c0, c1, c2, s0, s1, s2, axis, m, E0, E0);
    RowProducts(c0, c1, c2, s0, s1, s2, axis, m, E1, E1);
    RowProducts(c0, c1, c2, s0, s1, s2, axis, m, E2, E2);
    RowProducts(c0, c1, c2, s0, s1, s2, axis, m, E0, E1);
    RowProducts(c0, c1, c2, s0, s1, s2, axis, m, E0, E2);
    RowProducts(c0, c1, c2, s0, s1, s2, axis, m, E1, E2);
    OrthonormalRows(m);
  }

  lemma SpinByZero(axis: Axis, v: Vec3)
    ensures Spin(axis, 1.0, 0.0, v) == v
  {
  }

  lemma RotAboutSpins(lib: MathLib, axis: Axis, angle: real, v: Vec3)
    requires lib.Valid()
    ensures RowMul(v, RotAbout(lib, axis, angle)) == Spin(axis, lib.cos(angle), lib.sin(angle), v)
  {
    var c, s := lib.cos(angle), lib.sin(angle);
    SpinByZero(X, Spin(Y, 1.0, 0.0, Spin(Z, c, s, v)));
    match axis
    case X =>
      RowMulIsSpins(1.0, 1.0, c, 0.0, 0.0, s, ZYX, v);
      SpinByZero(Z, v);
      SpinByZero(Y, v);
    case Y =>
      RowMulIsSpins(1.0, c, 1.0, 0.0, s, 0.0, ZYX, v);
      SpinByZero(Z, v);
      SpinByZero(X, Spin(Y, c, s, v));
    case Z =>
      RowMulIsSpins(c, 1.0, 1.0, s, 0.0, 0.0, ZYX, v);
      SpinByZero(Y, Spin(Z, c, s, v));
      SpinByZero(X, Spin(Z, c, s, v));
  }

  /** Every sequence is the product of rotations about the axes it names, in the order in
      which it names them. */
  lemma EulerMatrixComposes(lib: MathLib, rot: Vec3, axis: AxisSequence)
    requires lib.Valid()
    ensures
      var (i, j, k) := Letters(axis);
      EulerToMatrix(lib, rot, axis)
        == Mul(Mul(RotAbout(lib, i, rot.x), RotAbout(lib, j, rot.y)), RotAbout(lib, k, rot.z))
  {
    var (i, j, k) := Letters(axis);
    var a, b, c := RotAbout(lib, i, rot.x), RotAbout(lib, j, rot.y), RotAbout(lib, k, rot.z);
    var m, n := EulerToMatrix(lib, rot, axis), Mul(Mul(a, b), c);
    ComposedRow(lib, rot, axis, a, b, c, E0);
    ComposedRow(lib, rot, axis, a, b, c, E1);
    ComposedRow(lib, rot, axis, a, b, c, E2);
    RowsAreImages(m);
    RowsAreImages(n);
  }

  lemma ComposedRow(lib: MathLib, rot: Vec3, axis: AxisSequence, a: Mat3, b: Mat3, c: Mat3, v: Vec3)
    requires lib.Valid()
    requires var (i, j, k) := Letters(axis);
             a == RotAbout(lib, i, rot.x) && b == RotAbout(lib, j, rot.y) && c == RotAbout(lib, k, rot.z)
    ensures RowMul(v, EulerToMatrix(lib, rot, axis)) == RowMul(v, Mul(Mul(a, b), c))
  {
    var (i, j, k) := Letters(axis);
    RowMulIsSpins(
      lib.cos(rot.x), lib.cos(rot.y), lib.cos(rot.z), lib.sin(rot.x), lib.sin(rot.y), lib.sin(rot.z), axis, v);
    RowMulAssociative(v, Mul(a, b), c);
    RowMulAssociative(v, a, b);
    RotAboutSpins(lib, i, rot.x, v);
    RotAboutSpins(lib, j, rot.y, RowMul(v, a));
    RotAboutSpins(lib, k, rot.z, RowMul(RowMul(v, a), b));
  }
}
