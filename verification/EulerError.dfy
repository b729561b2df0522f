/** How far the singular branch of the conversion to Euler angles can be off. */
module EulerError {
  import opened Matrix
  import opened Euler
  import opened EulerLaws

  const BOUND := 0.00000003

  /** An upper bound of twice the squared tolerance. */
  const ETA := 0.0000000000000009

  predicate Near(x: real, y: real, bound: real) {
    -bound <= x - y <= bound
  }

  predicate NearVec(u: Vec3, v: Vec3) {
    Near(u.x, v.x, BOUND) && Near(u.y, v.y, BOUND) && Near(u.z, v.z, BOUND)
  }

  predicate NearMat(a: Mat3, b: Mat3) {
    NearVec(a.r0, b.r0) && NearVec(a.r1, b.r1) && NearVec(a.r2, b.r2)
  }

  lemma NonNegativeProduct(u: real, v: real, p: real)
    requires u >= 0.0 && v >= 0.0 && p == u * v
    ensures p >= 0.0
  {
  }

  lemma ProductOfBounded(x: real, y: real, b: real, d: real, p: real)
    requires p == x * y && -b <= x <= b && -d <= y <= d
    ensures -(b * d) <= p <= b * d
  {
    NonNegativeProduct(b - x, d + y, b * d + b * y - x * d - p);
    NonNegativeProduct(b + x, d - y, b * d - b * y + x * d - p);
    NonNegativeProduct(b - x, d - y, b * d - b * y - x * d + p);
    NonNegativeProduct(b + x, d + y, b * d + b * y + x * d + p);
  }

  lemma SquareGrows(x: real, y: real, sx: real, sy: real)
    requires 0.0 <= x < y && sx == x * x && sy == y * y
    ensures sx < sy
  {
    ProductIsPositive(y - x, y + x, sy - sx);
  }

  /** A number whose square is at most a square is bounded by its root. */
  lemma BoundFromSquare(v: real, b: real, s: real)
    requires b > 0.0 && s == v * v && s <= b * b
    ensures -b <= v <= b
  {
    if v > b { SquareGrows(b, v, b * b, s); }
    if v < -b { SquareGrows(b, -v, b * b, s); }
  }

  /** A number in the unit interval is at least as close to one as its square is. */
  lemma NearOneFromSquare(v: real, s: real, e: real)
    requires v >= 0.0 && s == v * v && 1.0 - e <= s <= 1.0
    ensures 1.0 - e <= v <= 1.0
  {
    BoundFromSquare(v, 1.0, s);
    NonNegativeProduct(v, 1.0 - v, v - s);
  }

  lemma SmallPair(x: real, y: real, sx: real, sy: real)
    requires sx == x * x && sy == y * y && IsZero(x) && IsZero(y)
    ensures sx + sy <= ETA
  {
    ProductOfBounded(x, x, SQRT_2_EPSILON, SQRT_2_EPSILON, sx);
    ProductOfBounded(y, y, SQRT_2_EPSILON, SQRT_2_EPSILON, sy);
  }

  lemma SmallFromSum(x: real, y: real)
    requires x * x + y * y <= ETA
    ensures Near(x, 0.0, BOUND) && Near(y, 0.0, BOUND)
  {
    SquareIsPositive(x, x * x);
    SquareIsPositive(y, y * y);
    BoundFromSquare(x, BOUND, x * x);
    BoundFromSquare(y, BOUND, y * y);
  }

  /** The larger of two factors bounds half their product's excess. */
  lemma ProductBelowSquares(x: real, y: real, p: real, s: real)
    requires p == x * y && x * x + y * y <= 2.0 * s
    ensures -s <= p <= s
  {
    SquareIsPositive(x - y, x * x + y * y - 2.0 * p);
    SquareIsPositive(x + y, x * x + y * y + 2.0 * p);
  }

  /** The middle cosine (or sine) and the radius of the unread pair are both within ETA of a unit. */
  lemma MiddleIsNearUnit(h: real, u: real, sum: real)
    requires h * h == 1.0 - sum && 0.0 <= sum <= ETA && u == if h >= 0.0 then 1.0 else -1.0
    ensures Near(h, u, ETA)
  {
    if h >= 0.0 { NearOneFromSquare(h, h * h, ETA); } else { NearOneFromSquare(-h, h * h, ETA); }
  }

  /** One unread entry: `q == m + g e` rebuilt as `g' e'`, with `w e' == e`. */
  lemma UnreadEntry(q: real, m: real, g: real, g': real, e: real, e': real, w: real)
    requires q == m + g * e && w * e' == e
    requires -ETA <= m <= ETA && Near(g, g', ETA) && (g' == 1.0 || g' == -1.0)
    requires 1.0 - ETA <= w <= 1.0 && -1.0 <= e' <= 1.0
    ensures Near(q, g' * e', BOUND) && Near(e, e', BOUND)
  {
    ProductOfBounded(w, e', 1.0, 1.0, e);
    ProductOfBounded(w - 1.0, e', ETA, 1.0, e - e');
    ProductOfBounded(g - g', e, ETA, 1.0, g * e - g' * e);
  }

  lemma UnitPair(w: real, x: real, y: real, e: real, f: real)
    requires w > 0.0 && w * x == e && w * y == f && w * w == e * e + f * f
    ensures x * x + y * y == 1.0
    ensures -1.0 <= x <= 1.0 && -1.0 <= y <= 1.0
  {
    var n := x * x + y * y;
    calc { w * w * n; == (w * x) * (w * x) + (w * y) * (w * y); == e * e + f * f; == w * w; }
    ProductIsPositive(w, w, w * w);
    Cancel(n, 1.0, w * w);
    SquareIsPositive(x, x * x);
    SquareIsPositive(y, y * y);
    BoundFromSquare(x, 1.0, x * x);
    BoundFromSquare(y, 1.0, y * y);
  }

  ghost predicate NearParts(k: Parts, t: Rest, x: Parts, y: Rest) {
    && Near(k.h, x.h, BOUND) && Near(k.a, x.a, BOUND) && Near(k.b, x.b, BOUND)
    && Near(k.c, x.c, BOUND) && Near(k.d, x.d, BOUND) && Near(k.e, x.e, BOUND) && Near(k.f, x.f, BOUND)
    && Near(t.p, y.p, BOUND) && Near(t.q, y.q, BOUND)
  }

  /** The products with the middle radius are all small. */
  lemma SingularIsSmall(k: Parts, sum: real)
    requires (IsZero(k.a) && IsZero(k.b)) || (IsZero(k.c) && IsZero(k.d))
    requires sum == k.a * k.a + k.b * k.b && sum == k.c * k.c + k.d * k.d
    ensures 0.0 <= sum <= ETA
    ensures Near(k.a, 0.0, BOUND) && Near(k.b, 0.0, BOUND) && Near(k.c, 0.0, BOUND) && Near(k.d, 0.0, BOUND)
    ensures 0.0 <= k.a * k.a <= ETA
    ensures -ETA <= k.d * k.a <= ETA && -ETA <= k.c * k.a <= ETA
  {
    var aa, bb, cc, dd := k.a * k.a, k.b * k.b, k.c * k.c, k.d * k.d;
    if IsZero(k.a) && IsZero(k.b) {
      SmallPair(k.a, k.b, aa, bb);
    } else {
      SmallPair(k.c, k.d, cc, dd);
    }
    SquareIsPositive(k.a, aa);
    SquareIsPositive(k.b, bb);
    SquareIsPositive(k.c, cc);
    SquareIsPositive(k.d, dd);
    SmallFromSum(k.a, k.b);
    SmallFromSum(k.c, k.d);
    SmallProduct(k.d, k.a, dd, aa);
    SmallProduct(k.c, k.a, cc, aa);
  }

  lemma SmallProduct(x: real, y: real, xx: real, yy: real)
    requires xx == x * x && yy == y * y && xx <= ETA && yy <= ETA
    ensures -ETA <= x * y <= ETA
  {
    ProductBelowSquares(x, y, x * y, ETA);
  }

  lemma RebuildBounds(k: Parts, sum: real, u: real, w: real, x: real, y: real)
    requires (IsZero(k.a) && IsZero(k.b)) || (IsZero(k.c) && IsZero(k.d))
    requires sum == k.a * k.a + k.b * k.b && sum == k.c * k.c + k.d * k.d && k.h * k.h == 1.0 - sum
    requires k.a * k.a + k.e * k.e + k.f * k.f == 1.0 && w >= 0.0 && w * w == k.e * k.e + k.f * k.f
    requires w * x == k.e && w * y == k.f && u == if k.h >= 0.0 then 1.0 else -1.0
    ensures Near(k.h, u, ETA) && 1.0 - ETA <= w <= 1.0 && -1.0 <= x <= 1.0 && -1.0 <= y <= 1.0
  {
    SingularIsSmall(k, sum);
    MiddleIsNearUnit(k.h, u, sum);
    NearOneFromSquare(w, w * w, ETA);
    UnitPair(w, x, y, k.e, k.f);
  }

  lemma UnreadEntries(
    p: real, q: real, m: real, n: real, g: real, g': real, e: real, f: real, e': real, f': real, w: real,
    p': real, q': real)
    requires p == m + g * e && q == n - g * f && w * e' == e && w * f' == f && p' == g' * e' && q' == -g' * f'
    requires -ETA <= m <= ETA && -ETA <= n <= ETA && Near(g, g', ETA) && (g' == 1.0 || g' == -1.0)
    requires 1.0 - ETA <= w <= 1.0 && -1.0 <= e' <= 1.0 && -1.0 <= f' <= 1.0
    ensures Near(p, p', BOUND) && Near(q, q', BOUND) && Near(e, e', BOUND) && Near(f, f', BOUND)
  {
    UnreadEntry(p, m, g, g', e, e', w);
    UnreadEntry(q, n, -g, -g', f, f', w);
  }

  lemma MiddleBounds(k: Parts, t: Rest, g: real, x: Parts, y: Rest, u: real, g': real, w: real)
    requires Related(k, t, g) && IsSingularRebuild(k, x, y, u, g', w)
    requires (IsZero(k.a) && IsZero(k.b)) || (IsZero(k.c) && IsZero(k.d))
    ensures Near(k.h, u, ETA) && 1.0 - ETA <= w <= 1.0 && -1.0 <= x.e <= 1.0 && -1.0 <= x.f <= 1.0
  {
    RebuildBounds(k, k.a * k.a + k.b * k.b, u, w, x.e, x.f);
  }

  lemma SmallParts(k: Parts, t: Rest, g: real)
    requires Related(k, t, g)
    requires (IsZero(k.a) && IsZero(k.b)) || (IsZero(k.c) && IsZero(k.d))
    ensures Near(k.a, 0.0, BOUND) && Near(k.b, 0.0, BOUND) && Near(k.c, 0.0, BOUND) && Near(k.d, 0.0, BOUND)
    ensures -ETA <= k.d * k.a <= ETA && -ETA <= k.c * k.a <= ETA
  {
    SingularIsSmall(k, k.a * k.a + k.b * k.b);
  }

  lemma UnreadAreNear(k: Parts, t: Rest, g: real, x: Parts, y: Rest, g': real, w: real)
    requires t.p == k.d * k.a + g * k.e && t.q == k.c * k.a - g * k.f
    requires w * x.e == k.e && w * x.f == k.f && y.p == g' * x.e && y.q == -g' * x.f
    requires -ETA <= k.d * k.a <= ETA && -ETA <= k.c * k.a <= ETA
    requires Near(g, g', ETA) && (g' == 1.0 || g' == -1.0)
    requires 1.0 - ETA <= w <= 1.0 && -1.0 <= x.e <= 1.0 && -1.0 <= x.f <= 1.0
    ensures Near(t.p, y.p, BOUND) && Near(t.q, y.q, BOUND) && Near(k.e, x.e, BOUND) && Near(k.f, x.f, BOUND)
  {
    UnreadEntries(t.p, t.q, k.d * k.a, k.c * k.a, g, g', k.e, k.f, x.e, x.f, w, y.p, y.q);
  }

  lemma RebuildIsNear(k: Parts, t: Rest, g: real, x: Parts, y: Rest, u: real, g': real, w: real)
    requires Related(k, t, g) && IsSingularRebuild(k, x, y, u, g', w)
    requires (g == k.h && g' == u) || (g == -k.h && g' == -u)
    requires (IsZero(k.a) && IsZero(k.b)) || (IsZero(k.c) && IsZero(k.d))
    ensures NearParts(k, t, x, y)
  {
    SmallParts(k, t, g);
    MiddleBounds(k, t, g, x, y, u, g', w);
    UnreadAreNear(k, t, g, x, y, g', w);
  }

  lemma PartsNearMatricesNear(m: Mat3, n: Mat3, axis: AxisSequence)
    requires NearParts(ReadParts(m, axis), ReadRest(m, axis), ReadParts(n, axis), ReadRest(n, axis))
    ensures NearMat(m, n)
  {
  }

  /** The near-singular error bound: whatever the tolerance test sends down the singular
      branch comes back with every entry within 3e-8, about root two times the tolerance. */
  lemma NearSingularErrorBound(lib: MathLib, m: Mat3, axis: AxisSequence)
    requires lib.Valid() && IsRotation(m) && TakesSingularBranch(m, axis)
    ensures NearMat(m, EulerToMatrix(lib, MatrixToEuler(lib, m, axis), axis))
  {
    var x, y, u, w := SingularRebuild(lib, m, axis);
    RotationIsRelated(m, axis);
    var k := ReadParts(m, axis);
    RebuildIsNear(k, ReadRest(m, axis), Signed(axis, k.h), x, y, u, Signed(axis, u), w);
    PartsNearMatricesNear(m, EulerToMatrix(lib, MatrixToEuler(lib, m, axis), axis), axis);
  }

  /** The round trip of any matrix at all: it is exact for the rotations for which it is, and for nothing
      else. */
  lemma AnyMatrixRoundTrip(lib: MathLib, m: Mat3, axis: AxisSequence)
    requires lib.Valid()
    ensures EulerToMatrix(lib, MatrixToEuler(lib, m, axis), axis) == m
       <==> (IsRotation(m) && (!TakesSingularBranch(m, axis) || IsExactlySingular(m, axis)))
  {
    if IsRotation(m) {
      EulerRoundTrip(lib, m, axis);
    } else {
      EulerMatrixIsRotation(lib, MatrixToEuler(lib, m, axis), axis);
    }
  }

  /** Euler angles to a matrix and back, for all angles: every entry survives within the
      bound, exactly so away from near-singular middle angles. */
  lemma AnglesRoundTrip(lib: MathLib, rot: Vec3, axis: AxisSequence)
    requires lib.Valid()
    ensures
      var m := EulerToMatrix(lib, rot, axis);
      var n := EulerToMatrix(lib, MatrixToEuler(lib, m, axis), axis);
      && NearMat(m, n)
      && (n == m <==> (!TakesSingularBranch(m, axis) || IsExactlySingular(m, axis)))
  {
    var m := EulerToMatrix(lib, rot, axis);
    EulerMatrixIsRotation(lib, rot, axis);
    EulerRoundTrip(lib, m, axis);
    if TakesSingularBranch(m, axis) {
      NearSingularErrorBound(lib, m, axis);
    }
  }

  // ------------------------------------------------------------------
  // The bound is needed: every sequence has rotations that do not come back.

  /** A turn about the middle axis alone, by an angle that is nearly singular for the sequence. */
  function NearlySingular(axis: AxisSequence, small: real, large: real): Mat3 {
    if IsProper(axis) then TrigMatrix(1.0, large, 1.0, 0.0, small, 0.0, axis)
    else TrigMatrix(1.0, small, 1.0, 0.0, large, 0.0, axis)
  }

  lemma NearlySingularParts(axis: AxisSequence, small: real, large: real)
    ensures
      var k := ReadParts(NearlySingular(axis, small, large), axis);
      k.a == 0.0 && k.b == small && k.c == 0.0 && k.d == small
  {
    if IsProper(axis) {
      PartsOfTrigMatrix(1.0, large, 1.0, 0.0, small, 0.0, axis);
    } else {
      PartsOfTrigMatrix(1.0, small, 1.0, 0.0, large, 0.0, axis);
    }
  }

  lemma NearlySingularIsRotation(axis: AxisSequence, small: real, large: real)
    requires small * small + large * large == 1.0
    ensures IsRotation(NearlySingular(axis, small, large))
  {
    var m := NearlySingular(axis, small, large);
    if IsProper(axis) {
      TrigMatrixIsRotation(1.0, large, 1.0, 0.0, small, 0.0, axis, m);
    } else {
      TrigMatrixIsRotation(1.0, small, 1.0, 0.0, large, 0.0, axis, m);
    }
  }

  lemma NearlySingularIsCaught(axis: AxisSequence, small: real, large: real)
    requires 0.0 < small < SQRT_2_EPSILON
    ensures
      var m := NearlySingular(axis, small, large);
      TakesSingularBranch(m, axis) && !IsExactlySingular(m, axis)
  {
    NearlySingularParts(axis, small, large);
  }

  const SMALL := 2000000000.0 / 1000000000000000001.0
  const LARGE := 999999999999999999.0 / 1000000000000000001.0

  lemma OnCircle()
    ensures SMALL * SMALL + LARGE * LARGE == 1.0 && 0.0 < SMALL < SQRT_2_EPSILON
  {
  }

  /** For every sequence, a rotation matrix that the round trip does not give back. */
  lemma SomeRotationIsLost(lib: MathLib, axis: AxisSequence)
    requires lib.Valid()
    ensures
      var m := NearlySingular(axis, SMALL, LARGE);
      && IsRotation(m) && TakesSingularBranch(m, axis) && !IsExactlySingular(m, axis)
      && EulerToMatrix(lib, MatrixToEuler(lib, m, axis), axis) != m
  {
    OnCircle();
    NearlySingularIsRotation(axis, SMALL, LARGE);
    NearlySingularIsCaught(axis, SMALL, LARGE);
    EulerRoundTrip(lib, NearlySingular(axis, SMALL, LARGE), axis);
  }

  // ------------------------------------------------------------------
  // What the tolerance test sees of the angles.

  predicate IsTiny(v: real) {
    -0.000000021073424255447 <= v < 0.000000021073424255447
  }

  lemma TestSays(m: Mat3, axis: AxisSequence, k: Parts)
    requires k == ReadParts(m, axis)
    ensures TakesSingularBranch(m, axis) <==> (IsTiny(k.a) && IsTiny(k.b)) || (IsTiny(k.c) && IsTiny(k.d))
  {
  }

  /** It asks whether a length `r` is tiny in both parts when turned by the first angle, or by the last. */
  lemma TestOfTurned(m: Mat3, axis: AxisSequence, c0: real, s0: real, c2: real, s2: real, r: real)
    requires ReadParts(m, axis) ==
             TrigParts(c0, s0, c2, s2, ReadParts(m, axis).h, r, Signed(axis, ReadParts(m, axis).h))
    ensures TakesSingularBranch(m, axis) <==>
              (IsTiny(s0 * r) && IsTiny(c0 * r)) || (IsTiny(s2 * r) && IsTiny(c2 * r))
  {
    TestSays(m, axis, ReadParts(m, axis));
  }

  /** That length is the sine of a proper middle angle, or the cosine of a Tait-Bryan one. */
  lemma CaughtByAngles(c0: real, c1: real, c2: real, s0: real, s1: real, s2: real, axis: AxisSequence, m: Mat3, r: real)
    requires m == TrigMatrix(c0, c1, c2, s0, s1, s2, axis) && r == if IsProper(axis) then s1 else c1
    ensures TakesSingularBranch(m, axis) <==>
              (IsTiny(s0 * r) && IsTiny(c0 * r)) || (IsTiny(s2 * r) && IsTiny(c2 * r))
  {
    PartsOfTrigMatrix(c0, c1, c2, s0, s1, s2, axis);
    TestOfTurned(m, axis, c0, s0, c2, s2, r);
  }
}
