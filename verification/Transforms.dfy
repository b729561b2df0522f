/** Rigid transforms: a point, and a rotation applied before it. */
module Transforms {
  import opened Matrix
  import opened Euler
  import opened EulerLaws

  datatype Transform = Transform(pos: Vec3, rot: Mat3)

  const NO_MOVE := Transform(Vec3(0.0, 0.0, 0.0), IDENTITY)

  ghost predicate IsRigid(t: Transform) {
    IsRotation(t.rot)
  }

  /** Transform::appliedTo(Point). */
  function ApplyToPoint(t: Transform, p: Vec3): Vec3 {
    Add(MulVec(t.rot, p), t.pos)
  }

  /** Transform::appliedTo(Transform). */
  function Apply(t: Transform, u: Transform): Transform {
    Transform(ApplyToPoint(t, u.pos), Mul(t.rot, u.rot))
  }

  /** Transform::inversed. */
  function Inversed(t: Transform): Transform {
    var m := Transpose(t.rot);
    Transform(
      Vec3(
        -m.r0.x * t.pos.x - m.r0.y * t.pos.y - m.r0.z * t.pos.z,
        -m.r1.x * t.pos.x - m.r1.y * t.pos.y - m.r1.z * t.pos.z,
        -m.r2.x * t.pos.x - m.r2.y * t.pos.y - m.r2.z * t.pos.z),
      m)
  }

  function Minus(u: Vec3, v: Vec3): Vec3 {
    Vec3(u.x - v.x, u.y - v.y, u.z - v.z)
  }

  lemma DotDistributes(u: Vec3, v: Vec3, w: Vec3)
    ensures Dot(u, Add(v, w)) == Dot(u, v) + Dot(u, w)
  {
  }

  lemma MulVecDistributes(a: Mat3, v: Vec3, w: Vec3)
    ensures MulVec(a, Add(v, w)) == Add(MulVec(a, v), MulVec(a, w))
  {
    DotDistributes(a.r0, v, w);
    DotDistributes(a.r1, v, w);
    DotDistributes(a.r2, v, w);
  }

  lemma DotOfMinus(u: Vec3, v: Vec3, w: Vec3)
    ensures Dot(u, Minus(v, w)) == Dot(u, v) - Dot(u, w)
  {
  }

  lemma AddAssociative(u: Vec3, v: Vec3, w: Vec3)
    ensures Add(Add(u, v), w) == Add(u, Add(v, w))
  {
  }

  /** Applying a composed transform is applying its parts in turn. */
  lemma ComposedAppliesInTurn(t: Transform, u: Transform, p: Vec3)
    ensures ApplyToPoint(Apply(t, u), p) == ApplyToPoint(t, ApplyToPoint(u, p))
  {
    calc {
      ApplyToPoint(Apply(t, u), p);
      Add(MulVec(Mul(t.rot, u.rot), p), Add(MulVec(t.rot, u.pos), t.pos));
      { MulVecAssociative(t.rot, u.rot, p); }
      Add(MulVec(t.rot, MulVec(u.rot, p)), Add(MulVec(t.rot, u.pos), t.pos));
      { AddAssociative(MulVec(t.rot, MulVec(u.rot, p)), MulVec(t.rot, u.pos), t.pos); }
      Add(Add(MulVec(t.rot, MulVec(u.rot, p)), MulVec(t.rot, u.pos)), t.pos);
      { MulVecDistributes(t.rot, MulVec(u.rot, p), u.pos); }
      ApplyToPoint(t, ApplyToPoint(u, p));
    }
  }

  lemma ApplyAssociative(t: Transform, u: Transform, v: Transform)
    ensures Apply(Apply(t, u), v) == Apply(t, Apply(u, v))
  {
    ComposedAppliesInTurn(t, u, v.pos);
    MulAssociative(t.rot, u.rot, v.rot);
  }

  /** The position of the inverse is the turned back position, negated. */
  lemma InversedPosition(t: Transform)
    ensures Add(MulVec(Transpose(t.rot), t.pos), Inversed(t).pos) == Vec3(0.0, 0.0, 0.0)
  {
  }

  lemma MulVecOfNegated(a: Mat3, v: Vec3, w: Vec3)
    requires Add(v, w) == Vec3(0.0, 0.0, 0.0)
    ensures Add(MulVec(a, v), MulVec(a, w)) == Vec3(0.0, 0.0, 0.0)
  {
    MulVecDistributes(a, v, w);
  }

  lemma InverseOnTheRight(t: Transform)
    requires IsRigid(t)
    ensures Apply(t, Inversed(t)) == NO_MOVE
  {
    var back := MulVec(Transpose(t.rot), t.pos);
    InversedPosition(t);
    MulVecOfNegated(t.rot, back, Inversed(t).pos);
    MulVecAssociative(t.rot, Transpose(t.rot), t.pos);
    IdentityIsNeutral(t.rot, t.pos);
  }

  lemma InverseOnTheLeft(t: Transform)
    requires IsRigid(t)
    ensures Apply(Inversed(t), t) == NO_MOVE
  {
    RotationEqualsCofactors(t.rot);
    InversedPosition(t);
  }

  /** A transform and its inverse undo each other, on either side and on every point. */
  lemma InverseUndoes(t: Transform, p: Vec3)
    requires IsRigid(t)
    ensures Apply(t, Inversed(t)) == NO_MOVE == Apply(Inversed(t), t)
    ensures ApplyToPoint(t, ApplyToPoint(Inversed(t), p)) == p
    ensures ApplyToPoint(Inversed(t), ApplyToPoint(t, p)) == p
  {
    InverseOnTheRight(t);
    InverseOnTheLeft(t);
    ComposedAppliesInTurn(t, Inversed(t), p);
    ComposedAppliesInTurn(Inversed(t), t, p);
    IdentityIsNeutral(IDENTITY, p);
  }

  /** Rigid transforms are closed under composition and inversion. */
  lemma RigidIsClosed(t: Transform, u: Transform)
    requires IsRigid(t) && IsRigid(u)
    ensures IsRigid(Apply(t, u)) && IsRigid(Inversed(t))
  {
    RotationsCompose(t.rot, u.rot);
    RotationInverts(t.rot);
  }

  lemma Neutral(t: Transform)
    ensures Apply(NO_MOVE, t) == t && Apply(t, NO_MOVE) == t
  {
    IdentityIsNeutral(t.rot, t.pos);
  }

  /** The inverse of a composition composes the inverses the other way round. */
  lemma InverseOfComposition(t: Transform, u: Transform)
    requires IsRigid(t) && IsRigid(u)
    ensures Inversed(Apply(t, u)) == Apply(Inversed(u), Inversed(t))
  {
    var c := Apply(t, u);
    var i := Apply(Inversed(u), Inversed(t));
    RigidIsClosed(t, u);
    calc {
      Apply(c, i);
      { ApplyAssociative(t, u, i); }
      Apply(t, Apply(u, i));
      { ApplyAssociative(u, Inversed(u), Inversed(t)); InverseOnTheRight(u); Neutral(Inversed(t)); }
      Apply(t, Inversed(t));
      { InverseOnTheRight(t); }
      NO_MOVE;
    }
    calc {
      Inversed(c);
      { Neutral(Inversed(c)); }
      Apply(Inversed(c), Apply(c, i));
      { ApplyAssociative(Inversed(c), c, i); InverseOnTheLeft(c); Neutral(i); }
      i;
    }
  }

  lemma DistanceOfImages(t: Transform, p: Vec3, q: Vec3)
    ensures Minus(ApplyToPoint(t, p), ApplyToPoint(t, q)) == MulVec(t.rot, Minus(p, q))
  {
    DotOfMinus(t.rot.r0, p, q);
    DotOfMinus(t.rot.r1, p, q);
    DotOfMinus(t.rot.r2, p, q);
  }

  /** Rigid transforms keep distances, and the handedness of any two directions. */
  lemma RigidKeepsShape(t: Transform, p: Vec3, q: Vec3)
    requires IsRigid(t)
    ensures
      var d, e := Minus(p, q), Minus(ApplyToPoint(t, p), ApplyToPoint(t, q));
      Dot(e, e) == Dot(d, d)
    ensures Cross(MulVec(t.rot, p), MulVec(t.rot, q)) == MulVec(t.rot, Cross(p, q))
  {
    var s := Transpose(t.rot);
    assert Transpose(s) == t.rot;
    RotationInverts(t.rot);
    DistanceOfImages(t, p, q);
    RowMulIsMulVec(Minus(p, q), s);
    RotationKeepsDot(Minus(p, q), Minus(p, q), s);
    RowMulIsMulVec(p, s);
    RowMulIsMulVec(q, s);
    RowMulIsMulVec(Cross(p, q), s);
    RotationKeepsCross(p, q, s);
  }

  /** Whatever is built from Euler angles in any of the twelve sequences is rigid. */
  lemma EulerTransformIsRigid(lib: MathLib, pos: Vec3, rot: Vec3, axis: AxisSequence)
    requires lib.Valid()
    ensures IsRigid(Transform(pos, EulerToMatrix(lib, rot, axis)))
  {
    EulerMatrixIsRotation(lib, rot, axis);
  }
}
