/** The Rotation class: two representations of one rotation, each filled in when first asked for. */
module Rotations {
  import opened Matrix
  import opened Euler
  import opened EulerLaws
  import opened EulerError
  import opened Wrappers

  /** The state of a Rotation object. */
  datatype Cache = Cache(rot: Option<Vec3>, rmat: Option<Mat3>)

  const DEFAULT := Cache(Some(Vec3(0.0, 0.0, 0.0)), Some(IDENTITY))

  ghost predicate Present(c: Cache) {
    c.rot.Some? || c.rmat.Some?
  }

  /** The class's own rule: something is present, and if both are, they are the same rotation. */
  ghost predicate Coherent(lib: MathLib, c: Cache) {
    Present(c) && (c.rot.Some? && c.rmat.Some? ==> c.rmat.value == EulerToMatrix(lib, c.rot.value, ZYX))
  }

  /** The rule up to the tolerance of the singular branch. */
  ghost predicate NearlyCoherent(lib: MathLib, c: Cache) {
    Present(c) && (c.rot.Some? && c.rmat.Some? ==> NearMat(c.rmat.value, EulerToMatrix(lib, c.rot.value, ZYX)))
  }

  ghost predicate HoldsRotation(c: Cache) {
    c.rmat.Some? ==> IsRotation(c.rmat.value)
  }

  /** The matrix a reader sees. */
  function Meaning(lib: MathLib, c: Cache): Mat3
    requires Present(c)
  {
    if c.rmat.Some? then c.rmat.value else EulerToMatrix(lib, c.rot.value, ZYX)
  }

  /** The angles a reader sees. */
  function Angles(lib: MathLib, c: Cache): Vec3
    requires Present(c)
  {
    if c.rot.Some? then c.rot.value else MatrixToEuler(lib, c.rmat.value, ZYX)
  }

  function WithAngles(lib: MathLib, c: Cache): Cache
    requires Present(c)
  {
    c.(rot := Some(Angles(lib, c)))
  }

  function WithMatrix(lib: MathLib, c: Cache): Cache
    requires Present(c)
  {
    c.(rmat := Some(Meaning(lib, c)))
  }

  datatype Index = I0 | I1 | I2

  function Entry(v: Vec3, i: Index): real {
    match i case I0 => v.x case I1 => v.y case I2 => v.z
  }

  function Replace(v: Vec3, i: Index, value: real): Vec3 {
    match i case I0 => v.(x := value) case I1 => v.(y := value) case I2 => v.(z := value)
  }

  /** Index 0 is the first angle, 1 the second and 2 the third. */
  lemma IndexSays(v: Vec3, value: real)
    ensures Entry(v, I0) == v.x && Entry(v, I1) == v.y && Entry(v, I2) == v.z
    ensures Replace(v, I0, value) == Vec3(value, v.y, v.z) && Replace(v, I1, value) == Vec3(v.x, value, v.z)
    ensures Replace(v, I2, value) == Vec3(v.x, v.y, value)
  {
  }

  function Written(lib: MathLib, c: Cache, i: Index, value: real): Cache
    requires Present(c)
  {
    Cache(Some(Replace(Angles(lib, c), i, value)), None)
  }

  class Rotation {
    const lib: MathLib
    var rot: Option<Vec3>
    var rmat: Option<Mat3>

    function State(): Cache
      reads this
    {
      Cache(rot, rmat)
    }

    ghost predicate Valid()
      reads this
    {
      Present(State())
    }

    constructor (lib: MathLib)
      ensures Valid() && this.lib == lib
      ensures State() == DEFAULT
      ensures rot == Some(Vec3(0.0, 0.0, 0.0)) && rmat == Some(IDENTITY)
    {
      this.lib := lib;
      rot := DEFAULT.rot;
      rmat := DEFAULT.rmat;
    }

    constructor FromEuler(lib: MathLib, angles: Vec3, axis: AxisSequence)
      ensures Valid() && this.lib == lib
      ensures State() == FromEulerState(lib, angles, axis)
      ensures Meaning(lib, State()) == EulerToMatrix(lib, angles, axis)
    {
      this.lib := lib;
      if axis == ZYX {
        rot, rmat := Some(angles), None;
      } else {
        rot, rmat := None, Some(EulerToMatrix(lib, angles, axis));
      }
    }

    constructor FromMatrix(lib: MathLib, m: Mat3)
      ensures Valid() && this.lib == lib
      ensures State() == Cache(None, Some(m))
    {
      this.lib := lib;
      rot, rmat := None, Some(m);
    }

    /** Rotation::rotMatrix. */
    method RotMatrix() returns (m: Mat3)
      requires Valid()
      modifies this`rmat
      ensures Valid() && m == Meaning(lib, old(State()))
      ensures State() == WithMatrix(lib, old(State()))
    {
      if rmat.None? {
        rmat := Some(EulerToMatrix(lib, rot.value, ZYX));
      }
      m := rmat.value;
    }

    /** Rotation::rotEuler. */
    method RotEuler(axis: AxisSequence) returns (angles: Vec3)
      requires Valid()
      modifies this
      ensures Valid()
      ensures axis == ZYX ==> angles == Angles(lib, old(State())) && State() == WithAngles(lib, old(State()))
      ensures axis != ZYX ==>
                && angles == MatrixToEuler(lib, Meaning(lib, old(State())), axis)
                && State() == WithMatrix(lib, old(State()))
    {
      if axis == ZYX {
        if rot.None? {
          rot := Some(MatrixToEuler(lib, rmat.value, ZYX));
        }
        angles := rot.value;
      } else {
        var m := RotMatrix();
        angles := MatrixToEuler(lib, m, axis);
      }
    }

    /** A write through Rotation::rot(index). */
    method SetRot(i: Index, value: real)
      requires Valid()
      modifies this
      ensures Valid() && State() == Written(lib, old(State()), i, value)
    {
      var _ := RotEuler(ZYX);
      rmat := None;
      rot := Some(Replace(rot.value, i, value));
    }

    /** Rotation::appliedTo(Rotation). */
    method AppliedTo(target: Rotation) returns (r: Rotation)
      requires Valid() && target.Valid() && target.lib == lib
      modifies this`rmat, target`rmat
      ensures Valid() && target.Valid() && r.Valid() && fresh(r)
      ensures State() == WithMatrix(lib, old(State())) && target.State() == WithMatrix(lib, old(target.State()))
      ensures r.State() == Cache(None, Some(Mul(Meaning(lib, old(State())), Meaning(lib, old(target.State())))))
    {
      var a := RotMatrix();
      var b := target.RotMatrix();
      r := new Rotation.FromMatrix(lib, Mul(a, b));
    }

    /** Rotation::appliedTo(Point). */
    method AppliedToPoint(p: Vec3) returns (q: Vec3)
      requires Valid()
      modifies this`rmat
      ensures Valid() && State() == WithMatrix(lib, old(State()))
      ensures q == MulVec(Meaning(lib, old(State())), p)
    {
      var a := RotMatrix();
      q := MulVec(a, p);
    }

    /** Rotation::inversed. */
    method Inversed() returns (r: Rotation)
      requires Valid()
      modifies this`rmat
      ensures Valid() && r.Valid() && fresh(r)
      ensures State() == WithMatrix(lib, old(State()))
      ensures r.State() == Cache(None, Some(Transpose(Meaning(lib, old(State())))))
    {
      var a := RotMatrix();
      r := new Rotation.FromMatrix(lib, Transpose(a));
    }
  }

  lemma IdentityIsRotation()
    ensures IsRotation(IDENTITY)
  {
    UnitProducts();
    OrthonormalRows(Mat3(E0, E1, E2));
  }

  lemma DefaultHoldsRotation()
    ensures HoldsRotation(DEFAULT)
  {
    IdentityIsRotation();
  }

  /** Composing and inverting Rotation objects stays within the rotation matrices. */
  lemma OperationsStayRotations(lib: MathLib, c: Cache, d: Cache)
    requires lib.Valid() && Present(c) && Present(d) && HoldsRotation(c) && HoldsRotation(d)
    ensures IsRotation(Meaning(lib, c))
    ensures HoldsRotation(Cache(None, Some(Mul(Meaning(lib, c), Meaning(lib, d)))))
    ensures HoldsRotation(Cache(None, Some(Transpose(Meaning(lib, c)))))
  {
    MeaningIsRotation(lib, c);
    MeaningIsRotation(lib, d);
    RotationsCompose(Meaning(lib, c), Meaning(lib, d));
    RotationInverts(Meaning(lib, c));
  }

  lemma MeaningIsRotation(lib: MathLib, c: Cache)
    requires lib.Valid() && Present(c) && HoldsRotation(c)
    ensures IsRotation(Meaning(lib, c))
  {
    if c.rmat.None? {
      EulerMatrixIsRotation(lib, c.rot.value, ZYX);
    }
  }

  lemma DefaultAgrees(lib: MathLib)
    requires lib.Valid()
    ensures EulerToMatrix(lib, Vec3(0.0, 0.0, 0.0), ZYX) == IDENTITY
  {
  }

  /** What the constructor from angles leaves. */
  function FromEulerState(lib: MathLib, angles: Vec3, axis: AxisSequence): Cache {
    if axis == ZYX then Cache(Some(angles), None) else Cache(None, Some(EulerToMatrix(lib, angles, axis)))
  }

  // ------------------------------------------------------------------
  // Runs of reads and writes.

  datatype Op = ReadMatrix | ReadAngles(axis: AxisSequence) | Write(i: Index, value: real)

  function Step(lib: MathLib, c: Cache, op: Op): (d: Cache)
    requires Present(c)
    ensures Present(d)
  {
    match op
    case ReadMatrix => WithMatrix(lib, c)
    case ReadAngles(axis) => if axis == ZYX then WithAngles(lib, c) else WithMatrix(lib, c)
    case Write(i, value) => Written(lib, c, i, value)
  }

  function Run(lib: MathLib, c: Cache, ops: seq<Op>): (d: Cache)
    requires Present(c)
    ensures Present(d)
    decreases |ops|
  {
    if ops == [] then c else Run(lib, Step(lib, c, ops[0]), ops[1..])
  }

  /** Reading the angles cannot lose anything: they are there, or the matrix determines them. */
  ghost predicate Recoverable(c: Cache)
    requires Present(c)
  {
    || c.rot.Some?
    || (IsRotation(c.rmat.value)
        && (!TakesSingularBranch(c.rmat.value, ZYX) || IsExactlySingular(c.rmat.value, ZYX)))
  }

  ghost predicate Sound(lib: MathLib, c: Cache) {
    Coherent(lib, c) && HoldsRotation(c) && Recoverable(c)
  }

  lemma StepKeepsSound(lib: MathLib, c: Cache, op: Op)
    requires lib.Valid() && Sound(lib, c)
    ensures Sound(lib, Step(lib, c, op))
    ensures !op.Write? ==> Meaning(lib, Step(lib, c, op)) == Meaning(lib, c)
    ensures op == ReadAngles(ZYX) ==> EulerToMatrix(lib, Angles(lib, c), ZYX) == Meaning(lib, c)
  {
    if c.rot.Some? {
      EulerMatrixIsRotation(lib, c.rot.value, ZYX);
    } else {
      EulerRoundTrip(lib, c.rmat.value, ZYX);
    }
  }

  lemma {:induction false} RunKeepsSound(lib: MathLib, c: Cache, ops: seq<Op>)
    requires lib.Valid() && Sound(lib, c)
    ensures Sound(lib, Run(lib, c, ops))
    ensures (forall op :: op in ops ==> !op.Write?) ==> Meaning(lib, Run(lib, c, ops)) == Meaning(lib, c)
    decreases |ops|
  {
    if ops != [] {
      StepKeepsSound(lib, c, ops[0]);
      RunKeepsSound(lib, Step(lib, c, ops[0]), ops[1..]);
      assert ops[0] in ops;
    }
  }

  lemma UnrecoverableRead(lib: MathLib, c: Cache)
    requires lib.Valid() && Present(c) && !Recoverable(c)
    ensures !Coherent(lib, Run(lib, c, [ReadAngles(ZYX)]))
  {
    AnyMatrixRoundTrip(lib, c.rmat.value, ZYX);
    assert Run(lib, c, [ReadAngles(ZYX)]) == Step(lib, c, ReadAngles(ZYX));
  }

  lemma RecoverableIsSound(lib: MathLib, c: Cache)
    requires lib.Valid() && Coherent(lib, c) && Recoverable(c)
    ensures Sound(lib, c)
  {
    if c.rot.Some? {
      EulerMatrixIsRotation(lib, c.rot.value, ZYX);
    }
  }

  /** Whatever matrix it was built from, the cache rule holds in every state of every run exactly when it
      holds at the start and the start is recoverable, which is a test of the stored matrix alone. */
  lemma CoherentInEveryRun(lib: MathLib, c: Cache)
    requires lib.Valid() && Present(c)
    ensures (forall ops :: Coherent(lib, Run(lib, c, ops))) <==> (Coherent(lib, c) && Recoverable(c))
  {
    if Coherent(lib, c) && Recoverable(c) {
      RecoverableIsSound(lib, c);
      forall ops
        ensures Coherent(lib, Run(lib, c, ops))
      {
        RunKeepsSound(lib, c, ops);
      }
    } else if Coherent(lib, c) {
      UnrecoverableRead(lib, c);
    } else {
      assert Run(lib, c, []) == c;
    }
  }

  /** And there are such matrices: built from this one, an object breaks the rule at the first read
      of its angles. */
  lemma ReadBreaksRule(lib: MathLib)
    requires lib.Valid()
    ensures
      var m := NearlySingular(ZYX, SMALL, LARGE);
      && IsRotation(m) && Coherent(lib, Cache(None, Some(m)))
      && !Coherent(lib, Run(lib, Cache(None, Some(m)), [ReadAngles(ZYX)]))
  {
    SomeRotationIsLost(lib, ZYX);
    UnrecoverableRead(lib, Cache(None, Some(NearlySingular(ZYX, SMALL, LARGE))));
  }

  /** What is built from angles stands for these angles in their own sequence, of all twelve. */
  lemma FromEulerMeans(lib: MathLib, angles: Vec3, axis: AxisSequence)
    ensures Present(FromEulerState(lib, angles, axis))
    ensures Meaning(lib, FromEulerState(lib, angles, axis)) == EulerToMatrix(lib, angles, axis)
  {
  }

  /** Every way of building a Rotation starts coherent. The default and the ZYX angles are also
      recoverable, so only a matrix, or angles of another sequence, can start otherwise. */
  lemma ConstructedStates(lib: MathLib, angles: Vec3, axis: AxisSequence, m: Mat3)
    requires lib.Valid() && IsRotation(m)
    ensures Sound(lib, FromEulerState(lib, angles, ZYX))
    ensures Coherent(lib, FromEulerState(lib, angles, axis)) && HoldsRotation(FromEulerState(lib, angles, axis))
    ensures Coherent(lib, Cache(None, Some(m))) && HoldsRotation(Cache(None, Some(m)))
  {
    EulerMatrixIsRotation(lib, angles, axis);
  }

  lemma DefaultState(lib: MathLib)
    requires lib.Valid()
    ensures Coherent(lib, DEFAULT) && Recoverable(DEFAULT)
  {
    DefaultAgrees(lib);
  }

  lemma StepStaysNear(lib: MathLib, c: Cache, op: Op)
    requires lib.Valid() && NearlyCoherent(lib, c) && HoldsRotation(c)
    ensures NearlyCoherent(lib, Step(lib, c, op)) && HoldsRotation(Step(lib, c, op))
  {
    if c.rot.Some? {
      EulerMatrixIsRotation(lib, c.rot.value, ZYX);
    } else {
      EulerRoundTrip(lib, c.rmat.value, ZYX);
      if TakesSingularBranch(c.rmat.value, ZYX) {
        NearSingularErrorBound(lib, c.rmat.value, ZYX);
      }
    }
  }

  /** For every rotation matrix, caught or not: in every state of every run the two representations, when
      both are present, are within the near-singular bound of each other. */
  lemma {:induction false} NearInEveryRun(lib: MathLib, c: Cache, ops: seq<Op>)
    requires lib.Valid() && NearlyCoherent(lib, c) && HoldsRotation(c)
    ensures NearlyCoherent(lib, Run(lib, c, ops)) && HoldsRotation(Run(lib, c, ops))
    decreases |ops|
  {
    if ops != [] {
      StepStaysNear(lib, c, ops[0]);
      NearInEveryRun(lib, Step(lib, c, ops[0]), ops[1..]);
    }
  }

  /** After a write, a reader finds the written angle and the other two as they were. */
  lemma WriteIsReadBack(lib: MathLib, c: Cache, i: Index, value: real, j: Index)
    requires Present(c)
    ensures
      var d := Step(lib, c, Write(i, value));
      && Entry(Angles(lib, d), j) == (if i == j then value else Entry(Angles(lib, c), j))
      && Meaning(lib, d) == EulerToMatrix(lib, Angles(lib, d), ZYX)
  {
  }
}
