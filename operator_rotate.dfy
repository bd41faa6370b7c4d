/**
 * The Rotate operator (Operator/Rotate.cs): its source read at the input point
 * rotated by three angles in degrees. The rotation matrix is cached in nine fields
 * and recomputed whenever an angle is set.
 */
module OpRotate {
  import opened Wrappers
  import opened ModuleBase
  import opened Utils

  /** All three constructors call `base(1)`. */
  const SourceCount: nat := 1

  /** The nine cached matrix entries: row k is (xk, yk, zk). */
  datatype Matrix = Matrix(x1: real, y1: real, z1: real, x2: real, y2: real, z2: real, x3: real, y3: real, z3: real)

  /** Every entry's field initialiser is 0. */
  const Zero: Matrix := Matrix(0.0, 0.0, 0.0, 0.0, 0.0, 0.0, 0.0, 0.0, 0.0)

  const Identity: Matrix := Matrix(1.0, 0.0, 0.0, 0.0, 1.0, 0.0, 0.0, 0.0, 1.0)

  /** The matrix `SetAngles` computes from the cosines and sines of the three angles. */
  function MatrixOf(u: Primitives, x: real, y: real, z: real): Matrix
  {
    var xc, yc, zc := u.cos(x * u.deg2Rad), u.cos(y * u.deg2Rad), u.cos(z * u.deg2Rad);
    var xs, ys, zs := u.sin(x * u.deg2Rad), u.sin(y * u.deg2Rad), u.sin(z * u.deg2Rad);
    Matrix(ys * xs * zs + yc * zc, xc * zs, ys * zc - yc * xs * zs,
           ys * xs * zc - yc * zs, xc * zc, -yc * xs * zc - ys * zs,
           -ys * xc, xs, yc * xc)
  }

  /** The rotated point: row k of the matrix dotted with (x, y, z). */
  function Transform(m: Matrix, x: real, y: real, z: real): (real, real, real)
  {
    (m.x1 * x + m.y1 * y + m.z1 * z, m.x2 * x + m.y2 * y + m.z2 * z, m.x3 * x + m.y3 * y + m.z3 * z)
  }

  /** The field a Rotate module computes: the source read once, at the rotated point. */
  function Apply(source: Field, m: Matrix): Field
  {
    (x: real, y: real, z: real) =>
      var p := Transform(m, x, y, z);
      source(p.0, p.1, p.2)
  }

  /** `GetValue`: asserts the slot is filled, then reads the source at the rotated point. */
  function GetValue(slots: seq<Option<Field>>, m: Matrix, x: real, y: real, z: real): (r: Result<real, Fault>)
    requires |slots| == SourceCount
    ensures r.Failure? <==> slots[0].None?
    ensures r.Failure? ==> r.error == MissingSource
    ensures r.Success? ==> var p := Transform(m, x, y, z); r.value == slots[0].value(p.0, p.1, p.2)
  {
    if !Filled(slots) then Failure(MissingSource) else Success(Apply(slots[0].value, m)(x, y, z))
  }

  /** With cos 0 = 1 and sin 0 = 0, angles (0, 0, 0) give the identity matrix. */
  lemma ZeroAnglesIdentity(u: Primitives)
    requires TrigAtZero(u)
    ensures MatrixOf(u, 0.0, 0.0, 0.0) == Identity
  {
    assert 0.0 * u.deg2Rad == 0.0;
  }

  /** The identity matrix leaves the point where it is. */
  lemma IdentityKeepsPoint(source: Field, x: real, y: real, z: real)
    ensures Apply(source, Identity)(x, y, z) == source(x, y, z)
  {
    assert Transform(Identity, x, y, z) == (x, y, z);
  }

  /** The all-zero matrix sends every point to the origin. */
  lemma ZeroSamplesOrigin(source: Field, x: real, y: real, z: real)
    ensures Apply(source, Zero)(x, y, z) == source(0.0, 0.0, 0.0)
  {
    assert Transform(Zero, x, y, z) == (0.0, 0.0, 0.0);
  }

  class Rotate {
    var xAngle: real
    var yAngle: real
    var zAngle: real
    var matrix: Matrix
    var sources: seq<Option<Field>>

    ghost predicate Valid()
      reads this
    {
      |sources| == SourceCount
    }

    /** `Rotate()`: calls `SetAngles(0, 0, 0)`; the slot is empty. */
    constructor (u: Primitives)
      ensures Valid() && sources == [None]
      ensures xAngle == 0.0 && yAngle == 0.0 && zAngle == 0.0 && matrix == MatrixOf(u, 0.0, 0.0, 0.0)
    {
      sources := [None];
      xAngle, yAngle, zAngle := 0.0, 0.0, 0.0;
      matrix := MatrixOf(u, 0.0, 0.0, 0.0);
    }

    /** `Rotate(input)` as written: it never calls `SetAngles`, so the matrix keeps its zero initialisers. */
    constructor FromSource(input: Option<Field>)
      ensures Valid() && sources == [input]
      ensures xAngle == 0.0 && yAngle == 0.0 && zAngle == 0.0 && matrix == Zero
    {
      sources := [input];
      xAngle, yAngle, zAngle := 0.0, 0.0, 0.0;
      matrix := Zero;
    }

    /** `Rotate(input)` as evidently intended: like `Rotate()`, it sets the angles (0, 0, 0). */
    constructor FromSourceCorrected(u: Primitives, input: Option<Field>)
      ensures Valid() && sources == [input]
      ensures xAngle == 0.0 && yAngle == 0.0 && zAngle == 0.0 && matrix == MatrixOf(u, 0.0, 0.0, 0.0)
    {
      sources := [input];
      xAngle, yAngle, zAngle := 0.0, 0.0, 0.0;
      matrix := MatrixOf(u, 0.0, 0.0, 0.0);
    }

    /** `Rotate(x, y, z, input)`. */
    constructor WithAngles(u: Primitives, x: real, y: real, z: real, input: Option<Field>)
      ensures Valid() && sources == [input]
      ensures xAngle == x && yAngle == y && zAngle == z && matrix == MatrixOf(u, x, y, z)
    {
      sources := [input];
      xAngle, yAngle, zAngle := x, y, z;
      matrix := MatrixOf(u, x, y, z);
    }

    /** `SetAngles`: recomputes all nine entries from the three angles, then stores the angles. */
    method SetAngles(u: Primitives, x: real, y: real, z: real)
      modifies this
      ensures xAngle == x && yAngle == y && zAngle == z && matrix == MatrixOf(u, x, y, z)
      ensures sources == old(sources)
    {
      matrix := MatrixOf(u, x, y, z);
      xAngle, yAngle, zAngle := x, y, z;
    }

    /** The `X` getter. */
    function X(): real
      reads this
    {
      xAngle
    }

    /** The `Y` getter. */
    function Y(): real
      reads this
    {
      yAngle
    }

    /** The `Z` getter as written: it returns the x angle. */
    function Z(): real
      reads this
    {
      xAngle
    }

    /** The `Z` getter as evidently intended. */
    function ZCorrected(): real
      reads this
    {
      zAngle
    }

    /** The `X` setter: the new x angle with the current y and z. */
    method SetX(u: Primitives, value: real)
      modifies this
      ensures xAngle == value && yAngle == old(yAngle) && zAngle == old(zAngle)
      ensures matrix == MatrixOf(u, value, old(yAngle), old(zAngle)) && sources == old(sources)
    {
      SetAngles(u, value, yAngle, zAngle);
    }

    /** The `Y` setter: the new y angle with the current x and z. */
    method SetY(u: Primitives, value: real)
      modifies this
      ensures yAngle == value && xAngle == old(xAngle) && zAngle == old(zAngle)
      ensures matrix == MatrixOf(u, old(xAngle), value, old(zAngle)) && sources == old(sources)
    {
      SetAngles(u, xAngle, value, zAngle);
    }

    /** The `Z` setter: the new z angle with the current x and y. */
    method SetZ(u: Primitives, value: real)
      modifies this
      ensures zAngle == value && xAngle == old(xAngle) && yAngle == old(yAngle)
      ensures matrix == MatrixOf(u, old(xAngle), old(yAngle), value) && sources == old(sources)
    {
      SetAngles(u, xAngle, yAngle, value);
    }

    /** `GetValue` on the current matrix and slot. */
    function Evaluate(x: real, y: real, z: real): Result<real, Fault>
      reads this
      requires Valid()
    {
      GetValue(sources, matrix, x, y, z)
    }
  }

  /**
   * Writing `Z = value` on a `Rotate()` and reading `Z` back yields 0, the x angle,
   * whatever the value written.
   */
  method ZReadsXAngle(u: Primitives, value: real) returns (z: real)
    ensures z == 0.0
  {
    var r := new Rotate(u);
    r.SetZ(u, value);
    z := r.Z();
  }

  /** With the corrected getter the same round trip yields the value written. */
  method ZCorrectedRoundTrip(u: Primitives, value: real) returns (z: real)
    ensures z == value
  {
    var r := new Rotate(u);
    r.SetZ(u, value);
    z := r.ZCorrected();
  }

  /**
   * A module built with `Rotate(input)` reads its source at the origin for every
   * input point until an angle is set; with the corrected constructor it reads the
   * source at the input point itself.
   */
  method FromSourceEvaluation(u: Primitives, source: Field, x: real, y: real, z: real) returns (asWritten: Result<real, Fault>, corrected: Result<real, Fault>)
    requires TrigAtZero(u)
    ensures asWritten == Success(source(0.0, 0.0, 0.0))
    ensures corrected == Success(source(x, y, z))
  {
    var r := new Rotate.FromSource(Some(source));
    ZeroSamplesOrigin(source, x, y, z);
    asWritten := r.Evaluate(x, y, z);
    var c := new Rotate.FromSourceCorrected(u, Some(source));
    ZeroAnglesIdentity(u);
    IdentityKeepsPoint(source, x, y, z);
    corrected := c.Evaluate(x, y, z);
  }
}
