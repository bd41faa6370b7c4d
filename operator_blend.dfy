/**
 * The Blend operator (Operator/Blend.cs): a linear blend of two sources, weighted by
 * a controller mapped from [-1, 1] to [0, 1].
 */
module OpBlend {
  import opened Wrappers
  import opened ModuleBase
  import opened Utils

  /** `Blend()` and `Blend(lhs, rhs, controller)` call `base(3)`; the controller is slot 2. */
  const SourceCount: nat := 3
  const ControllerSlot: nat := 2

  /** The weight given to the second source: the controller mapped from [-1, 1] to [0, 1]. */
  function Weight(controller: real): (w: real)
    ensures controller == -1.0 ==> w == 0.0
    ensures controller == 1.0 ==> w == 1.0
    ensures -1.0 <= controller <= 1.0 ==> 0.0 <= w <= 1.0
  {
    (controller + 1.0) / 2.0
  }

  /** The field a Blend module computes: all three sources are read at the input coordinates. */
  function Apply(lerp: (real, real, real) -> real, lhs: Field, rhs: Field, controller: Field): Field
  {
    (x: real, y: real, z: real) => lerp(lhs(x, y, z), rhs(x, y, z), Weight(controller(x, y, z)))
  }

  /** `GetValue`: asserts all three slots are filled, then blends slot 0 into slot 1 by slot 2. */
  function GetValue(u: Primitives, slots: seq<Option<Field>>, x: real, y: real, z: real): (r: Result<real, Fault>)
    requires |slots| == SourceCount
    ensures r.Failure? <==> slots[0].None? || slots[1].None? || slots[2].None?
    ensures r.Failure? ==> r.error == MissingSource
    ensures r.Success? ==> r.value == u.interpolateLinear(slots[0].value(x, y, z), slots[1].value(x, y, z), Weight(slots[2].value(x, y, z)))
  {
    if !Filled(slots) then Failure(MissingSource)
    else Success(Apply(u.interpolateLinear, slots[0].value, slots[1].value, slots[2].value)(x, y, z))
  }

  /**
   * With a linear interpolator, a controller of -1 yields the first source, +1 the
   * second, and 0 their mean.
   */
  lemma Ends(u: Primitives, lhs: Field, rhs: Field, controller: Field, x: real, y: real, z: real)
    requires LinearInterpolation(u)
    ensures controller(x, y, z) == -1.0 ==> Apply(u.interpolateLinear, lhs, rhs, controller)(x, y, z) == lhs(x, y, z)
    ensures controller(x, y, z) == 1.0 ==> Apply(u.interpolateLinear, lhs, rhs, controller)(x, y, z) == rhs(x, y, z)
    ensures controller(x, y, z) == 0.0 ==> Apply(u.interpolateLinear, lhs, rhs, controller)(x, y, z) == (lhs(x, y, z) + rhs(x, y, z)) / 2.0
  {
    var a, b, c := lhs(x, y, z), rhs(x, y, z), controller(x, y, z);
    assert u.interpolateLinear(a, b, Weight(c)) == a + Weight(c) * (b - a);
  }

  /** The `Controller` setter asserts a non-null module and writes slot 2 only. */
  lemma ControllerSetter(slots: seq<Option<Field>>, value: Option<Field>)
    requires |slots| == SourceCount
    ensures SetSource(slots, ControllerSlot, value).Success? <==> value.Some?
    ensures value.Some? ==> SetSource(slots, ControllerSlot, value).value == [slots[0], slots[1], value]
  {
  }
}
