/**
 * The Displace operator (Operator/Displace.cs): slot 0 read at the input point moved
 * by the outputs of slots 1, 2 and 3.
 */
module OpDisplace {
  import opened Wrappers
  import opened ModuleBase
  import opened Utils

  /** `Displace()` and `Displace(input, x, y, z)` call `base(4)`; the X, Y and Z setters write slots 1, 2 and 3. */
  const SourceCount: nat := 4
  const XSlot: nat := 1
  const YSlot: nat := 2
  const ZSlot: nat := 3

  /** The field a Displace module computes: the displacements are read at the undisplaced point. */
  function Apply(source: Field, dx: Field, dy: Field, dz: Field): Field
  {
    (x: real, y: real, z: real) => source(x + dx(x, y, z), y + dy(x, y, z), z + dz(x, y, z))
  }

  /** `GetValue`: asserts all four slots are filled, then reads slot 0 at the displaced point. */
  function GetValue(slots: seq<Option<Field>>, x: real, y: real, z: real): (r: Result<real, Fault>)
    requires |slots| == SourceCount
    ensures r.Failure? <==> exists i :: 0 <= i < 4 && slots[i].None?
    ensures r.Failure? ==> r.error == MissingSource
    ensures r.Success? ==> r.value == slots[0].value(x + slots[1].value(x, y, z), y + slots[2].value(x, y, z), z + slots[3].value(x, y, z))
  {
    if !Filled(slots) then Failure(MissingSource)
    else Success(Apply(slots[0].value, slots[1].value, slots[2].value, slots[3].value)(x, y, z))
  }

  /** Displacements that are all zero at a point leave the source's value there unchanged. */
  lemma ZeroDisplacement(source: Field, dx: Field, dy: Field, dz: Field, x: real, y: real, z: real)
    requires dx(x, y, z) == 0.0 && dy(x, y, z) == 0.0 && dz(x, y, z) == 0.0
    ensures Apply(source, dx, dy, dz)(x, y, z) == source(x, y, z)
  {
  }

  /** The X, Y and Z setters assert a non-null module and each writes its own slot only. */
  lemma AxisSetters(slots: seq<Option<Field>>, value: Field)
    requires |slots| == SourceCount
    ensures SetSource(slots, XSlot, Some(value)) == Success([slots[0], Some(value), slots[2], slots[3]])
    ensures SetSource(slots, YSlot, Some(value)) == Success([slots[0], slots[1], Some(value), slots[3]])
    ensures SetSource(slots, ZSlot, Some(value)) == Success([slots[0], slots[1], slots[2], Some(value)])
    ensures SetSource(slots, XSlot, None).Failure?
  {
    assert slots[XSlot := Some(value)] == [slots[0], Some(value), slots[2], slots[3]];
    assert slots[YSlot := Some(value)] == [slots[0], slots[1], Some(value), slots[3]];
    assert slots[ZSlot := Some(value)] == [slots[0], slots[1], slots[2], Some(value)];
  }
}
