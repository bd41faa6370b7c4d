/** The Max operator (Operator/Max.cs): the larger of two sources at the same point. */
module OpMax {
  import opened Wrappers
  import opened ModuleBase
  import opened Utils

  /** `Max()` and `Max(lhs, rhs)` call `base(2)`. */
  const SourceCount: nat := 2

  /** The field a Max module computes: both sources are read at the input coordinates. */
  function Apply(lhs: Field, rhs: Field): Field
  {
    (x: real, y: real, z: real) => MaxReal(lhs(x, y, z), rhs(x, y, z))
  }

  /** `GetValue`: asserts both slots are filled; the result is at least either source and is one of them. */
  function GetValue(slots: seq<Option<Field>>, x: real, y: real, z: real): (r: Result<real, Fault>)
    requires |slots| == SourceCount
    ensures r.Failure? <==> slots[0].None? || slots[1].None?
    ensures r.Failure? ==> r.error == MissingSource
    ensures r.Success? ==> r.value >= slots[0].value(x, y, z) && r.value >= slots[1].value(x, y, z)
    ensures r.Success? ==> r.value == slots[0].value(x, y, z) || r.value == slots[1].value(x, y, z)
  {
    if !Filled(slots) then Failure(MissingSource) else Success(Apply(slots[0].value, slots[1].value)(x, y, z))
  }

  /** The order of the two sources does not matter. */
  lemma Symmetric(lhs: Field, rhs: Field, x: real, y: real, z: real)
    ensures Apply(lhs, rhs)(x, y, z) == Apply(rhs, lhs)(x, y, z)
  {
    assert Apply(lhs, rhs)(x, y, z) == MaxReal(lhs(x, y, z), rhs(x, y, z));
    assert Apply(rhs, lhs)(x, y, z) == MaxReal(rhs(x, y, z), lhs(x, y, z));
  }

  /** Max over the constants 2 and 3 is 3 everywhere. */
  lemma OfConstants(x: real, y: real, z: real)
    ensures GetValue([Some((a: real, b: real, c: real) => 2.0), Some((a: real, b: real, c: real) => 3.0)], x, y, z) == Success(3.0)
  {
  }
}
