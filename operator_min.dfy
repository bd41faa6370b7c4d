/** The Min operator (Operator/Min.cs): the smaller of two sources at the same point. */
module OpMin {
  import opened Wrappers
  import opened ModuleBase
  import opened Utils

  /** `Min()` and `Min(lhs, rhs)` call `base(2)`. */
  const SourceCount: nat := 2

  /** The field a Min module computes: both sources are read at the input coordinates. */
  function Apply(lhs: Field, rhs: Field): Field
  {
    (x: real, y: real, z: real) => MinReal(lhs(x, y, z), rhs(x, y, z))
  }

  /** `GetValue`: asserts both slots are filled; the result is at most either source and is one of them. */
  function GetValue(slots: seq<Option<Field>>, x: real, y: real, z: real): (r: Result<real, Fault>)
    requires |slots| == SourceCount
    ensures r.Failure? <==> slots[0].None? || slots[1].None?
    ensures r.Failure? ==> r.error == MissingSource
    ensures r.Success? ==> r.value <= slots[0].value(x, y, z) && r.value <= slots[1].value(x, y, z)
    ensures r.Success? ==> r.value == slots[0].value(x, y, z) || r.value == slots[1].value(x, y, z)
  {
    if !Filled(slots) then Failure(MissingSource) else Success(Apply(slots[0].value, slots[1].value)(x, y, z))
  }

  /** The order of the two sources does not matter. */
  lemma Symmetric(lhs: Field, rhs: Field, x: real, y: real, z: real)
    ensures Apply(lhs, rhs)(x, y, z) == Apply(rhs, lhs)(x, y, z)
  {
    assert Apply(lhs, rhs)(x, y, z) == MinReal(lhs(x, y, z), rhs(x, y, z));
    assert Apply(rhs, lhs)(x, y, z) == MinReal(rhs(x, y, z), lhs(x, y, z));
  }
}
