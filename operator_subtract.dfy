/** The Subtract operator (Operator/Subtract.cs): the first source minus the second. */
module OpSubtract {
  import opened Wrappers
  import opened ModuleBase
  import opened Utils

  /** `Subtract()` and `Subtract(lhs, rhs)` call `base(2)`. */
  const SourceCount: nat := 2

  /** The field a Subtract module computes: both sources are read at the input coordinates. */
  function Apply(lhs: Field, rhs: Field): Field
  {
    (x: real, y: real, z: real) => lhs(x, y, z) - rhs(x, y, z)
  }

  /** `GetValue`: asserts both slots are filled; the result is slot 0 minus slot 1. */
  function GetValue(slots: seq<Option<Field>>, x: real, y: real, z: real): (r: Result<real, Fault>)
    requires |slots| == SourceCount
    ensures r.Failure? <==> slots[0].None? || slots[1].None?
    ensures r.Failure? ==> r.error == MissingSource
    ensures r.Success? ==> r.value + slots[1].value(x, y, z) == slots[0].value(x, y, z)
  {
    if !Filled(slots) then Failure(MissingSource) else Success(Apply(slots[0].value, slots[1].value)(x, y, z))
  }

  /**
   * `Subtract(lhs, rhs)` stores lhs in slot 0 and rhs in slot 1, so it computes
   * lhs - rhs; a module minus itself is 0 everywhere.
   */
  lemma Constructed(lhs: Field, rhs: Field, x: real, y: real, z: real)
    ensures GetValue([Some(lhs), Some(rhs)], x, y, z) == Success(lhs(x, y, z) - rhs(x, y, z))
    ensures GetValue([Some(lhs), Some(lhs)], x, y, z) == Success(0.0)
  {
  }
}
