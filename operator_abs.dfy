/** The Abs operator (Operator/Abs.cs): the absolute value of its one source. */
module OpAbs {
  import opened Wrappers
  import opened ModuleBase
  import opened Utils

  /** `Abs()` and `Abs(input)` call `base(1)`. */
  const SourceCount: nat := 1

  /** The field an Abs module computes from its source: the coordinates pass through unchanged. */
  function Apply(source: Field): Field
  {
    (x: real, y: real, z: real) => AbsReal(source(x, y, z))
  }

  /** `GetValue`: asserts the slot is filled, then returns the source's magnitude. */
  function GetValue(slots: seq<Option<Field>>, x: real, y: real, z: real): (r: Result<real, Fault>)
    requires |slots| == SourceCount
    ensures r.Failure? <==> slots[0].None?
    ensures r.Failure? ==> r.error == MissingSource
    ensures r.Success? ==> r.value >= 0.0
    ensures r.Success? ==> r.value == slots[0].value(x, y, z) || r.value == -slots[0].value(x, y, z)
  {
    if !Filled(slots) then Failure(MissingSource) else Success(Apply(slots[0].value)(x, y, z))
  }

  /** Abs over Abs is Abs. */
  lemma Idempotent(source: Field, x: real, y: real, z: real)
    ensures Apply(Apply(source))(x, y, z) == Apply(source)(x, y, z)
  {
    var v := source(x, y, z);
    assert Apply(source)(x, y, z) == AbsReal(v);
    assert Apply(Apply(source))(x, y, z) == AbsReal(AbsReal(v));
  }
}
