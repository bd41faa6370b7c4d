/** The Translate operator (Operator/Translate.cs): its source read at per-axis offset coordinates. */
module OpTranslate {
  import opened Wrappers
  import opened ModuleBase
  import opened Utils

  /** `Translate()` and `Translate(x, y, z, input)` call `base(1)`. */
  const SourceCount: nat := 1

  /** The `m_x`, `m_y` and `m_z` offsets; the `X`, `Y` and `Z` setters assign them. */
  datatype Params = Params(x: real, y: real, z: real)

  /** The field initialisers are 1.0, not 0: a default Translate shifts by (1, 1, 1). */
  const Default: Params := Params(1.0, 1.0, 1.0)

  /** The field a Translate module computes; the source's output is returned unchanged. */
  function Apply(source: Field, p: Params): Field
  {
    (x: real, y: real, z: real) => source(x + p.x, y + p.y, z + p.z)
  }

  /** `GetValue`: asserts the slot is filled, then reads the source at the shifted point. */
  function GetValue(slots: seq<Option<Field>>, p: Params, x: real, y: real, z: real): (r: Result<real, Fault>)
    requires |slots| == SourceCount
    ensures r.Failure? <==> slots[0].None?
    ensures r.Failure? ==> r.error == MissingSource
    ensures r.Success? ==> r.value == slots[0].value(x + p.x, y + p.y, z + p.z)
  {
    if !Filled(slots) then Failure(MissingSource) else Success(Apply(slots[0].value, p)(x, y, z))
  }

  /** The default shifts by one on every axis; zero offsets leave the coordinates unchanged. */
  lemma Special(source: Field, x: real, y: real, z: real)
    ensures Apply(source, Default)(x, y, z) == source(x + 1.0, y + 1.0, z + 1.0)
    ensures Apply(source, Params(0.0, 0.0, 0.0))(x, y, z) == source(x, y, z)
  {
  }

  /** Translate over Translate adds the offsets axis by axis. */
  lemma Nested(source: Field, inner: Params, outer: Params, x: real, y: real, z: real)
    ensures Apply(Apply(source, inner), outer)(x, y, z)
         == Apply(source, Params(outer.x + inner.x, outer.y + inner.y, outer.z + inner.z))(x, y, z)
  {
  }

  /** `Translate()` leaves its one slot empty, so its `GetValue` fails the slot assertion. */
  lemma EmptyConstructor(p: Params, x: real, y: real, z: real)
    ensures GetValue([None], p, x, y, z) == Failure(MissingSource)
  {
  }
}
