/** The Scale operator (Operator/Scale.cs): its source read at per-axis scaled coordinates. */
module OpScale {
  import opened Wrappers
  import opened ModuleBase
  import opened Utils

  /** `Scale()`, `Scale(input)` and `Scale(x, y, z, input)` call `base(1)`. */
  const SourceCount: nat := 1

  /** The `_x`, `_y` and `_z` factors; the `X`, `Y` and `Z` setters assign them. */
  datatype Params = Params(x: real, y: real, z: real)

  /** The field initialisers. */
  const Default: Params := Params(1.0, 1.0, 1.0)

  /** One coordinate times its axis factor. */
  function ScaleAxis(c: real, factor: real): real
  {
    c * factor
  }

  /** The field a Scale module computes; the source's output is returned unchanged. */
  function Apply(source: Field, p: Params): Field
  {
    (x: real, y: real, z: real) => source(ScaleAxis(x, p.x), ScaleAxis(y, p.y), ScaleAxis(z, p.z))
  }

  /** `GetValue`: asserts the slot is filled, then reads the source at the scaled point. */
  function GetValue(slots: seq<Option<Field>>, p: Params, x: real, y: real, z: real): (r: Result<real, Fault>)
    requires |slots| == SourceCount
    ensures r.Failure? <==> slots[0].None?
    ensures r.Failure? ==> r.error == MissingSource
    ensures r.Success? ==> r.value == slots[0].value(ScaleAxis(x, p.x), ScaleAxis(y, p.y), ScaleAxis(z, p.z))
  {
    if !Filled(slots) then Failure(MissingSource) else Success(Apply(slots[0].value, p)(x, y, z))
  }

  /** The default factors leave the coordinates unchanged. */
  lemma DefaultIsIdentity(source: Field, x: real, y: real, z: real)
    ensures Apply(source, Default)(x, y, z) == source(x, y, z)
  {
    assert ScaleAxis(x, 1.0) == x && ScaleAxis(y, 1.0) == y && ScaleAxis(z, 1.0) == z;
  }

  /** Scale over Scale multiplies the factors axis by axis. */
  lemma Nested(source: Field, inner: Params, outer: Params, x: real, y: real, z: real)
    ensures Apply(Apply(source, inner), outer)(x, y, z)
         == Apply(source, Params(outer.x * inner.x, outer.y * inner.y, outer.z * inner.z))(x, y, z)
  {
    assert ScaleAxis(ScaleAxis(x, outer.x), inner.x) == ScaleAxis(x, outer.x * inner.x);
    assert ScaleAxis(ScaleAxis(y, outer.y), inner.y) == ScaleAxis(y, outer.y * inner.y);
    assert ScaleAxis(ScaleAxis(z, outer.z), inner.z) == ScaleAxis(z, outer.z * inner.z);
  }
}
