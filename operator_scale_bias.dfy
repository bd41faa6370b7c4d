/** The ScaleBias operator (Operator/ScaleBias.cs): its source's output times a scale plus a bias. */
module OpScaleBias {
  import opened Wrappers
  import opened ModuleBase
  import opened Utils

  /** `ScaleBias()`, `ScaleBias(input)` and `ScaleBias(scale, bias, input)` all call `base(1)`. */
  const SourceCount: nat := 1

  /** The `m_scale` and `m_bias` fields; the `Scale` and `Bias` setters assign them. */
  datatype Params = Params(scale: real, bias: real)

  /** The field initialisers. */
  const Default: Params := Params(1.0, 0.0)

  /** The field a ScaleBias module computes; the source is read at the same coordinates. */
  function Apply(source: Field, p: Params): Field
  {
    (x: real, y: real, z: real) => source(x, y, z) * p.scale + p.bias
  }

  /** `GetValue`: asserts the slot is filled, then scales and biases the source's output. */
  function GetValue(slots: seq<Option<Field>>, p: Params, x: real, y: real, z: real): (r: Result<real, Fault>)
    requires |slots| == SourceCount
    ensures r.Failure? <==> slots[0].None?
    ensures r.Failure? ==> r.error == MissingSource
    ensures r.Success? ==> r.value - p.bias == slots[0].value(x, y, z) * p.scale
  {
    if !Filled(slots) then Failure(MissingSource) else Success(Apply(slots[0].value, p)(x, y, z))
  }

  /** The defaults make it the identity; a zero scale makes it the constant bias. */
  lemma Special(source: Field, bias: real, x: real, y: real, z: real)
    ensures Apply(source, Default)(x, y, z) == source(x, y, z)
    ensures Apply(source, Params(0.0, bias))(x, y, z) == bias
  {
  }

  /** ScaleBias over ScaleBias is one ScaleBias with the composed scale and bias. */
  lemma Nested(source: Field, inner: Params, outer: Params, x: real, y: real, z: real)
    ensures Apply(Apply(source, inner), outer)(x, y, z)
         == Apply(source, Params(inner.scale * outer.scale, inner.bias * outer.scale + outer.bias))(x, y, z)
  {
    var v := source(x, y, z);
    assert (v * inner.scale + inner.bias) * outer.scale == v * (inner.scale * outer.scale) + inner.bias * outer.scale;
  }
}
