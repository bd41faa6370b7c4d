/** The Const generator (Generator/Const.cs): one fixed value everywhere. */
module GenConst {
  /** `m_value` has no initialiser, so `Const()` outputs 0. */
  const DefaultValue: real := 0.0

  /** `GetValue`: the stored value, whatever the coordinates; the `Value` setter replaces it. */
  function Value(value: real, x: real, y: real, z: real): (r: real)
    ensures r == value
  {
    value
  }

  /** The output does not depend on the coordinates. */
  lemma Independent(value: real, x: real, y: real, z: real, x': real, y': real, z': real)
    ensures Value(value, x, y, z) == Value(value, x', y', z')
  {
  }
}
