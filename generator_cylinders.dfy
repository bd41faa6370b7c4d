/**
 * The Cylinders generator (Generator/Cylinders.cs): concentric cylinders around
 * the y axis, one unit apart after scaling by the frequency, with the ring map of
 * the Spheres generator applied to the distance from the axis.
 */
module GenCylinders {
  import opened Utils
  import GenSpheres

  /** The field initialiser of `m_frequency`. */
  const DefaultFrequency: real := 1.0

  /** The distance from the y axis once x and z are scaled by the frequency. */
  function Distance(u: Primitives, frequency: real, x: real, z: real): real
  {
    var sx, sz := x * frequency, z * frequency;
    u.sqrt(sx * sx + sz * sz)
  }

  /** `GetValue`: the ring map of the scaled distance from the y axis; `y` is not read. */
  function Value(u: Primitives, frequency: real, x: real, y: real, z: real): real
  {
    GenSpheres.Ring(Distance(u, frequency, x, z))
  }

  /**
   * The output lies in [-1, 1], does not depend on `y`, is 1 where the scaled
   * distance from the axis is a whole number and -1 where it is halfway between two.
   */
  lemma ValueRange(u: Primitives, frequency: real, x: real, y: real, y': real, z: real, n: int)
    ensures -1.0 <= Value(u, frequency, x, y, z) <= 1.0
    ensures Value(u, frequency, x, y, z) == Value(u, frequency, x, y', z)
    ensures Distance(u, frequency, x, z) == n as real ==> Value(u, frequency, x, y, z) == 1.0
    ensures Distance(u, frequency, x, z) == n as real + 0.5 ==> Value(u, frequency, x, y, z) == -1.0
  {
    GenSpheres.RingAtInteger(n);
    GenSpheres.RingAtHalf(n);
  }
}
