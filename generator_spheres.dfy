/**
 * The Spheres generator (Generator/Spheres.cs): concentric shells around the
 * origin, one unit apart after scaling by the frequency. The output is 1 on a
 * shell and falls linearly to -1 halfway between two shells.
 */
module GenSpheres {
  import opened Utils

  /** The field initialiser of `m_frequency`. */
  const DefaultFrequency: real := 1.0

  /**
   * The ring map of a distance `d`: `1 - 4 * min(frac(d), 1 - frac(d))`, where
   * `frac(d)` is `d - Math.Floor(d)`. Cylinders uses it too.
   */
  function Ring(d: real): (r: real)
    ensures -1.0 <= r <= 1.0
  {
    var dfss := d - d.Floor as real;
    var dfls := 1.0 - dfss;
    var nd := MinReal(dfss, dfls);
    1.0 - nd * 4.0
  }

  /** A distance that is a whole number lies on a shell. */
  lemma RingAtInteger(n: int)
    ensures Ring(n as real) == 1.0
  {
    assert (n as real).Floor == n;
  }

  /** A distance halfway between two whole numbers lies midway between two shells. */
  lemma RingAtHalf(n: int)
    ensures Ring(n as real + 0.5) == -1.0
  {
    assert (n as real + 0.5).Floor == n;
  }

  /** The distance from the origin once every coordinate is scaled by the frequency. */
  function Distance(u: Primitives, frequency: real, x: real, y: real, z: real): real
  {
    var sx, sy, sz := x * frequency, y * frequency, z * frequency;
    u.sqrt(sx * sx + sy * sy + sz * sz)
  }

  /** `GetValue`: the ring map of the scaled distance. */
  function Value(u: Primitives, frequency: real, x: real, y: real, z: real): real
  {
    Ring(Distance(u, frequency, x, y, z))
  }

  /**
   * The output lies in [-1, 1]; it is 1 where the scaled distance is a whole number
   * and -1 where it is halfway between two.
   */
  lemma ValueRange(u: Primitives, frequency: real, x: real, y: real, z: real, n: int)
    ensures -1.0 <= Value(u, frequency, x, y, z) <= 1.0
    ensures Distance(u, frequency, x, y, z) == n as real ==> Value(u, frequency, x, y, z) == 1.0
    ensures Distance(u, frequency, x, y, z) == n as real + 0.5 ==> Value(u, frequency, x, y, z) == -1.0
  {
    RingAtInteger(n);
    RingAtHalf(n);
  }
}
