/**
 * The Perlin generator (Generator/Perlin.cs): a sum of `OctaveCount` octaves of
 * coherent noise, each at `lacunarity` times the previous frequency and weighted by
 * `persistence` times the previous weight.
 */
module GenPerlin {
  import opened ModuleBase
  import opened Utils

  /** The fields of a Perlin (and of a Billow) generator. */
  datatype Params = Params(
    frequency: real,
    lacunarity: real,
    quality: QualityMode,
    octaveCount: int,
    persistence: real,
    seed: int)

  /** The field initialisers: frequency 1, lacunarity 2, Medium, 6 octaves, persistence 0.5, seed 0. */
  const Defaults: Params := Params(1.0, 2.0, Medium, 6, 0.5, 0)

  /**
   * The seed of octave `i`: the C# `int` sum `seed + i` (which wraps around),
   * widened to `long` and masked with 0xffffffff, which adds 2^32 to a negative
   * value and keeps any other.
   */
  function OctaveSeed(seed: int, i: int): (s: int)
    ensures 0 <= s < 0x1_0000_0000
    ensures (s - (seed + i)) % 0x1_0000_0000 == 0
    ensures 0 <= seed + i < 0x8000_0000 ==> s == seed + i
  {
    var r := WrapInt32(seed + i);
    ShiftedCongruent(r - (seed + i));
    if r < 0 then r + 0x1_0000_0000 else r
  }

  lemma ShiftedCongruent(d: int)
    requires d % 0x1_0000_0000 == 0
    ensures (d + 0x1_0000_0000) % 0x1_0000_0000 == 0
  {
  }

  /** The raw signal of octave `i` (Billow uses the same one). */
  function Signal(u: Primitives, p: Params, x: real, y: real, z: real, i: nat): real
  {
    CoherentNoise(u, OctaveCoordinate(p.frequency, p.lacunarity, x, i), OctaveCoordinate(p.frequency, p.lacunarity, y, i), OctaveCoordinate(p.frequency, p.lacunarity, z, i),
      OctaveSeed(p.seed, i), p.quality)
  }

  /** The octave signals of a Perlin generator with fields `p` at one point. */
  function Signals(u: Primitives, p: Params, x: real, y: real, z: real): nat -> real
  {
    (i: nat) => Signal(u, p, x, y, z, i)
  }

  /** The output of a Perlin generator with fields `p`. */
  function Value(u: Primitives, p: Params, x: real, y: real, z: real): real
  {
    OctaveSum(Signals(u, p, x, y, z), p.persistence, Octaves(p.octaveCount))
  }

  /** With one octave the output is a single noise call at the frequency-scaled, folded coordinates. */
  lemma SingleOctave(u: Primitives, p: Params, x: real, y: real, z: real)
    requires p.octaveCount == 1
    ensures Value(u, p, x, y, z)
         == CoherentNoise(u, x * p.frequency, y * p.frequency, z * p.frequency, OctaveSeed(p.seed, 0), p.quality)
  {
    var signals := Signals(u, p, x, y, z);
    assert Value(u, p, x, y, z) == OctaveSum(signals, p.persistence, 1) == signals(0) * 1.0;
    assert OctaveCoordinate(p.frequency, p.lacunarity, x, 0) == x * p.frequency;
    assert OctaveCoordinate(p.frequency, p.lacunarity, y, 0) == y * p.frequency;
    assert OctaveCoordinate(p.frequency, p.lacunarity, z, 0) == z * p.frequency;
  }

  /** With persistence 0 only the first octave contributes. */
  lemma PersistenceZero(u: Primitives, p: Params, x: real, y: real, z: real)
    requires p.persistence == 0.0 && p.octaveCount >= 1
    ensures Value(u, p, x, y, z) == Signal(u, p, x, y, z, 0)
  {
    OctaveSumPersistenceZero(Signals(u, p, x, y, z), Octaves(p.octaveCount));
  }

  /**
   * When every octave's raw signal is in [-1, 1] and the persistence is not negative,
   * the output lies within the total octave weight.
   */
  lemma ValueBound(u: Primitives, p: Params, x: real, y: real, z: real)
    requires p.persistence >= 0.0
    requires forall i :: 0 <= i < Octaves(p.octaveCount) ==> -1.0 <= Signal(u, p, x, y, z, i) <= 1.0
    ensures -PowSum(p.persistence, Octaves(p.octaveCount)) <= Value(u, p, x, y, z)
         <= PowSum(p.persistence, Octaves(p.octaveCount))
  {
    OctaveSumBound(Signals(u, p, x, y, z), p.persistence, Octaves(p.octaveCount));
  }

  /** What the octave loop's variables hold after `i` octaves. */
  ghost predicate LoopState(u: Primitives, p: Params, x: real, y: real, z: real, i: nat,
                            cx: real, cy: real, cz: real, cp: real, value: real)
  {
    && cx == OctaveCoordinate(p.frequency, p.lacunarity, x, i)
    && cy == OctaveCoordinate(p.frequency, p.lacunarity, y, i)
    && cz == OctaveCoordinate(p.frequency, p.lacunarity, z, i)
    && cp == Pow(p.persistence, i)
    && value == OctaveSum(Signals(u, p, x, y, z), p.persistence, i)
  }

  /** One octave step advances the coordinates by the lacunarity and the weight by the persistence. */
  lemma StateNext(p: Params, x: real, y: real, z: real, i: nat, cx: real, cy: real, cz: real, cp: real)
    requires cx == OctaveCoordinate(p.frequency, p.lacunarity, x, i)
    requires cy == OctaveCoordinate(p.frequency, p.lacunarity, y, i)
    requires cz == OctaveCoordinate(p.frequency, p.lacunarity, z, i)
    requires cp == Pow(p.persistence, i)
    ensures cx * p.lacunarity == OctaveCoordinate(p.frequency, p.lacunarity, x, i + 1)
    ensures cy * p.lacunarity == OctaveCoordinate(p.frequency, p.lacunarity, y, i + 1)
    ensures cz * p.lacunarity == OctaveCoordinate(p.frequency, p.lacunarity, z, i + 1)
    ensures cp * p.persistence == Pow(p.persistence, i + 1)
  {
  }

  /** One octave step adds the octave's weighted signal to the running sum. */
  lemma SumNext(u: Primitives, p: Params, x: real, y: real, z: real, i: nat,
                cx: real, cy: real, cz: real, cp: real, value: real)
    requires LoopState(u, p, x, y, z, i, cx, cy, cz, cp, value)
    ensures value + u.gradientCoherentNoise3D(u.makeInt32Range(cx), u.makeInt32Range(cy), u.makeInt32Range(cz),
        OctaveSeed(p.seed, i), p.quality) * cp
      == OctaveSum(Signals(u, p, x, y, z), p.persistence, i + 1)
  {
  }

  /** Generator/Perlin.cs. */
  class Perlin {
    var frequency: real
    var lacunarity: real
    var quality: QualityMode
    var octaveCount: int
    var persistence: real
    var seed: int

    /** The octave count is always within [1, OctavesMaximum]. */
    ghost predicate Valid()
      reads this
    {
      1 <= octaveCount <= OctavesMaximum
    }

    function Fields(): Params
      reads this
    {
      Params(frequency, lacunarity, quality, octaveCount, persistence, seed)
    }

    /** `Perlin()`: the field initialisers. */
    constructor ()
      ensures Fields() == Defaults && Valid()
    {
      frequency, lacunarity, quality, octaveCount, persistence, seed := 1.0, 2.0, Medium, 6, 0.5, 0;
    }

    /** `Perlin(frequency, lacunarity, persistence, octaves, seed, quality)`, through the setters. */
    constructor WithParams(frequency: real, lacunarity: real, persistence: real, octaves: int, seed: int, quality: QualityMode)
      ensures Fields() == Params(frequency, lacunarity, quality, ClampOctaves(octaves), persistence, seed)
      ensures Valid()
    {
      this.frequency := frequency;
      this.lacunarity := lacunarity;
      this.octaveCount := ClampOctaves(octaves);
      this.persistence := persistence;
      this.seed := seed;
      this.quality := quality;
    }

    method SetFrequency(value: real)
      modifies this
      ensures Fields() == old(Fields()).(frequency := value)
    {
      frequency := value;
    }

    method SetLacunarity(value: real)
      modifies this
      ensures Fields() == old(Fields()).(lacunarity := value)
    {
      lacunarity := value;
    }

    method SetQuality(value: QualityMode)
      modifies this
      ensures Fields() == old(Fields()).(quality := value)
    {
      quality := value;
    }

    /** The `OctaveCount` setter clamps into [1, OctavesMaximum]. */
    method SetOctaveCount(value: int)
      modifies this
      ensures Fields() == old(Fields()).(octaveCount := ClampOctaves(value))
      ensures Valid()
    {
      octaveCount := ClampOctaves(value);
    }

    method SetPersistence(value: real)
      modifies this
      ensures Fields() == old(Fields()).(persistence := value)
    {
      persistence := value;
    }

    method SetSeed(value: int)
      modifies this
      ensures Fields() == old(Fields()).(seed := value)
    {
      seed := value;
    }

    /** `GetValue`: the octave loop, running exactly `octaveCount` times. */
    method GetValue(u: Primitives, x: real, y: real, z: real) returns (value: real)
      requires Valid()
      ensures value == Value(u, Fields(), x, y, z)
    {
      var p := Fields();
      value := 0.0;
      var cp := 1.0;
      var cx, cy, cz := x * p.frequency, y * p.frequency, z * p.frequency;
      var i := 0;
      while i < p.octaveCount
        invariant 0 <= i <= p.octaveCount
        invariant LoopState(u, p, x, y, z, i, cx, cy, cz, cp, value)
      {
        var nx := u.makeInt32Range(cx);
        var ny := u.makeInt32Range(cy);
        var nz := u.makeInt32Range(cz);
        var octaveSeed := OctaveSeed(p.seed, i);
        var signal := u.gradientCoherentNoise3D(nx, ny, nz, octaveSeed, p.quality);
        SumNext(u, p, x, y, z, i, cx, cy, cz, cp, value);
        StateNext(p, x, y, z, i, cx, cy, cz, cp);
        value := value + signal * cp;
        cx, cy, cz := cx * p.lacunarity, cy * p.lacunarity, cz * p.lacunarity;
        cp := cp * p.persistence;
        i := i + 1;
      }
    }
  }
}
