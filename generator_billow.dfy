/**
 * The Billow generator (Generator/Billow.cs): the octaves of Perlin, with each raw
 * signal folded to `2|s| - 1`, and the sum biased by 0.5.
 */
module GenBillow {
  import opened ModuleBase
  import opened Utils
  import GenPerlin

  /** An octave's raw signal folded into a billow. */
  function Billowed(s: real): (r: real)
    ensures r >= -1.0
    ensures -1.0 <= s <= 1.0 ==> r <= 1.0
    ensures s == 0.0 ==> r == -1.0
  {
    2.0 * AbsReal(s) - 1.0
  }

  /** Folding ignores the sign of the raw signal. */
  lemma BillowedSymmetric(s: real)
    ensures Billowed(-s) == Billowed(s)
  {
  }

  /** The folded octave signals of a Billow generator with fields `p` at one point. */
  function Signals(u: Primitives, p: GenPerlin.Params, x: real, y: real, z: real): nat -> real
  {
    (i: nat) => Billowed(GenPerlin.Signal(u, p, x, y, z, i))
  }

  /** The output of a Billow generator with fields `p`: the weighted folded octaves plus 0.5. */
  function Value(u: Primitives, p: GenPerlin.Params, x: real, y: real, z: real): real
  {
    OctaveSum(Signals(u, p, x, y, z), p.persistence, Octaves(p.octaveCount)) + 0.5
  }

  /**
   * When every raw signal is in [-1, 1] and the persistence is not negative, the
   * output lies within the total octave weight of the 0.5 bias.
   */
  lemma ValueBound(u: Primitives, p: GenPerlin.Params, x: real, y: real, z: real)
    requires p.persistence >= 0.0
    requires forall i :: 0 <= i < Octaves(p.octaveCount) ==> -1.0 <= GenPerlin.Signal(u, p, x, y, z, i) <= 1.0
    ensures 0.5 - PowSum(p.persistence, Octaves(p.octaveCount)) <= Value(u, p, x, y, z)
         <= 0.5 + PowSum(p.persistence, Octaves(p.octaveCount))
  {
    var signals := Signals(u, p, x, y, z);
    forall i | 0 <= i < Octaves(p.octaveCount)
      ensures -1.0 <= signals(i) <= 1.0
    {
      assert signals(i) == Billowed(GenPerlin.Signal(u, p, x, y, z, i));
    }
    OctaveSumBound(signals, p.persistence, Octaves(p.octaveCount));
  }

  /** With one octave whose raw signal is 0 the output is -1 + 0.5. */
  lemma SingleSilentOctave(u: Primitives, p: GenPerlin.Params, x: real, y: real, z: real)
    requires p.octaveCount == 1 && GenPerlin.Signal(u, p, x, y, z, 0) == 0.0
    ensures Value(u, p, x, y, z) == -0.5
  {
    var signals := Signals(u, p, x, y, z);
    assert Value(u, p, x, y, z) == OctaveSum(signals, p.persistence, 1) + 0.5 == signals(0) * 1.0 + 0.5;
  }

  /** What the octave loop's variables hold after `i` octaves. */
  ghost predicate LoopState(u: Primitives, p: GenPerlin.Params, x: real, y: real, z: real, i: nat,
                            cx: real, cy: real, cz: real, curp: real, value: real)
  {
    && cx == OctaveCoordinate(p.frequency, p.lacunarity, x, i)
    && cy == OctaveCoordinate(p.frequency, p.lacunarity, y, i)
    && cz == OctaveCoordinate(p.frequency, p.lacunarity, z, i)
    && curp == Pow(p.persistence, i)
    && value == OctaveSum(Signals(u, p, x, y, z), p.persistence, i)
  }

  /** One octave step adds the octave's weighted, folded signal to the running sum. */
  lemma SumNext(u: Primitives, p: GenPerlin.Params, x: real, y: real, z: real, i: nat,
                cx: real, cy: real, cz: real, curp: real, value: real, signal: real)
    requires LoopState(u, p, x, y, z, i, cx, cy, cz, curp, value)
    requires signal == Billowed(u.gradientCoherentNoise3D(u.makeInt32Range(cx), u.makeInt32Range(cy),
        u.makeInt32Range(cz), GenPerlin.OctaveSeed(p.seed, i), p.quality))
    ensures value + signal * curp == OctaveSum(Signals(u, p, x, y, z), p.persistence, i + 1)
  {
  }

  /** Generator/Billow.cs: the same fields and setters as Perlin. */
  class Billow {
    var frequency: real
    var lacunarity: real
    var quality: QualityMode
    var octaveCount: int
    var persistence: real
    var seed: int

    ghost predicate Valid()
      reads this
    {
      1 <= octaveCount <= OctavesMaximum
    }

    function Fields(): GenPerlin.Params
      reads this
    {
      GenPerlin.Params(frequency, lacunarity, quality, octaveCount, persistence, seed)
    }

    /** `Billow()`: the field initialisers, which are Perlin's. */
    constructor ()
      ensures Fields() == GenPerlin.Defaults && Valid()
    {
      frequency, lacunarity, quality, octaveCount, persistence, seed := 1.0, 2.0, Medium, 6, 0.5, 0;
    }

    /** `Billow(frequency, lacunarity, persistence, octaves, seed, quality)`, through the setters. */
    constructor WithParams(frequency: real, lacunarity: real, persistence: real, octaves: int, seed: int, quality: QualityMode)
      ensures Fields() == GenPerlin.Params(frequency, lacunarity, quality, ClampOctaves(octaves), persistence, seed)
      ensures Valid()
    {
      this.frequency := frequency;
      this.lacunarity := lacunarity;
      this.octaveCount := ClampOctaves(octaves);
      this.persistence := persistence;
      this.seed := seed;
      this.quality := quality;
    }

    /** The `OctaveCount` setter clamps into [1, OctavesMaximum]; the other setters assign. */
    method SetOctaveCount(value: int)
      modifies this
      ensures Fields() == old(Fields()).(octaveCount := ClampOctaves(value))
      ensures Valid()
    {
      octaveCount := ClampOctaves(value);
    }

    method SetFrequency(value: real)
      modifies this
      ensures Fields() == old(Fields()).(frequency := value)
    {
      frequency := value;
    }

    method SetLacunarity(value: real)
      modifies this
      ensures Fields() == old(Fields()).(lacunarity := value)
    {
      lacunarity := value;
    }

    method SetQuality(value: QualityMode)
      modifies this
      ensures Fields() == old(Fields()).(quality := value)
    {
      quality := value;
    }

    method SetPersistence(value: real)
      modifies this
      ensures Fields() == old(Fields()).(persistence := value)
    {
      persistence := value;
    }

    method SetSeed(value: int)
      modifies this
      ensures Fields() == old(Fields()).(seed := value)
    {
      seed := value;
    }

    /** `GetValue`: Perlin's octave loop with every signal folded, plus 0.5. */
    method GetValue(u: Primitives, x: real, y: real, z: real) returns (r: real)
      requires Valid()
      ensures r == Value(u, Fields(), x, y, z)
    {
      var p := Fields();
      var value := 0.0;
      var curp := 1.0;
      var cx, cy, cz := x * p.frequency, y * p.frequency, z * p.frequency;
      var i := 0;
      while i < p.octaveCount
        invariant 0 <= i <= p.octaveCount
        invariant LoopState(u, p, x, y, z, i, cx, cy, cz, curp, value)
      {
        var nx := u.makeInt32Range(cx);
        var ny := u.makeInt32Range(cy);
        var nz := u.makeInt32Range(cz);
        var seed := GenPerlin.OctaveSeed(p.seed, i);
        var signal := u.gradientCoherentNoise3D(nx, ny, nz, seed, p.quality);
        signal := Billowed(signal);
        SumNext(u, p, x, y, z, i, cx, cy, cz, curp, value, signal);
        GenPerlin.StateNext(p, x, y, z, i, cx, cy, cz, curp);
        value := value + signal * curp;
        cx, cy, cz := cx * p.lacunarity, cy * p.lacunarity, cz * p.lacunarity;
        curp := curp * p.persistence;
        i := i + 1;
      }
      r := value + 0.5;
    }
  }
}
