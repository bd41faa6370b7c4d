/**
 * The ridged-multifractal generator (Generator/RidgedMultifractal.cs). Each octave
 * folds the noise into a ridge `(1 - |n|)^2`, scales it by a running weight taken
 * from the previous octave's signal, and adds it to the sum with the spectral
 * weight `1 / lacunarity^i` read from a table of `OctavesMaximum` entries.
 */
module GenRidged {
  import opened ModuleBase
  import opened Utils

  /** The fields of a ridged-multifractal generator, without the weight table. */
  datatype Params = Params(
    frequency: real,
    lacunarity: real,
    quality: QualityMode,
    octaveCount: int,
    seed: int)

  /** The field initialisers: frequency 1, lacunarity 2, Medium, 6 octaves, seed 0. */
  const Defaults: Params := Params(1.0, 2.0, Medium, 6, 0)

  /** The constant `offset` and `gain` of the octave loop. */
  const Offset: real := 1.0
  const Gain: real := 2.0

  /**
   * The octave seed: the C# `int` sum `seed + i` masked with 0x7fffffff. The mask
   * keeps the low 31 bits, which the 32-bit wrap-around of the sum does not change.
   */
  function OctaveSeed(seed: int, i: int): (s: int)
    ensures 0 <= s < 0x8000_0000
    ensures s == (seed + i) % 0x8000_0000
    ensures 0 <= seed + i < 0x8000_0000 ==> s == seed + i
  {
    WrapLowBits(seed + i);
    WrapInt32(seed + i) % 0x8000_0000
  }

  /** Wrapping to 32 bits leaves the low 31 bits alone. */
  lemma WrapLowBits(v: int)
    ensures WrapInt32(v) % 0x8000_0000 == v % 0x8000_0000
  {
    var t := v + 0x8000_0000;
    var q := t / 0x1_0000_0000;
    var w := WrapInt32(v);
    assert v == (2 * q) * 0x8000_0000 + w;
  }

  /**
   * Entry `i` of the weight table: `Math.Pow(f, -1)` where `f` is `lacunarity`
   * multiplied `i` times into 1, that is the reciprocal of `lacunarity^i`.
   */
  function Weight(u: Primitives, lacunarity: real, i: nat): (w: real)
    ensures DivisionExact(u) && Pow(lacunarity, i) != 0.0 ==> w == 1.0 / Pow(lacunarity, i)
  {
    u.divide(1.0, Pow(lacunarity, i))
  }

  /** The whole table `UpdateWeights` writes for a lacunarity. */
  function Table(u: Primitives, lacunarity: real): (t: seq<real>)
    ensures |t| == OctavesMaximum
    ensures forall i :: 0 <= i < OctavesMaximum ==> t[i] == Weight(u, lacunarity, i)
  {
    seq(OctavesMaximum, (i: int) requires 0 <= i < OctavesMaximum => Weight(u, lacunarity, i))
  }

  /**
   * For a non-zero lacunarity the weights are exact reciprocals of the powers of
   * the lacunarity; in particular the first weight is 1.
   */
  lemma WeightReciprocal(u: Primitives, lacunarity: real, i: nat)
    requires DivisionExact(u) && lacunarity != 0.0
    ensures Weight(u, lacunarity, i) * Pow(lacunarity, i) == 1.0
    ensures Weight(u, lacunarity, 0) == 1.0
  {
    PowNonZero(lacunarity, i);
    assert Pow(lacunarity, 0) == 1.0;
  }

  /** For a positive lacunarity every weight is positive. */
  lemma WeightPositive(u: Primitives, lacunarity: real, i: nat)
    requires DivisionExact(u) && lacunarity > 0.0
    ensures Weight(u, lacunarity, i) > 0.0
  {
    PowPositive(lacunarity, i);
    var q := Pow(lacunarity, i);
    if Weight(u, lacunarity, i) <= 0.0 {
      QuotientTimesDivisor(1.0, q);
      MulMonotone(0.0, 1.0 / q, q);
    }
  }

  /**
   * The ridge of a raw signal scaled by the running weight, as the loop computes it
   * in four statements: the absolute value, subtracted from `offset`, squared, and
   * multiplied by the weight.
   */
  function Ridge(raw: real, weight: real): real
  {
    (Offset - AbsReal(raw)) * (Offset - AbsReal(raw)) * weight
  }

  /** A ridge is never negative for a non-negative weight, and does not exceed the weight for a raw signal in [-1, 1]. */
  lemma RidgeBounds(raw: real, weight: real)
    requires weight >= 0.0
    ensures Ridge(raw, weight) >= 0.0
    ensures -1.0 <= raw <= 1.0 ==> Ridge(raw, weight) <= weight
  {
    var d := Offset - AbsReal(raw);
    assert -1.0 <= raw <= 1.0 ==> 0.0 <= d <= 1.0;
    assert Ridge(raw, weight) == d * d * weight;
    SquareBounds(d, weight);
  }

  /** The square of `d` scaled by a non-negative weight. */
  lemma SquareBounds(d: real, weight: real)
    ensures weight >= 0.0 ==> d * d * weight >= 0.0
    ensures 0.0 <= d <= 1.0 && weight >= 0.0 ==> d * d * weight <= weight
  {
    if weight > 0.0 {
      MulMonotone(d * d, 0.0, weight);
      if 0.0 <= d <= 1.0 {
        if d > 0.0 {
          MulMonotone(1.0, d, d);
          assert d * d <= d;
        } else {
          assert d * d == 0.0;
        }
        MulMonotone(1.0, d * d, weight);
      }
    }
  }

  /** The raw noise of octave `i`, at the scaled and folded coordinates, with the octave seed. */
  function Raw(u: Primitives, p: Params, x: real, y: real, z: real, i: nat): real
  {
    CoherentNoise(u, OctaveCoordinate(p.frequency, p.lacunarity, x, i), OctaveCoordinate(p.frequency, p.lacunarity, y, i),
      OctaveCoordinate(p.frequency, p.lacunarity, z, i), OctaveSeed(p.seed, i), p.quality)
  }

  /** The loop's running sum and running weight after some octaves. */
  datatype Octave = Octave(value: real, weight: real)

  /**
   * One octave: the signal is the ridge of the raw noise times the running weight;
   * the sum gains the signal times the table weight `w`, and the next running
   * weight is the signal times the gain, clamped to [0, 1].
   */
  function Step(prev: Octave, raw: real, w: real): (o: Octave)
    ensures 0.0 <= o.weight <= 1.0
  {
    var signal := Ridge(raw, prev.weight);
    Octave(prev.value + signal * w, Clamp01(signal * Gain))
  }

  /** A step never makes a non-negative sum negative when its table weight is positive. */
  lemma StepKeepsValueNonNegative(prev: Octave, raw: real, w: real)
    requires prev.value >= 0.0 && prev.weight >= 0.0 && w > 0.0
    ensures Step(prev, raw, w).value >= 0.0
  {
    var signal := Ridge(raw, prev.weight);
    RidgeBounds(raw, prev.weight);
    if signal > 0.0 {
      MulMonotone(signal, 0.0, w);
    }
  }

  /** The state after `n` octaves, starting from an empty sum and a running weight of 1. */
  function Run(u: Primitives, p: Params, x: real, y: real, z: real, n: nat): (o: Octave)
    ensures 0.0 <= o.weight <= 1.0
    ensures n == 0 ==> o == Octave(0.0, 1.0)
  {
    if n == 0 then Octave(0.0, 1.0)
    else Step(Run(u, p, x, y, z, n - 1), Raw(u, p, x, y, z, n - 1), Weight(u, p.lacunarity, n - 1))
  }

  /** The signal octave `i` adds, before its table weight. */
  function Signal(u: Primitives, p: Params, x: real, y: real, z: real, i: nat): (s: real)
    ensures s >= 0.0
    ensures -1.0 <= Raw(u, p, x, y, z, i) <= 1.0 ==> s <= Run(u, p, x, y, z, i).weight
  {
    RidgeBounds(Raw(u, p, x, y, z, i), Run(u, p, x, y, z, i).weight);
    Ridge(Raw(u, p, x, y, z, i), Run(u, p, x, y, z, i).weight)
  }

  /** The output: the sum of the weighted octave signals, times 1.25, minus 1. */
  function Value(u: Primitives, p: Params, x: real, y: real, z: real): real
  {
    Run(u, p, x, y, z, Octaves(p.octaveCount)).value * 1.25 - 1.0
  }

  /** For a positive lacunarity the running sum of weighted signals is never negative. */
  lemma {:induction false} RunValueNonNegative(u: Primitives, p: Params, x: real, y: real, z: real, n: nat)
    requires DivisionExact(u) && p.lacunarity > 0.0
    ensures Run(u, p, x, y, z, n).value >= 0.0
  {
    if n > 0 {
      RunValueNonNegative(u, p, x, y, z, n - 1);
      WeightPositive(u, p.lacunarity, n - 1);
      StepKeepsValueNonNegative(Run(u, p, x, y, z, n - 1), Raw(u, p, x, y, z, n - 1), Weight(u, p.lacunarity, n - 1));
    }
  }

  /** Hence, for a positive lacunarity, the output is at least -1. */
  lemma ValueLowerBound(u: Primitives, p: Params, x: real, y: real, z: real)
    requires DivisionExact(u) && p.lacunarity > 0.0
    ensures Value(u, p, x, y, z) >= -1.0
  {
    RunValueNonNegative(u, p, x, y, z, Octaves(p.octaveCount));
  }

  /**
   * With one octave and a non-zero lacunarity, the output is `1.25 (1 - |n|)^2 - 1`
   * for the single noise call `n`, which is the call at the frequency-scaled
   * coordinates with the unchanged seed.
   */
  lemma SingleOctave(u: Primitives, p: Params, x: real, y: real, z: real)
    requires DivisionExact(u) && p.lacunarity != 0.0 && p.octaveCount == 1
    ensures Raw(u, p, x, y, z, 0)
         == CoherentNoise(u, x * p.frequency, y * p.frequency, z * p.frequency, OctaveSeed(p.seed, 0), p.quality)
    ensures Value(u, p, x, y, z) == Ridge(Raw(u, p, x, y, z, 0), 1.0) * 1.25 - 1.0
  {
    WeightReciprocal(u, p.lacunarity, 0);
    var raw := Raw(u, p, x, y, z, 0);
    assert OctaveCoordinate(p.frequency, p.lacunarity, x, 0) == x * p.frequency;
    assert OctaveCoordinate(p.frequency, p.lacunarity, y, 0) == y * p.frequency;
    assert OctaveCoordinate(p.frequency, p.lacunarity, z, 0) == z * p.frequency;
    assert raw == CoherentNoise(u, x * p.frequency, y * p.frequency, z * p.frequency, OctaveSeed(p.seed, 0), p.quality);
    var s := Ridge(raw, 1.0);
    calc {
      Run(u, p, x, y, z, 1).value;
      Step(Octave(0.0, 1.0), raw, Weight(u, p.lacunarity, 0)).value;
      0.0 + s * 1.0;
    }
  }

  /** What the octave loop's variables hold after `i` octaves. */
  ghost predicate LoopState(u: Primitives, p: Params, x: real, y: real, z: real, i: nat,
                            cx: real, cy: real, cz: real, value: real, weight: real)
  {
    && cx == OctaveCoordinate(p.frequency, p.lacunarity, x, i)
    && cy == OctaveCoordinate(p.frequency, p.lacunarity, y, i)
    && cz == OctaveCoordinate(p.frequency, p.lacunarity, z, i)
    && Run(u, p, x, y, z, i) == Octave(value, weight)
  }

  /** One octave step advances the coordinates by the lacunarity. */
  lemma StateNext(p: Params, x: real, y: real, z: real, i: nat, cx: real, cy: real, cz: real)
    requires cx == OctaveCoordinate(p.frequency, p.lacunarity, x, i)
    requires cy == OctaveCoordinate(p.frequency, p.lacunarity, y, i)
    requires cz == OctaveCoordinate(p.frequency, p.lacunarity, z, i)
    ensures cx * p.lacunarity == OctaveCoordinate(p.frequency, p.lacunarity, x, i + 1)
    ensures cy * p.lacunarity == OctaveCoordinate(p.frequency, p.lacunarity, y, i + 1)
    ensures cz * p.lacunarity == OctaveCoordinate(p.frequency, p.lacunarity, z, i + 1)
  {
  }

  /** One octave step adds the weighted signal and derives the next running weight. */
  lemma RunNext(u: Primitives, p: Params, x: real, y: real, z: real, i: nat,
                cx: real, cy: real, cz: real, value: real, weight: real, signal: real, w: real)
    requires LoopState(u, p, x, y, z, i, cx, cy, cz, value, weight)
    requires signal == Ridge(u.gradientCoherentNoise3D(u.makeInt32Range(cx), u.makeInt32Range(cy), u.makeInt32Range(cz),
      OctaveSeed(p.seed, i), p.quality), weight)
    requires w == Weight(u, p.lacunarity, i)
    ensures Run(u, p, x, y, z, i + 1) == Octave(value + signal * w, Clamp01(signal * Gain))
  {
    RawAt(u, p, x, y, z, i, cx, cy, cz);
    var raw := Raw(u, p, x, y, z, i);
    assert Run(u, p, x, y, z, i + 1) == Step(Run(u, p, x, y, z, i), raw, w);
    StepAt(Octave(value, weight), raw, w, signal);
  }

  /** A step with signal `signal` adds `signal * w` and keeps `signal * Gain`, clamped, as the weight. */
  lemma StepAt(prev: Octave, raw: real, w: real, signal: real)
    requires signal == Ridge(raw, prev.weight)
    ensures Step(prev, raw, w) == Octave(prev.value + signal * w, Clamp01(signal * Gain))
  {
  }

  /** Octave `i`'s noise call is the one at the loop's current coordinates. */
  lemma RawAt(u: Primitives, p: Params, x: real, y: real, z: real, i: nat, cx: real, cy: real, cz: real)
    requires cx == OctaveCoordinate(p.frequency, p.lacunarity, x, i)
    requires cy == OctaveCoordinate(p.frequency, p.lacunarity, y, i)
    requires cz == OctaveCoordinate(p.frequency, p.lacunarity, z, i)
    ensures Raw(u, p, x, y, z, i) == CoherentNoise(u, cx, cy, cz, OctaveSeed(p.seed, i), p.quality)
  {
  }

  /** Generator/RidgedMultifractal.cs, evaluated against the primitives `u`. */
  class RidgedMultifractal {
    const u: Primitives
    var frequency: real
    var lacunarity: real
    var quality: QualityMode
    var octaveCount: int
    var seed: int
    /** `m_weights`: allocated once with `OctavesMaximum` entries and never replaced. */
    const weights: array<real>

    /** The octave count is in range and the weight table matches the current lacunarity. */
    ghost predicate Valid()
      reads this, weights
    {
      && 1 <= octaveCount <= OctavesMaximum
      && weights.Length == OctavesMaximum
      && forall i :: 0 <= i < OctavesMaximum ==> weights[i] == Weight(u, lacunarity, i)
    }

    function Fields(): Params
      reads this
    {
      Params(frequency, lacunarity, quality, octaveCount, seed)
    }

    /** `RidgedMultifractal()`: the field initialisers, then `UpdateWeights`. */
    constructor (u: Primitives)
      ensures this.u == u && Fields() == Defaults && Valid()
      ensures fresh(weights)
    {
      this.u := u;
      frequency, lacunarity, quality, octaveCount, seed := 1.0, 2.0, Medium, 6, 0;
      weights := new real[OctavesMaximum](_ => 0.0);
      new;
      UpdateWeights();
    }

    /**
     * `RidgedMultifractal(frequency, lacunarity, octaves, seed, quality)`: the
     * setters, the `Lacunarity` one recomputing the table.
     */
    constructor WithParams(u: Primitives, frequency: real, lacunarity: real, octaves: int, seed: int, quality: QualityMode)
      ensures this.u == u && Fields() == Params(frequency, lacunarity, quality, ClampOctaves(octaves), seed)
      ensures Valid() && fresh(weights)
    {
      this.u := u;
      this.frequency := frequency;
      this.lacunarity := lacunarity;
      this.octaveCount := ClampOctaves(octaves);
      this.seed := seed;
      this.quality := quality;
      weights := new real[OctavesMaximum](_ => 0.0);
      new;
      UpdateWeights();
    }

    /** `UpdateWeights`: entry `i` becomes the reciprocal of `lacunarity^i`, for every entry. */
    method UpdateWeights()
      requires weights.Length == OctavesMaximum
      modifies weights
      ensures weights[..] == Table(u, lacunarity)
    {
      var lac := lacunarity;
      var f := 1.0;
      var i := 0;
      while i < OctavesMaximum
        invariant 0 <= i <= OctavesMaximum
        invariant f == Pow(lac, i)
        invariant forall j :: 0 <= j < i ==> weights[j] == Weight(u, lac, j)
      {
        weights[i] := u.divide(1.0, f);
        f := f * lac;
        i := i + 1;
      }
    }

    method SetFrequency(value: real)
      modifies this
      ensures Fields() == old(Fields()).(frequency := value)
    {
      frequency := value;
    }

    /** The `Lacunarity` setter stores the value and recomputes the whole table. */
    method SetLacunarity(value: real)
      requires Valid()
      modifies this, weights
      ensures Fields() == old(Fields()).(lacunarity := value)
      ensures weights[..] == Table(u, value) && Valid()
    {
      lacunarity := value;
      UpdateWeights();
    }

    method SetQuality(value: QualityMode)
      modifies this
      ensures Fields() == old(Fields()).(quality := value)
    {
      quality := value;
    }

    /** The `OctaveCount` setter clamps into [1, OctavesMaximum]. */
    method SetOctaveCount(value: int)
      modifies this
      ensures Fields() == old(Fields()).(octaveCount := ClampOctaves(value))
      ensures 1 <= octaveCount <= OctavesMaximum
    {
      octaveCount := ClampOctaves(value);
    }

    method SetSeed(value: int)
      modifies this
      ensures Fields() == old(Fields()).(seed := value)
    {
      seed := value;
    }

    /**
     * `GetValue`: the octave loop, running exactly `octaveCount` times; every table
     * read is in bounds because the count never exceeds `OctavesMaximum`.
     */
    method GetValue(x: real, y: real, z: real) returns (r: real)
      requires Valid()
      ensures r == Value(u, Fields(), x, y, z)
    {
      var p := Fields();
      var cx, cy, cz := x * p.frequency, y * p.frequency, z * p.frequency;
      var value := 0.0;
      var weight := 1.0;
      var i := 0;
      while i < p.octaveCount
        invariant 0 <= i <= p.octaveCount
        invariant LoopState(u, p, x, y, z, i, cx, cy, cz, value, weight)
      {
        var nx := u.makeInt32Range(cx);
        var ny := u.makeInt32Range(cy);
        var nz := u.makeInt32Range(cz);
        var octaveSeed := OctaveSeed(p.seed, i);
        var signal := u.gradientCoherentNoise3D(nx, ny, nz, octaveSeed, p.quality);
        signal := Ridge(signal, weight);
        var w := weights[i];
        RunNext(u, p, x, y, z, i, cx, cy, cz, value, weight, signal, w);
        StateNext(p, x, y, z, i, cx, cy, cz);
        weight := signal * Gain;
        weight := Clamp01(weight);
        value := value + signal * w;
        cx, cy, cz := cx * p.lacunarity, cy * p.lacunarity, cz * p.lacunarity;
        i := i + 1;
      }
      r := value * 1.25 - 1.0;
    }
  }
}
