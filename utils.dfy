/**
 * The numeric helpers the modules call: `Utils` and Unity's `Mathf`, which are not
 * part of this model's source. The noise primitives, the interpolators and the
 * transcendental functions are opaque: a `Primitives` value supplies them, and the
 * few facts some proofs need about them are stated as explicit predicates.
 */
module Utils {
  import opened Wrappers
  import opened ModuleBase

  /** A module seen as a scalar field: its output at every coordinate. */
  type Field = (real, real, real) -> real

  /**
   * Every source slot is filled: the `Debug.Assert(m_modules[i] != null)` lines an
   * operator's `GetValue` starts with.
   */
  predicate Filled(slots: seq<Option<Field>>)
  {
    forall i :: 0 <= i < |slots| ==> slots[i].Some?
  }

  /**
   * A slot setter such as `Displace.X` or `Blend.Controller`: it asserts that the
   * new source is non-null, then writes slot `index` and no other.
   */
  function SetSource(slots: seq<Option<Field>>, index: nat, value: Option<Field>): (r: Result<seq<Option<Field>>, Fault>)
    requires index < |slots|
    ensures r.Failure? <==> value.None?
    ensures r.Failure? ==> r.error == AssertionFailed
    ensures r.Success? ==> |r.value| == |slots| && r.value[index] == value
    ensures r.Success? ==> forall i :: 0 <= i < |slots| && i != index ==> r.value[i] == slots[i]
  {
    if value.None? then Failure(AssertionFailed) else Success(slots[index := value])
  }

  /** The helpers of `Utils`, `Math` and `Mathf`, with doubles idealised as reals. */
  datatype Primitives = Primitives(
    makeInt32Range: real -> real,
    gradientCoherentNoise3D: (real, real, real, int, QualityMode) -> real,
    valueNoise3D: (int, int, int, int) -> real,
    interpolateLinear: (real, real, real) -> real,
    interpolateCubic: (real, real, real, real, real) -> real,
    mapCubicSCurve: real -> real,
    sqrt: real -> real,
    cos: real -> real,
    sin: real -> real,
    /** IEEE division of doubles: exact for a non-zero divisor, an infinity or NaN otherwise. */
    divide: (real, real) -> real,
    /** `Utils.DegToRad` (a double) and `Mathf.Deg2Rad` (a float). */
    degToRad: real,
    deg2Rad: real,
    sqrt3: real)

  /** IEEE division agrees with real division whenever the divisor is non-zero. */
  ghost predicate DivisionExact(u: Primitives)
  {
    forall a: real, b: real :: b != 0.0 ==> u.divide(a, b) == a / b
  }

  /** `InterpolateLinear(n0, n1, a)` is `(1 - a) * n0 + a * n1`. */
  ghost predicate LinearInterpolation(u: Primitives)
  {
    forall n0: real, n1: real, a: real :: u.interpolateLinear(n0, n1, a) == n0 + a * (n1 - n0)
  }

  ghost predicate SqrtNonNegative(u: Primitives)
  {
    forall r: real :: u.sqrt(r) >= 0.0
  }

  ghost predicate TrigAtZero(u: Primitives)
  {
    u.cos(0.0) == 1.0 && u.sin(0.0) == 0.0
  }

  /**
   * One octave's noise call: the scaled coordinates folded by `MakeInt32Range`, then
   * `GradientCoherentNoise3D` with the octave's seed and the quality mode.
   */
  function CoherentNoise(u: Primitives, x: real, y: real, z: real, seed: int, quality: QualityMode): real
  {
    u.gradientCoherentNoise3D(u.makeInt32Range(x), u.makeInt32Range(y), u.makeInt32Range(z), seed, quality)
  }

  /** `Utils.OctavesMaximum`. Every proof uses only that it is at least the default of 6. */
  const OctavesMaximum: int := 30

  /**
   * A value limited to [min, max]: the nearer bound outside the range, the value
   * itself inside it. `Mathf.Clamp`, `Mathf.Clamp01` and `Clamp.GetValue` all do this.
   */
  function ClampReal(value: real, min: real, max: real): (r: real)
    requires min <= max
    ensures min <= r <= max
    ensures min <= value <= max ==> r == value
    ensures value < min ==> r == min
    ensures value > max ==> r == max
  {
    if value < min then min else if value > max then max else value
  }

  /** `Mathf.Clamp(int value, int min, int max)`: the same clamp on whole numbers. */
  function ClampInt(value: int, min: int, max: int): (r: int)
    requires min <= max
    ensures min <= r <= max
    ensures min <= value <= max ==> r == value
    ensures value < min ==> r == min
    ensures value > max ==> r == max
  {
    ClampReal(value as real, min as real, max as real).Floor
  }

  /** `Mathf.Clamp01`: limits a weight to [0, 1]. */
  function Clamp01(value: real): (r: real)
    ensures 0.0 <= r <= 1.0
    ensures 0.0 <= value <= 1.0 ==> r == value
    ensures value < 0.0 ==> r == 0.0
    ensures value > 1.0 ==> r == 1.0
  {
    ClampReal(value, 0.0, 1.0)
  }

  /** How many times an octave loop `for (i = 0; i < octaveCount; i++)` runs: `octaveCount`, or never when it is not positive. */
  function Octaves(octaveCount: int): (n: nat)
    ensures octaveCount >= 0 ==> n == octaveCount
    ensures octaveCount <= 0 ==> n == 0
  {
    if octaveCount < 0 then 0 else octaveCount
  }

  /** The octave-count setters' clamp into [1, OctavesMaximum]. */
  function ClampOctaves(value: int): (r: int)
    ensures 1 <= r <= OctavesMaximum
    ensures 1 <= value <= OctavesMaximum ==> r == value
  {
    ClampInt(value, 1, OctavesMaximum)
  }

  /** `Math.Abs` on doubles. */
  function AbsReal(v: real): (r: real)
    ensures r >= 0.0 && (r == v || r == -v)
  {
    if v < 0.0 then -v else v
  }

  /** `Math.Min` on doubles (NaN is not modelled). */
  function MinReal(a: real, b: real): (r: real)
    ensures r <= a && r <= b && (r == a || r == b)
  {
    if a < b then a else b
  }

  /** `Math.Max` on doubles (NaN is not modelled). */
  function MaxReal(a: real, b: real): (r: real)
    ensures r >= a && r >= b && (r == a || r == b)
  {
    if a > b then a else b
  }

  lemma MulMonotone(a: real, b: real, c: real)
    requires a >= b && c > 0.0
    ensures a * c >= b * c
  {
    assert a * c - b * c == (a - b) * c;
  }

  lemma QuotientTimesDivisor(num: real, den: real)
    requires den > 0.0
    ensures (num / den) * den == num
  {
  }

  /** A quotient of a non-negative number by a larger one lies in [0, 1). */
  lemma RatioInUnit(num: real, den: real)
    ensures 0.0 <= num < den ==> 0.0 <= num / den < 1.0
  {
    if 0.0 <= num < den {
      var q := num / den;
      QuotientTimesDivisor(num, den);
      if q >= 1.0 {
        MulMonotone(q, 1.0, den);
      }
      if q < 0.0 {
        MulMonotone(0.0, q, den);
      }
    }
  }

  /** `b` raised to the natural power `n`. */
  function Pow(b: real, n: nat): real
  {
    if n == 0 then 1.0 else Pow(b, n - 1) * b
  }

  /**
   * The coordinate octave `i` samples on one axis: scaled by the frequency, then once
   * more by the lacunarity for every earlier octave.
   */
  function OctaveCoordinate(frequency: real, lacunarity: real, c: real, i: nat): real
  {
    if i == 0 then c * frequency else OctaveCoordinate(frequency, lacunarity, c, i - 1) * lacunarity
  }

  /** Octave `i` samples at `c * frequency * lacunarity^i`. */
  lemma {:induction false} OctaveCoordinateClosedForm(frequency: real, lacunarity: real, c: real, i: nat)
    ensures OctaveCoordinate(frequency, lacunarity, c, i) == c * frequency * Pow(lacunarity, i)
  {
    if i > 0 {
      OctaveCoordinateClosedForm(frequency, lacunarity, c, i - 1);
      var q := Pow(lacunarity, i - 1);
      assert c * frequency * q * lacunarity == c * frequency * (q * lacunarity);
    }
  }

  /** The weights `1, b, b^2, ...` as a function of the octave. */
  function Powers(b: real): nat -> real
  {
    (i: nat) => Pow(b, i)
  }

  /** The sum of the first `n` signals, signal `i` scaled by `weight(i)`. */
  function WeightedSum(signal: nat -> real, weight: nat -> real, n: nat): real
  {
    if n == 0 then 0.0 else WeightedSum(signal, weight, n - 1) + signal(n - 1) * weight(n - 1)
  }

  /** The sum of the first `n` weights. */
  function TotalWeight(weight: nat -> real, n: nat): real
  {
    if n == 0 then 0.0 else TotalWeight(weight, n - 1) + weight(n - 1)
  }

  /** The sum of the first `n` octave signals, octave `i` weighted by `persistence^i`. */
  function OctaveSum(signal: nat -> real, persistence: real, n: nat): real
  {
    WeightedSum(signal, Powers(persistence), n)
  }

  /** The total weight of `n` octaves: `1 + b + ... + b^(n-1)`. */
  function PowSum(b: real, n: nat): real
  {
    TotalWeight(Powers(b), n)
  }

  /** Signals in [-1, 1] under non-negative weights sum to within the total weight. */
  lemma {:induction false} WeightedSumBound(signal: nat -> real, weight: nat -> real, n: nat)
    requires forall i :: 0 <= i < n ==> -1.0 <= signal(i) <= 1.0 && weight(i) >= 0.0
    ensures -TotalWeight(weight, n) <= WeightedSum(signal, weight, n) <= TotalWeight(weight, n)
  {
    if n > 0 {
      WeightedSumBound(signal, weight, n - 1);
      AccumulateBound(WeightedSum(signal, weight, n - 1), TotalWeight(weight, n - 1), signal(n - 1), weight(n - 1));
    }
  }

  /**
   * When every signal is in [-1, 1] and the persistence is not negative, the sum of
   * `n` octaves lies within the total octave weight.
   */
  lemma OctaveSumBound(signal: nat -> real, persistence: real, n: nat)
    requires persistence >= 0.0
    requires forall i :: 0 <= i < n ==> -1.0 <= signal(i) <= 1.0
    ensures -PowSum(persistence, n) <= OctaveSum(signal, persistence, n) <= PowSum(persistence, n)
  {
    forall i: nat | i < n
      ensures Powers(persistence)(i) >= 0.0
    {
      PowNonNegative(persistence, i);
    }
    WeightedSumBound(signal, Powers(persistence), n);
  }

  /** With weight 1 for the first signal and 0 for every later one, only the first contributes. */
  lemma {:induction false} WeightedSumFirstOnly(signal: nat -> real, weight: nat -> real, n: nat)
    requires n >= 1 && weight(0) == 1.0
    requires forall i :: 1 <= i < n ==> weight(i) == 0.0
    ensures WeightedSum(signal, weight, n) == signal(0)
  {
    if n > 1 {
      WeightedSumFirstOnly(signal, weight, n - 1);
    }
  }

  /** With persistence 0 only the first octave contributes, however many octaves run. */
  lemma OctaveSumPersistenceZero(signal: nat -> real, n: nat)
    requires n >= 1
    ensures OctaveSum(signal, 0.0, n) == signal(0)
  {
    forall i: nat | 1 <= i < n
      ensures Powers(0.0)(i) == 0.0
    {
      assert Pow(0.0, i) == Pow(0.0, i - 1) * 0.0;
    }
    WeightedSumFirstOnly(signal, Powers(0.0), n);
  }

  /** A signal in [-1, 1] scaled by a non-negative weight stays within that weight. */
  lemma ScaledSignalBound(s: real, w: real)
    requires -1.0 <= s <= 1.0 && w >= 0.0
    ensures -w <= s * w <= w
  {
    if w > 0.0 {
      MulMonotone(s, -1.0, w);
      MulMonotone(1.0, s, w);
    }
  }

  /** Adding a weighted signal in [-1, 1] widens a symmetric bound by the weight. */
  lemma AccumulateBound(sum: real, bound: real, s: real, w: real)
    requires -bound <= sum <= bound
    requires -1.0 <= s <= 1.0 && w >= 0.0
    ensures -(bound + w) <= sum + s * w <= bound + w
  {
    ScaledSignalBound(s, w);
  }

  lemma {:induction false} PowNonNegative(b: real, n: nat)
    requires b >= 0.0
    ensures Pow(b, n) >= 0.0
  {
    if n > 0 {
      PowNonNegative(b, n - 1);
      if b > 0.0 {
        MulMonotone(Pow(b, n - 1), 0.0, b);
      }
    }
  }

  lemma {:induction false} PowPositive(b: real, n: nat)
    requires b > 0.0
    ensures Pow(b, n) > 0.0
  {
    if n > 0 {
      PowPositive(b, n - 1);
    }
  }

  lemma {:induction false} PowNonZero(b: real, n: nat)
    requires b != 0.0
    ensures Pow(b, n) != 0.0
  {
    if n > 0 {
      PowNonZero(b, n - 1);
    }
  }

  /** The 32-bit two's-complement wrap-around of C# `int` arithmetic. */
  function WrapInt32(v: int): (r: int)
    ensures -0x8000_0000 <= r < 0x8000_0000
    ensures (r - v) % 0x1_0000_0000 == 0
    ensures -0x8000_0000 <= v < 0x8000_0000 ==> r == v
  {
    (v + 0x8000_0000) % 0x1_0000_0000 - 0x8000_0000
  }

  /** `(int)x` on a double: truncation toward zero (values outside int range are not modelled). */
  function Truncate(x: real): (r: int)
    ensures x >= 0.0 ==> r as real <= x < r as real + 1.0
    ensures x < 0.0 ==> r as real - 1.0 < x <= r as real
  {
    if x >= 0.0 then x.Floor else -((-x).Floor)
  }
}
