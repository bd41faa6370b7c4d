# LibNoise.Unity in Dafny

A model of the core of LibNoise.Unity, a C# port of the libnoise coherent-noise
library. Every noise module evaluates `GetValue(x, y, z)` to a double and modules
compose into trees: generators (Perlin, Billow, RidgedMultifractal, Voronoi,
Spheres, Cylinders, Checker, Const) produce values, and operators (Abs, Blend,
Clamp, Curve, Displace, Max, Min, Rotate, Scale, ScaleBias, Select, Subtract,
Terrace, Translate, Turbulence) transform the values or the coordinates of their
source modules. `Noise2D` samples a module tree into a two-dimensional map, and
`Gradient` maps values to colours.

How the model is built:

- Doubles are idealised as `real`, and integer arithmetic is unbounded. The C#
  `int` wrap-arounds and masks are written out explicitly: seed sums, the
  `& 0xffffffff` and `& 0x7fffffff` octave seeds, and the `(int)` casts.
- The helpers in `Utils` (noise hashing, interpolation, the S-curve, `MakeInt32Range`)
  and `Math.Sqrt`/`Cos`/`Sin` are not part of this model's source. A `Utils.Primitives`
  value supplies them as functions. Each fact a proof needs about them is a named
  predicate that the lemma requires, for example exact division by a non-zero
  divisor, linear interpolation, or cos 0 = 1.
- A source module is a `Field`, a function from a point to a value. The slots of an
  operator are a `seq<Option<Field>>`, set through `Utils.SetSource`. This sequence
  and the `ModuleBase.Sources` class stand for the same `m_modules` array:
  `Sources` models the base class's own members (the indexer, `SourceModuleCount`,
  `Dispose`) on it, and the operators keep the sequence as a field. An empty slot
  makes `GetValue` fail with `MissingSource`, where the C# `Debug.Assert` would fire.
- Classes whose fields the C# updates in place are Dafny classes with `modifies`
  frames:
  - `ModuleBase.Sources` (the slot array);
  - Perlin, Billow, RidgedMultifractal and Voronoi;
  - Select, Clamp, Rotate, Turbulence, Terrace and Curve;
  - `Noise2D`;
  - the stop list of `Gradient`. Gradient is a C# struct, so it is a datatype of the
    inversion flag and a reference to a `Stops` object: copies share the list but
    each has its own flag.
  The stateless operators are functions over their slots.
- Each class has a function to its parameters, and its `GetValue` method is proved
  against the pure evaluation function. The octave loops, the Voronoi neighbourhood
  search, the Noise2D fill loops, `GetData`, `Clear` and the control-point scans are
  loops with invariants.
- Exceptions are the `ModuleBase.Fault` values. They are returned as `Result` or
  `Outcome`, and argument checks happen before any write, as in the C#.

A module is expected to be read-only once built, so that evaluating it never
changes it. `Clamp.GetValue` is the exception: it swaps inverted bounds in place
(Operator/Clamp.cs:107-112). The model follows the code (`OpClamp.Clamp.GetValue`).

## Model

| member | source | states |
|---|---|---|
| ModuleBase.QualityModeHasThreeValues | ModuleBase.cs:16-21 | every quality mode is Low, Medium or High |
| ModuleBase.FirstEmpty | ModuleBase.cs:170-173 | the index where the disposal walk first meets an empty slot: every earlier slot is filled, and the slot there is empty unless it is the end |
| ModuleBase.Sources.constructor | ModuleBase.cs:42-48 | a positive count allocates that many empty slots; any other count leaves no slot array |
| ModuleBase.Sources.SourceModuleCount | ModuleBase.cs:97-100 | 0 without a slot array, the array's length otherwise |
| ModuleBase.Sources.Get | ModuleBase.cs:61-74 | no slots fails the debug assertion; an index out of range raises ArgumentOutOfRange; an empty slot raises ArgumentNull; otherwise returns the stored source |
| ModuleBase.Sources.Set | ModuleBase.cs:75-87 | no slot array raises NullReference, an empty one fails the assertion, a bad index raises ArgumentOutOfRange, a null value ArgumentNull; success writes exactly that slot, and failure changes nothing |
| ModuleBase.Sources.Dispose | ModuleBase.cs:156-178 | disposing twice does nothing; otherwise the walk clears slots up to the first empty one and there raises NullReference leaving the module undisposed, or clears them all, drops the slot array and marks the module disposed |
| Utils.SetSource | Operator/Displace.cs:45-53 | a slot setter fails the assertion exactly on a null source; otherwise it writes its own slot and keeps every other; the same code is at Operator/Blend.cs:42-50 |
| Utils.ClampOctaves | Generator/Perlin.cs:91-95 | the octave count setters clamp into [1, OctavesMaximum], keeping values already in range |
| Utils.WrapInt32 | Generator/Perlin.cs:141 | an `int` sum wraps to the 32-bit range, agrees with the exact sum modulo 2^32 and is the exact sum when that is in range |
| Utils.OctaveCoordinateClosedForm | Generator/Perlin.cs:136-148 | octave i samples each axis at the coordinate times frequency times lacunarity to the power i |
| Utils.OctaveSumBound | Generator/Perlin.cs:136-148 | with octave signals in [-1, 1] and a non-negative persistence, the sum of n octaves lies within the sum of the persistence powers |
| Utils.OctaveSumPersistenceZero | Generator/Perlin.cs:136-148 | with persistence 0 only the first octave contributes |
| Utils.ClampReal | Operator/Clamp.cs:113-122 | for ordered bounds the result lies in [min, max], is the value itself when that is within them, and the nearer bound otherwise |
| Utils.ClampInt | Operator/Curve.cs:112-115 | `Mathf.Clamp` on ints, defined through ClampReal: the result lies in [min, max], equals the value inside it and the nearer bound outside it |
| Utils.Clamp01 | Generator/RidgedMultifractal.cs:155 | the result lies in [0, 1], equals the value inside it and the nearer bound outside it |
| Utils.Truncate | Generator/Voronoi.cs:103-105 | the C# cast to int: the integer next to the value toward zero |
| GenChecker.LowBit | Generator/Checker.cs:36 | `i & 1` is 0 or 1 for every integer, negative ones too |
| GenChecker.Xor | Generator/Checker.cs:36 | `^` on two bits is a bit, and it is set exactly when the bits differ |
| GenChecker.Parity | Generator/Checker.cs:36 | the combined parity of the three cell indices is 0 or 1 |
| GenChecker.Value | Generator/Checker.cs:31-37 | the checkerboard only outputs -1 or 1 |
| GenChecker.ValueIsSumParity | Generator/Checker.cs:31-37 | the output is -1 exactly when the sum of the three floored cell indices is odd |
| GenChecker.Changed | Generator/Checker.cs:36 | 1 exactly when two cell indices differ in their low bit, 0 when they agree |
| GenChecker.ParityFlip | Generator/Checker.cs:31-37 | moving to any other point keeps the output when an even number of the three cell indices change parity, and negates it when an odd number do |
| GenConst.Value | Generator/Const.cs:58-61 | the output is the stored value, whatever the coordinates |
| GenConst.Independent | Generator/Const.cs:58-61 | two points always give the same output |
| GenSpheres.Ring | Generator/Spheres.cs:68-72 | the ring map of any distance lies in [-1, 1] |
| GenSpheres.RingAtInteger | Generator/Spheres.cs:68-72 | a whole-number distance maps to 1, the top of a shell |
| GenSpheres.RingAtHalf | Generator/Spheres.cs:68-72 | a distance halfway between two whole numbers maps to -1 |
| GenSpheres.Value | Generator/Spheres.cs:63-73 | the output: the ring map of the distance of the frequency-scaled point from the origin; GenSpheres.ValueRange bounds it |
| GenSpheres.ValueRange | Generator/Spheres.cs:63-73 | the output lies in [-1, 1]; it is 1 on a shell of the scaled distance and -1 halfway between two shells |
| GenCylinders.Value | Generator/Cylinders.cs:63-72 | the output: the ring map of the distance of the frequency-scaled (x, z) from the y axis; GenCylinders.ValueRange bounds it |
| GenCylinders.ValueRange | Generator/Cylinders.cs:63-72 | the output lies in [-1, 1], does not depend on y, is 1 on a cylinder of the scaled distance from the y axis and -1 halfway between two |
| OpAbs.Apply | Operator/Abs.cs:43-47 | the field the module computes: the absolute value of the source at each point; OpAbs.Idempotent is stated on it |
| OpAbs.GetValue | Operator/Abs.cs:43-47 | fails with a missing source exactly when the slot is empty; otherwise the result is non-negative and equals the source's value or its negation |
| OpAbs.Idempotent | Operator/Abs.cs:43-47 | Abs applied to an Abs module changes nothing |
| OpMin.Apply | Operator/Min.cs:47-54 | the field the module computes: the smaller of the two sources at each point; OpMin.Symmetric is stated on it |
| OpMin.GetValue | Operator/Min.cs:47-54 | fails exactly when a slot is empty; otherwise the result is at most both sources and equals one of them |
| OpMin.Symmetric | Operator/Min.cs:47-54 | swapping the two sources does not change the output |
| OpMax.Apply | Operator/Max.cs:44-51 | the field the module computes: the larger of the two sources at each point; OpMax.Symmetric and OpMax.OfConstants are stated on it |
| OpMax.GetValue | Operator/Max.cs:44-51 | fails exactly when a slot is empty; otherwise the result is at least both sources and equals one of them |
| OpMax.Symmetric | Operator/Max.cs:44-51 | swapping the two sources does not change the output |
| OpMax.OfConstants | Operator/Max.cs:44-51 | Max over the constants 2 and 3 outputs 3 everywhere |
| OpSubtract.Apply | Operator/Subtract.cs:44-49 | the field the module computes: the first source minus the second at each point; OpSubtract.Constructed is stated on it |
| OpSubtract.GetValue | Operator/Subtract.cs:44-49 | fails exactly when a slot is empty; otherwise adding the second source back gives the first |
| OpSubtract.Constructed | Operator/Subtract.cs:44-49 | two filled slots give lhs minus rhs; a source subtracted from itself gives 0 |
| OpBlend.Weight | Operator/Blend.cs:70 | the controller's -1 and 1 map to weights 0 and 1, and [-1, 1] maps into [0, 1] |
| OpBlend.Apply | Operator/Blend.cs:63-72 | the field the module computes: the interpolation from the first source to the second by the weight of the controller at each point; OpBlend.Ends is stated on it |
| OpBlend.GetValue | Operator/Blend.cs:63-72 | fails exactly when one of the three slots is empty; otherwise linearly interpolates from slot 0 to slot 1 by the weight of slot 2 |
| OpBlend.Ends | Operator/Blend.cs:63-72 | a controller of -1 gives the first source, 1 the second, 0 their average |
| OpBlend.ControllerSetter | Operator/Blend.cs:42-50 | setting the controller succeeds exactly for a non-null module and writes slot 2 only |
| OpDisplace.Apply | Operator/Displace.cs:92-102 | the field the module computes: the source read at the point moved by the three displacement sources; OpDisplace.ZeroDisplacement is stated on it |
| OpDisplace.GetValue | Operator/Displace.cs:92-102 | fails exactly when one of the four slots is empty; otherwise reads slot 0 at the point moved by the three displacement sources, each read at the original point |
| OpDisplace.ZeroDisplacement | Operator/Displace.cs:92-102 | displacements that are zero at a point leave the source's value there |
| OpDisplace.AxisSetters | Operator/Displace.cs:45-79 | the X, Y and Z setters each write their own slot and nothing else; a null module fails |
| OpScale.Apply | Operator/Scale.cs:97-101 | the field the module computes: the source read at the point scaled axis by axis; OpScale.DefaultIsIdentity and OpScale.Nested are stated on it |
| OpScale.GetValue | Operator/Scale.cs:97-101 | fails exactly when the slot is empty; otherwise reads the source at the point scaled axis by axis |
| OpScale.DefaultIsIdentity | Operator/Scale.cs:13-15 | the initial factors of 1 leave the source unchanged |
| OpScale.Nested | Operator/Scale.cs:97-101 | Scale over Scale equals one Scale by the axis-wise products of the factors |
| OpScaleBias.Apply | Operator/ScaleBias.cs:85-89 | the field the module computes: the source times the scale plus the bias at each point; OpScaleBias.Special and OpScaleBias.Nested are stated on it |
| OpScaleBias.GetValue | Operator/ScaleBias.cs:85-89 | fails exactly when the slot is empty; otherwise the result minus the bias is the source's value times the scale |
| OpScaleBias.Special | Operator/ScaleBias.cs:85-89 | the initial scale 1 and bias 0 (lines 13-14) are the identity; a zero scale gives the bias everywhere |
| OpScaleBias.Nested | Operator/ScaleBias.cs:85-89 | ScaleBias over ScaleBias equals one ScaleBias whose scale is the product and whose bias is the outer scale times the inner bias plus the outer bias |
| OpTranslate.Apply | Operator/Translate.cs:90-94 | the field the module computes: the source read at the point shifted axis by axis; OpTranslate.Special and OpTranslate.Nested are stated on it |
| OpTranslate.GetValue | Operator/Translate.cs:90-94 | fails exactly when the slot is empty; otherwise reads the source at the point shifted axis by axis |
| OpTranslate.Special | Operator/Translate.cs:90-94 | the initial offsets (lines 16-18) shift by (1, 1, 1), not 0; zero offsets leave the source unchanged |
| OpTranslate.Nested | Operator/Translate.cs:90-94 | Translate over Translate equals one Translate by the sums of the offsets |
| OpTranslate.EmptyConstructor | Operator/Translate.cs:27-30 | the parameterless Translate leaves its slot empty, so reading it fails |
| GenPerlin.OctaveSeed | Generator/Perlin.cs:141 | the octave seed lies in [0, 2^32), is congruent to seed + i modulo 2^32, and is seed + i whenever that sum is a non-negative `int` |
| GenPerlin.SingleOctave | Generator/Perlin.cs:126-150 | one octave gives a single noise call at the frequency-scaled, folded point with the unchanged seed |
| GenPerlin.PersistenceZero | Generator/Perlin.cs:126-150 | with persistence 0 the output is the first octave's signal |
| GenPerlin.ValueBound | Generator/Perlin.cs:126-150 | octave signals in [-1, 1] and a non-negative persistence keep the output within 1 + p + ... + p^(n-1) |
| GenPerlin.StateNext | Generator/Perlin.cs:144-147 | one loop step multiplies the coordinates by the lacunarity and the weight by the persistence, reaching the next octave's values |
| GenPerlin.SumNext | Generator/Perlin.cs:138-143 | one loop step adds the octave's weighted signal, giving the sum over one more octave |
| GenPerlin.Perlin.constructor | Generator/Perlin.cs:18-35 | the field initialisers: frequency 1, lacunarity 2, Medium, 6 octaves, persistence 0.5, seed 0 |
| GenPerlin.Perlin.WithParams | Generator/Perlin.cs:46-55 | every field takes its argument, the octave count clamped into [1, OctavesMaximum] |
| GenPerlin.Perlin.SetFrequency | Generator/Perlin.cs:64-68 | writes the frequency and nothing else |
| GenPerlin.Perlin.SetLacunarity | Generator/Perlin.cs:73-77 | writes the lacunarity and nothing else |
| GenPerlin.Perlin.SetQuality | Generator/Perlin.cs:82-86 | writes the quality and nothing else |
| GenPerlin.Perlin.SetOctaveCount | Generator/Perlin.cs:91-95 | writes the clamped octave count and nothing else, keeping it in [1, OctavesMaximum] |
| GenPerlin.Perlin.SetPersistence | Generator/Perlin.cs:100-104 | writes the persistence and nothing else |
| GenPerlin.Perlin.SetSeed | Generator/Perlin.cs:109-113 | writes the seed and nothing else |
| GenPerlin.Value | Generator/Perlin.cs:126-150 | the output: the persistence-weighted sum of the octave signals; GenPerlin.ValueBound, GenPerlin.SingleOctave and GenPerlin.PersistenceZero are stated on it, and the GetValue loop is proved equal to it |
| GenPerlin.Perlin.GetValue | Generator/Perlin.cs:126-150 | the octave loop returns the persistence-weighted sum of the octave signals, each read at the coordinates scaled by frequency times lacunarity^i with seed OctaveSeed(seed, i) |
| GenBillow.Billowed | Generator/Billow.cs:136 | a folded signal is at least -1, at most 1 when the raw signal is in [-1, 1], and -1 for a raw 0 |
| GenBillow.BillowedSymmetric | Generator/Billow.cs:136 | folding ignores the sign of the raw signal |
| GenBillow.ValueBound | Generator/Billow.cs:122-144 | raw signals in [-1, 1] and a non-negative persistence keep the output within the total octave weight of 0.5 |
| GenBillow.SingleSilentOctave | Generator/Billow.cs:122-144 | one octave with raw signal 0 outputs -0.5 |
| GenBillow.SumNext | Generator/Billow.cs:131-137 | one loop step adds the octave's weighted folded signal, giving the sum over one more octave |
| GenBillow.Billow.constructor | Generator/Billow.cs:13-30 | the field initialisers, the same as Perlin's |
| GenBillow.Billow.WithParams | Generator/Billow.cs:41-51 | every field takes its argument, the octave count clamped into [1, OctavesMaximum] |
| GenBillow.Billow.SetOctaveCount | Generator/Billow.cs:87-91 | writes the clamped octave count and nothing else |
| GenBillow.Billow.SetFrequency | Generator/Billow.cs:60-64 | writes the frequency and nothing else |
| GenBillow.Billow.SetLacunarity | Generator/Billow.cs:69-73 | writes the lacunarity and nothing else |
| GenBillow.Billow.SetQuality | Generator/Billow.cs:78-82 | writes the quality and nothing else |
| GenBillow.Billow.SetPersistence | Generator/Billow.cs:96-100 | writes the persistence and nothing else |
| GenBillow.Billow.SetSeed | Generator/Billow.cs:105-109 | writes the seed and nothing else |
| GenBillow.Value | Generator/Billow.cs:122-144 | the output: 0.5 plus the persistence-weighted sum of the folded octave signals; GenBillow.ValueBound is stated on it, and the GetValue loop is proved equal to it |
| GenBillow.Billow.GetValue | Generator/Billow.cs:122-144 | the octave loop returns 0.5 plus the persistence-weighted sum of the folded octave signals, with Perlin's coordinates and seeds |
| GenRidged.OctaveSeed | Generator/RidgedMultifractal.cs:148 | the octave seed lies in [0, 2^31) and is seed + i modulo 2^31, whatever the 32-bit wrap of the sum |
| GenRidged.WrapLowBits | Generator/RidgedMultifractal.cs:148 | the 32-bit wrap-around of the sum leaves the bits the 0x7fffffff mask keeps unchanged |
| GenRidged.Weight | Generator/RidgedMultifractal.cs:114-118 | with exact division and a non-zero power, table entry i is 1 / lacunarity^i |
| GenRidged.Table | Generator/RidgedMultifractal.cs:112-120 | the table has OctavesMaximum entries, entry i being Weight(i) |
| GenRidged.WeightReciprocal | Generator/RidgedMultifractal.cs:112-120 | for a non-zero lacunarity each entry times lacunarity^i is 1, and the first entry is 1 |
| GenRidged.WeightPositive | Generator/RidgedMultifractal.cs:112-120 | for a positive lacunarity every entry is positive |
| GenRidged.RidgeBounds | Generator/RidgedMultifractal.cs:150-153 | a ridge under a non-negative running weight is non-negative, and at most that weight for a raw signal in [-1, 1] |
| GenRidged.SquareBounds | Generator/RidgedMultifractal.cs:152-153 | a square times a non-negative weight is non-negative, and at most the weight for a base in [0, 1] |
| GenRidged.Step | Generator/RidgedMultifractal.cs:149-156 | one octave leaves the next running weight in [0, 1], as the clamp promises |
| GenRidged.StepKeepsValueNonNegative | Generator/RidgedMultifractal.cs:149-156 | an octave with a positive table weight never makes a non-negative sum negative |
| GenRidged.Run | Generator/RidgedMultifractal.cs:138-160 | the running weight stays in [0, 1]; before any octave the sum is 0 and the weight 1 |
| GenRidged.Signal | Generator/RidgedMultifractal.cs:150-153 | an octave's signal is non-negative and, for a raw signal in [-1, 1], at most the running weight |
| Utils.Octaves | Generator/RidgedMultifractal.cs:143 | the octave loop runs octaveCount times, and never for a count that is not positive; Perlin and Billow use the same loop header |
| GenRidged.RunValueNonNegative | Generator/RidgedMultifractal.cs:138-160 | for a positive lacunarity the running sum is never negative, after any number of octaves |
| GenRidged.ValueLowerBound | Generator/RidgedMultifractal.cs:133-162 | for a positive lacunarity the output is at least -1 |
| GenRidged.SingleOctave | Generator/RidgedMultifractal.cs:133-162 | one octave outputs 1.25 (1 - abs n)^2 - 1 for the single noise call n at the frequency-scaled point |
| GenRidged.StateNext | Generator/RidgedMultifractal.cs:157-159 | one loop step multiplies the coordinates by the lacunarity, reaching the next octave's coordinates |
| GenRidged.RunNext | Generator/RidgedMultifractal.cs:145-156 | one loop step adds the signal times the table weight and sets the next running weight to the clamped signal times the gain |
| GenRidged.RidgedMultifractal.constructor | Generator/RidgedMultifractal.cs:14-32 | the field initialisers, then a weight table computed for lacunarity 2 |
| GenRidged.RidgedMultifractal.WithParams | Generator/RidgedMultifractal.cs:42-50 | every field takes its argument, the octave count clamped, and the table matches the given lacunarity |
| GenRidged.RidgedMultifractal.UpdateWeights | Generator/RidgedMultifractal.cs:112-120 | the whole table becomes Table(lacunarity) |
| GenRidged.RidgedMultifractal.SetFrequency | Generator/RidgedMultifractal.cs:59-63 | writes the frequency and nothing else |
| GenRidged.RidgedMultifractal.SetLacunarity | Generator/RidgedMultifractal.cs:68-76 | writes the lacunarity and recomputes the table for it |
| GenRidged.RidgedMultifractal.SetQuality | Generator/RidgedMultifractal.cs:81-85 | writes the quality and nothing else |
| GenRidged.RidgedMultifractal.SetOctaveCount | Generator/RidgedMultifractal.cs:90-94 | writes the clamped octave count and nothing else |
| GenRidged.RidgedMultifractal.SetSeed | Generator/RidgedMultifractal.cs:99-103 | writes the seed and nothing else |
| GenRidged.Value | Generator/RidgedMultifractal.cs:133-162 | the output: 1.25 times the weighted sum of the ridged signals, minus 1; GenRidged.ValueLowerBound and GenRidged.SingleOctave are stated on it, and the GetValue loop is proved equal to it |
| GenRidged.RidgedMultifractal.GetValue | Generator/RidgedMultifractal.cs:133-162 | the octave loop returns 1.25 times the spectrally weighted sum of the ridged signals, minus 1; every table read is in bounds |
| GenVoronoi.BaseCell | Generator/Voronoi.cs:103-105 | the base cell index i satisfies i <= c <= i + 1 |
| GenVoronoi.BaseCellIsFloor | Generator/Voronoi.cs:103-105 | the base cell is the floor of the coordinate, except at the integers that are not positive, where it is one below |
| GenVoronoi.BaseCellAtNonPositiveIntegers | Generator/Voronoi.cs:103-105 | 0.0 lies in cell -1, -2.0 in cell -3 and -0.5 in cell -1 |
| GenVoronoi.OffsetsDigits | Generator/Voronoi.cs:110-114 | after k innermost iterations the loop counters' offsets are the base-5 digits of k, z most significant |
| GenVoronoi.NeighbourAt | Generator/Voronoi.cs:110-114 | the candidate at position 25a + 5b + c is the cell at offsets (c, b, a) from the loops' starts |
| GenVoronoi.NeighbourhoodExact | Generator/Voronoi.cs:110-114 | every candidate is within 2 of the base cell on each axis, and every such cell is a candidate |
| GenVoronoi.VisitOrder | Generator/Voronoi.cs:110-114 | cells are visited z first, then y, then x, in ascending order |
| GenVoronoi.Search | Generator/Voronoi.cs:106-132 | the kept candidate's position is before the number of candidates searched, or -1 when none was kept |
| GenVoronoi.SearchFacts | Generator/Voronoi.cs:106-132 | the kept squared distance is at most the initial 2147483647 and at most every visited candidate's, strictly below every earlier one's, and belongs to the kept point |
| GenVoronoi.SquareAtMost | Generator/Voronoi.cs:122 | a number within m of zero has a square of at most m * m |
| GenVoronoi.ChosenIsNearest | Generator/Voronoi.cs:98-132 | with value noise in [-1, 1] the search always keeps one of the 125 seed points, the earliest at the least squared distance from the scaled input |
| GenVoronoi.FirstCandidateNear | Generator/Voronoi.cs:106-129 | the first candidate lies within squared distance 48 of the input, below the initial minimum |
| GenVoronoi.FlatWithoutDisplacement | Generator/Voronoi.cs:133-146 | displacement 0 and no distance term give 0 everywhere |
| GenVoronoi.DistanceTermAtLeastMinusOne | Generator/Voronoi.cs:134-146 | with the distance term the output is at least the lookup term minus 1 |
| GenVoronoi.SearchNext | Generator/Voronoi.cs:116-129 | one loop body step turns the search state after k candidates into the state after k + 1 |
| GenVoronoi.OutputOfSearch | Generator/Voronoi.cs:133-146 | the output formula applied to the completed search's point is the generator's output |
| GenVoronoi.SearchRow | Generator/Voronoi.cs:114-130 | the innermost loop advances the search by the five cells of one row |
| GenVoronoi.SearchPlane | Generator/Voronoi.cs:112-131 | the middle loop advances the search by the 25 cells of one plane |
| GenVoronoi.SearchNeighbourhood | Generator/Voronoi.cs:106-132 | the three nested loops leave the state of the search over all 125 cells |
| GenVoronoi.Voronoi.constructor | Generator/Voronoi.cs:12-27 | the field initialisers: displacement 1, frequency 1, seed 0, no distance term |
| GenVoronoi.Voronoi.WithParams | Generator/Voronoi.cs:37-45 | every field takes its argument |
| GenVoronoi.Value | Generator/Voronoi.cs:98-147 | the output: the distance term at the earliest nearest seed point plus displacement times the value noise of its cell; GenVoronoi.ChosenIsNearest and GenVoronoi.FlatWithoutDisplacement are stated on it |
| GenVoronoi.Voronoi.GetValue | Generator/Voronoi.cs:98-147 | returns the distance term plus displacement times the seed-0 value noise at the nearest seed point's cell |
| Gradients.Factor | Gradient.cs:106-115 | for a position between two stops the weight lies in [0, 1), in (0, 1] when inverted, and inversion turns a into 1 - a |
| Gradients.RemoveFirstAt | Gradient.cs:120-127 | the setter's scan removes the first stop at the position, if there is one, and keeps the rest in order |
| Gradients.Lookup | Gradient.cs:90-117 | what the indexer getter returns: the colours of the clamped stops around the first stop above the position, interpolated by Factor; the Lookup lemmas state its ends and interior |
| Gradients.LookupBelowFirst | Gradient.cs:92-105 | a position below the first stop reads the first colour |
| Gradients.LookupAtOrAboveLast | Gradient.cs:92-105 | in a sorted list a position at or above the last stop reads the last colour |
| Gradients.LookupInterior | Gradient.cs:92-116 | a position between neighbouring stops i and i + 1 interpolates their colours in that order, by a weight in [0, 1) or, inverted, in (0, 1]; the swap of the two positions changes nothing |
| Gradients.RemoveKeepsOrder | Gradient.cs:124 | removing one stop keeps the positions strictly increasing |
| Gradients.RemoveFirstLeavesNone | Gradient.cs:120-127 | in a strictly sorted list no stop at the position is left after the removal |
| Gradients.InsertKeepsOrder | Gradient.cs:128-130 | a new position inserted where the scan stops keeps the list strictly sorted |
| Gradients.RemoveKeepsOthers | Gradient.cs:120-127 | the removal keeps every stop at another position |
| Gradients.Upsert | Gradient.cs:118-131 | what the indexer setter leaves: the first stop at the position removed, the new stop appended, the list sorted; the Upsert lemmas state that it keeps the order and stores exactly the new colour |
| Gradients.UpsertIsInsert | Gradient.cs:118-131 | on a strictly sorted list, removing, appending and sorting inserts the new stop just before the first greater position |
| Gradients.UpsertSorted | Gradient.cs:118-131 | the setter keeps the stops strictly sorted, so the positions stay unique |
| Gradients.UpsertStores | Gradient.cs:118-131 | after the setter there is a stop at the position, and every stop there holds the new colour |
| Gradients.UpsertKeepsOthers | Gradient.cs:118-131 | the setter keeps every stop at another position and adds none |
| Gradients.UpsertCount | Gradient.cs:118-131 | the list grows by one exactly when the position was not yet a stop |
| Gradients.Stops.constructor | Gradient.cs:20 | a new list object holding the given stops; all copies of a gradient refer to it |
| Gradients.Gradient.Solid | Gradient.cs:60-66 | a new stop list, not shared with any other gradient, with two stops of the one colour at -1 and 1, not inverted |
| Gradients.Gradient.FromTo | Gradient.cs:71-77 | a new stop list, not shared with any other gradient, with the start colour at -1 and the end colour at 1, not inverted |
| Gradients.Gradient.Get | Gradient.cs:90-117 | the getter's scan and clamped bracket give the colour Lookup specifies |
| Gradients.Gradient.Set | Gradient.cs:118-131 | the shared stop list becomes Upsert of the old stops and stays strictly sorted with at least two stops; the flag is part of the copy and is untouched |
| Gradients.Gradient.SetInverted | Gradient.cs:141-145 | the copy the setter is applied to gets the new flag and still shares the same stop list |
| Gradients.Gradient.Clear | Gradient.cs:178-183 | the shared stop list becomes two transparent stops at 0 and 1 |
| Gradients.Gradient.Invert | Gradient.cs:188-192 | always fails with NotImplemented |
| Gradients.SetThroughCopy | Gradient.cs:16-21 | struct copy semantics: a copy given its own flag shares the list, so a stop it sets is in the original's list too |
| ControlPoints.Keys | Gradient.cs:95 | the keys of a list, entry by entry; the same code is at Operator/Curve.cs:107 |
| ControlPoints.FirstAbove | Gradient.cs:92-99 | where the lookup scans stop: every earlier key is at most the value, and the key there, if any, is greater; the same code is at Operator/Terrace.cs:135-142 and Operator/Curve.cs:104-111 |
| ControlPoints.FirstAboveUnique | Gradient.cs:92-99 | those two properties determine the stopping index |
| ControlPoints.FirstAboveEnds | Gradient.cs:92-105 | in an ascending list the scan stops at 0 exactly below the first key, and at the end exactly at or above the last key |
| ControlPoints.FirstAboveBracket | Gradient.cs:92-108 | in an ascending list a value between keys i and i + 1 stops the scan at i + 1 |
| ControlPoints.FirstKeyIndex | Gradient.cs:120-127 | the index of the first entry with the key: no earlier entry has it, and the entry there does |
| ControlPoints.FirstKeyIndexUnique | Gradient.cs:120-127 | those two properties determine the index |
| ControlPoints.RemoveAt | Gradient.cs:124 | `List.RemoveAt`: one entry shorter, the entries before k unchanged and the later ones shifted down |
| ControlPoints.InsertAt | Gradient.cs:128-130 | one entry longer, e at position k, the others in order, and the same multiset plus e |
| ControlPoints.SortByKey | Gradient.cs:129-130 | `List.Sort` by key rearranges the entries: same length, same multiset; the same code is at Operator/Curve.cs:76-77 |
| ControlPoints.InsertSortedAscending | Gradient.cs:129-130 | inserting after every key at most the new one keeps a list ascending |
| ControlPoints.SortByKeyAscending | Gradient.cs:129-130 | the sort leaves the keys ascending; the same code is at Operator/Curve.cs:76-77 |
| ControlPoints.SortByKeyOfAscending | Gradient.cs:129-130 | the sort leaves an ascending list as it is |
| ControlPoints.SortAppend | Gradient.cs:128-130 | appending to an ascending list and sorting inserts the entry where the lookup scan stops |
| ControlPoints.ScanAbove | Gradient.cs:92-99 | the scan loop returns FirstAbove; the same code is at Operator/Terrace.cs:135-142 and Operator/Curve.cs:104-111 |
| ControlPoints.Tagged | Operator/Terrace.cs:88 | a value list seen as entries keyed by the values |
| ControlPoints.SortValues | Operator/Terrace.cs:88 | `List<double>.Sort` returns the same values in ascending order: same length, same multiset |
| ControlPoints.SortByKeyKeys | Operator/Terrace.cs:88 | sorting entries by key rearranges their keys: the multiset of keys is kept |
| ControlPoints.KeysInsertAt | Operator/Terrace.cs:86-88 | inserting an entry inserts its key at the same place |
| ControlPoints.SortValuesOfAscending | Operator/Terrace.cs:88 | sorting an ascending value list leaves it as it is |
| ControlPoints.SortValuesAppend | Operator/Terrace.cs:86-88 | appending a value to an ascending list and sorting inserts it where the lookup scan stops |
| OpTerrace.Terraced | Operator/Terrace.cs:130-161 | what GetValue returns for a source value, on a list of at least two points in any order: the clamped points around the first point above the value, blended by the squared factor; the Terraced lemmas state its ends and its range |
| OpTerrace.Step | Operator/Terrace.cs:149-160 | one terrace step between neighbouring points v0 < v1: the squared factor, flipped and with the ends swapped when inverted; OpTerrace.StepBetween bounds it |
| OpTerrace.TerracedScan | Operator/Terrace.cs:130-161 | on a list in any order: a scan that stops at 0 gives the first point, one that runs off the end the last point, and otherwise the output lies between the neighbours points[ip - 1] <= v < points[ip] where it stopped |
| OpTerrace.UnsortedList | Operator/Terrace.cs:60-63 | the list [2, 0], which only an append through the live list builds, reads 2 at source value 1: the scan stops at 0 |
| OpTerrace.TerracedEnds | Operator/Terrace.cs:136-148 | a source value below the first point gives the first point; one at or above the last gives the last |
| OpTerrace.ProductNonNegative | Operator/Terrace.cs:159 | a product of non-negative numbers is non-negative |
| OpTerrace.BlendBetween | Operator/Terrace.cs:160 | linear interpolation by a weight in [0, 1] stays between its two ends |
| OpTerrace.SquareInUnit | Operator/Terrace.cs:159 | squaring keeps a weight in [0, 1] |
| OpTerrace.TerracedInterior | Operator/Terrace.cs:136-160 | an interior source value lies in [points[ip-1], points[ip]), its factor in [0, 1), and the output between those two points, inverted or not |
| OpTerrace.StepBetween | Operator/Terrace.cs:149-160 | one step between v0 <= v < v1 has a factor in [0, 1) and a value in [v0, v1] |
| OpTerrace.TerracedRange | Operator/Terrace.cs:130-161 | the output always lies within [first point, last point] |
| OpTerrace.InsertKeepsIncreasing | Operator/Terrace.cs:82-89 | inserting an absent value where the scan stops keeps the list strictly increasing |
| OpTerrace.Added | Operator/Terrace.cs:82-89 | the list Add(v) leaves: v appended unless present, then the list sorted; the two lemmas below state its properties |
| OpTerrace.AddedFacts | Operator/Terrace.cs:82-89 | from a list in any order, Add leaves an ascending list holding exactly the old values plus v, one longer exactly when v was absent, with the same multiset plus v in that case |
| OpTerrace.AddedStrict | Operator/Terrace.cs:82-89 | on a strictly increasing list, Add leaves the list as it is when v is present, inserts an absent v where the lookup scan stops, and keeps the list strictly increasing |
| OpTerrace.GenerateStep | Operator/Terrace.cs:110-116 | with a positive step, adding the next generated point to the points before it appends that point: no duplicate and no reordering |
| OpTerrace.StepsIncreasing | Operator/Terrace.cs:110-116 | with a positive step the generated points form a strictly increasing list |
| OpTerrace.LastStep | Operator/Terrace.cs:110-116 | the last of steps points at spacing 2 / (steps - 1) is exactly 1 |
| OpTerrace.StepPointClosedForm | Operator/Terrace.cs:110-116 | generated point i is -1 + i * ts |
| OpTerrace.Steps | Operator/Terrace.cs:111-116 | the first n generated points, point i being StepPoint(i) |
| OpTerrace.StepPointIncreasing | Operator/Terrace.cs:110-116 | with a positive step the generated points strictly increase |
| OpTerrace.Generated | Operator/Terrace.cs:103-117 | the list Generate(steps) leaves: the first steps points of spacing 2 / (steps - 1) from -1; OpTerrace.GeneratedPoints states its points |
| OpTerrace.GeneratedPoints | Operator/Terrace.cs:103-117 | Generate(n) yields n strictly increasing points -1 + i * 2 / (n - 1), from -1 to 1 inclusive |
| OpTerrace.Terrace.constructor | Operator/Terrace.cs:18-31 | no control points, not inverted, one empty slot |
| OpTerrace.Terrace.WithSource | Operator/Terrace.cs:38-43 | no control points, the given flag and the given source in the slot |
| OpTerrace.Terrace.ControlPointCount | Operator/Terrace.cs:52-55 | the number of control points |
| OpTerrace.Terrace.SetInverted | Operator/Terrace.cs:68-72 | writes the flag and nothing else |
| OpTerrace.Terrace.Add | Operator/Terrace.cs:82-89 | on a list in any order: the list becomes Added(old list, v), the old list with v appended when absent, then sorted; OpTerrace.AddedFacts and OpTerrace.AddedStrict state what that leaves |
| OpTerrace.Terrace.AppendToControlPoints | Operator/Terrace.cs:60-63 | `ControlPoints.Add(v)` by a caller: the live list gets v at its end, unsorted and possibly twice; nothing else changes |
| OpTerrace.Terrace.Clear | Operator/Terrace.cs:94-97 | empties the list and nothing else |
| OpTerrace.Terrace.Generate | Operator/Terrace.cs:103-117 | fewer than two steps fail with an argument error and change nothing; otherwise the list becomes the generated points |
| OpTerrace.Terrace.GetValue | Operator/Terrace.cs:130-161 | on a list in any order: an empty slot and fewer than two points fail their assertions; otherwise the result is the terraced source value |
| OpCurve.Around | Operator/Curve.cs:112-115 | the four clamped indices are ordered, in range, the middle two at most one apart, and ip - 1, ip for an interior ip |
| OpCurve.Curved | Operator/Curve.cs:99-126 | what GetValue returns for a source value, on a list in any order: the end output when the middle indices coincide, and otherwise the cubic through the four clamped points at the position between the middle two; the Curved lemmas state its ends and interior |
| OpCurve.CurvedScan | Operator/Curve.cs:99-126 | on a list in any order: a scan that stops at 0 gives the first output, one that runs off the end the last output, and otherwise the middle points are the neighbours key[ip - 1] <= v < key[ip] and the position is in [0, 1) |
| OpCurve.CurvedEnds | Operator/Curve.cs:105-119 | a source value below the first input gives the first output; one at or above the last gives the last output |
| OpCurve.CurvedInterior | Operator/Curve.cs:105-125 | an interior source value lies in [key[i1], key[i2]) with i2 = i1 + 1, so the divisor is positive, the position is in [0, 1), and the cubic is evaluated there |
| OpCurve.Curve.constructor | Operator/Curve.cs:16-28 | no control points and one empty slot |
| OpCurve.Curve.WithSource | Operator/Curve.cs:34-38 | no control points and the given source in the slot |
| OpCurve.Curve.ControlPointCount | Operator/Curve.cs:47-50 | the number of control points |
| OpCurve.Curve.Add | Operator/Curve.cs:69-78 | on any list: only an identical pair is not added; the list becomes ascending by input, holds the old entries plus the new pair, and grows by one exactly when the pair was absent |
| OpCurve.Curve.AppendToControlPoints | Operator/Curve.cs:55-58 | `ControlPoints.Add(kvp)` by a caller: the live list gets the pair at its end, unsorted; nothing else changes |
| OpCurve.Curve.Clear | Operator/Curve.cs:83-86 | empties the list and nothing else |
| OpCurve.Curve.GetValue | Operator/Curve.cs:99-126 | on a list in any order: an empty slot and fewer than four points fail their assertions; otherwise the result is the curve at the source value |
| OpSelect.CapFallOff | Operator/Select.cs:85-87 | the effective falloff never exceeds half the width of the bounds; it is the request when that fits and the half width otherwise |
| OpSelect.Choose | Operator/Select.cs:150-187 | the cascade on the outputs of slot 0, slot 1 and the controller; OpSelect.HardSwitch, OpSelect.Plateaus and OpSelect.Transitions state its bands |
| OpSelect.GetValue | Operator/Select.cs:145-188 | fails exactly when one of the three slots is empty; otherwise the controller's value chooses through the band cascade |
| OpSelect.HardSwitch | Operator/Select.cs:180-187 | with no falloff a controller value outside [min, max] selects slot 0 and one inside selects slot 1 |
| OpSelect.Plateaus | Operator/Select.cs:152-178 | with a capped positive falloff f, values below min - f select slot 0, values in [min + f, max - f) slot 1, values from max + f on slot 0 |
| OpSelect.Transitions | Operator/Select.cs:158-176 | in the lower band the result blends slot 0 into slot 1 by the S-curve of a position in [0, 1); the upper band blends slot 1 into slot 0 |
| OpSelect.Select.constructor | Operator/Select.cs:13-28 | falloff 0, raw request 0, bounds -1 and 1, three empty slots |
| OpSelect.Select.WithSources | Operator/Select.cs:36-42 | the field initialisers and the three given sources |
| OpSelect.Select.WithBounds | Operator/Select.cs:52-58 | the given bounds, the raw request kept, the falloff capped, and the controller slot left empty |
| OpSelect.Select.SetController | Operator/Select.cs:67-75 | a null module fails the assertion; otherwise writes slot 2 only; the fields never change |
| OpSelect.Select.SetFallOff | Operator/Select.cs:80-89 | remembers the request and stores it capped, keeping the bounds and slots |
| OpSelect.Select.SetMaximum | Operator/Select.cs:94-102 | stores the bound and re-derives the falloff from the raw request |
| OpSelect.Select.SetMinimum | Operator/Select.cs:107-115 | stores the bound and re-derives the falloff from the raw request |
| OpSelect.Select.SetBounds | Operator/Select.cs:126-132 | min >= max fails the assertion and changes nothing; otherwise stores both bounds and re-derives the falloff from the already capped one, which also overwrites the raw request |
| OpSelect.RawRequestLost | Operator/Select.cs:86-131 | a falloff of 1 capped to 0.5 on bounds [0, 1] returns to 1 when Maximum becomes 4, but stays 0.5 after SetBounds(0, 4) |
| OpClamp.Clamp.constructor | Operator/Clamp.cs:16-29 | bounds -1 and 1 and an empty slot |
| OpClamp.Clamp.WithSource | Operator/Clamp.cs:35-39 | bounds -1 and 1 and the given source |
| OpClamp.Clamp.WithBounds | Operator/Clamp.cs:47-53 | the given bounds, unchecked, and the given source |
| OpClamp.Clamp.SetMinimum | Operator/Clamp.cs:71-75 | stores the value without any check |
| OpClamp.Clamp.SetMaximum | Operator/Clamp.cs:62-66 | stores the value without any check |
| OpClamp.Clamp.SetBounds | Operator/Clamp.cs:86-91 | min >= max fails the assertion and changes nothing; otherwise stores both bounds |
| OpClamp.Clamp.GetValue | Operator/Clamp.cs:104-123 | an empty slot fails and changes nothing; otherwise the bounds are put in order in place (min <= max from then on) and the result is the source's value clamped into them |
| OpRotate.MatrixOf | Operator/Rotate.cs:108-128 | the nine entries SetAngles computes from the cosines and sines of the three angles; OpRotate.ZeroAnglesIdentity is stated on it |
| OpRotate.Transform | Operator/Rotate.cs:144-147 | the point GetValue reads at: each row of the matrix dotted with (x, y, z) |
| OpRotate.Apply | Operator/Rotate.cs:141-148 | the field the module computes: the source read once at the point multiplied by a matrix; OpRotate.IdentityKeepsPoint and OpRotate.ZeroSamplesOrigin are stated on it |
| OpRotate.GetValue | Operator/Rotate.cs:141-148 | fails exactly when the slot is empty; otherwise reads the source once, at the point multiplied by the cached matrix |
| OpRotate.ZeroAnglesIdentity | Operator/Rotate.cs:108-124 | assuming cos 0 = 1 and sin 0 = 0, angles (0, 0, 0) give the identity matrix |
| OpRotate.IdentityKeepsPoint | Operator/Rotate.cs:144-147 | the identity matrix reads the source at the input point |
| OpRotate.ZeroSamplesOrigin | Operator/Rotate.cs:141-148 | the all-zero matrix reads the source at the origin for every input point |
| OpRotate.Rotate.constructor | Operator/Rotate.cs:37-41 | angles (0, 0, 0), the matrix computed for them, and an empty slot |
| OpRotate.Rotate.FromSource | Operator/Rotate.cs:47-51 | as written: the given source, angles 0 and the all-zero matrix of the field initialisers |
| OpRotate.Rotate.FromSourceCorrected | Operator/Rotate.cs:37-51 | as intended: the given source, angles (0, 0, 0) and the matrix computed for them |
| OpRotate.Rotate.WithAngles | Operator/Rotate.cs:60-65 | the given source and angles and the matrix computed for them |
| OpRotate.Rotate.SetAngles | Operator/Rotate.cs:108-128 | stores the three angles and recomputes all nine entries from them; the slot is kept |
| OpRotate.Rotate.SetX | Operator/Rotate.cs:74-78 | the new x angle with the current y and z, and the matrix recomputed |
| OpRotate.Rotate.SetY | Operator/Rotate.cs:83-87 | the new y angle with the current x and z, and the matrix recomputed |
| OpRotate.Rotate.SetZ | Operator/Rotate.cs:92-96 | the new z angle with the current x and y, and the matrix recomputed |
| OpRotate.Rotate.X | Operator/Rotate.cs:74-78 | the X getter: the stored x angle |
| OpRotate.Rotate.Y | Operator/Rotate.cs:83-87 | the Y getter: the stored y angle |
| OpRotate.Rotate.Z | Operator/Rotate.cs:92-96 | the Z getter as written: the stored x angle; OpRotate.ZReadsXAngle is stated on it |
| OpRotate.Rotate.ZCorrected | Operator/Rotate.cs:92-96 | the Z getter as intended: the stored z angle; OpRotate.ZCorrectedRoundTrip is stated on it |
| OpRotate.ZReadsXAngle | Operator/Rotate.cs:92-96 | as written: on a Rotate(), writing Z and reading it back gives 0, the x angle, whatever was written |
| OpRotate.ZCorrectedRoundTrip | Operator/Rotate.cs:92-96 | with the getter returning the z angle, the same round trip gives the value written |
| OpRotate.FromSourceEvaluation | Operator/Rotate.cs:47-51 | a Rotate(input) reads its source at the origin for every point, while the corrected constructor reads it at the point itself |
| OpTurbulence.Displaced | Operator/Turbulence.cs:160-163 | the point GetValue reads the source at: each axis moved by power times its generator read at the point plus that axis's fixed offsets |
| OpTurbulence.Apply | Operator/Turbulence.cs:157-164 | the field the module computes: the source read once at the displaced point; OpTurbulence.PowerZero and OpTurbulence.OverPerlin are stated on it |
| OpTurbulence.OverPerlin | Operator/Turbulence.cs:157-164 | over three Perlin generators, the field is the source read at the point moved on each axis by power times that axis's Perlin value at the point plus its fixed offsets |
| OpTurbulence.PowerZero | Operator/Turbulence.cs:160-163 | with power 0 the source is read at the undisplaced point, whatever the generators |
| OpTurbulence.Turbulence.constructor | Operator/Turbulence.cs:32-50 | power 1, an empty slot and three fresh, distinct generators with the default Perlin fields |
| OpTurbulence.Turbulence.WithSource | Operator/Turbulence.cs:56-63 | power 1, the given source and three fresh, distinct default generators |
| OpTurbulence.Turbulence.WithPower | Operator/Turbulence.cs:68-71 | the given power and source and three fresh, distinct default generators |
| OpTurbulence.Turbulence.WithDistortions | Operator/Turbulence.cs:81-89 | keeps the caller's three generators by reference, with the given power and source |
| OpTurbulence.Turbulence.Frequency | Operator/Turbulence.cs:100 | the Frequency getter: the frequency of the x distortion generator only |
| OpTurbulence.Turbulence.SetFrequency | Operator/Turbulence.cs:101-106 | all three generators get the new frequency and keep their other fields |
| OpTurbulence.Turbulence.Roughness | Operator/Turbulence.cs:123 | the Roughness getter: the octave count of the x distortion generator only |
| OpTurbulence.Turbulence.SetRoughness | Operator/Turbulence.cs:124-129 | all three generators get the clamped octave count and keep their other fields |
| OpTurbulence.Turbulence.Seed | Operator/Turbulence.cs:137 | the Seed getter: the seed of the x distortion generator only; OpTurbulence.SeedFanOut is stated on it |
| OpTurbulence.Turbulence.SetSeed | Operator/Turbulence.cs:138-143 | the x, y and z generators get seeds s, s + 1 and s + 2 with 32-bit wrap-around, later writes winning where generators are shared; nothing else changes |
| OpTurbulence.Turbulence.SetPower | Operator/Turbulence.cs:112-116 | the power becomes the value; the slot and the generators are kept |
| OpTurbulence.Turbulence.GetValue | Operator/Turbulence.cs:157-164 | fails exactly when the slot is empty; otherwise the source read at the point displaced on each axis by power times its generator's value at the offset point |
| OpTurbulence.SeedFanOut | Operator/Turbulence.cs:135-143 | on a fresh module, the Seed setter leaves seeds s, s + 1, s + 2 and the getter then returns s |
| NoiseMap.Coord | Noise2D.cs:313-346 | the running coordinate of cell i: the start advanced i times by the step; NoiseMap.CoordClosedForm gives its closed form |
| NoiseMap.PlanarBlend | Noise2D.cs:329-337 | the blended planar sample: the generator at the point and shifted by one extent, mixed by weights falling from 1 at the left and top edges; NoiseMap.BlendTilesAcross and NoiseMap.BlendTilesDown state that it tiles |
| NoiseMap.Sample | Noise2D.cs:323-338 | the value a cell stores for its running coordinates: planar reads (a, 0, b) or blends, cylindrical reads the unit cylinder point of Noise2D.cs:356-362, spherical the unit sphere point of Noise2D.cs:409-414; NoiseMap.GeneratedCell ties the map to it |
| NoiseMap.CoordClosedForm | Noise2D.cs:315-346 | the running coordinate, advanced by the step once per cell, is start plus the cell index times the step |
| NoiseMap.SampledSpan | Noise2D.cs:311-316 | with n uncropped cells and the step extent / (n - 1), cell 0 lies at the start, cell 1 one step on, and cell n - 1 at start plus extent |
| NoiseMap.BlendTilesAcross | Noise2D.cs:329-337 | a blended planar sample is equal at the left and the right edge |
| NoiseMap.BlendTilesDown | Noise2D.cs:329-337 | a blended planar sample is equal at the top and the bottom edge |
| NoiseMap.PlainDoesNotTile | Noise2D.cs:323-326 | an unblended planar sample of the generator x reads left at the left edge and right at the right edge |
| NoiseMap.Cell | Noise2D.cs:232-240 | unnormalised cells are copied unchanged; normalised cells from [-1, 1] land in [0, 1] |
| NoiseMap.CellNormalizedInverse | Noise2D.cs:235 | normalising is inverted by 2v - 1 and keeps the order of the values |
| NoiseMap.ReadFault | Noise2D.cs:225-239 | no fault only for non-negative sizes and, when both are positive, a buffer large enough for every read |
| NoiseMap.WriteCell | Noise2D.cs:339-343 | the uncropped cell gets the value, and the cropped cell one row and column up-left gets it exactly when the cell is inside the border; nothing else changes |
| NoiseMap.FillColumn | Noise2D.cs:320-345 | one column of the uncropped buffer gets the samples at its running row coordinates, and the matching cropped column the same values; nothing else changes |
| NoiseMap.Fill | Noise2D.cs:315-347 | every uncropped cell of the region holds the sample at its running coordinates, every cropped cell the uncropped cell diagonally below it, and cells outside the region are kept |
| NoiseMap.Noise2D.constructor | Noise2D.cs:85-92 | the given sizes and generator, a fresh width x height cropped buffer and a fresh (width + 2) x (height + 2) uncropped one |
| NoiseMap.Noise2D.Empty | Noise2D.cs:46-48 | zero sizes, no buffers and no generator |
| NoiseMap.Noise2D.Create | Noise2D.cs:54-92 | fails, with an overflow, exactly when a size is negative; otherwise a fresh map with the given sizes and generator |
| NoiseMap.Noise2D.Get | Noise2D.cs:105-125 | as written: a null buffer is a null reference and a position outside the buffer an index error, whatever the guards; otherwise the cell |
| NoiseMap.Noise2D.GetCorrected | Noise2D.cs:107-125 | with the guards joined by or: any position outside width x height is an argument-out-of-range error; otherwise the null reference or the cell |
| NoiseMap.Noise2D.Set | Noise2D.cs:126-144 | as written: the same faults as the getter; a successful write changes that one cell of the selected buffer and nothing else |
| NoiseMap.Noise2D.SetGenerator | Noise2D.cs:163-167 | the generator becomes the value; sizes and buffers are kept |
| NoiseMap.Noise2D.GetData | Noise2D.cs:209-245 | fails with the fault of the first bad read or allocation; otherwise a fresh array of the buffer's size less the crops, each cell copied, normalised on request |
| NoiseMap.Noise2D.GetNormalizedData | Noise2D.cs:196-199 | the same as GetData with every cell normalised |
| NoiseMap.Noise2D.Clear | Noise2D.cs:259-268 | every cropped cell holds the value |
| NoiseMap.Noise2D.ClearToZero | Noise2D.cs:250-253 | every cropped cell holds 0 |
| NoiseMap.Noise2D.Generate | Noise2D.cs:301-347 | unordered bounds are an argument error and a missing generator a null-argument error, both before any write; success exactly when both checks pass and the buffer exists, leaving every cell sampled and cells outside the region kept |
| NoiseMap.Noise2D.GeneratePlanar | Noise2D.cs:301-348 | as written: the planar fill, blending exactly when isSeamless is false |
| NoiseMap.Noise2D.GeneratePlanarCorrected | Noise2D.cs:301-348 | the planar fill blending exactly when isSeamless is true |
| NoiseMap.Noise2D.GeneratePlanarDefault | Noise2D.cs:288-291 | the four-argument overload passes true, so as written it does not blend |
| NoiseMap.Noise2D.GenerateCylindrical | Noise2D.cs:356-401 | the cylindrical fill: columns over angle, rows over height, each cell the generator on the unit cylinder |
| NoiseMap.Noise2D.GenerateSpherical | Noise2D.cs:409-453 | the spherical fill: columns over longitude, rows over latitude, each cell the generator on the unit sphere |
| NoiseMap.Noise2D.Disposing | Noise2D.cs:567-576 | drops the cropped buffer, zeroes both sizes and returns true |
| NoiseMap.Noise2D.Dispose | Noise2D.cs:554-561 | the first call disposes and records it; a later call changes nothing |
| NoiseMap.GeneratedCell | Noise2D.cs:315-347 | a cell of a generated map is the sample at its running coordinates |
| NoiseMap.BlendedMapTilesAcross | Noise2D.cs:311-347 | a map generated with blending has equal uncropped columns 0 and width - 1 |
| NoiseMap.BlendedMapTilesDown | Noise2D.cs:311-347 | a map generated with blending has equal uncropped rows 0 and height - 1 |
| NoiseMap.PlainMapDoesNotTile | Noise2D.cs:311-347 | a map generated without blending from the generator x reads left in column 0 and right in column width - 1 |
| NoiseMap.IndexGuardMissed | Noise2D.cs:109-119 | reading (-1, 0) of a 1 x 1 map is an index error as written and an argument-out-of-range error when corrected |
| NoiseMap.ReadAfterDispose | Noise2D.cs:567-576 | after Dispose, reading the cropped buffer is a null reference |

## Left out

- `Utils` (the noise hashes, `MakeInt32Range`, the interpolators, the S-curve, `OctavesMaximum`) is not part of this model. Its functions are parameters, and `OctavesMaximum` is fixed at 30. Every proof uses only that it is at least 6.
- `Math.Sqrt`, `Math.Cos`, `Math.Sin`, `Utils.DegToRad` and `Mathf.Deg2Rad` are parameters. Facts about them, such as cos 0 = 1, are explicit assumptions of the lemmas that need them.
- Floating point: doubles are `real`, so NaN, infinities and rounding are not modelled. This covers:
  - the `(float)` casts in `Noise2D`, in `Clamp01` and in the `Vector3` overloads;
  - the rounding that accumulates in the running coordinates and in Terrace's generated points.
- IEEE division by zero is the primitive `divide`, unconstrained at 0. It occurs in the Noise2D step for a map of width or height 1, and in `Math.Pow(f, -1)` for the Ridged weights with lacunarity 0.
- Utils.Truncate: does not model a double outside the `int` range.
- `Debug.Assert` is modelled as a returned failure, not as a dialog or an abort.
- C# default arguments are always passed explicitly. These are the indexer's `isCropped = true` (Noise2D.cs:105), and the `xCrop = 0`, `yCrop = 0`, `isCropped = true` and `isNormalized = false` defaults of `GetData` and `GetNormalizedData` (Noise2D.cs:196, 209).
- Source modules are total fields, so an exception raised inside a child is not propagated. Disposing a child, and the recursive `Dispose` of the children, are not modelled either.
- `ModuleBase.GetValue(Vector3)` and `GetValue(ref Vector3)` (ModuleBase.cs:120-133) only cast floats to doubles and call `GetValue(x, y, z)`.
- `GC.SuppressFinalize` in both `Dispose` methods has no observable effect on the model.
- `Noise2D.GetTexture` and `GetNormalMap` (Noise2D.cs:459-531) build Unity textures and are not modelled.
- Noise2D's `Border` property and its `Width`, `Height` and `IsDisposed` getters are plain field reads.
- The static gradients `Terrain`, `Grayscale` and `Empty` (Gradient.cs:34-55, 150-169), and GradientPresets.cs, are constant Unity colour data. Colours are an opaque type, and `Color.Lerp` is a parameter.
- The `ControlPoints` getters of Terrace and Curve return the live list. Of what a caller can do to it, only `Add` is modelled (`AppendToControlPoints`). `Insert`, `RemoveAt`, the indexer and the other `List` members are not modelled one by one. `GetValue` and its lemmas take a list in any order, so their contracts cover every list those reach.
- The getters of the remaining modules (Perlin, Billow, Ridged, Voronoi, Select, Clamp, Terrace) are field reads.
- Operator/Power.cs and Operator/Exponent.cs are not part of this model. Neither is Demo.cs, a Unity scene script.
- The Voronoi, Spheres, Cylinders, Const, Scale, ScaleBias and Translate properties are plain auto-setters. They are fields of the parameter records.
- The cylindrical and spherical fills call the generator a second time for the cropped cell. The model writes the same sample to both buffers, because the generator is a function of the point.
- NoiseMap.Noise2D.GetData: the model decides the fault before any copying, because the C# allocation or the first read that throws comes before any write to the result, and the result is discarded.
- GenRidged.RidgedMultifractal.UpdateWeights: `Math.Pow(f, -i)` is modelled as the reciprocal of an iterated product, computed with `divide`.
- Gradients.Gradient.Set: `List.Sort` is modelled as a stable insertion sort. Keys are distinct, so the order is the same.
- OpCurve.Curve.Add: promises that the list is sorted by input, and the multiset and count change, but not the order of two points with equal inputs, because `List.Sort` is unstable.
- OpTurbulence.Turbulence.SetSeed: requires the seed to be a C# `int`. The sums s + 1 and s + 2 wrap around as in C#.
- OpTurbulence.SeedFanOut: requires a seed below 2^31 - 2 so that no sum wraps, as its statement of s, s + 1, s + 2 needs.
- NoiseMap.Noise2D.constructor: requires non-negative sizes; NoiseMap.Noise2D.Create models every public constructor, including the overflow a negative size raises.

## Findings

| source | as written | input that shows it | evidently intended | confidence | as-written member | corrected member |
|---|---|---|---|---|---|---|
| Operator/Rotate.cs:92-96 | the `Z` getter returns `m_x` | `Rotate()`, then `Z = 5`: reading `Z` gives 0 | the getter returns `m_z` | high, not executed | OpRotate.ZReadsXAngle | OpRotate.ZCorrectedRoundTrip |
| Operator/Rotate.cs:47-51 | `Rotate(input)` never calls `SetAngles`, so all nine matrix entries stay 0 | `Rotate(src).GetValue(1, 2, 3)` reads `src` at (0, 0, 0) | set the angles to 0 as `Rotate()` does, giving the identity | high, not executed | OpRotate.FromSourceEvaluation | OpRotate.Rotate.FromSourceCorrected |
| Noise2D.cs:109-116 | the guards `x < 0 && x >= m_width` and `y < 0 && y >= m_height` never hold | on a 1 x 1 map, reading `[-1, 0]` raises IndexOutOfRangeException | `||`, raising ArgumentOutOfRangeException | high, not executed | NoiseMap.IndexGuardMissed | NoiseMap.Noise2D.GetCorrected |
| Noise2D.cs:323-338 | `isSeamless` true takes the plain sample and false takes the blended one | `GeneratePlanar(-1, 1, -1, 1, true)` with generator x gives column 0 = -1 and column w - 1 = 1 | blend when `isSeamless` is true, so that opposite edges match | medium, not executed | NoiseMap.PlainMapDoesNotTile | NoiseMap.BlendedMapTilesAcross |
