/**
 * The Select operator (Operator/Select.cs): the controller's output (slot 2) picks
 * slot 0 or slot 1, with an optional smooth transition of half-width `fallOff` at
 * both bounds. The falloff actually used is capped at half the bounds' width and
 * is re-derived from the last raw request whenever a bound changes.
 */
module OpSelect {
  import opened Wrappers
  import opened ModuleBase
  import opened Utils

  /** All three constructors call `base(3)`; the controller is slot 2. */
  const SourceCount: nat := 3
  const ControllerSlot: nat := 2

  /** The fields `GetValue` reads. */
  datatype Params = Params(fallOff: real, min: real, max: real)

  /** The `FallOff` setter's cap: the request, or half the width of the bounds when it is larger. */
  function CapFallOff(value: real, min: real, max: real): (f: real)
    ensures f <= (max - min) / 2.0
    ensures value <= (max - min) / 2.0 ==> f == value
    ensures value > (max - min) / 2.0 ==> f == (max - min) / 2.0
  {
    var bs := max - min;
    if value > bs / 2.0 then bs / 2.0 else value
  }

  /** The position of the controller value within a transition band [lc, uc). */
  function BandPosition(cv: real, lc: real, uc: real): real
    requires lc < uc
  {
    (cv - lc) / (uc - lc)
  }

  /**
   * The cascade of `GetValue` on the three sources' outputs `a` (slot 0), `b`
   * (slot 1) and the controller's `cv`.
   */
  function Choose(u: Primitives, p: Params, a: real, b: real, cv: real): real
  {
    if p.fallOff > 0.0 then
      if cv < p.min - p.fallOff then a
      else if cv < p.min + p.fallOff then
        u.interpolateLinear(a, b, u.mapCubicSCurve(BandPosition(cv, p.min - p.fallOff, p.min + p.fallOff)))
      else if cv < p.max - p.fallOff then b
      else if cv < p.max + p.fallOff then
        u.interpolateLinear(b, a, u.mapCubicSCurve(BandPosition(cv, p.max - p.fallOff, p.max + p.fallOff)))
      else a
    else if cv < p.min || cv > p.max then a
    else b
  }

  /** `GetValue`: asserts all three slots are filled, then reads the controller and chooses. */
  function GetValue(u: Primitives, p: Params, slots: seq<Option<Field>>, x: real, y: real, z: real): (r: Result<real, Fault>)
    requires |slots| == SourceCount
    ensures r.Failure? <==> slots[0].None? || slots[1].None? || slots[2].None?
    ensures r.Failure? ==> r.error == MissingSource
    ensures r.Success? ==> r.value == Choose(u, p, slots[0].value(x, y, z), slots[1].value(x, y, z), slots[2].value(x, y, z))
  {
    if !Filled(slots) then Failure(MissingSource)
    else Success(Choose(u, p, slots[0].value(x, y, z), slots[1].value(x, y, z), slots[2].value(x, y, z)))
  }

  /** With no falloff the switch is hard: outside [min, max] slot 0, inside it slot 1. */
  lemma HardSwitch(u: Primitives, p: Params, a: real, b: real, cv: real)
    requires p.fallOff <= 0.0
    ensures cv < p.min || cv > p.max ==> Choose(u, p, a, b, cv) == a
    ensures p.min <= cv <= p.max ==> Choose(u, p, a, b, cv) == b
  {
  }

  /**
   * With a positive falloff no larger than half the width of the bounds, the
   * controller value picks slot 0 well outside the bounds and slot 1 well inside.
   */
  lemma Plateaus(u: Primitives, p: Params, a: real, b: real, cv: real)
    requires 0.0 < p.fallOff <= (p.max - p.min) / 2.0
    ensures cv < p.min - p.fallOff ==> Choose(u, p, a, b, cv) == a
    ensures p.min + p.fallOff <= cv < p.max - p.fallOff ==> Choose(u, p, a, b, cv) == b
    ensures cv >= p.max + p.fallOff ==> Choose(u, p, a, b, cv) == a
  {
  }

  /**
   * In the band around the lower bound the result blends slot 0 into slot 1 by the
   * S-curve of a position in [0, 1); around the upper bound it blends slot 1 into slot 0.
   */
  lemma Transitions(u: Primitives, p: Params, a: real, b: real, cv: real)
    requires 0.0 < p.fallOff <= (p.max - p.min) / 2.0
    ensures p.min - p.fallOff <= cv < p.min + p.fallOff ==>
      var t := BandPosition(cv, p.min - p.fallOff, p.min + p.fallOff);
      0.0 <= t < 1.0 && Choose(u, p, a, b, cv) == u.interpolateLinear(a, b, u.mapCubicSCurve(t))
    ensures p.max - p.fallOff <= cv < p.max + p.fallOff ==>
      var t := BandPosition(cv, p.max - p.fallOff, p.max + p.fallOff);
      0.0 <= t < 1.0 && Choose(u, p, a, b, cv) == u.interpolateLinear(b, a, u.mapCubicSCurve(t))
  {
    RatioInUnit(cv - (p.min - p.fallOff), 2.0 * p.fallOff);
    RatioInUnit(cv - (p.max - p.fallOff), 2.0 * p.fallOff);
  }

  class Select {
    var fallOff: real
    var raw: real
    var min: real
    var max: real
    var sources: seq<Option<Field>>

    /** Three slots, and the effective falloff never exceeds half the width of the bounds. */
    ghost predicate Valid()
      reads this
    {
      |sources| == SourceCount && fallOff <= (max - min) / 2.0
    }

    function Fields(): Params
      reads this
    {
      Params(fallOff, min, max)
    }

    /** `GetValue` on the current fields and slots. */
    function Evaluate(u: Primitives, x: real, y: real, z: real): Result<real, Fault>
      reads this
      requires Valid()
    {
      GetValue(u, Fields(), sources, x, y, z)
    }

    /** `Select()`: the field initialisers and three empty slots. */
    constructor ()
      ensures Valid()
      ensures fallOff == 0.0 && raw == 0.0 && min == -1.0 && max == 1.0
      ensures sources == [None, None, None]
    {
      fallOff, raw, min, max := 0.0, 0.0, -1.0, 1.0;
      sources := [None, None, None];
    }

    /** `Select(inputA, inputB, controller)`. */
    constructor WithSources(inputA: Option<Field>, inputB: Option<Field>, controller: Option<Field>)
      ensures Valid()
      ensures fallOff == 0.0 && raw == 0.0 && min == -1.0 && max == 1.0
      ensures sources == [inputA, inputB, controller]
    {
      fallOff, raw, min, max := 0.0, 0.0, -1.0, 1.0;
      sources := [inputA, inputB, controller];
    }

    /**
     * `Select(min, max, fallOff, inputA, inputB)`: the bounds are written directly,
     * the falloff through its setter, and the controller slot is left empty.
     */
    constructor WithBounds(min: real, max: real, fallOff: real, inputA: Option<Field>, inputB: Option<Field>)
      ensures Valid()
      ensures this.min == min && this.max == max && raw == fallOff
      ensures this.fallOff == CapFallOff(fallOff, min, max)
      ensures sources == [inputA, inputB, None]
    {
      this.min, this.max := min, max;
      sources := [inputA, inputB, None];
      raw := fallOff;
      this.fallOff := CapFallOff(fallOff, min, max);
    }

    /** The `Controller` setter: asserts a non-null module and writes slot 2 only. */
    method SetController(value: Option<Field>) returns (r: Outcome<Fault>)
      requires Valid()
      modifies this
      ensures Valid()
      ensures value.None? ==> r == Fail(AssertionFailed) && sources == old(sources)
      ensures value.Some? ==> r == Pass && sources == old(sources)[ControllerSlot := value]
      ensures Fields() == old(Fields()) && raw == old(raw)
    {
      var s := SetSource(sources, ControllerSlot, value);
      if s.Failure? {
        return Fail(s.error);
      }
      sources := s.value;
      return Pass;
    }

    /** The `FallOff` setter: remembers the request and stores it capped at half the width of the bounds. */
    method SetFallOff(value: real)
      requires |sources| == SourceCount
      modifies this
      ensures Valid()
      ensures raw == value && fallOff == CapFallOff(value, min, max)
      ensures min == old(min) && max == old(max) && sources == old(sources)
    {
      var bs := max - min;
      raw := value;
      fallOff := if value > bs / 2.0 then bs / 2.0 else value;
    }

    /** The `Maximum` setter: stores the bound, then re-derives the falloff from the raw request. */
    method SetMaximum(value: real)
      requires Valid()
      modifies this
      ensures Valid()
      ensures max == value && min == old(min) && raw == old(raw) && sources == old(sources)
      ensures fallOff == CapFallOff(old(raw), old(min), value)
    {
      max := value;
      SetFallOff(raw);
    }

    /** The `Minimum` setter: stores the bound, then re-derives the falloff from the raw request. */
    method SetMinimum(value: real)
      requires Valid()
      modifies this
      ensures Valid()
      ensures min == value && max == old(max) && raw == old(raw) && sources == old(sources)
      ensures fallOff == CapFallOff(old(raw), value, old(max))
    {
      min := value;
      SetFallOff(raw);
    }

    /**
     * `SetBounds`: asserts min < max, stores both bounds, then re-derives the falloff
     * from the already capped one, which also overwrites the raw request with it.
     */
    method SetBounds(min: real, max: real) returns (r: Outcome<Fault>)
      requires Valid()
      modifies this
      ensures Valid()
      ensures !(min < max) ==> r == Fail(AssertionFailed) && Fields() == old(Fields()) && raw == old(raw)
      ensures min < max ==> r == Pass && this.min == min && this.max == max
      ensures min < max ==> raw == old(fallOff) && fallOff == CapFallOff(old(fallOff), min, max)
      ensures sources == old(sources)
    {
      if !(min < max) {
        return Fail(AssertionFailed);
      }
      this.min := min;
      this.max := max;
      SetFallOff(fallOff);
      return Pass;
    }
  }

  /**
   * A raw request survives a change of bound (it is re-applied), but not `SetBounds`:
   * a falloff of 1 capped to 0.5 on bounds [0, 1] stays 0.5 after widening the
   * bounds with `SetBounds(0, 4)`, while widening them with `Maximum = 4` restores 1.
   */
  method RawRequestLost() returns (viaSetter: real, viaSetBounds: real)
    ensures viaSetter == 1.0 && viaSetBounds == 0.5
  {
    var s := new Select.WithBounds(0.0, 1.0, 1.0, None, None);
    assert s.fallOff == 0.5;
    s.SetMaximum(4.0);
    viaSetter := s.fallOff;
    var t := new Select.WithBounds(0.0, 1.0, 1.0, None, None);
    var _ := t.SetBounds(0.0, 4.0);
    viaSetBounds := t.fallOff;
  }
}
