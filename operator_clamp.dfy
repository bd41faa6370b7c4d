/**
 * The Clamp operator (Operator/Clamp.cs): its source's output limited to [min, max].
 * `GetValue` itself repairs inverted bounds by swapping the two fields in place.
 */
module OpClamp {
  import opened Wrappers
  import opened ModuleBase
  import opened Utils

  /** All three constructors call `base(1)`. */
  const SourceCount: nat := 1

  class Clamp {
    var min: real
    var max: real
    var sources: seq<Option<Field>>

    ghost predicate Valid()
      reads this
    {
      |sources| == SourceCount
    }

    /** `Clamp()`: bounds -1 and 1, and an empty slot. */
    constructor ()
      ensures Valid() && min == -1.0 && max == 1.0 && sources == [None]
    {
      min, max := -1.0, 1.0;
      sources := [None];
    }

    /** `Clamp(input)`. */
    constructor WithSource(input: Option<Field>)
      ensures Valid() && min == -1.0 && max == 1.0 && sources == [input]
    {
      min, max := -1.0, 1.0;
      sources := [input];
    }

    /** `Clamp(min, max, input)`: the bounds go through the unchecked setters. */
    constructor WithBounds(min: real, max: real, input: Option<Field>)
      ensures Valid() && this.min == min && this.max == max && sources == [input]
    {
      this.min, this.max := min, max;
      sources := [input];
    }

    /** The `Minimum` setter stores the value without any check. */
    method SetMinimum(value: real)
      modifies this
      ensures min == value && max == old(max) && sources == old(sources)
    {
      min := value;
    }

    /** The `Maximum` setter stores the value without any check. */
    method SetMaximum(value: real)
      modifies this
      ensures max == value && min == old(min) && sources == old(sources)
    {
      max := value;
    }

    /** `SetBounds`: asserts min < max, then stores both. */
    method SetBounds(min: real, max: real) returns (r: Outcome<Fault>)
      modifies this
      ensures !(min < max) ==> r == Fail(AssertionFailed) && this.min == old(this.min) && this.max == old(this.max)
      ensures min < max ==> r == Pass && this.min == min && this.max == max
      ensures sources == old(sources)
    {
      if !(min < max) {
        return Fail(AssertionFailed);
      }
      this.min, this.max := min, max;
      return Pass;
    }

    /**
     * `GetValue`: asserts the slot is filled, puts the bounds in order by swapping the
     * fields when min > max, then clamps the source's output into them. From then on
     * min <= max holds, and a value already within the bounds is returned unchanged.
     */
    method GetValue(x: real, y: real, z: real) returns (r: Result<real, Fault>)
      requires Valid()
      modifies this
      ensures sources == old(sources)
      ensures sources[0].None? ==> r == Failure(MissingSource) && min == old(min) && max == old(max)
      ensures sources[0].Some? ==> min == MinReal(old(min), old(max)) && max == MaxReal(old(min), old(max))
      ensures sources[0].Some? ==> min <= max && r == Success(ClampReal(sources[0].value(x, y, z), min, max))
    {
      if sources[0].None? {
        return Failure(MissingSource);
      }
      if min > max {
        var t := min;
        min := max;
        max := t;
      }
      var v := sources[0].value(x, y, z);
      if v < min {
        return Success(min);
      } else if v > max {
        return Success(max);
      }
      return Success(v);
    }
  }
}
