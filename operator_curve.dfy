/**
 * The Curve operator (Operator/Curve.cs): maps its source's output through a
 * cubic spline over (input, output) control points that `Add` keeps sorted by
 * input. The `ControlPoints` getter hands out the live list, so a caller can
 * leave it in any order.
 */
module OpCurve {
  import opened Wrappers
  import opened ModuleBase
  import opened Utils
  import opened ControlPoints

  /** Both constructors call `base(1)`. */
  const SourceCount: nat := 1

  /** The four control points the spline reads around the scan position. */
  datatype Indices = Indices(i0: int, i1: int, i2: int, i3: int)

  /**
   * `i0`..`i3` are the scan position `ip` minus 2, minus 1, itself and plus 1, each
   * clamped into [0, n - 1]: they are ordered, in range, and i1, i2 are at most one apart.
   */
  function Around(ip: int, n: int): (ix: Indices)
    requires n >= 1
    ensures 0 <= ix.i0 <= ix.i1 <= ix.i2 <= ix.i3 <= n - 1
    ensures ix.i2 - ix.i1 <= 1
    ensures 1 <= ip <= n - 1 ==> ix.i1 == ip - 1 && ix.i2 == ip
  {
    Indices(ClampInt(ip - 2, 0, n - 1), ClampInt(ip - 1, 0, n - 1), ClampInt(ip, 0, n - 1), ClampInt(ip + 1, 0, n - 1))
  }

  /** The position of `v` between the keys of points i1 and i2 of the spline. */
  function Position(data: seq<(real, real)>, ix: Indices, v: real): real
    requires 0 <= ix.i1 < |data| && 0 <= ix.i2 < |data| && data[ix.i1].0 < data[ix.i2].0
  {
    (v - data[ix.i1].0) / (data[ix.i2].0 - data[ix.i1].0)
  }

  /** The curve at source value `v`. */
  function Curved(u: Primitives, data: seq<(real, real)>, v: real): real
    requires |data| >= 1
  {
    var ip := FirstAbove(Keys(data), v);
    var ix := Around(ip, |data|);
    if ix.i1 == ix.i2 then data[ix.i1].1
    else
      u.interpolateCubic(data[ix.i0].1, data[ix.i1].1, data[ix.i2].1, data[ix.i3].1, Position(data, ix, v))
  }

  /**
   * In a list of any order: where the scan stops at 0 the output is the first
   * output, where it runs off the end it is the last output, and otherwise the scan
   * has found neighbours `key[ip - 1] <= v < key[ip]`, which are the spline's middle
   * points, and the position between them is in [0, 1).
   */
  lemma CurvedScan(u: Primitives, data: seq<(real, real)>, v: real)
    requires |data| >= 1
    ensures var ip := FirstAbove(Keys(data), v);
      && (ip == 0 ==> Curved(u, data, v) == data[0].1)
      && (ip == |data| ==> Curved(u, data, v) == data[|data| - 1].1)
      && (0 < ip < |data| ==>
            var ix := Around(ip, |data|);
            ix.i1 == ip - 1 && ix.i2 == ip && data[ix.i1].0 <= v < data[ix.i2].0
            && 0.0 <= Position(data, ix, v) < 1.0
            && Curved(u, data, v) == u.interpolateCubic(data[ix.i0].1, data[ix.i1].1, data[ix.i2].1, data[ix.i3].1, Position(data, ix, v)))
  {
    var ip := FirstAbove(Keys(data), v);
    if 0 < ip < |data| {
      var ix := Around(ip, |data|);
      RatioInUnit(v - data[ix.i1].0, data[ix.i2].0 - data[ix.i1].0);
    }
  }

  /** Below the first key the result is the first output; at or above the last key, the last output. */
  lemma CurvedEnds(u: Primitives, data: seq<(real, real)>, v: real)
    requires |data| >= 1 && Ascending(Keys(data))
    ensures v < data[0].0 ==> Curved(u, data, v) == data[0].1
    ensures v >= data[|data| - 1].0 ==> Curved(u, data, v) == data[|data| - 1].1
  {
    FirstAboveEnds(Keys(data), v);
  }

  /**
   * Between the first and the last key the spline's middle points are neighbours
   * with `key[i1] <= v < key[i2]`, so the divisor is positive and the position is in [0, 1).
   */
  lemma CurvedInterior(u: Primitives, data: seq<(real, real)>, v: real)
    requires |data| >= 2 && Ascending(Keys(data))
    requires data[0].0 <= v < data[|data| - 1].0
    ensures var ix := Around(FirstAbove(Keys(data), v), |data|);
      ix.i2 == ix.i1 + 1 && data[ix.i1].0 <= v < data[ix.i2].0
      && 0.0 <= Position(data, ix, v) < 1.0
      && Curved(u, data, v) == u.interpolateCubic(data[ix.i0].1, data[ix.i1].1, data[ix.i2].1, data[ix.i3].1, Position(data, ix, v))
  {
    var ip := FirstAbove(Keys(data), v);
    FirstAboveEnds(Keys(data), v);
    var ix := Around(ip, |data|);
    RatioInUnit(v - data[ix.i1].0, data[ix.i2].0 - data[ix.i1].0);
  }

  class Curve {
    /** `m_data`, the very list the `ControlPoints` getter returns. */
    var data: seq<(real, real)>
    var sources: seq<Option<Field>>

    /** One slot. The list may be in any order, since callers can edit it through the getter. */
    ghost predicate Valid()
      reads this
    {
      |sources| == SourceCount
    }

    /** `Curve()`. */
    constructor ()
      ensures Valid() && data == [] && sources == [None]
    {
      data, sources := [], [None];
    }

    /** `Curve(input)`. */
    constructor WithSource(input: Option<Field>)
      ensures Valid() && data == [] && sources == [input]
    {
      data, sources := [], [input];
    }

    /** `ControlPointCount`. */
    function ControlPointCount(): (n: nat)
      reads this
      ensures n == |data|
    {
      |data|
    }

    /**
     * `ControlPoints.Add(kvp)` by a caller: the getter returns the live list, so the
     * pair is appended as it is, without the duplicate check or the sort.
     */
    method AppendToControlPoints(input: real, output: real)
      modifies this
      ensures data == old(data) + [(input, output)] && sources == old(sources)
    {
      data := data + [(input, output)];
    }

    /**
     * `Add`: appends the pair unless the list already holds that exact pair, then
     * sorts by input, whatever order the list was in. `List.Sort` is not stable, so
     * the contract leaves the order among equal inputs open: it promises only some
     * ascending rearrangement.
     */
    method Add(input: real, output: real)
      requires Valid()
      modifies this
      ensures Valid() && sources == old(sources) && Ascending(Keys(data))
      ensures (input, output) in old(data) ==> multiset(data) == multiset(old(data))
      ensures (input, output) !in old(data) ==> multiset(data) == multiset(old(data)) + multiset{(input, output)}
      ensures |data| == |old(data)| + (if (input, output) in old(data) then 0 else 1)
    {
      var kvp := (input, output);
      var next := data;
      if kvp !in data {
        next := data + [kvp];
      }
      SortByKeyAscending(next);
      data := SortByKey(next);
    }

    /** `Clear`: empties the list. */
    method Clear()
      modifies this
      ensures data == [] && sources == old(sources)
    {
      data := [];
    }

    /**
     * `GetValue`: asserts the slot is filled and that there are at least four control
     * points, then scans for the first input above the source value and interpolates.
     * It evaluates a list in any order.
     */
    method GetValue(u: Primitives, x: real, y: real, z: real) returns (r: Result<real, Fault>)
      requires Valid()
      ensures sources[0].None? ==> r == Failure(MissingSource)
      ensures sources[0].Some? && |data| < 4 ==> r == Failure(TooFewControlPoints)
      ensures sources[0].Some? && |data| >= 4 ==> r == Success(Curved(u, data, sources[0].value(x, y, z)))
    {
      if sources[0].None? {
        return Failure(MissingSource);
      }
      if |data| < 4 {
        return Failure(TooFewControlPoints);
      }
      var smv := sources[0].value(x, y, z);
      var ip: int := ScanAbove(Keys(data), smv);
      var n := |data|;
      var i0 := ClampInt(ip - 2, 0, n - 1);
      var i1 := ClampInt(ip - 1, 0, n - 1);
      var i2 := ClampInt(ip, 0, n - 1);
      var i3 := ClampInt(ip + 1, 0, n - 1);
      if i1 == i2 {
        return Success(data[i1].1);
      }
      var ip0 := data[i1].0;
      var ip1 := data[i2].0;
      var a := (smv - ip0) / (ip1 - ip0);
      assert a == Position(data, Indices(i0, i1, i2, i3), smv);
      return Success(u.interpolateCubic(data[i0].1, data[i1].1, data[i2].1, data[i3].1, a));
    }
  }
}
