/**
 * The Terrace operator (Operator/Terrace.cs): maps its source's output onto a
 * terrace-forming curve through a list of control points. `Add` and `Generate`
 * keep the list ascending without duplicates, but the `ControlPoints` getter hands
 * out the live list, so a caller can leave it in any order.
 */
module OpTerrace {
  import opened Wrappers
  import opened ModuleBase
  import opened Utils
  import opened ControlPoints

  /** Both constructors call `base(1)`. */
  const SourceCount: nat := 1

  /**
   * The terrace curve at source value `v`: between the two control points around
   * `v` the blend factor is squared (after flipping it when inverted), so the curve
   * is flat just above each point and steep just below the next. The scan brackets
   * `v` between two points in whatever order the list is, so no order is required.
   */
  function Terraced(u: Primitives, points: seq<real>, inverted: bool, v: real): real
    requires |points| >= 2
  {
    var n := |points|;
    var ip := FirstAbove(points, v);
    var i0 := ClampInt(ip - 1, 0, n - 1);
    var i1 := ClampInt(ip, 0, n - 1);
    if i0 == i1 then points[i1] else Step(u, points[i0], points[i1], inverted, v)
  }

  /** One terrace step between neighbouring points v0 < v1. */
  function Step(u: Primitives, v0: real, v1: real, inverted: bool, v: real): real
    requires v0 < v1
  {
    var a := (v - v0) / (v1 - v0);
    if inverted then u.interpolateLinear(v1, v0, Square(1.0 - a)) else u.interpolateLinear(v0, v1, Square(a))
  }

  /** The blend factor is squared (`alpha *= alpha`) before interpolating. */
  function Square(a: real): real
  {
    a * a
  }

  /** Below the first point the result is the first point; at or above the last, the last. */
  lemma TerracedEnds(u: Primitives, points: seq<real>, inverted: bool, v: real)
    requires |points| >= 2 && StrictlyIncreasing(points)
    ensures v < points[0] ==> Terraced(u, points, inverted, v) == points[0]
    ensures v >= points[|points| - 1] ==> Terraced(u, points, inverted, v) == points[|points| - 1]
  {
    FirstAboveEnds(points, v);
  }

  lemma ProductNonNegative(a: real, b: real)
    requires a >= 0.0 && b >= 0.0
    ensures a * b >= 0.0
  {
  }

  /** `v0 + t * (v1 - v0)` lies between v0 and v1 for a weight t in [0, 1]. */
  lemma BlendBetween(v0: real, v1: real, t: real)
    requires 0.0 <= t <= 1.0
    ensures MinReal(v0, v1) <= v0 + t * (v1 - v0) <= MaxReal(v0, v1)
  {
    var d := v1 - v0;
    assert t * d + (1.0 - t) * d == d;
    if d >= 0.0 {
      ProductNonNegative(t, d);
      ProductNonNegative(1.0 - t, d);
    } else {
      ProductNonNegative(t, -d);
      ProductNonNegative(1.0 - t, -d);
      assert t * d == -(t * -d) && (1.0 - t) * d == -((1.0 - t) * -d);
    }
  }

  /** The square of a weight in [0, 1] is in [0, 1]. */
  lemma SquareInUnit(a: real)
    requires 0.0 <= a <= 1.0
    ensures 0.0 <= Square(a) <= 1.0
  {
    ProductNonNegative(a, a);
    ProductNonNegative(a, 1.0 - a);
    assert a * a == a - a * (1.0 - a);
  }

  /**
   * For a source value between the first and the last point, the scan stops at an
   * index `ip` with `points[ip-1] <= v < points[ip]`, the blend factor lies in
   * [0, 1), and the result lies between those two points, inverted or not.
   */
  lemma TerracedInterior(u: Primitives, points: seq<real>, inverted: bool, v: real)
    requires LinearInterpolation(u)
    requires |points| >= 2 && StrictlyIncreasing(points)
    requires points[0] <= v < points[|points| - 1]
    ensures var ip := FirstAbove(points, v);
      1 <= ip < |points| && points[ip - 1] <= v < points[ip]
      && 0.0 <= (v - points[ip - 1]) / (points[ip] - points[ip - 1]) < 1.0
      && points[ip - 1] <= Terraced(u, points, inverted, v) <= points[ip]
  {
    var ip := FirstAbove(points, v);
    FirstAboveEnds(points, v);
    assert Terraced(u, points, inverted, v) == Step(u, points[ip - 1], points[ip], inverted, v);
    StepBetween(u, points[ip - 1], points[ip], inverted, v);
  }

  /**
   * In a list of any order: where the scan stops at 0 the output is the first
   * point, where it runs off the end the output is the last point, and otherwise
   * the scan has found neighbours `points[ip - 1] <= v < points[ip]` and the
   * output lies between them.
   */
  lemma TerracedScan(u: Primitives, points: seq<real>, inverted: bool, v: real)
    requires LinearInterpolation(u)
    requires |points| >= 2
    ensures var ip := FirstAbove(points, v);
      && (ip == 0 ==> Terraced(u, points, inverted, v) == points[0])
      && (ip == |points| ==> Terraced(u, points, inverted, v) == points[|points| - 1])
      && (0 < ip < |points| ==>
            points[ip - 1] <= v < points[ip] && points[ip - 1] <= Terraced(u, points, inverted, v) <= points[ip])
  {
    var ip := FirstAbove(points, v);
    if 0 < ip < |points| {
      assert Terraced(u, points, inverted, v) == Step(u, points[ip - 1], points[ip], inverted, v);
      StepBetween(u, points[ip - 1], points[ip], inverted, v);
    }
  }

  /** The list `[2, 0]`, which only appending through the live list can build, reads 2 at source value 1. */
  lemma UnsortedList(u: Primitives, inverted: bool)
    ensures FirstAbove([2.0, 0.0], 1.0) == 0
    ensures Terraced(u, [2.0, 0.0], inverted, 1.0) == 2.0
  {
    FirstAboveUnique([2.0, 0.0], 1.0, 0);
  }

  /** For v0 <= v < v1 the blend factor is in [0, 1) and a step's value lies in [v0, v1]. */
  lemma StepBetween(u: Primitives, v0: real, v1: real, inverted: bool, v: real)
    requires LinearInterpolation(u)
    requires v0 <= v < v1
    ensures 0.0 <= (v - v0) / (v1 - v0) < 1.0
    ensures v0 <= Step(u, v0, v1, inverted, v) <= v1
  {
    var a := (v - v0) / (v1 - v0);
    RatioInUnit(v - v0, v1 - v0);
    var a' := if inverted then 1.0 - a else a;
    SquareInUnit(a');
    var t := Square(a');
    if inverted {
      assert Step(u, v0, v1, inverted, v) == v1 + t * (v0 - v1);
      BlendBetween(v1, v0, t);
    } else {
      assert Step(u, v0, v1, inverted, v) == v0 + t * (v1 - v0);
      BlendBetween(v0, v1, t);
    }
  }

  /** Hence the output always lies within [first point, last point]. */
  lemma TerracedRange(u: Primitives, points: seq<real>, inverted: bool, v: real)
    requires LinearInterpolation(u)
    requires |points| >= 2 && StrictlyIncreasing(points)
    ensures points[0] <= Terraced(u, points, inverted, v) <= points[|points| - 1]
  {
    TerracedEnds(u, points, inverted, v);
    if points[0] <= v < points[|points| - 1] {
      TerracedInterior(u, points, inverted, v);
      var ip := FirstAbove(points, v);
      assert points[0] <= points[ip - 1] && points[ip] <= points[|points| - 1];
    }
  }

  /** Inserting a new value where the scan stops keeps a list strictly increasing. */
  lemma InsertKeepsIncreasing(s: seq<real>, v: real)
    requires StrictlyIncreasing(s) && v !in s
    ensures StrictlyIncreasing(InsertAt(s, FirstAbove(s, v), v))
  {
    var k := FirstAbove(s, v);
    var r := InsertAt(s, k, v);
    forall a, b | 0 <= a < b < |r|
      ensures r[a] < r[b]
    {
      if b < k {
        assert s[a] < s[b];
      } else if b == k {
        assert s[a] <= v && s[a] != v;
      } else if a < k {
        assert s[a] <= v && s[a] != v;
        assert v < s[k];
        assert k == b - 1 || s[k] < s[b - 1];
      } else if a == k {
        assert k == b - 1 || s[k] < s[b - 1];
      } else {
        assert s[a - 1] < s[b - 1];
      }
    }
  }

  /** The list `Add(v)` leaves: `v` appended unless the list contains it, then the list sorted. */
  function Added(points: seq<real>, v: real): seq<real>
  {
    SortValues(if v in points then points else points + [v])
  }

  /**
   * Whatever order the list was in, `Add` leaves it ascending, holding the old
   * values plus `v` when `v` was absent, one longer exactly then.
   */
  lemma AddedFacts(points: seq<real>, v: real)
    ensures Ascending(Added(points, v))
    ensures multiset(Added(points, v)) == multiset(points) + (if v in points then multiset{} else multiset{v})
    ensures |Added(points, v)| == |points| + (if v in points then 0 else 1)
    ensures forall w :: w in Added(points, v) <==> w in points || w == v
  {
    var r := Added(points, v);
    assert forall w :: w in r <==> w in multiset(r);
    assert forall w :: w in points <==> w in multiset(points);
  }

  /**
   * On a strictly increasing list `Add` keeps a present value's list as it is and
   * inserts an absent value where the lookup scan stops, so the list stays strictly
   * increasing.
   */
  lemma AddedStrict(points: seq<real>, v: real)
    requires StrictlyIncreasing(points)
    ensures StrictlyIncreasing(Added(points, v))
    ensures v in points ==> Added(points, v) == points
    ensures v !in points ==> Added(points, v) == InsertAt(points, FirstAbove(points, v), v)
  {
    if v in points {
      SortValuesOfAscending(points);
    } else {
      SortValuesAppend(points, v);
      InsertKeepsIncreasing(points, v);
    }
  }

  /** The i-th generated point: -1 followed by `i` steps of `ts`. */
  function StepPoint(ts: real, i: nat): real
  {
    if i == 0 then -1.0 else StepPoint(ts, i - 1) + ts
  }

  lemma {:induction false} StepPointClosedForm(ts: real, i: nat)
    ensures StepPoint(ts, i) == -1.0 + i as real * ts
  {
    if i > 0 {
      StepPointClosedForm(ts, i - 1);
      assert (i - 1) as real * ts + ts == i as real * ts;
    }
  }

  /** The first `n` generated points. */
  function Steps(ts: real, n: nat): (s: seq<real>)
    ensures |s| == n
    ensures forall i :: 0 <= i < n ==> s[i] == StepPoint(ts, i)
  {
    if n == 0 then [] else Steps(ts, n - 1) + [StepPoint(ts, n - 1)]
  }

  /** With a positive step the generated points increase. */
  lemma {:induction false} StepPointIncreasing(ts: real, i: nat, j: nat)
    requires ts > 0.0 && i < j
    ensures StepPoint(ts, i) < StepPoint(ts, j)
  {
    if i < j - 1 {
      StepPointIncreasing(ts, i, j - 1);
    }
  }

  /** The spacing 2 / (steps - 1) of at least two steps is positive. */
  lemma StepPositive(steps: int)
    requires steps >= 2
    ensures 2.0 / (steps as real - 1.0) > 0.0
  {
  }

  /** Adding the next generated point to the points before it appends it. */
  lemma GenerateStep(ts: real, i: nat)
    requires ts > 0.0
    ensures Added(Steps(ts, i), StepPoint(ts, i)) == Steps(ts, i + 1)
  {
    var points, cv := Steps(ts, i), StepPoint(ts, i);
    forall a, b | 0 <= a < b < i
      ensures points[a] < points[b]
    {
      StepPointIncreasing(ts, a, b);
    }
    forall j | 0 <= j < i
      ensures points[j] < cv
    {
      StepPointIncreasing(ts, j, i);
    }
    assert cv !in points;
    FirstAboveUnique(points, cv, i);
    InsertAtEnd(points, cv);
    AddedStrict(points, cv);
  }

  /** The list `Generate(steps)` leaves: `steps` points from -1 to 1 at equal spacing. */
  function Generated(steps: int): seq<real>
    requires steps >= 2
  {
    Steps(2.0 / (steps as real - 1.0), steps)
  }

  /** With a positive step the first `n` generated points are strictly increasing. */
  lemma StepsIncreasing(ts: real, n: nat)
    requires ts > 0.0
    ensures StrictlyIncreasing(Steps(ts, n))
  {
    var s := Steps(ts, n);
    forall a, b | 0 <= a < b < |s|
      ensures s[a] < s[b]
    {
      StepPointIncreasing(ts, a, b);
    }
  }

  /** The generated points are -1 + i * 2 / (steps - 1): strictly increasing, from -1 to 1 inclusive. */
  lemma GeneratedPoints(steps: int, i: nat)
    requires steps >= 2
    ensures |Generated(steps)| == steps && StrictlyIncreasing(Generated(steps))
    ensures i < steps ==> Generated(steps)[i] == -1.0 + i as real * (2.0 / (steps as real - 1.0))
    ensures Generated(steps)[0] == -1.0 && Generated(steps)[steps - 1] == 1.0
  {
    var ts := 2.0 / (steps as real - 1.0);
    StepPositive(steps);
    StepsIncreasing(ts, steps);
    StepPointClosedForm(ts, i);
    LastStep(ts, steps);
  }

  /** The last of `steps` points at spacing 2 / (steps - 1) is 1. */
  lemma LastStep(ts: real, steps: int)
    requires steps >= 2 && ts == 2.0 / (steps as real - 1.0)
    ensures StepPoint(ts, steps - 1) == 1.0
  {
    StepPointClosedForm(ts, steps - 1);
    SpacingSpans(steps);
  }

  /** `steps - 1` spacings of 2 / (steps - 1) span 2. */
  lemma SpacingSpans(steps: int)
    requires steps >= 2
    ensures (steps - 1) as real * (2.0 / (steps as real - 1.0)) == 2.0
  {
  }

  class Terrace {
    /** `m_data`, the very list the `ControlPoints` getter returns. */
    var points: seq<real>
    var inverted: bool
    var sources: seq<Option<Field>>

    /** One slot. The list may be in any order, since callers can edit it through the getter. */
    ghost predicate Valid()
      reads this
    {
      |sources| == SourceCount
    }

    /** `Terrace()`: no control points, not inverted, an empty slot. */
    constructor ()
      ensures Valid() && points == [] && !inverted && sources == [None]
    {
      points, inverted, sources := [], false, [None];
    }

    /** `Terrace(inverted, input)`. */
    constructor WithSource(inverted: bool, input: Option<Field>)
      ensures Valid() && points == [] && this.inverted == inverted && sources == [input]
    {
      points, this.inverted, sources := [], inverted, [input];
    }

    /** `ControlPointCount`. */
    function ControlPointCount(): (n: nat)
      reads this
      ensures n == |points|
    {
      |points|
    }

    /** The `IsInverted` setter. */
    method SetInverted(value: bool)
      modifies this
      ensures inverted == value && points == old(points) && sources == old(sources)
    {
      inverted := value;
    }

    /**
     * `ControlPoints.Add(v)` by a caller: the getter returns the live list, so the
     * value is appended as it is, without the duplicate check or the sort.
     */
    method AppendToControlPoints(v: real)
      modifies this
      ensures points == old(points) + [v] && inverted == old(inverted) && sources == old(sources)
    {
      points := points + [v];
    }

    /**
     * `Add`: appends the value unless the list contains it, then sorts, whatever
     * order the list was in (AddedFacts and AddedStrict state what that leaves).
     */
    method Add(v: real)
      requires Valid()
      modifies this
      ensures Valid() && inverted == old(inverted) && sources == old(sources)
      ensures points == Added(old(points), v)
    {
      if v !in points {
        points := points + [v];
      }
      points := SortValues(points);
    }

    /** `Clear`: empties the list. */
    method Clear()
      modifies this
      ensures points == [] && inverted == old(inverted) && sources == old(sources)
    {
      points := [];
    }

    /**
     * `Generate`: rejects fewer than two steps without touching the list; otherwise
     * clears it and adds `steps` points from -1 in steps of 2 / (steps - 1).
     */
    method Generate(steps: int) returns (r: Outcome<Fault>)
      requires Valid()
      modifies this
      ensures Valid() && inverted == old(inverted) && sources == old(sources)
      ensures steps < 2 ==> r == Fail(Argument) && points == old(points)
      ensures steps >= 2 ==> r == Pass && points == Generated(steps)
    {
      if steps < 2 {
        return Fail(Argument);
      }
      Clear();
      var ts := 2.0 / (steps as real - 1.0);
      StepPositive(steps);
      var cv := -1.0;
      for i := 0 to steps
        invariant Valid() && inverted == old(inverted) && sources == old(sources)
        invariant points == Steps(ts, i) && cv == StepPoint(ts, i)
      {
        AddStep(ts, i);
        cv := cv + ts;
      }
      return Pass;
    }

    /** One pass of `Generate`'s loop: adding the next point appends it. */
    method AddStep(ts: real, i: nat)
      requires Valid() && ts > 0.0 && points == Steps(ts, i)
      modifies this
      ensures Valid() && inverted == old(inverted) && sources == old(sources)
      ensures points == Steps(ts, i + 1)
    {
      GenerateStep(ts, i);
      Add(StepPoint(ts, i));
    }

    /**
     * `GetValue`: asserts the slot is filled and that there are at least two control
     * points, then scans for the first point above the source value and blends. It
     * evaluates a list in any order.
     */
    method GetValue(u: Primitives, x: real, y: real, z: real) returns (r: Result<real, Fault>)
      requires Valid()
      ensures sources[0].None? ==> r == Failure(MissingSource)
      ensures sources[0].Some? && |points| < 2 ==> r == Failure(TooFewControlPoints)
      ensures sources[0].Some? && |points| >= 2 ==> r == Success(Terraced(u, points, inverted, sources[0].value(x, y, z)))
    {
      if sources[0].None? {
        return Failure(MissingSource);
      }
      if |points| < 2 {
        return Failure(TooFewControlPoints);
      }
      var smv := sources[0].value(x, y, z);
      var ip: int := ScanAbove(points, smv);
      var n := |points|;
      var i0 := ClampInt(ip - 1, 0, n - 1);
      var i1 := ClampInt(ip, 0, n - 1);
      if i0 == i1 {
        return Success(points[i1]);
      }
      assert i0 == ip - 1 && i1 == ip;
      var v0 := points[i0];
      var v1 := points[i1];
      var a := (smv - v0) / (v1 - v0);
      if inverted {
        a := 1.0 - a;
        var t := v0;
        v0 := v1;
        v1 := t;
      }
      a := Square(a);
      return Success(u.interpolateLinear(v0, v1, a));
    }
  }
}
