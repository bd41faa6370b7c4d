/**
 * The Voronoi generator (Generator/Voronoi.cs): the input is scaled by the
 * frequency, the seed points of the 5x5x5 cells around the input's cell are
 * searched for the nearest one, and the output is a value-noise lookup at that
 * point's cell, optionally plus a term growing with the distance to it.
 */
module GenVoronoi {
  import opened Utils

  /** `Utils.ValueNoise3D(x, y, z, seed)`, the only primitive the search uses. */
  type ValueNoise = (int, int, int, int) -> real

  /** The fields of a Voronoi generator. */
  datatype Params = Params(displacement: real, frequency: real, seed: int, distance: bool)

  /** The field initialisers: displacement 1, frequency 1, seed 0, no distance term. */
  const Defaults: Params := Params(1.0, 1.0, 0, false)

  datatype Point = Point(x: real, y: real, z: real)
  datatype Cell = Cell(x: int, y: int, z: int)

  /**
   * The base cell on one axis: `(int)c` for a positive coordinate, `(int)c - 1`
   * otherwise.
   */
  function BaseCell(c: real): (i: int)
    ensures i as real <= c <= i as real + 1.0
  {
    if c > 0.0 then Truncate(c) else Truncate(c) - 1
  }

  /** The base cell is the floor of the coordinate, except at the integers that are not positive. */
  lemma BaseCellIsFloor(c: real)
    ensures c == c.Floor as real && c <= 0.0 ==> BaseCell(c) == c.Floor - 1
    ensures !(c == c.Floor as real && c <= 0.0) ==> BaseCell(c) == c.Floor
  {
    if c <= 0.0 && c != c.Floor as real {
      assert Truncate(c) == -((-c).Floor);
      assert (-c).Floor == -(c.Floor) - 1;
    }
  }

  /** Two instances of the exception: 0.0 lies in cell -1, and -2.0 in cell -3. */
  lemma BaseCellAtNonPositiveIntegers()
    ensures BaseCell(0.0) == -1
    ensures BaseCell(-2.0) == -3
    ensures BaseCell(-0.5) == -1
  {
    BaseCellIsFloor(0.0);
    BaseCellIsFloor(-2.0);
    BaseCellIsFloor(-0.5);
  }

  /**
   * Candidate `k` of the search around `base`: the loops run z outermost, then y,
   * then x, each from 2 below the base cell to 2 above it.
   */
  function Neighbour(base: Cell, k: int): Cell
    requires 0 <= k < 125
  {
    var o := Offsets(k);
    Cell(base.x - 2 + o.x, base.y - 2 + o.y, base.z - 2 + o.z)
  }

  /**
   * The loop counters' offsets from their starts after `k` innermost iterations:
   * x advances first and wraps to 0 after 4, carrying into y, and y into z.
   */
  function Offsets(k: nat): Cell
  {
    if k == 0 then Cell(0, 0, 0)
    else
      var o := Offsets(k - 1);
      if o.x < 4 then Cell(o.x + 1, o.y, o.z)
      else if o.y < 4 then Cell(0, o.y + 1, o.z)
      else Cell(0, 0, o.z + 1)
  }

  /** The offsets are the base-5 digits of `k`: `k == z * 25 + y * 5 + x`. */
  lemma {:induction false} OffsetsDigits(k: nat)
    ensures var o := Offsets(k);
      0 <= o.x < 5 && 0 <= o.y < 5 && 0 <= o.z && k == o.z * 25 + o.y * 5 + o.x
  {
    if k > 0 {
      OffsetsDigits(k - 1);
    }
  }

  /** The position of the cell at offsets `(dx, dy, dz)` in the visiting order. */
  function NeighbourIndex(dx: int, dy: int, dz: int): int
  {
    (dz + 2) * 25 + (dy + 2) * 5 + (dx + 2)
  }

  /** The visiting position of the cell at offsets in [0, 5) from the loops' starts. */
  lemma NeighbourAt(base: Cell, a: int, b: int, c: int)
    requires 0 <= a < 5 && 0 <= b < 5 && 0 <= c < 5
    ensures 0 <= a * 25 + b * 5 + c < 125
    ensures Neighbour(base, a * 25 + b * 5 + c) == Cell(base.x - 2 + c, base.y - 2 + b, base.z - 2 + a)
  {
    var k := a * 25 + b * 5 + c;
    OffsetsDigits(k);
    var o := Offsets(k);
    assert o.z * 25 <= k < o.z * 25 + 25 && a * 25 <= k < a * 25 + 25;
    assert o.z == a;
    assert o.y * 5 + o.x == b * 5 + c;
    assert o.y == b;
  }

  /**
   * The search visits exactly the cells within 2 of the base cell on every axis:
   * each candidate lies in that neighbourhood, and each neighbour is the candidate
   * at its visiting position.
   */
  lemma NeighbourhoodExact(base: Cell, k: int, dx: int, dy: int, dz: int)
    requires 0 <= k < 125
    requires -2 <= dx <= 2 && -2 <= dy <= 2 && -2 <= dz <= 2
    ensures var c := Neighbour(base, k);
      -2 <= c.x - base.x <= 2 && -2 <= c.y - base.y <= 2 && -2 <= c.z - base.z <= 2
    ensures 0 <= NeighbourIndex(dx, dy, dz) < 125
    ensures Neighbour(base, NeighbourIndex(dx, dy, dz)) == Cell(base.x + dx, base.y + dy, base.z + dz)
  {
    OffsetsDigits(k);
    NeighbourAt(base, dz + 2, dy + 2, dx + 2);
  }

  /** Cells are visited in z-major, then y, then x order. */
  lemma VisitOrder(dx: int, dy: int, dz: int, ex: int, ey: int, ez: int)
    requires -2 <= dx <= 2 && -2 <= dy <= 2 && -2 <= dz <= 2
    requires -2 <= ex <= 2 && -2 <= ey <= 2 && -2 <= ez <= 2
    ensures NeighbourIndex(dx, dy, dz) < NeighbourIndex(ex, ey, ez)
        <==> dz < ez || (dz == ez && (dy < ey || (dy == ey && dx < ex)))
  {
  }

  /**
   * The seed point of a cell: the cell's corner displaced by value noise on each
   * axis, with the seed on x, the C# `int` sums `seed + 1` on y and `seed + 2` on z.
   */
  function Candidate(noise: ValueNoise, seed: int, c: Cell): Point
  {
    Point(c.x as real + noise(c.x, c.y, c.z, seed),
          c.y as real + noise(c.x, c.y, c.z, WrapInt32(seed + 1)),
          c.z as real + noise(c.x, c.y, c.z, WrapInt32(seed + 2)))
  }

  /** The squared distance `xd * xd + yd * yd + zd * zd` between two points. */
  function DistSq(a: Point, b: Point): real
  {
    (a.x - b.x) * (a.x - b.x) + (a.y - b.y) * (a.y - b.y) + (a.z - b.z) * (a.z - b.z)
  }

  /** The running minimum: the smallest squared distance, its point, and its visiting position. */
  datatype Nearest = Nearest(md: real, point: Point, index: int)

  /** Before the search: `md` is 2147483647 and the point is the origin. */
  const Initial: Nearest := Nearest(2147483647.0, Point(0.0, 0.0, 0.0), -1)

  /** The running minimum after the first `n` candidates, a candidate replacing it only when strictly nearer. */
  function Search(noise: ValueNoise, seed: int, base: Cell, t: Point, n: int): (r: Nearest)
    requires 0 <= n <= 125
    ensures -1 <= r.index < n
  {
    if n == 0 then Initial
    else
      var prev := Search(noise, seed, base, t, n - 1);
      var c := Candidate(noise, seed, Neighbour(base, n - 1));
      var d := DistSq(c, t);
      if d < prev.md then Nearest(d, c, n - 1) else prev
  }

  /**
   * After `n` candidates the running minimum is no farther than any visited
   * candidate and strictly nearer than every candidate visited before the one it
   * keeps, so it keeps the earliest of the nearest. It holds the point and squared
   * distance of that candidate, or is still the initial value.
   */
  lemma {:induction false} SearchFacts(noise: ValueNoise, seed: int, base: Cell, t: Point, n: int)
    requires 0 <= n <= 125
    ensures var r := Search(noise, seed, base, t, n);
      && r.md <= Initial.md
      && (forall k :: 0 <= k < n ==> r.md <= DistSq(Candidate(noise, seed, Neighbour(base, k)), t))
      && (forall k :: 0 <= k < r.index ==> r.md < DistSq(Candidate(noise, seed, Neighbour(base, k)), t))
      && (r.index >= 0 ==> r.point == Candidate(noise, seed, Neighbour(base, r.index)) && r.md == DistSq(r.point, t))
      && (r.index == -1 ==> r == Initial)
  {
    if n > 0 {
      SearchFacts(noise, seed, base, t, n - 1);
      var prev := Search(noise, seed, base, t, n - 1);
      var d := DistSq(Candidate(noise, seed, Neighbour(base, n - 1)), t);
      if d < prev.md {
        assert Search(noise, seed, base, t, n) == Nearest(d, Candidate(noise, seed, Neighbour(base, n - 1)), n - 1);
      } else {
        assert Search(noise, seed, base, t, n) == prev;
      }
    }
  }

  /** The coordinates after scaling by the frequency. */
  function Scaled(p: Params, x: real, y: real, z: real): Point
  {
    Point(x * p.frequency, y * p.frequency, z * p.frequency)
  }

  /** The point the search keeps for input `(x, y, z)`. */
  function Chosen(u: Primitives, p: Params, x: real, y: real, z: real): Nearest
  {
    var t := Scaled(p, x, y, z);
    Search(u.valueNoise3D, p.seed, Cell(BaseCell(t.x), BaseCell(t.y), BaseCell(t.z)), t, 125)
  }

  /** The value-noise lookup at the chosen point's cell, always with seed 0. */
  function Lookup(u: Primitives, c: Point): real
  {
    u.valueNoise3D(c.x.Floor, c.y.Floor, c.z.Floor, 0)
  }

  /** The distance term `sqrt(d) * Sqrt3 - 1`, or 0 when the distance is not used. */
  function DistanceTerm(u: Primitives, p: Params, c: Point, t: Point): real
  {
    if p.distance then u.sqrt(DistSq(c, t)) * u.sqrt3 - 1.0 else 0.0
  }

  /** The output of a Voronoi generator with fields `p`. */
  function Value(u: Primitives, p: Params, x: real, y: real, z: real): real
  {
    var c := Chosen(u, p, x, y, z).point;
    DistanceTerm(u, p, c, Scaled(p, x, y, z)) + p.displacement * Lookup(u, c)
  }

  /** Value noise in [-1, 1], which keeps every seed point within one unit of its cell corner. */
  ghost predicate ValueNoiseInUnit(u: Primitives)
  {
    InUnit(u.valueNoise3D)
  }

  ghost predicate InUnit(noise: ValueNoise)
  {
    forall a: int, b: int, c: int, s: int :: -1.0 <= noise(a, b, c, s) <= 1.0
  }

  /** A number within `m` of zero has a square of at most `m * m`. */
  lemma SquareAtMost(a: real, m: real)
    requires -m <= a <= m
    ensures a * a <= m * m
  {
    if a >= 0.0 {
      if a > 0.0 {
        MulMonotone(m, a, a);
        MulMonotone(m, a, m);
      }
    } else {
      MulMonotone(m, -a, -a);
      MulMonotone(m, -a, m);
    }
  }

  /**
   * With value noise in [-1, 1] the first candidate lies within 4 of the scaled input
   * on every axis, closer than the initial 2147483647, so the search always keeps a
   * candidate: the earliest-visited one at the least squared distance, which no
   * candidate beats.
   */
  lemma ChosenIsNearest(u: Primitives, p: Params, x: real, y: real, z: real, k: int)
    requires ValueNoiseInUnit(u) && 0 <= k < 125
    ensures var r := Chosen(u, p, x, y, z);
      var t := Scaled(p, x, y, z);
      var base := Cell(BaseCell(t.x), BaseCell(t.y), BaseCell(t.z));
      && 0 <= r.index < 125
      && r.point == Candidate(u.valueNoise3D, p.seed, Neighbour(base, r.index))
      && DistSq(r.point, t) <= DistSq(Candidate(u.valueNoise3D, p.seed, Neighbour(base, k)), t)
      && (k < r.index ==> DistSq(r.point, t) < DistSq(Candidate(u.valueNoise3D, p.seed, Neighbour(base, k)), t))
  {
    var t := Scaled(p, x, y, z);
    var base := Cell(BaseCell(t.x), BaseCell(t.y), BaseCell(t.z));
    FirstCandidateNear(u.valueNoise3D, p.seed, base, t);
    SearchFacts(u.valueNoise3D, p.seed, base, t, 125);
  }

  /** The first candidate's cell is 2 below the base cell on each axis, so its point is within 4 of `t`. */
  lemma FirstCandidateNear(noise: ValueNoise, seed: int, base: Cell, t: Point)
    requires InUnit(noise)
    requires base.x as real <= t.x <= base.x as real + 1.0
    requires base.y as real <= t.y <= base.y as real + 1.0
    requires base.z as real <= t.z <= base.z as real + 1.0
    ensures DistSq(Candidate(noise, seed, Neighbour(base, 0)), t) <= 48.0
  {
    var c0 := Candidate(noise, seed, Neighbour(base, 0));
    assert Neighbour(base, 0) == Cell(base.x - 2, base.y - 2, base.z - 2);
    SquareAtMost(c0.x - t.x, 4.0);
    SquareAtMost(c0.y - t.y, 4.0);
    SquareAtMost(c0.z - t.z, 4.0);
  }

  /** With displacement 0 and no distance term the output is 0 everywhere. */
  lemma FlatWithoutDisplacement(u: Primitives, p: Params, x: real, y: real, z: real)
    requires p.displacement == 0.0 && !p.distance
    ensures Value(u, p, x, y, z) == 0.0
  {
  }

  /** With the distance term and a non-negative square root, the output is at least the lookup term minus 1. */
  lemma DistanceTermAtLeastMinusOne(u: Primitives, p: Params, x: real, y: real, z: real)
    requires p.distance && SqrtNonNegative(u) && u.sqrt3 >= 0.0
    ensures Value(u, p, x, y, z) >= p.displacement * Lookup(u, Chosen(u, p, x, y, z).point) - 1.0
  {
    var c := Chosen(u, p, x, y, z).point;
    var s := u.sqrt(DistSq(c, Scaled(p, x, y, z)));
    if u.sqrt3 > 0.0 {
      MulMonotone(s, 0.0, u.sqrt3);
    }
  }

  /** What the search loops' variables hold after `k` candidates. */
  ghost predicate SearchState(noise: ValueNoise, seed: int, base: Cell, t: Point, k: int,
                              md: real, xc: real, yc: real, zc: real, index: int)
  {
    0 <= k <= 125 && Nearest(md, Point(xc, yc, zc), index) == Search(noise, seed, base, t, k)
  }

  /**
   * One step of the search, as the loop body performs it on candidate `k`, the cell
   * `cell`: the state moves from `(md, xc, yc, zc, index)` to `(md', xc', yc', zc', index')`.
   */
  lemma SearchNext(noise: ValueNoise, seed: int, base: Cell, t: Point, k: int, cell: Cell,
                   md: real, xc: real, yc: real, zc: real, index: int, d: real, xp: real, yp: real, zp: real,
                   md': real, xc': real, yc': real, zc': real, index': int)
    requires 0 <= cell.z - base.z + 2 < 5 && 0 <= cell.y - base.y + 2 < 5 && 0 <= cell.x - base.x + 2 < 5
    requires k == (cell.z - base.z + 2) * 25 + (cell.y - base.y + 2) * 5 + (cell.x - base.x + 2)
    requires SearchState(noise, seed, base, t, k, md, xc, yc, zc, index)
    requires Point(xp, yp, zp) == Candidate(noise, seed, cell)
    requires d == DistSq(Point(xp, yp, zp), t)
    requires (md', xc', yc', zc', index') == if d < md then (d, xp, yp, zp, k) else (md, xc, yc, zc, index)
    ensures SearchState(noise, seed, base, t, k + 1, md', xc', yc', zc', index')
  {
    NeighbourAt(base, cell.z - base.z + 2, cell.y - base.y + 2, cell.x - base.x + 2);
  }

  /** Once all 125 candidates are searched, the output formula applied to the kept point is the output. */
  lemma OutputOfSearch(u: Primitives, p: Params, x: real, y: real, z: real,
                       md: real, xc: real, yc: real, zc: real, index: int)
    requires var t := Scaled(p, x, y, z);
      SearchState(u.valueNoise3D, p.seed, Cell(BaseCell(t.x), BaseCell(t.y), BaseCell(t.z)), t, 125, md, xc, yc, zc, index)
    ensures Value(u, p, x, y, z)
         == DistanceTerm(u, p, Point(xc, yc, zc), Scaled(p, x, y, z)) + p.displacement * Lookup(u, Point(xc, yc, zc))
  {
  }

  /** The innermost loop of `GetValue`: the five cells of one row, x ascending. */
  method SearchRow(noise: ValueNoise, seed: int, t: Point, base: Cell, ycu: int, zcu: int, ghost k0: int,
                   md0: real, xc0: real, yc0: real, zc0: real, ghost index0: int)
    returns (md: real, xc: real, yc: real, zc: real, ghost index: int)
    requires 0 <= zcu - base.z + 2 < 5 && 0 <= ycu - base.y + 2 < 5
    requires k0 == (zcu - base.z + 2) * 25 + (ycu - base.y + 2) * 5
    requires SearchState(noise, seed, base, t, k0, md0, xc0, yc0, zc0, index0)
    ensures SearchState(noise, seed, base, t, k0 + 5, md, xc, yc, zc, index)
  {
    md, xc, yc, zc, index := md0, xc0, yc0, zc0, index0;
    ghost var k := k0;
    for xcu := base.x - 2 to base.x + 3
      invariant k == k0 + (xcu - base.x + 2)
      invariant SearchState(noise, seed, base, t, k, md, xc, yc, zc, index)
    {
      var xp := xcu as real + noise(xcu, ycu, zcu, seed);
      var yp := ycu as real + noise(xcu, ycu, zcu, WrapInt32(seed + 1));
      var zp := zcu as real + noise(xcu, ycu, zcu, WrapInt32(seed + 2));
      var d := DistSq(Point(xp, yp, zp), t);
      ghost var (mdp, xcp, ycp, zcp, indexp) := (md, xc, yc, zc, index);
      if d < md {
        md := d;
        xc, yc, zc := xp, yp, zp;
        index := k;
      }
      SearchNext(noise, seed, base, t, k, Cell(xcu, ycu, zcu), mdp, xcp, ycp, zcp, indexp, d, xp, yp, zp,
        md, xc, yc, zc, index);
      k := k + 1;
    }
  }

  /** The middle loop of `GetValue`: the five rows of one plane, y ascending. */
  method SearchPlane(noise: ValueNoise, seed: int, t: Point, base: Cell, zcu: int, ghost k0: int,
                     md0: real, xc0: real, yc0: real, zc0: real, ghost index0: int)
    returns (md: real, xc: real, yc: real, zc: real, ghost index: int)
    requires 0 <= zcu - base.z + 2 < 5
    requires k0 == (zcu - base.z + 2) * 25
    requires SearchState(noise, seed, base, t, k0, md0, xc0, yc0, zc0, index0)
    ensures SearchState(noise, seed, base, t, k0 + 25, md, xc, yc, zc, index)
  {
    md, xc, yc, zc, index := md0, xc0, yc0, zc0, index0;
    ghost var k := k0;
    for ycu := base.y - 2 to base.y + 3
      invariant k == k0 + (ycu - base.y + 2) * 5
      invariant SearchState(noise, seed, base, t, k, md, xc, yc, zc, index)
    {
      md, xc, yc, zc, index := SearchRow(noise, seed, t, base, ycu, zcu, k, md, xc, yc, zc, index);
      k := k + 5;
    }
  }

  /**
   * The three nested loops of `GetValue`: over the cells within 2 of the base cell
   * `(xi, iy, iz)`, z outermost, keeping the strictly nearest seed point.
   */
  method SearchNeighbourhood(noise: ValueNoise, seed: int, t: Point, xi: int, iy: int, iz: int)
    returns (md: real, xc: real, yc: real, zc: real, ghost index: int)
    ensures SearchState(noise, seed, Cell(xi, iy, iz), t, 125, md, xc, yc, zc, index)
  {
    var base := Cell(xi, iy, iz);
    md := 2147483647.0;
    xc, yc, zc := 0.0, 0.0, 0.0;
    index := -1;
    for zcu := iz - 2 to iz + 3
      invariant SearchState(noise, seed, base, t, (zcu - iz + 2) * 25, md, xc, yc, zc, index)
    {
      md, xc, yc, zc, index := SearchPlane(noise, seed, t, base, zcu, (zcu - iz + 2) * 25, md, xc, yc, zc, index);
    }
  }

  /** Generator/Voronoi.cs. Its properties are plain fields, so a setter is an assignment. */
  class Voronoi {
    var displacement: real
    var frequency: real
    var seed: int
    var distance: bool

    function Fields(): Params
      reads this
    {
      Params(displacement, frequency, seed, distance)
    }

    /** `Voronoi()`: the field initialisers. */
    constructor ()
      ensures Fields() == Defaults
    {
      displacement, frequency, seed, distance := 1.0, 1.0, 0, false;
    }

    /** `Voronoi(frequency, displacement, seed, distance)`. */
    constructor WithParams(frequency: real, displacement: real, seed: int, distance: bool)
      ensures Fields() == Params(displacement, frequency, seed, distance)
    {
      this.frequency := frequency;
      this.displacement := displacement;
      this.seed := seed;
      this.distance := distance;
    }

    /**
     * `GetValue`: three nested loops over the cells within 2 of the base cell, keeping
     * the strictly nearest seed point, then the output formula.
     */
    method GetValue(u: Primitives, x: real, y: real, z: real) returns (r: real)
      ensures r == Value(u, Fields(), x, y, z)
    {
      var p := Fields();
      var t := Scaled(p, x, y, z);
      var xi := BaseCell(t.x);
      var iy := BaseCell(t.y);
      var iz := BaseCell(t.z);
      var md, xc, yc, zc, index := SearchNeighbourhood(u.valueNoise3D, p.seed, t, xi, iy, iz);
      var v: real;
      if p.distance {
        v := u.sqrt(DistSq(Point(xc, yc, zc), t)) * u.sqrt3 - 1.0;
      } else {
        v := 0.0;
      }
      r := v + p.displacement * u.valueNoise3D(xc.Floor, yc.Floor, zc.Floor, 0);
      OutputOfSearch(u, p, x, y, z, md, xc, yc, zc, index);
    }
  }
}
