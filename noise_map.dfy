/**
 * The two-dimensional noise map (Noise2D.cs): a cropped width x height buffer and an
 * uncropped (width + 2) x (height + 2) buffer with a one-cell border, the indexer that
 * reads and writes them, `Clear`, `GetData`, the planar, cylindrical and spherical
 * fill loops, and `Dispose`.
 */
module NoiseMap {
  import opened Wrappers
  import opened ModuleBase
  import opened Utils

  /** The default clip regions of the three projections. */
  const South: real := -90.0
  const North: real := 90.0
  const West: real := -180.0
  const East: real := 180.0
  const AngleMin: real := -180.0
  const AngleMax: real := 180.0
  const Left: real := -1.0
  const Right: real := 1.0
  const Top: real := -1.0
  const Bottom: real := 1.0

  /** A running coordinate: `start`, then `step` added once per cell. */
  function Coord(start: real, step: real, i: nat): real
  {
    if i == 0 then start else Coord(start, step, i - 1) + step
  }

  /** The running coordinate after `i` cells is `start + i * step`. */
  lemma {:induction false} CoordClosedForm(start: real, step: real, i: nat)
    ensures Coord(start, step, i) == start + (i as real) * step
  {
    if i > 0 {
      CoordClosedForm(start, step, i - 1);
      assert (i as real) * step == ((i - 1) as real) * step + step;
    }
  }

  /**
   * With `n` uncropped cells and the step `extent / (n - 1)`, cell 0 is at `start`,
   * cell n - 1 at `start + extent`, and cell 1 (cropped cell 0) at `start + step`.
   */
  lemma SampledSpan(u: Primitives, start: real, extent: real, n: nat)
    requires DivisionExact(u) && n >= 2
    ensures var step := u.divide(extent, (n as real) - 1.0);
      Coord(start, step, 0) == start && Coord(start, step, 1) == start + step
      && Coord(start, step, n - 1) == start + extent
  {
    var step := u.divide(extent, (n as real) - 1.0);
    var k := (n as real) - 1.0;
    assert k != 0.0 && step == extent / k;
    assert k * step == extent;
    assert ((n - 1) as real) == k;
    CoordClosedForm(start, step, n - 1);
    assert Coord(start, step, 1) == Coord(start, step, 0) + step;
  }

  /**
   * The three projections with their clip regions. `blend` is whether a planar map
   * blends four samples so that its opposite edges match.
   */
  datatype Projection =
    | Planar(left: real, right: real, top: real, bottom: real, blend: bool)
    | Cylindrical(angleMin: real, angleMax: real, heightMin: real, heightMax: real)
    | Spherical(south: real, north: real, west: real, east: real)

  /** The argument check every `Generate*` method makes first. */
  predicate Ordered(p: Projection)
  {
    match p
    case Planar(left, right, top, bottom, _) => left < right && top < bottom
    case Cylindrical(angleMin, angleMax, heightMin, heightMax) => angleMin < angleMax && heightMin < heightMax
    case Spherical(south, north, west, east) => west < east && south < north
  }

  /** Where the column coordinate starts, and its extent. */
  function XStart(p: Projection): real
  {
    match p
    case Planar(left, _, _, _, _) => left
    case Cylindrical(angleMin, _, _, _) => angleMin
    case Spherical(_, _, west, _) => west
  }

  function XExtent(p: Projection): real
  {
    match p
    case Planar(left, right, _, _, _) => right - left
    case Cylindrical(angleMin, angleMax, _, _) => angleMax - angleMin
    case Spherical(_, _, west, east) => east - west
  }

  /** Where the row coordinate starts, and its extent. */
  function YStart(p: Projection): real
  {
    match p
    case Planar(_, _, top, _, _) => top
    case Cylindrical(_, _, heightMin, _) => heightMin
    case Spherical(south, _, _, _) => south
  }

  function YExtent(p: Projection): real
  {
    match p
    case Planar(_, _, top, bottom, _) => bottom - top
    case Cylindrical(_, _, heightMin, heightMax) => heightMax - heightMin
    case Spherical(south, north, _, _) => north - south
  }

  /**
   * The blended planar sample at (xc, zc): the generator read at the point and at the
   * point shifted by one extent on each axis, mixed with weights that fall from 1 at
   * the left/top edge to 0 at the right/bottom edge.
   */
  function PlanarBlend(u: Primitives, g: Field, left: real, right: real, top: real, bottom: real, xc: real, zc: real): real
  {
    var xe := right - left;
    var ze := bottom - top;
    var swv := g(xc, 0.0, zc);
    var sev := g(xc + xe, 0.0, zc);
    var nwv := g(xc, 0.0, zc + ze);
    var nev := g(xc + xe, 0.0, zc + ze);
    var xb := 1.0 - u.divide(xc - left, xe);
    var zb := 1.0 - u.divide(zc - top, ze);
    var z0 := u.interpolateLinear(swv, sev, xb);
    var z1 := u.interpolateLinear(nwv, nev, xb);
    u.interpolateLinear(z0, z1, zb)
  }

  /**
   * The value a projection stores for the running coordinates (a, b): planar reads the
   * generator at (a, 0, b) or blends; cylindrical reads it on the unit cylinder at angle
   * a and height b; spherical on the unit sphere at longitude a and latitude b.
   */
  function Sample(u: Primitives, g: Field, p: Projection, a: real, b: real): real
  {
    match p
    case Planar(left, right, top, bottom, blend) =>
      if blend then PlanarBlend(u, g, left, right, top, bottom, a, b) else g(a, 0.0, b)
    case Cylindrical(_, _, _, _) =>
      g(u.cos(a * u.degToRad), b, u.sin(a * u.degToRad))
    case Spherical(_, _, _, _) =>
      var r := u.cos(u.degToRad * b);
      g(r * u.cos(u.degToRad * a), u.sin(u.degToRad * b), r * u.sin(u.degToRad * a))
  }

  /** A blended planar sample is the same at the left and the right edge. */
  lemma BlendTilesAcross(u: Primitives, g: Field, left: real, right: real, top: real, bottom: real, zc: real)
    requires DivisionExact(u) && LinearInterpolation(u)
    requires left < right && top < bottom
    ensures Sample(u, g, Planar(left, right, top, bottom, true), left, zc) == Sample(u, g, Planar(left, right, top, bottom, true), right, zc)
  {
    var xe := right - left;
    assert u.divide(left - left, xe) == 0.0 / xe == 0.0;
    assert u.divide(right - left, xe) == xe / xe == 1.0;
    assert left + xe == right;
  }

  /** A blended planar sample is the same at the top and the bottom edge. */
  lemma BlendTilesDown(u: Primitives, g: Field, left: real, right: real, top: real, bottom: real, xc: real)
    requires DivisionExact(u) && LinearInterpolation(u)
    requires left < right && top < bottom
    ensures Sample(u, g, Planar(left, right, top, bottom, true), xc, top) == Sample(u, g, Planar(left, right, top, bottom, true), xc, bottom)
  {
    var ze := bottom - top;
    assert u.divide(top - top, ze) == 0.0 / ze == 0.0;
    assert u.divide(bottom - top, ze) == ze / ze == 1.0;
    assert top + ze == bottom;
  }

  /**
   * An unblended planar map does not match at its edges: for the generator whose value
   * is its x coordinate, the left edge reads `left` and the right edge `right`.
   */
  lemma PlainDoesNotTile(u: Primitives, left: real, right: real, top: real, bottom: real, zc: real)
    requires left < right
    ensures var g: Field := (x: real, y: real, z: real) => x;
      Sample(u, g, Planar(left, right, top, bottom, false), left, zc) == left
      && Sample(u, g, Planar(left, right, top, bottom, false), right, zc) == right
  {
  }

  /** The value `GetData` copies from a cell: itself, or mapped from [-1, 1] to [0, 1]. */
  function Cell(v: real, normalized: bool): (r: real)
    ensures normalized && -1.0 <= v <= 1.0 ==> 0.0 <= r <= 1.0
    ensures !normalized ==> r == v
  {
    if normalized then (v + 1.0) / 2.0 else v
  }

  /** Normalising is invertible and keeps the order of the values. */
  lemma CellNormalizedInverse(v: real, w: real)
    ensures 2.0 * Cell(v, true) - 1.0 == v
    ensures v <= w <==> Cell(v, true) <= Cell(w, true)
  {
  }

  /**
   * The exception `GetData` raises for a w x h copy of `src`: `new float[w, h]` overflows
   * on a negative size; otherwise the first read (at [0, 0], made only when w and h are
   * positive) fails on a null buffer, and some read runs past a buffer that is too small.
   */
  function ReadFault(w: int, h: int, src: array2?<real>): (f: Option<Fault>)
    ensures f.None? ==> w >= 0 && h >= 0 && (w > 0 && h > 0 ==> src != null && w <= src.Length0 && h <= src.Length1)
  {
    if w < 0 || h < 0 then Some(Overflow)
    else if w == 0 || h == 0 then None
    else if src == null then Some(NullReference)
    else if w > src.Length0 || h > src.Length1 then Some(IndexOutOfRange)
    else None
  }

  /**
   * One step of a `Generate*` inner loop: uncropped cell (x, y) gets `fv`, and so does
   * cropped cell (x - 1, y - 1) when (x, y) is inside the border.
   */
  method WriteCell(un: array2<real>, d: array2?<real>, w: int, h: int, x: int, y: int, fv: real)
    requires w >= 0 && h >= 0 && 0 <= x < w + 2 && 0 <= y < h + 2
    requires un.Length0 >= w + 2 && un.Length1 >= h + 2
    requires d != null ==> d != un && d.Length0 == w && d.Length1 == h
    requires d == null ==> w == 0 && h == 0
    modifies un, d
    ensures forall i, j :: 0 <= i < un.Length0 && 0 <= j < un.Length1 ==>
      un[i, j] == if i == x && j == y then fv else old(un[i, j])
    ensures d != null ==> forall i, j :: 0 <= i < w && 0 <= j < h ==>
      d[i, j] == if i == x - 1 && j == y - 1 then fv else old(d[i, j])
  {
    un[x, y] := fv;
    if x > 0 && y > 0 && x < w + 1 && y < h + 1 {
      d[x - 1, y - 1] := fv;
    }
  }

  /**
   * One pass of a `Generate*` outer loop: column x of the uncropped buffer gets the
   * samples at (xc, y0 + j * yd), and, for 1 <= x <= w, column x - 1 of the cropped
   * buffer gets the same values for its rows.
   */
  method FillColumn(un: array2<real>, d: array2?<real>, w: int, h: int, x: int, xc: real,
                    y0: real, yd: real, u: Primitives, g: Field, p: Projection)
    requires w >= 0 && h >= 0 && 0 <= x < w + 2
    requires un.Length0 >= w + 2 && un.Length1 >= h + 2
    requires d != null ==> d != un && d.Length0 == w && d.Length1 == h
    requires d == null ==> w == 0 && h == 0
    modifies un, d
    ensures forall i, j :: 0 <= i < un.Length0 && 0 <= j < un.Length1 ==>
      un[i, j] == if i == x && j < h + 2 then Sample(u, g, p, xc, Coord(y0, yd, j)) else old(un[i, j])
    ensures d != null ==> forall i, j :: 0 <= i < w && 0 <= j < h ==>
      d[i, j] == if i == x - 1 then un[x, j + 1] else old(d[i, j])
  {
    var zc := y0;
    var y := 0;
    while y < h + 2
      invariant 0 <= y <= h + 2 && zc == Coord(y0, yd, y)
      invariant forall i, j :: 0 <= i < un.Length0 && 0 <= j < un.Length1 ==>
        un[i, j] == if i == x && j < y then Sample(u, g, p, xc, Coord(y0, yd, j)) else old(un[i, j])
      invariant d != null ==> forall i, j :: 0 <= i < w && 0 <= j < h ==>
        d[i, j] == if i == x - 1 && j + 1 < y then un[x, j + 1] else old(d[i, j])
    {
      WriteCell(un, d, w, h, x, y, Sample(u, g, p, xc, zc));
      zc := zc + yd;
      y := y + 1;
    }
  }

  /**
   * The nested loops of every `Generate*` method: column i starts at x0 + i * xd, row j
   * at y0 + j * yd; every uncropped cell of the (w + 2) x (h + 2) region gets its
   * sample, every cropped cell (i, j) the uncropped cell (i + 1, j + 1), and uncropped
   * cells outside the region keep their values.
   */
  method Fill(un: array2<real>, d: array2?<real>, w: int, h: int, x0: real, xd: real,
              y0: real, yd: real, u: Primitives, g: Field, p: Projection)
    requires w >= 0 && h >= 0
    requires un.Length0 >= w + 2 && un.Length1 >= h + 2
    requires d != null ==> d != un && d.Length0 == w && d.Length1 == h
    requires d == null ==> w == 0 && h == 0
    modifies un, d
    ensures forall i, j :: 0 <= i < w + 2 && 0 <= j < h + 2 ==> un[i, j] == Sample(u, g, p, Coord(x0, xd, i), Coord(y0, yd, j))
    ensures forall i, j :: 0 <= i < un.Length0 && 0 <= j < un.Length1 && !(i < w + 2 && j < h + 2) ==> un[i, j] == old(un[i, j])
    ensures d != null ==> forall i, j :: 0 <= i < w && 0 <= j < h ==> d[i, j] == un[i + 1, j + 1]
  {
    var xc := x0;
    var x := 0;
    while x < w + 2
      invariant 0 <= x <= w + 2 && xc == Coord(x0, xd, x)
      invariant forall i, j :: 0 <= i < x && 0 <= j < h + 2 ==> un[i, j] == Sample(u, g, p, Coord(x0, xd, i), Coord(y0, yd, j))
      invariant forall i, j :: 0 <= i < un.Length0 && 0 <= j < un.Length1 && !(i < x && j < h + 2) ==> un[i, j] == old(un[i, j])
      invariant d != null ==> forall i, j :: 0 <= i < w && i + 1 < x && 0 <= j < h ==> d[i, j] == un[i + 1, j + 1]
    {
      FillColumn(un, d, w, h, x, xc, y0, yd, u, g, p);
      xc := xc + xd;
      x := x + 1;
    }
  }

  class Noise2D {
    var width: int
    var height: int
    var uncropped: array2?<real>
    var data: array2?<real>
    var generator: Option<Field>
    var disposed: bool

    /**
     * While the map holds its cropped buffer, the buffers have the sizes the constructor
     * gave them. `Disposing` drops the cropped buffer and zeroes the sizes but keeps the
     * uncropped one, which then still has at least a 2 x 2 region.
     */
    ghost predicate Valid()
      reads this
    {
      width >= 0 && height >= 0
      && (data != null ==>
            uncropped != null && data != uncropped
            && data.Length0 == width && data.Length1 == height
            && uncropped.Length0 == width + 2 && uncropped.Length1 == height + 2)
      && (data == null ==>
            width == 0 && height == 0
            && (uncropped != null ==> uncropped.Length0 >= 2 && uncropped.Length1 >= 2))
    }

    /** `Noise2D(width, height, generator)` for sizes the array allocations accept. */
    constructor (width: int, height: int, generator: Option<Field>)
      requires width >= 0 && height >= 0
      ensures Valid() && !disposed
      ensures this.width == width && this.height == height && this.generator == generator
      ensures data != null && uncropped != null && fresh(data) && fresh(uncropped)
    {
      this.generator := generator;
      this.width := width;
      this.height := height;
      uncropped := new real[width + 2, height + 2];
      data := new real[width, height];
      disposed := false;
    }

    /** The protected `Noise2D()`: no buffers and zero sizes. */
    constructor Empty()
      ensures Valid() && !disposed
      ensures width == 0 && height == 0 && data == null && uncropped == null && generator == None
    {
      width, height := 0, 0;
      uncropped, data := null, null;
      generator := None;
      disposed := false;
    }

    /**
     * Every public constructor (`Noise2D(size)`, `Noise2D(size, generator)`,
     * `Noise2D(width, height)` and `Noise2D(width, height, generator)`): a negative
     * size makes one of the two allocations throw an OverflowException.
     */
    static method Create(width: int, height: int, generator: Option<Field>) returns (r: Result<Noise2D, Fault>)
      ensures r.Failure? <==> width < 0 || height < 0
      ensures r.Failure? ==> r.error == Overflow
      ensures r.Success? ==>
                fresh(r.value) && r.value.Valid() && !r.value.disposed
                && r.value.width == width && r.value.height == height && r.value.generator == generator
    {
      if width < 0 || height < 0 {
        return Failure(Overflow);
      }
      var m := new Noise2D(width, height, generator);
      return Success(m);
    }

    /** The buffer the indexer and `GetData` select. */
    function Buffer(isCropped: bool): array2?<real>
      reads this
    {
      if isCropped then data else uncropped
    }

    /**
     * The indexer getter as written: its guards `x < 0 && x >= width` (and the same for
     * y) never hold, so a bad position reaches the array access, which throws a
     * NullReferenceException or an IndexOutOfRangeException.
     */
    method Get(x: int, y: int, isCropped: bool) returns (r: Result<real, Fault>)
      requires Valid()
      ensures var a := Buffer(isCropped);
        if a == null then r == Failure(NullReference)
        else if !(0 <= x < a.Length0 && 0 <= y < a.Length1) then r == Failure(IndexOutOfRange)
        else r == Success(a[x, y])
    {
      var a := if isCropped then data else uncropped;
      if x < 0 && x >= width {
        r := Failure(ArgumentOutOfRange);
      } else if y < 0 && y >= height {
        r := Failure(ArgumentOutOfRange);
      } else if a == null {
        r := Failure(NullReference);
      } else if !(0 <= x < a.Length0 && 0 <= y < a.Length1) {
        r := Failure(IndexOutOfRange);
      } else {
        r := Success(a[x, y]);
      }
    }

    /**
     * The indexer getter with the guards it evidently means, `x < 0 || x >= width`:
     * a position outside width x height is an ArgumentOutOfRangeException.
     */
    method GetCorrected(x: int, y: int, isCropped: bool) returns (r: Result<real, Fault>)
      requires Valid()
      ensures !(0 <= x < width && 0 <= y < height) ==> r == Failure(ArgumentOutOfRange)
      ensures 0 <= x < width && 0 <= y < height ==> var a := Buffer(isCropped);
        if a == null then r == Failure(NullReference) else r == Success(a[x, y])
    {
      if x < 0 || x >= width {
        return Failure(ArgumentOutOfRange);
      }
      if y < 0 || y >= height {
        return Failure(ArgumentOutOfRange);
      }
      var a := if isCropped then data else uncropped;
      if a == null {
        return Failure(NullReference);
      }
      return Success(a[x, y]);
    }

    /**
     * The indexer setter as written: the same never-true guards, so the array access
     * decides; a successful write changes that one cell and nothing else.
     */
    method Set(x: int, y: int, isCropped: bool, value: real) returns (r: Outcome<Fault>)
      requires Valid()
      modifies data, uncropped
      ensures data != null ==> data != uncropped
      ensures var a := Buffer(isCropped);
        if a == null then r == Fail(NullReference)
        else if !(0 <= x < a.Length0 && 0 <= y < a.Length1) then r == Fail(IndexOutOfRange)
        else r == Pass
      ensures forall b :: b in {data, uncropped} && b != null ==> forall i, j :: 0 <= i < b.Length0 && 0 <= j < b.Length1 ==>
        b[i, j] == if r == Pass && b == Buffer(isCropped) && i == x && j == y then value else old(b[i, j])
    {
      var a := if isCropped then data else uncropped;
      if x < 0 && x >= width {
        r := Fail(ArgumentOutOfRange);
      } else if y < 0 && y >= height {
        r := Fail(ArgumentOutOfRange);
      } else if a == null {
        r := Fail(NullReference);
      } else if !(0 <= x < a.Length0 && 0 <= y < a.Length1) {
        r := Fail(IndexOutOfRange);
      } else {
        a[x, y] := value;
        r := Pass;
      }
    }

    /** `Generator`'s setter. */
    method SetGenerator(value: Option<Field>)
      requires Valid()
      modifies this
      ensures Valid() && generator == value
      ensures width == old(width) && height == old(height) && data == old(data) && uncropped == old(uncropped)
      ensures disposed == old(disposed)
    {
      generator := value;
    }

    /**
     * `GetData(xCrop, yCrop, isCropped, isNormalized)`: a fresh array of the selected
     * buffer's size less the crops, each cell copied (and normalised on request); the
     * map itself is not changed.
     */
    method GetData(xCrop: int, yCrop: int, isCropped: bool, isNormalized: bool) returns (r: Result<array2<real>, Fault>)
      requires Valid()
      ensures var w := (if isCropped then width else width + 2) - xCrop;
        var h := (if isCropped then height else height + 2) - yCrop;
        var src := Buffer(isCropped);
        match ReadFault(w, h, src)
        case Some(f) => r == Failure(f)
        case None =>
          r.Success? && fresh(r.value) && r.value.Length0 == w && r.value.Length1 == h
          && forall i, j :: 0 <= i < w && 0 <= j < h ==> r.value[i, j] == Cell(src[i, j], isNormalized)
    {
      var w := (if isCropped then width else width + 2) - xCrop;
      var h := (if isCropped then height else height + 2) - yCrop;
      var src := if isCropped then data else uncropped;
      var fault := ReadFault(w, h, src);
      if fault.Some? {
        return Failure(fault.value);
      }
      var result := new real[w, h];
      var x := 0;
      while x < w
        invariant 0 <= x <= w
        invariant forall i, j :: 0 <= i < x && 0 <= j < h ==> result[i, j] == Cell(src[i, j], isNormalized)
      {
        var y := 0;
        while y < h
          invariant 0 <= y <= h
          invariant forall i, j :: 0 <= i < x && 0 <= j < h ==> result[i, j] == Cell(src[i, j], isNormalized)
          invariant forall j :: 0 <= j < y ==> result[x, j] == Cell(src[x, j], isNormalized)
        {
          result[x, y] := Cell(src[x, y], isNormalized);
          y := y + 1;
        }
        x := x + 1;
      }
      return Success(result);
    }

    /** `GetNormalizedData(xCrop, yCrop, isCropped)` is `GetData` with normalisation on. */
    method GetNormalizedData(xCrop: int, yCrop: int, isCropped: bool) returns (r: Result<array2<real>, Fault>)
      requires Valid()
      ensures var w := (if isCropped then width else width + 2) - xCrop;
        var h := (if isCropped then height else height + 2) - yCrop;
        var src := Buffer(isCropped);
        match ReadFault(w, h, src)
        case Some(f) => r == Failure(f)
        case None =>
          r.Success? && fresh(r.value) && r.value.Length0 == w && r.value.Length1 == h
          && forall i, j :: 0 <= i < w && 0 <= j < h ==> r.value[i, j] == Cell(src[i, j], true)
    {
      r := GetData(xCrop, yCrop, isCropped, true);
    }

    /** `Clear(value)`: every cropped cell becomes `value`; the uncropped buffer is untouched. */
    method Clear(value: real)
      requires Valid()
      modifies data
      ensures data != null ==> forall i, j :: 0 <= i < width && 0 <= j < height ==> data[i, j] == value
    {
      var x := 0;
      while x < width
        invariant 0 <= x <= width
        invariant data != null ==> forall i, j :: 0 <= i < x && 0 <= j < height ==> data[i, j] == value
      {
        var y := 0;
        while y < height
          invariant 0 <= y <= height
          invariant data != null ==> forall i, j :: 0 <= i < x && 0 <= j < height ==> data[i, j] == value
          invariant data != null ==> forall j :: 0 <= j < y ==> data[x, j] == value
        {
          data[x, y] := value;
          y := y + 1;
        }
        x := x + 1;
      }
    }

    /** `Clear()` is `Clear(0)`. */
    method ClearToZero()
      requires Valid()
      modifies data
      ensures data != null ==> forall i, j :: 0 <= i < width && 0 <= j < height ==> data[i, j] == 0.0
    {
      Clear(0.0);
    }

    /**
     * What a successful `Generate*` leaves behind for projection `p`: uncropped cell
     * (i, j) holds the sample at column coordinate `XStart(p) + i * xd` and row
     * coordinate `YStart(p) + j * yd` (as running sums), where xd and yd divide the
     * extents by width - 1 and height - 1, and cropped cell (i, j) holds uncropped
     * cell (i + 1, j + 1).
     */
    ghost predicate Generated(u: Primitives, p: Projection)
      reads this, uncropped, data
    {
      Valid() && generator.Some? && uncropped != null
      && (forall i, j :: 0 <= i < width + 2 && 0 <= j < height + 2 ==> CellSampled(u, p, i, j))
      && (data != null ==> forall i, j :: 0 <= i < width && 0 <= j < height ==> data[i, j] == uncropped[i + 1, j + 1])
    }

    /** Uncropped cell (i, j) holds the sample `Generated` describes. */
    ghost predicate CellSampled(u: Primitives, p: Projection, i: int, j: int)
      reads this, uncropped
    {
      generator.Some? && uncropped != null && 0 <= i < uncropped.Length0 && 0 <= j < uncropped.Length1
      && uncropped[i, j] == Sample(u, generator.value, p,
           Coord(XStart(p), u.divide(XExtent(p), (width as real) - 1.0), i),
           Coord(YStart(p), u.divide(YExtent(p), (height as real) - 1.0), j))
    }

    /** Cells filled with the samples at the running coordinates of `p`'s steps satisfy `CellSampled`. */
    lemma FilledCellsSampled(u: Primitives, p: Projection, xd: real, yd: real)
      requires generator.Some? && uncropped != null
      requires uncropped.Length0 >= width + 2 && uncropped.Length1 >= height + 2
      requires xd == u.divide(XExtent(p), (width as real) - 1.0) && yd == u.divide(YExtent(p), (height as real) - 1.0)
      requires forall i, j :: 0 <= i < width + 2 && 0 <= j < height + 2 ==>
        uncropped[i, j] == Sample(u, generator.value, p, Coord(XStart(p), xd, i), Coord(YStart(p), yd, j))
      ensures forall i, j :: 0 <= i < width + 2 && 0 <= j < height + 2 ==> CellSampled(u, p, i, j)
    {
    }

    /**
     * The body every `Generate*` method shares: the argument check, the null-generator
     * check (both before any write), then the nested fill loops with the column step
     * `extent / (width - 1)` and the row step `extent / (height - 1)`.
     */
    method Generate(u: Primitives, p: Projection) returns (r: Outcome<Fault>)
      requires Valid()
      modifies uncropped, data
      ensures !Ordered(p) ==> r == Fail(Argument)
      ensures Ordered(p) && generator.None? ==> r == Fail(ArgumentNull)
      ensures Ordered(p) && generator.Some? && uncropped == null ==> r == Fail(NullReference)
      ensures r.Fail? ==> (uncropped != null ==> unchanged(uncropped)) && (data != null ==> unchanged(data))
      ensures r.Pass? <==> Ordered(p) && generator.Some? && uncropped != null
      ensures r.Pass? ==> Generated(u, p)
      ensures r.Pass? ==> forall i, j :: 0 <= i < uncropped.Length0 && 0 <= j < uncropped.Length1 && !(i < width + 2 && j < height + 2) ==>
        uncropped[i, j] == old(uncropped[i, j])
    {
      if !Ordered(p) {
        return Fail(Argument);
      }
      if generator.None? {
        return Fail(ArgumentNull);
      }
      if uncropped == null {
        return Fail(NullReference);
      }
      var xd := u.divide(XExtent(p), (width as real) - 1.0);
      var yd := u.divide(YExtent(p), (height as real) - 1.0);
      var g := generator.value;
      Fill(uncropped, data, width, height, XStart(p), xd, YStart(p), yd, u, g, p);
      FilledCellsSampled(u, p, xd, yd);
      return Pass;
    }

    /** `GeneratePlanar(left, right, top, bottom, isSeamless)` as written: it blends only when `isSeamless` is false. */
    method GeneratePlanar(u: Primitives, left: real, right: real, top: real, bottom: real, isSeamless: bool) returns (r: Outcome<Fault>)
      requires Valid()
      modifies uncropped, data
      ensures r.Pass? <==> left < right && top < bottom && generator.Some? && uncropped != null
      ensures r.Pass? ==> Generated(u, Planar(left, right, top, bottom, !isSeamless))
      ensures !(left < right && top < bottom) ==> r == Fail(Argument)
      ensures r.Fail? ==> (uncropped != null ==> unchanged(uncropped)) && (data != null ==> unchanged(data))
    {
      r := Generate(u, Planar(left, right, top, bottom, !isSeamless));
    }

    /** `GeneratePlanar` with the flag meaning what its name says: a seamless map blends. */
    method GeneratePlanarCorrected(u: Primitives, left: real, right: real, top: real, bottom: real, isSeamless: bool) returns (r: Outcome<Fault>)
      requires Valid()
      modifies uncropped, data
      ensures r.Pass? <==> left < right && top < bottom && generator.Some? && uncropped != null
      ensures r.Pass? ==> Generated(u, Planar(left, right, top, bottom, isSeamless))
      ensures !(left < right && top < bottom) ==> r == Fail(Argument)
      ensures r.Fail? ==> (uncropped != null ==> unchanged(uncropped)) && (data != null ==> unchanged(data))
    {
      r := Generate(u, Planar(left, right, top, bottom, isSeamless));
    }

    /** `GeneratePlanar(left, right, top, bottom)` passes `isSeamless` true. */
    method GeneratePlanarDefault(u: Primitives, left: real, right: real, top: real, bottom: real) returns (r: Outcome<Fault>)
      requires Valid()
      modifies uncropped, data
      ensures r.Pass? <==> left < right && top < bottom && generator.Some? && uncropped != null
      ensures r.Pass? ==> Generated(u, Planar(left, right, top, bottom, false))
      ensures !(left < right && top < bottom) ==> r == Fail(Argument)
      ensures r.Fail? ==> (uncropped != null ==> unchanged(uncropped)) && (data != null ==> unchanged(data))
    {
      r := GeneratePlanar(u, left, right, top, bottom, true);
    }

    /** `GenerateCylindrical(angleMin, angleMax, heightMin, heightMax)`. */
    method GenerateCylindrical(u: Primitives, angleMin: real, angleMax: real, heightMin: real, heightMax: real) returns (r: Outcome<Fault>)
      requires Valid()
      modifies uncropped, data
      ensures r.Pass? <==> angleMin < angleMax && heightMin < heightMax && generator.Some? && uncropped != null
      ensures r.Pass? ==> Generated(u, Cylindrical(angleMin, angleMax, heightMin, heightMax))
      ensures !(angleMin < angleMax && heightMin < heightMax) ==> r == Fail(Argument)
      ensures r.Fail? ==> (uncropped != null ==> unchanged(uncropped)) && (data != null ==> unchanged(data))
    {
      r := Generate(u, Cylindrical(angleMin, angleMax, heightMin, heightMax));
    }

    /** `GenerateSpherical(south, north, west, east)`: columns run over longitude, rows over latitude. */
    method GenerateSpherical(u: Primitives, south: real, north: real, west: real, east: real) returns (r: Outcome<Fault>)
      requires Valid()
      modifies uncropped, data
      ensures r.Pass? <==> west < east && south < north && generator.Some? && uncropped != null
      ensures r.Pass? ==> Generated(u, Spherical(south, north, west, east))
      ensures !(west < east && south < north) ==> r == Fail(Argument)
      ensures r.Fail? ==> (uncropped != null ==> unchanged(uncropped)) && (data != null ==> unchanged(data))
    {
      r := Generate(u, Spherical(south, north, west, east));
    }

    /** `Disposing()`: drops the cropped buffer, zeroes the sizes and reports success. */
    method Disposing() returns (done: bool)
      requires Valid()
      modifies this
      ensures Valid() && done
      ensures data == null && width == 0 && height == 0
      ensures uncropped == old(uncropped) && generator == old(generator) && disposed == old(disposed)
    {
      data := null;
      width := 0;
      height := 0;
      return true;
    }

    /** `Dispose()`: runs `Disposing` once; a second call changes nothing. */
    method Dispose()
      requires Valid()
      modifies this
      ensures Valid() && disposed
      ensures old(disposed) ==> width == old(width) && height == old(height) && data == old(data)
      ensures !old(disposed) ==> width == 0 && height == 0 && data == null
      ensures uncropped == old(uncropped) && generator == old(generator)
    {
      if !disposed {
        disposed := Disposing();
      }
    }
  }

  /** A cell of a generated map is its sample at the cell's running coordinates. */
  lemma GeneratedCell(u: Primitives, m: Noise2D, p: Projection, i: int, j: int, a: real, b: real)
    requires m.Generated(u, p) && 0 <= i < m.width + 2 && 0 <= j < m.height + 2
    requires a == Coord(XStart(p), u.divide(XExtent(p), (m.width as real) - 1.0), i)
    requires b == Coord(YStart(p), u.divide(YExtent(p), (m.height as real) - 1.0), j)
    ensures m.uncropped[i, j] == Sample(u, m.generator.value, p, a, b)
  {
    assert m.CellSampled(u, p, i, j);
  }

  /**
   * A map generated with blending matches at its left and right edges (given exact
   * division and linear interpolation): uncropped column 0 equals column width - 1,
   * because they are sampled at left and right.
   */
  lemma BlendedMapTilesAcross(u: Primitives, m: Noise2D, left: real, right: real, top: real, bottom: real, j: int)
    requires DivisionExact(u) && LinearInterpolation(u)
    requires left < right && top < bottom
    requires m.Generated(u, Planar(left, right, top, bottom, true)) && m.width >= 2
    requires 0 <= j < m.height + 2
    ensures m.uncropped[0, j] == m.uncropped[m.width - 1, j]
  {
    var p := Planar(left, right, top, bottom, true);
    var zc := Coord(top, u.divide(bottom - top, (m.height as real) - 1.0), j);
    SampledSpan(u, left, right - left, m.width);
    GeneratedCell(u, m, p, 0, j, left, zc);
    GeneratedCell(u, m, p, m.width - 1, j, right, zc);
    BlendTilesAcross(u, m.generator.value, left, right, top, bottom, zc);
  }

  /** The same at the top and bottom edges: uncropped row 0 equals row height - 1. */
  lemma BlendedMapTilesDown(u: Primitives, m: Noise2D, left: real, right: real, top: real, bottom: real, i: int)
    requires DivisionExact(u) && LinearInterpolation(u)
    requires left < right && top < bottom
    requires m.Generated(u, Planar(left, right, top, bottom, true)) && m.height >= 2
    requires 0 <= i < m.width + 2
    ensures m.uncropped[i, 0] == m.uncropped[i, m.height - 1]
  {
    var p := Planar(left, right, top, bottom, true);
    var xc := Coord(left, u.divide(right - left, (m.width as real) - 1.0), i);
    SampledSpan(u, top, bottom - top, m.height);
    GeneratedCell(u, m, p, i, 0, xc, top);
    GeneratedCell(u, m, p, i, m.height - 1, xc, bottom);
    BlendTilesDown(u, m.generator.value, left, right, top, bottom, xc);
  }

  /**
   * A map generated without blending, from the generator whose value is its x
   * coordinate, reads `left` in uncropped column 0 and `right` in column width - 1,
   * so its edges differ.
   */
  lemma PlainMapDoesNotTile(u: Primitives, m: Noise2D, left: real, right: real, top: real, bottom: real)
    requires DivisionExact(u) && left < right
    requires m.Generated(u, Planar(left, right, top, bottom, false)) && m.width >= 2
    requires forall x: real, y: real, z: real :: m.generator.value(x, y, z) == x
    ensures m.uncropped[0, 0] == left && m.uncropped[m.width - 1, 0] == right
  {
    var p := Planar(left, right, top, bottom, false);
    SampledSpan(u, left, right - left, m.width);
    GeneratedCell(u, m, p, 0, 0, left, top);
    GeneratedCell(u, m, p, m.width - 1, 0, right, top);
    assert m.generator.value(left, 0.0, top) == left && m.generator.value(right, 0.0, top) == right;
  }

  /**
   * A position outside the map reaches the array access in the indexer as written
   * (an IndexOutOfRangeException) but its intended guard in the corrected indexer.
   */
  method IndexGuardMissed() returns (asWritten: Result<real, Fault>, corrected: Result<real, Fault>)
    ensures asWritten == Failure(IndexOutOfRange)
    ensures corrected == Failure(ArgumentOutOfRange)
  {
    var m := new Noise2D(1, 1, None);
    asWritten := m.Get(-1, 0, true);
    corrected := m.GetCorrected(-1, 0, true);
  }

  /** After `Dispose`, the cropped buffer is gone and reads of it are null references. */
  method ReadAfterDispose(width: int, height: int) returns (r: Result<real, Fault>)
    requires width >= 0 && height >= 0
    ensures r == Failure(NullReference)
  {
    var m := new Noise2D(width, height, None);
    m.Dispose();
    r := m.Get(0, 0, true);
  }
}
