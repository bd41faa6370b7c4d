/**
 * The Turbulence operator (Operator/Turbulence.cs): its source read at the input
 * point displaced on each axis by `power` times a Perlin generator of its own. The
 * frequency, roughness and seed setters fan out to the three generators.
 */
module OpTurbulence {
  import opened Wrappers
  import opened ModuleBase
  import opened Utils
  import GenPerlin

  /** All four constructors call `base(1)`. */
  const SourceCount: nat := 1

  /** The fixed offsets at which each axis's generator is read, in units of 1/65536. */
  const X0: real := 12414.0 / 65536.0
  const Y0: real := 65124.0 / 65536.0
  const Z0: real := 31337.0 / 65536.0
  const X1: real := 26519.0 / 65536.0
  const Y1: real := 18128.0 / 65536.0
  const Z1: real := 60493.0 / 65536.0
  const X2: real := 53820.0 / 65536.0
  const Y2: real := 11213.0 / 65536.0
  const Z2: real := 44845.0 / 65536.0

  /** The field initialiser of `m_power`. */
  const DefaultPower: real := 1.0

  /** One coordinate moved by `power` times a generator's output `d`. */
  function Offset(c: real, d: real, power: real): real
  {
    c + d * power
  }

  /** The displaced point: each axis moved by `power` times its generator read at the point plus its offsets. */
  function Displaced(dx: Field, dy: Field, dz: Field, power: real, x: real, y: real, z: real): (real, real, real)
  {
    (Offset(x, dx(x + X0, y + Y0, z + Z0), power),
     Offset(y, dy(x + X1, y + Y1, z + Z1), power),
     Offset(z, dz(x + X2, y + Y2, z + Z2), power))
  }

  /** The field a Turbulence module computes: the source read once, at the displaced point. */
  function Apply(source: Field, dx: Field, dy: Field, dz: Field, power: real): Field
  {
    (x: real, y: real, z: real) =>
      var p := Displaced(dx, dy, dz, power, x, y, z);
      source(p.0, p.1, p.2)
  }

  /** A Perlin generator with fields `p`, seen as a field. */
  function PerlinField(u: Primitives, p: GenPerlin.Params): Field
  {
    (x: real, y: real, z: real) => GenPerlin.Value(u, p, x, y, z)
  }

  /**
   * A Turbulence field over three Perlin generators, read at one point, is its source
   * read at the point moved on each axis by that axis's Perlin value at the offset point.
   */
  lemma OverPerlin(u: Primitives, source: Field, px: GenPerlin.Params, py: GenPerlin.Params, pz: GenPerlin.Params,
                   power: real, x: real, y: real, z: real)
    ensures Apply(source, PerlinField(u, px), PerlinField(u, py), PerlinField(u, pz), power)(x, y, z)
         == source(Offset(x, GenPerlin.Value(u, px, x + X0, y + Y0, z + Z0), power),
                   Offset(y, GenPerlin.Value(u, py, x + X1, y + Y1, z + Z1), power),
                   Offset(z, GenPerlin.Value(u, pz, x + X2, y + Y2, z + Z2), power))
  {
    assert PerlinField(u, px)(x + X0, y + Y0, z + Z0) == GenPerlin.Value(u, px, x + X0, y + Y0, z + Z0);
    assert PerlinField(u, py)(x + X1, y + Y1, z + Z1) == GenPerlin.Value(u, py, x + X1, y + Y1, z + Z1);
    assert PerlinField(u, pz)(x + X2, y + Y2, z + Z2) == GenPerlin.Value(u, pz, x + X2, y + Y2, z + Z2);
    var p := Displaced(PerlinField(u, px), PerlinField(u, py), PerlinField(u, pz), power, x, y, z);
    assert Apply(source, PerlinField(u, px), PerlinField(u, py), PerlinField(u, pz), power)(x, y, z) == source(p.0, p.1, p.2);
  }

  /** With power 0 the source is read at the undisplaced point. */
  lemma PowerZero(source: Field, dx: Field, dy: Field, dz: Field, x: real, y: real, z: real)
    ensures Apply(source, dx, dy, dz, 0.0)(x, y, z) == source(x, y, z)
  {
    assert Displaced(dx, dy, dz, 0.0, x, y, z) == (x, y, z);
  }

  /** A C# `int`. */
  predicate IsInt32(v: int)
  {
    -0x8000_0000 <= v < 0x8000_0000
  }

  class Turbulence {
    var power: real
    var xDistort: GenPerlin.Perlin
    var yDistort: GenPerlin.Perlin
    var zDistort: GenPerlin.Perlin
    var sources: seq<Option<Field>>

    /** One slot, and each distortion generator keeps its octave count in range. */
    ghost predicate Valid()
      reads this, xDistort, yDistort, zDistort
    {
      |sources| == SourceCount && xDistort.Valid() && yDistort.Valid() && zDistort.Valid()
    }

    /** `Turbulence()`: three fresh Perlin generators, all with the default fields (so all with seed 0). */
    constructor ()
      ensures Valid() && power == DefaultPower && sources == [None]
      ensures fresh(xDistort) && fresh(yDistort) && fresh(zDistort)
      ensures xDistort != yDistort && yDistort != zDistort && xDistort != zDistort
      ensures xDistort.Fields() == GenPerlin.Defaults && yDistort.Fields() == GenPerlin.Defaults && zDistort.Fields() == GenPerlin.Defaults
    {
      power := DefaultPower;
      xDistort := new GenPerlin.Perlin();
      yDistort := new GenPerlin.Perlin();
      zDistort := new GenPerlin.Perlin();
      sources := [None];
    }

    /** `Turbulence(input)`. */
    constructor WithSource(input: Option<Field>)
      ensures Valid() && power == DefaultPower && sources == [input]
      ensures fresh(xDistort) && fresh(yDistort) && fresh(zDistort)
      ensures xDistort != yDistort && yDistort != zDistort && xDistort != zDistort
      ensures xDistort.Fields() == GenPerlin.Defaults && yDistort.Fields() == GenPerlin.Defaults && zDistort.Fields() == GenPerlin.Defaults
    {
      power := DefaultPower;
      xDistort := new GenPerlin.Perlin();
      yDistort := new GenPerlin.Perlin();
      zDistort := new GenPerlin.Perlin();
      sources := [input];
    }

    /** `Turbulence(power, input)`: three fresh generators and the given power. */
    constructor WithPower(power: real, input: Option<Field>)
      ensures Valid() && this.power == power && sources == [input]
      ensures fresh(xDistort) && fresh(yDistort) && fresh(zDistort)
      ensures xDistort != yDistort && yDistort != zDistort && xDistort != zDistort
      ensures xDistort.Fields() == GenPerlin.Defaults && yDistort.Fields() == GenPerlin.Defaults && zDistort.Fields() == GenPerlin.Defaults
    {
      this.power := power;
      xDistort := new GenPerlin.Perlin();
      yDistort := new GenPerlin.Perlin();
      zDistort := new GenPerlin.Perlin();
      sources := [input];
    }

    /**
     * `Turbulence(x, y, z, power, input)`: the caller's generators are kept by
     * reference, so two axes may share one generator.
     */
    constructor WithDistortions(x: GenPerlin.Perlin, y: GenPerlin.Perlin, z: GenPerlin.Perlin, power: real, input: Option<Field>)
      requires x.Valid() && y.Valid() && z.Valid()
      ensures Valid() && this.power == power && sources == [input]
      ensures xDistort == x && yDistort == y && zDistort == z
    {
      xDistort, yDistort, zDistort := x, y, z;
      sources := [input];
      this.power := power;
    }

    /** The `Frequency` getter reads the x generator. */
    function Frequency(): real
      reads this, xDistort
    {
      xDistort.frequency
    }

    /** The `Frequency` setter writes the same value to all three generators. */
    method SetFrequency(value: real)
      requires Valid()
      modifies xDistort, yDistort, zDistort
      ensures Valid()
      ensures xDistort.Fields() == old(xDistort.Fields()).(frequency := value)
      ensures yDistort.Fields() == old(yDistort.Fields()).(frequency := value)
      ensures zDistort.Fields() == old(zDistort.Fields()).(frequency := value)
    {
      xDistort.SetFrequency(value);
      yDistort.SetFrequency(value);
      zDistort.SetFrequency(value);
    }

    /** The `Roughness` getter reads the x generator's octave count. */
    function Roughness(): int
      reads this, xDistort
    {
      xDistort.octaveCount
    }

    /** The `Roughness` setter writes the same (clamped) octave count to all three generators. */
    method SetRoughness(value: int)
      requires Valid()
      modifies xDistort, yDistort, zDistort
      ensures Valid()
      ensures xDistort.Fields() == old(xDistort.Fields()).(octaveCount := ClampOctaves(value))
      ensures yDistort.Fields() == old(yDistort.Fields()).(octaveCount := ClampOctaves(value))
      ensures zDistort.Fields() == old(zDistort.Fields()).(octaveCount := ClampOctaves(value))
    {
      xDistort.SetOctaveCount(value);
      yDistort.SetOctaveCount(value);
      zDistort.SetOctaveCount(value);
    }

    /** The `Seed` getter reads the x generator. */
    function Seed(): int
      reads this, xDistort
    {
      xDistort.seed
    }

    /**
     * The `Seed` setter gives the x, y and z generators the seeds s, s + 1 and s + 2
     * (C# `int` sums, which wrap around). When two axes share a generator, the later
     * write wins. Nothing else in the generators changes.
     */
    method SetSeed(value: int)
      requires Valid() && IsInt32(value)
      modifies xDistort, yDistort, zDistort
      ensures Valid()
      ensures zDistort.seed == WrapInt32(value + 2)
      ensures yDistort.seed == if yDistort == zDistort then WrapInt32(value + 2) else WrapInt32(value + 1)
      ensures xDistort.seed == if xDistort == zDistort then WrapInt32(value + 2)
                               else if xDistort == yDistort then WrapInt32(value + 1) else value
      ensures xDistort.Fields() == old(xDistort.Fields()).(seed := xDistort.seed)
      ensures yDistort.Fields() == old(yDistort.Fields()).(seed := yDistort.seed)
      ensures zDistort.Fields() == old(zDistort.Fields()).(seed := zDistort.seed)
    {
      xDistort.SetSeed(value);
      yDistort.SetSeed(WrapInt32(value + 1));
      zDistort.SetSeed(WrapInt32(value + 2));
    }

    /** The `Power` setter. */
    method SetPower(value: real)
      modifies this
      ensures power == value && sources == old(sources)
      ensures xDistort == old(xDistort) && yDistort == old(yDistort) && zDistort == old(zDistort)
    {
      power := value;
    }

    /**
     * `GetValue`: asserts the slot is filled, reads each axis's generator at the
     * input plus its offsets, and reads the source once at the displaced point.
     */
    method GetValue(u: Primitives, x: real, y: real, z: real) returns (r: Result<real, Fault>)
      requires Valid()
      ensures sources[0].None? ==> r == Failure(MissingSource)
      ensures sources[0].Some? ==> r == Success(sources[0].value(
        Offset(x, GenPerlin.Value(u, xDistort.Fields(), x + X0, y + Y0, z + Z0), power),
        Offset(y, GenPerlin.Value(u, yDistort.Fields(), x + X1, y + Y1, z + Z1), power),
        Offset(z, GenPerlin.Value(u, zDistort.Fields(), x + X2, y + Y2, z + Z2), power)))
    {
      if sources[0].None? {
        return Failure(MissingSource);
      }
      var ox := xDistort.GetValue(u, x + X0, y + Y0, z + Z0);
      var oy := yDistort.GetValue(u, x + X1, y + Y1, z + Z1);
      var oz := zDistort.GetValue(u, x + X2, y + Y2, z + Z2);
      var xd := Offset(x, ox, power);
      var yd := Offset(y, oy, power);
      var zd := Offset(z, oz, power);
      r := Success(sources[0].value(xd, yd, zd));
    }
  }

  /** On distinct generators the `Seed` setter leaves seeds s, s + 1 and s + 2, and the getter returns s. */
  method SeedFanOut(value: int) returns (sx: int, sy: int, sz: int, got: int)
    requires IsInt32(value) && value < 0x7fff_fffe
    ensures sx == value && sy == value + 1 && sz == value + 2 && got == value
  {
    var t := new Turbulence();
    t.SetSeed(value);
    sx, sy, sz := t.xDistort.seed, t.yDistort.seed, t.zDistort.seed;
    got := t.Seed();
  }
}
