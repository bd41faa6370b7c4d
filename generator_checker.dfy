/**
 * The Checker generator (Generator/Checker.cs): unit cubes of alternating -1 and 1,
 * decided by the parities of the floored, folded coordinates.
 */
module GenChecker {
  import opened Utils

  /**
   * `i & 1` on a two's-complement int: the low bit, which for negative values too is
   * the non-negative remainder of division by 2.
   */
  function LowBit(i: int): (b: int)
    ensures b == 0 || b == 1
  {
    i % 2
  }

  /** `^` on two single bits. */
  function Xor(a: int, b: int): (c: int)
    requires (a == 0 || a == 1) && (b == 0 || b == 1)
    ensures c == 0 || c == 1
    ensures c == 1 <==> a != b
  {
    if a == b then 0 else 1
  }

  /** `(int)Math.Floor(MakeInt32Range(v))`: the unit cell of a folded coordinate. */
  function CellIndex(u: Primitives, v: real): int
  {
    u.makeInt32Range(v).Floor
  }

  /**
   * The parity rule: `ix & 1 ^ iy & 1 ^ iz & 1`, where `&` binds tighter than `^`,
   * so the three low bits are combined by exclusive or.
   */
  function Parity(ix: int, iy: int, iz: int): (p: int)
    ensures p == 0 || p == 1
  {
    Xor(Xor(LowBit(ix), LowBit(iy)), LowBit(iz))
  }

  /** `GetValue`: -1 when the exclusive or of the low bits is set, 1 otherwise. */
  function Value(u: Primitives, x: real, y: real, z: real): (r: real)
    ensures r == -1.0 || r == 1.0
  {
    if Parity(CellIndex(u, x), CellIndex(u, y), CellIndex(u, z)) != 0 then -1.0 else 1.0
  }

  /** An independent statement of the rule: the output is -1 exactly when the sum of the cell indices is odd. */
  lemma ValueIsSumParity(u: Primitives, x: real, y: real, z: real)
    ensures Value(u, x, y, z) == -1.0 <==> (CellIndex(u, x) + CellIndex(u, y) + CellIndex(u, z)) % 2 == 1
  {
    var ix, iy, iz := CellIndex(u, x), CellIndex(u, y), CellIndex(u, z);
    assert (ix + iy + iz) % 2 == (ix % 2 + iy % 2 + iz % 2) % 2;
  }

  /** 1 when two cell indices differ in parity, 0 when they agree. */
  function Changed(i: int, i': int): (c: int)
    ensures c == 0 || c == 1
    ensures c == 0 <==> LowBit(i) == LowBit(i')
  {
    if LowBit(i) == LowBit(i') then 0 else 1
  }

  /**
   * The output depends only on the parities of the three cell indices: moving to
   * another point keeps it when an even number of the axes change parity, and
   * negates it when an odd number do.
   */
  lemma ParityFlip(u: Primitives, x: real, y: real, z: real, x': real, y': real, z': real)
    ensures var flips := Changed(CellIndex(u, x), CellIndex(u, x')) + Changed(CellIndex(u, y), CellIndex(u, y'))
                       + Changed(CellIndex(u, z), CellIndex(u, z'));
      Value(u, x', y', z') == if flips % 2 == 0 then Value(u, x, y, z) else -Value(u, x, y, z)
  {
  }
}
