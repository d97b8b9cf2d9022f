/**
 * The coordinate hierarchy of virtual ores: a region is an 8x8 block of veins,
 * a vein a 4x4 block of chunks, and coordinates move between the levels by
 * arithmetic shifts of Kotlin `Int` values.
 */
module Coordinates {

  /** Kotlin `Int`: a signed 32-bit value. */
  type Int32 = x: int | -0x8000_0000 <= x < 0x8000_0000

  /** The region coordinates an `Int32` chunk coordinate can reach after `shr 5`. */
  type RegionCoord = r: int | -0x400_0000 <= r < 0x400_0000

  /** The vein coordinates an `Int32` chunk coordinate can reach after `shr 2`. */
  type VeinCoord = v: int | -0x2000_0000 <= v < 0x2000_0000

  const ShiftRegionFromChunk: nat := 5
  const ShiftVeinFromRegion: nat := 3
  const ShiftChunkFromVein: nat := 2
  const ChunkCountInVein: nat := 4
  const VeinCountInRegion: nat := 8

  function Pow2(n: nat): (p: nat)
    ensures p >= 1
  {
    if n == 0 then 1 else 2 * Pow2(n - 1)
  }

  /** `v shr n` on a signed value: the arithmetic shift rounds towards minus infinity. */
  function Shr(v: int, n: nat): (r: int)
    ensures r * Pow2(n) <= v < r * Pow2(n) + Pow2(n)
  {
    v / Pow2(n)
  }

  /** `v shl n` where it does not overflow (every use below is typed `Int32`). */
  function Shl(v: int, n: nat): int
  {
    v * Pow2(n)
  }

  /** The counts are the powers of two of the shifts, and the two small shifts make up the large one. */
  lemma ShiftConstants()
    ensures Pow2(ShiftChunkFromVein) == ChunkCountInVein == 4
    ensures Pow2(ShiftVeinFromRegion) == VeinCountInRegion == 8
    ensures Pow2(ShiftRegionFromChunk) == 32
    ensures ShiftRegionFromChunk == ShiftVeinFromRegion + ShiftChunkFromVein
  {
  }

  /** `v shl 2` and `v shl 3` are the multiplications by 4 and 8. */
  lemma ShlValues(v: int)
    ensures Shl(v, ShiftChunkFromVein) == 4 * v
    ensures Shl(v, ShiftVeinFromRegion) == 8 * v
  {
    ShiftConstants();
  }

  lemma MulMono(a: int, b: int, p: nat)
    requires a <= b
    ensures a * p <= b * p
  {
    assert b * p - a * p == (b - a) * p;
  }

  lemma MulCancel(a: int, b: int, p: nat)
    requires p > 0
    ensures a * p < b * p ==> a < b
  {
    if a >= b {
      MulMono(b, a, p);
    }
  }

  /** The floor characterisation determines `Shr` uniquely. */
  lemma {:induction false} ShrUnique(v: int, n: nat, q: int)
    requires q * Pow2(n) <= v < q * Pow2(n) + Pow2(n)
    ensures Shr(v, n) == q
  {
    var r := Shr(v, n);
    var p := Pow2(n);
    assert (q + 1) * p == q * p + p;
    assert (r + 1) * p == r * p + p;
    MulCancel(r, q + 1, p);
    MulCancel(q, r + 1, p);
  }

  /** Region of a chunk: `x shr 5`, i.e. floor division by 32. */
  function RegionOf(chunk: Int32): (r: RegionCoord)
    ensures 32 * r <= chunk < 32 * r + 32
  {
    ShiftConstants();
    Shr(chunk, ShiftRegionFromChunk)
  }

  /** Vein of a chunk: `x shr 2`, i.e. floor division by 4. */
  function VeinOf(chunk: Int32): (v: VeinCoord)
    ensures 4 * v <= chunk < 4 * v + 4
  {
    ShiftConstants();
    Shr(chunk, ShiftChunkFromVein)
  }

  /** Region of a vein: `v shr 3`, i.e. floor division by 8. */
  function RegionOfVein(vein: int): (r: int)
    ensures 8 * r <= vein < 8 * r + 8
  {
    ShiftConstants();
    Shr(vein, ShiftVeinFromRegion)
  }

  /** Negative coordinates shift towards minus infinity: chunk -1 is in vein -1 and region -1. */
  lemma NegativeChunk()
    ensures VeinOf(-1) == -1 && RegionOf(-1) == -1
    ensures VeinOf(-4) == -1 && VeinOf(-5) == -2
    ensures RegionOf(-32) == -1 && RegionOf(-33) == -2
  {
  }

  /**
   * The hierarchy is consistent: the region of a chunk's vein is the chunk's region,
   * so `shr 2` then `shr 3` equals `shr 5`.
   */
  lemma {:induction false} RegionOfVeinOfChunk(chunk: Int32)
    ensures RegionOfVein(VeinOf(chunk)) == RegionOf(chunk)
  {
    var v := VeinOf(chunk);
    var r := RegionOfVein(v);
    ShiftConstants();
    assert 32 * r <= chunk < 32 * r + 32;
    ShrUnique(chunk, ShiftRegionFromChunk, r);
  }

  /** Every chunk of a vein's 4x4 block maps back to that vein. */
  lemma {:induction false} VeinOfBlock(vein: int, offset: int)
    requires 0 <= offset < ChunkCountInVein
    requires -0x8000_0000 <= 4 * vein + offset < 0x8000_0000
    ensures VeinOf(4 * vein + offset) == vein
  {
    ShiftConstants();
    ShrUnique(4 * vein + offset, ShiftChunkFromVein, vein);
  }

  /** Every chunk of a region's 32x32 block maps back to that region. */
  lemma {:induction false} RegionOfBlock(region: RegionCoord, offset: int)
    requires 0 <= offset < 32
    ensures RegionOf(32 * region + offset) == region
  {
    ShiftConstants();
    ShrUnique(32 * region + offset, ShiftRegionFromChunk, region);
  }

  /** Kotlin's wrap-around of an `Int` result. */
  function Wrap32(v: int): Int32
  {
    (v + 0x8000_0000) % 0x1_0000_0000 - 0x8000_0000
  }

  lemma {:induction false} Wrap32Shift(v: int, k: int)
    ensures Wrap32(v + k * 0x1_0000_0000) == Wrap32(v)
  {
    var m := 0x1_0000_0000;
    var a := v + 0x8000_0000;
    assert (a + k * m) % m == a % m by {
      var q := a / m;
      var r := a % m;
      assert a + k * m == (q + k) * m + r;
      assert 0 <= r < m;
    }
  }

  lemma {:induction false} Wrap32Linear(x: int, y: int)
    ensures Wrap32(31 * Wrap32(x) + y) == Wrap32(31 * x + y)
  {
    var m := 0x1_0000_0000;
    var k := (x + 0x8000_0000) / m;
    assert Wrap32(x) == x - k * m;
    assert 31 * Wrap32(x) + y == 31 * x + y + (-31 * k) * m;
    Wrap32Shift(31 * x + y, -31 * k);
  }

  /**
   * `java.util.Objects.hash(a, b, c)`: `Arrays.hashCode` of the boxed values, each an
   * `Integer` whose hash is its value, computed step by step in 32-bit arithmetic.
   * It is the wrapped polynomial 31^3 + 31^2 a + 31 b + c.
   */
  function ObjectsHash(a: Int32, b: Int32, c: Int32): (h: Int32)
    ensures h == Wrap32(29791 + 961 * a + 31 * b + c)
  {
    Wrap32Linear(31 * 1 + a, b);
    Wrap32Linear(31 * (31 * 1 + a) + b, c);
    Wrap32(31 * Wrap32(31 * Wrap32(31 * 1 + a) + b) + c)
  }

  /** The hash identifies regions only up to collisions: regions (0, 31) and (1, 0) of any one dimension share it. */
  lemma RegionHashCollision(dim: Int32)
    ensures ObjectsHash(0, 31, dim) == ObjectsHash(1, 0, dim)
  {
  }
}
