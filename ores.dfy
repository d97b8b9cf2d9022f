/**
 * The ore entities and the two random sources the generator consumes.
 *
 * `ChunkOre` and `VeinOre` are values: the generator changes each one only between its
 * construction and the moment it is appended to a list, and never after it is shared.
 */
module Ores {
  import opened Coordinates

  datatype Option<T> = None | Some(value: T)

  /** One chunk of a vein: its chunk coordinates and its ore amount. */
  datatype ChunkOre = ChunkOre(x: Int32, z: Int32, size: int)

  /** A vein: its vein coordinates, the id of its ore and its chunks in generation order. */
  datatype VeinOre = VeinOre(xVein: VeinCoord, zVein: VeinCoord, oreId: int, oreChunks: seq<ChunkOre>)

  /** A catalog entry: the ore's id and its size range `rangeSize` (`first..last`). */
  datatype VirtualOreVein = VirtualOreVein(id: int, first: int, last: int)

  /** The size an ore chunk draws lies in `[first * 1000, last * 1000)`. */
  function SizeFloor(ore: VirtualOreVein): int { ore.first * 1000 }
  function SizeBound(ore: VirtualOreVein): int { ore.last * 1000 }

  /**
   * `Random.nextInt(from, until)` as an oracle: the value of the n-th draw. Whatever the
   * generator behind it, a draw lies in `[from, until)` whenever `from < until`.
   */
  type Draw = f: (nat, int, int) -> int
    | forall n: nat, from: int, until: int :: from < until ==> from <= f(n, from, until) < until
    witness (n: nat, from: int, until: int) => from

  /**
   * `getRandomVirtualOre(layer, dim)` as an oracle: the answer to the n-th call. Every ore
   * the catalog hands out has a non-empty size range (otherwise `nextInt` would throw).
   */
  type Pick = f: (int, int, nat) -> Option<VirtualOreVein>
    | forall layer: int, dim: int, n: nat :: f(layer, dim, n).Some? ==> f(layer, dim, n).value.first < f(layer, dim, n).value.last
    witness (layer: int, dim: int, n: nat) => None

  /** The n-th draw in `[from, until)`. */
  function DrawAt(draw: Draw, n: nat, from: int, until: int): (r: int)
    ensures from < until ==> from <= r < until
  {
    draw(n, from, until)
  }

  /** The catalog's answer to the n-th call, for a layer and a dimension. */
  function PickAt(pick: Pick, layer: int, dim: int, n: nat): (ore: Option<VirtualOreVein>)
    ensures ore.Some? ==> ore.value.first < ore.value.last
  {
    pick(layer, dim, n)
  }

  /** The process-wide size random source, consumed one draw at a time. */
  class Random {
    const draw: Draw
    var pos: nat

    constructor (draw: Draw)
      ensures this.draw == draw && pos == 0
    {
      this.draw := draw;
      pos := 0;
    }

    method NextInt(from: int, until: int) returns (r: int)
      requires from < until
      modifies this
      ensures r == DrawAt(draw, old(pos), from, until) && from <= r < until
      ensures pos == old(pos) + 1
    {
      r := DrawAt(draw, pos, from, until);
      pos := pos + 1;
    }
  }

  /** The ore catalog with its weighted random choice, consumed one call at a time. */
  class OreCatalog {
    const pick: Pick
    var calls: nat

    constructor (pick: Pick)
      ensures this.pick == pick && calls == 0
    {
      this.pick := pick;
      calls := 0;
    }

    method GetRandomVirtualOre(layer: int, dim: int) returns (ore: Option<VirtualOreVein>)
      modifies this
      ensures ore == PickAt(pick, layer, dim, old(calls))
      ensures ore.Some? ==> ore.value.first < ore.value.last
      ensures calls == old(calls) + 1
    {
      ore := PickAt(pick, layer, dim, calls);
      calls := calls + 1;
    }
  }
}
