/**
 * The virtual ore generator: filling a vein with drawn chunk sizes, generating every layer of a
 * region, the per-dimension registry of generated regions keyed on the region hash, the
 * coordinate-only enumeration of a chunk's vein, the chunk lookup and the layer dispatch.
 */
module OreGenerator {
  import opened Coordinates
  import opened Ores
  import opened GeneratorSpec

  /** `ChunkOre.setSize(ore)`: the chunk draws its size in `[first * 1000, last * 1000)`. */
  method SetSize(chunk: ChunkOre, ore: VirtualOreVein, random: Random) returns (r: ChunkOre)
    requires ore.first < ore.last
    modifies random
    ensures r == chunk.(size := DrawAt(random.draw, old(random.pos), SizeFloor(ore), SizeBound(ore)))
    ensures SizeFloor(ore) <= r.size < SizeBound(ore)
    ensures random.pos == old(random.pos) + 1
  {
    var size := random.NextInt(SizeFloor(ore), SizeBound(ore));
    r := chunk.(size := size);
  }

  /**
   * `VeinOre.generate(ore)`: appends the 16 chunks of the vein's 4x4 block, local x outer and
   * local z inner, each with its own size draw; nothing else in the vein changes.
   */
  method GenerateVein(vein: VeinOre, ore: VirtualOreVein, random: Random) returns (r: VeinOre)
    requires ore.first < ore.last
    modifies random
    ensures r == vein.(oreChunks := vein.oreChunks + VeinChunks(vein.xVein, vein.zVein, ore, random.draw, old(random.pos)))
    ensures random.pos == old(random.pos) + 16
  {
    ShiftConstants();
    ghost var pos0 := random.pos;
    ghost var chunks := VeinChunks(vein.xVein, vein.zVein, ore, random.draw, pos0);
    r := vein;
    var x := 0;
    while x < ChunkCountInVein
      invariant 0 <= x <= ChunkCountInVein
      invariant random.pos == pos0 + 4 * x
      invariant r == vein.(oreChunks := vein.oreChunks + chunks[..4 * x])
    {
      var z := 0;
      while z < ChunkCountInVein
        invariant 0 <= z <= ChunkCountInVein
        invariant random.pos == pos0 + 4 * x + z
        invariant r == vein.(oreChunks := vein.oreChunks + chunks[..4 * x + z])
      {
        var chunk := ChunkOre(Shl(vein.xVein, ShiftChunkFromVein) + x, Shl(vein.zVein, ShiftChunkFromVein) + z, 0);
        chunk := SetSize(chunk, ore, random);
        assert (4 * x + z) / 4 == x && (4 * x + z) % 4 == z;
        assert chunk == chunks[4 * x + z];
        assert chunks[..4 * x + z + 1] == chunks[..4 * x + z] + [chunk];
        r := r.(oreChunks := r.oreChunks + [chunk]);
        z := z + 1;
      }
      x := x + 1;
    }
  }

  /** A region of 8x8 veins with its veins per layer. */
  class RegionOre {
    const xRegion: RegionCoord
    const zRegion: RegionCoord
    const dim: Int32
    var veins: map<int, seq<VeinOre>>
    /** Bookkeeping only: the catalog call and the draw position the last generation started from. */
    ghost var genCalls: nat
    ghost var genPos: nat

    constructor (xRegion: RegionCoord, zRegion: RegionCoord, dim: Int32)
      ensures this.xRegion == xRegion && this.zRegion == zRegion && this.dim == dim
      ensures veins == map[]
    {
      this.xRegion := xRegion;
      this.zRegion := zRegion;
      this.dim := dim;
      veins := map[];
    }

    /**
     * `RegionOre.generate()`: for every layer, asks the catalog once per vein slot (x outer, z inner)
     * and collects a generated vein for each slot that got an ore; then sets `veins[layer]`.
     * Keys outside the layers keep their value.
     */
    method Generate(catalog: OreCatalog, random: Random)
      modifies this, catalog, random
      ensures catalog.calls == old(catalog.calls) + SlotsInRegion * LayersVirtualOres
      ensures random.pos == LayerDrawPos(catalog.pick, dim, old(catalog.calls), old(random.pos), LayersVirtualOres)
      ensures forall layer :: 0 <= layer < LayersVirtualOres ==>
                layer in veins &&
                veins[layer] == RegionLayer(xRegion, zRegion, dim, catalog.pick, old(catalog.calls), random.draw, old(random.pos), layer)
      ensures forall k :: k in veins <==> k in old(veins) || 0 <= k < LayersVirtualOres
      ensures forall k :: k in old(veins) && !(0 <= k < LayersVirtualOres) ==> veins[k] == old(veins)[k]
      ensures genCalls == old(catalog.calls) && genPos == old(random.pos)
    {
      ghost var calls0, pos0 := catalog.calls, random.pos;
      var layer := 0;
      while layer < LayersVirtualOres
        invariant 0 <= layer <= LayersVirtualOres
        invariant catalog.calls == calls0 + SlotsInRegion * layer
        invariant random.pos == LayerDrawPos(catalog.pick, dim, calls0, pos0, layer)
        invariant forall l :: 0 <= l < layer ==>
                    l in veins && veins[l] == RegionLayer(xRegion, zRegion, dim, catalog.pick, calls0, random.draw, pos0, l)
        invariant forall k :: k in veins <==> k in old(veins) || 0 <= k < layer
        invariant forall k :: k in old(veins) && !(0 <= k < layer) ==> veins[k] == old(veins)[k]
      {
        ghost var answers := LayerAnswers(catalog.pick, layer, dim, catalog.calls);
        var rawVeins := GenerateLayer(layer, catalog, random);
        assert LayerAnswers(catalog.pick, layer, dim, calls0 + SlotsInRegion * layer) == answers;
        assert rawVeins == RegionLayer(xRegion, zRegion, dim, catalog.pick, calls0, random.draw, pos0, layer);
        ghost var before := veins;
        veins := veins[layer := rawVeins];
        forall l | 0 <= l < layer + 1
          ensures l in veins && veins[l] == RegionLayer(xRegion, zRegion, dim, catalog.pick, calls0, random.draw, pos0, l)
        {
          if l < layer {
            assert veins[l] == before[l];
          }
        }
        layer := layer + 1;
      }
      genCalls, genPos := calls0, pos0;
    }

    /**
     * One layer of `RegionOre.generate()`: one catalog call per vein slot, x outer and z inner,
     * and for each slot that got an ore the vein of that slot, generated from the next 16 draws.
     */
    method GenerateLayer(layer: nat, catalog: OreCatalog, random: Random) returns (rawVeins: seq<VeinOre>)
      modifies catalog, random
      ensures rawVeins == LayerVeins(xRegion, zRegion, LayerAnswers(catalog.pick, layer, dim, old(catalog.calls)),
                                     random.draw, old(random.pos), 0)
      ensures catalog.calls == old(catalog.calls) + SlotsInRegion
      ensures random.pos == old(random.pos) + 16 * SomeCount(LayerAnswers(catalog.pick, layer, dim, old(catalog.calls)), 0)
    {
      ghost var calls0 := catalog.calls;
      ghost var answers := LayerAnswers(catalog.pick, layer, dim, calls0);
      ghost var layerPos := random.pos;
      rawVeins := [];
      var xx := 0;
      while xx < VeinCountInRegion
        modifies catalog, random
        invariant 0 <= xx <= VeinCountInRegion
        invariant catalog.calls == calls0 + 8 * xx
        invariant random.pos == layerPos + 16 * CountBefore(answers, 8 * xx)
        invariant rawVeins == LayerVeinsBefore(xRegion, zRegion, answers, random.draw, layerPos, 8 * xx)
      {
        rawVeins := GenerateRow(layer, xx, calls0, layerPos, rawVeins, catalog, random);
        xx := xx + 1;
      }
      LayerVeinsSplit(xRegion, zRegion, answers, random.draw, layerPos, SlotsInRegion);
    }

    /**
     * The inner (z) slot loop of one layer of `RegionOre.generate()` for row xx of the region's
     * veins: it continues the layer's collected veins `rawVeins0` through the row's eight slots.
     */
    method GenerateRow(layer: nat, xx: int, ghost calls0: nat, ghost layerPos: nat, rawVeins0: seq<VeinOre>,
                       catalog: OreCatalog, random: Random) returns (rawVeins: seq<VeinOre>)
      requires 0 <= xx < VeinCountInRegion
      requires catalog.calls == calls0 + 8 * xx
      requires random.pos == layerPos + 16 * CountBefore(LayerAnswers(catalog.pick, layer, dim, calls0), 8 * xx)
      requires rawVeins0 == LayerVeinsBefore(xRegion, zRegion, LayerAnswers(catalog.pick, layer, dim, calls0), random.draw, layerPos, 8 * xx)
      modifies catalog, random
      ensures catalog.calls == calls0 + 8 * (xx + 1)
      ensures random.pos == layerPos + 16 * CountBefore(LayerAnswers(catalog.pick, layer, dim, calls0), 8 * (xx + 1))
      ensures rawVeins == LayerVeinsBefore(xRegion, zRegion, LayerAnswers(catalog.pick, layer, dim, calls0), random.draw, layerPos, 8 * (xx + 1))
    {
      ghost var answers := LayerAnswers(catalog.pick, layer, dim, calls0);
      rawVeins := rawVeins0;
      var zz := 0;
      while zz < VeinCountInRegion
        modifies catalog, random
        invariant 0 <= zz <= VeinCountInRegion
        invariant catalog.calls == calls0 + (8 * xx + zz)
        invariant random.pos == layerPos + 16 * CountBefore(answers, 8 * xx + zz)
        invariant rawVeins == LayerVeinsBefore(xRegion, zRegion, answers, random.draw, layerPos, 8 * xx + zz)
      {
        ghost var n := catalog.calls;
        ghost var s := n - calls0;
        assert s == 8 * xx + zz;
        LayerAnswersAtCall(catalog.pick, layer, dim, calls0, n);
        var vein := GenerateSlot(layer, xx, zz, catalog, random);
        LayerVeinsBeforeNext(xRegion, zRegion, answers, random.draw, layerPos, s);
        if vein.Some? {
          rawVeins := rawVeins + [vein.value];
        }
        assert rawVeins == LayerVeinsBefore(xRegion, zRegion, answers, random.draw, layerPos, s + 1);
        assert random.pos == layerPos + 16 * CountBefore(answers, s + 1);
        zz := zz + 1;
        assert 8 * xx + zz == s + 1;
      }
    }

    /**
     * The body of the slot loops of `RegionOre.generate()` for vein (xx, zz) of the region: one
     * catalog call and, if it hands out an ore, a new vein at the slot with that ore's id,
     * generated from the next 16 draws.
     */
    method GenerateSlot(layer: nat, xx: int, zz: int, catalog: OreCatalog, random: Random) returns (vein: Option<VeinOre>)
      requires 0 <= xx < VeinCountInRegion && 0 <= zz < VeinCountInRegion
      modifies catalog, random
      ensures catalog.calls == old(catalog.calls) + 1
      ensures vein.Some? == PickAt(catalog.pick, layer, dim, old(catalog.calls)).Some?
      ensures random.pos == old(random.pos) + (if vein.Some? then 16 else 0)
      ensures vein.Some? ==>
        var ore := PickAt(catalog.pick, layer, dim, old(catalog.calls)).value;
        vein.value == SlotVein(xRegion, zRegion, 8 * xx + zz, ore, random.draw, old(random.pos))
    {
      ShlValues(xRegion);
      ShlValues(zRegion);
      SlotOfLoop(xRegion, zRegion, xx, zz);
      ghost var posBefore := random.pos;
      var ore := catalog.GetRandomVirtualOre(layer, dim);
      if ore.Some? {
        var v := VeinOre(Shl(xRegion, ShiftVeinFromRegion) + xx, Shl(zRegion, ShiftVeinFromRegion) + zz, ore.value.id, []);
        v := GenerateVein(v, ore.value, random);
        assert [] + VeinChunks(v.xVein, v.zVein, ore.value, random.draw, posBefore)
                 == VeinChunks(v.xVein, v.zVein, ore.value, random.draw, posBefore);
        vein := Some(v);
      } else {
        vein := None;
      }
    }

    /**
     * `RegionOre.getVeinChunks(chunkX, chunkZ)`: enumerates the region's veins (x outer, z inner)
     * and each vein's chunks without generating anything, and stops right after the chunk itself.
     * The matched vein is kept only as its chunk coordinates (its id is the placeholder -1).
     */
    method GetVeinChunks(chunkX: Int32, chunkZ: Int32) returns (list: seq<(int, int)>)
      ensures ChunkInRegion(xRegion, zRegion, chunkX, chunkZ) ==> list == VeinChunksUpTo(chunkX, chunkZ)
      ensures !ChunkInRegion(xRegion, zRegion, chunkX, chunkZ) ==> list == []
    {
      ShiftConstants();
      ChunkInRegionByVein(xRegion, chunkX);
      ChunkInRegionByVein(zRegion, chunkZ);
      var inRegion := ChunkInRegion(xRegion, zRegion, chunkX, chunkZ);
      list := [];
      var vein: Option<seq<(int, int)>> := None;
      var xxx := 0;
      label loop: while xxx < VeinCountInRegion
        invariant 0 <= xxx <= VeinCountInRegion && vein.None?
        invariant inRegion ==> 8 * xRegion + xxx <= VeinOf(chunkX)
      {
        var zzz := 0;
        while zzz < VeinCountInRegion
          invariant 0 <= zzz <= VeinCountInRegion && vein.None?
          invariant inRegion ==> 8 * xRegion + xxx < VeinOf(chunkX) ||
                                 (8 * xRegion + xxx == VeinOf(chunkX) && 8 * zRegion + zzz <= VeinOf(chunkZ))
        {
          var xVein: VeinCoord := Shl(xRegion, ShiftVeinFromRegion) + xxx;
          var zVein: VeinCoord := Shl(zRegion, ShiftVeinFromRegion) + zzz;
          ghost var coords := VeinChunkCoords(xVein, zVein);
          var oreChunks: seq<(int, int)> := [];
          var xx := 0;
          while xx < ChunkCountInVein
            invariant 0 <= xx <= ChunkCountInVein && vein.None?
            invariant oreChunks == coords[..4 * xx]
            invariant (chunkX, chunkZ) !in oreChunks
          {
            var zz := 0;
            while zz < ChunkCountInVein
              invariant 0 <= zz <= ChunkCountInVein && vein.None?
              invariant oreChunks == coords[..4 * xx + zz]
              invariant (chunkX, chunkZ) !in oreChunks
            {
              var x: Int32 := Shl(xVein, ShiftChunkFromVein) + xx;
              var z: Int32 := Shl(zVein, ShiftChunkFromVein) + zz;
              assert (4 * xx + zz) / 4 == xx && (4 * xx + zz) % 4 == zz;
              assert coords[4 * xx + zz] == (x, z);
              assert coords[..4 * xx + zz + 1] == coords[..4 * xx + zz] + [(x, z)];
              oreChunks := oreChunks + [(x, z)];
              if x == chunkX && z == chunkZ {
                ChunkOfBlock(xVein, zVein, 4 * xx + zz, chunkX, chunkZ);
                VeinChunksUpToSpec(chunkX, chunkZ);
                assert oreChunks == VeinChunksUpTo(chunkX, chunkZ);
                vein := Some(oreChunks);
                break loop;
              }
              zz := zz + 1;
            }
            xx := xx + 1;
          }
          assert oreChunks == coords;
          assert !(inRegion && xVein == VeinOf(chunkX) && zVein == VeinOf(chunkZ)) by {
            ChunkInOwnVein(chunkX, chunkZ);
          }
          zzz := zzz + 1;
        }
        xxx := xxx + 1;
      }
      if vein.Some? {
        list := list + vein.value;
      }
    }

    /**
     * `RegionOre.getVeinChunks` as its name and its use evidently intend: the same enumeration,
     * but the search stops only once the matching vein's 16 chunks are all listed, so the result
     * is the whole vein that holds the chunk.
     */
    method GetVeinChunksWhole(chunkX: Int32, chunkZ: Int32) returns (list: seq<(int, int)>)
      ensures ChunkInRegion(xRegion, zRegion, chunkX, chunkZ) ==> list == VeinChunkCoords(VeinOf(chunkX), VeinOf(chunkZ))
      ensures !ChunkInRegion(xRegion, zRegion, chunkX, chunkZ) ==> list == []
    {
      ShiftConstants();
      ChunkInRegionByVein(xRegion, chunkX);
      ChunkInRegionByVein(zRegion, chunkZ);
      var inRegion := ChunkInRegion(xRegion, zRegion, chunkX, chunkZ);
      list := [];
      var vein: Option<seq<(int, int)>> := None;
      var xxx := 0;
      label loop: while xxx < VeinCountInRegion
        invariant 0 <= xxx <= VeinCountInRegion && vein.None?
        invariant inRegion ==> 8 * xRegion + xxx <= VeinOf(chunkX)
      {
        var zzz := 0;
        while zzz < VeinCountInRegion
          invariant 0 <= zzz <= VeinCountInRegion && vein.None?
          invariant inRegion ==> 8 * xRegion + xxx < VeinOf(chunkX) ||
                                 (8 * xRegion + xxx == VeinOf(chunkX) && 8 * zRegion + zzz <= VeinOf(chunkZ))
        {
          var xVein: VeinCoord := Shl(xRegion, ShiftVeinFromRegion) + xxx;
          var zVein: VeinCoord := Shl(zRegion, ShiftVeinFromRegion) + zzz;
          ghost var coords := VeinChunkCoords(xVein, zVein);
          var oreChunks: seq<(int, int)> := [];
          var found := false;
          var xx := 0;
          while xx < ChunkCountInVein
            invariant 0 <= xx <= ChunkCountInVein
            invariant oreChunks == coords[..4 * xx]
            invariant found <==> (chunkX, chunkZ) in oreChunks
          {
            var zz := 0;
            while zz < ChunkCountInVein
              invariant 0 <= zz <= ChunkCountInVein
              invariant oreChunks == coords[..4 * xx + zz]
              invariant found <==> (chunkX, chunkZ) in oreChunks
            {
              var x: Int32 := Shl(xVein, ShiftChunkFromVein) + xx;
              var z: Int32 := Shl(zVein, ShiftChunkFromVein) + zz;
              assert (4 * xx + zz) / 4 == xx && (4 * xx + zz) % 4 == zz;
              assert coords[4 * xx + zz] == (x, z);
              assert coords[..4 * xx + zz + 1] == coords[..4 * xx + zz] + [(x, z)];
              oreChunks := oreChunks + [(x, z)];
              if x == chunkX && z == chunkZ {
                found := true;
              }
              zz := zz + 1;
            }
            xx := xx + 1;
          }
          assert oreChunks == coords;
          if found {
            ghost var j :| 0 <= j < 16 && coords[j] == (chunkX, chunkZ);
            ChunkOfBlock(xVein, zVein, j, chunkX, chunkZ);
            vein := Some(oreChunks);
            break loop;
          }
          assert !(inRegion && xVein == VeinOf(chunkX) && zVein == VeinOf(chunkZ)) by {
            ChunkInOwnVein(chunkX, chunkZ);
          }
          zzz := zzz + 1;
        }
        xxx := xxx + 1;
      }
      if vein.Some? {
        list := list + vein.value;
      }
    }

    /**
     * `RegionOre.getVeinAndChunk(chunk, layer)`: the first vein of `veins[layer]`, in list order,
     * with a chunk at the given chunk coordinates, and that chunk; none if the layer is absent.
     */
    method GetVeinAndChunk(chunkX: Int32, chunkZ: Int32, layer: int) returns (r: Option<(VeinOre, ChunkOre)>)
      ensures r == if layer in veins then FindVeinAndChunk(veins[layer], chunkX, chunkZ) else None
    {
      if layer !in veins {
        return None;
      }
      var vs := veins[layer];
      var i := 0;
      while i < |vs|
        invariant 0 <= i <= |vs|
        invariant FindVeinAndChunk(vs[i..], chunkX, chunkZ) == FindVeinAndChunk(vs, chunkX, chunkZ)
      {
        var cs := vs[i].oreChunks;
        var j := 0;
        while j < |cs|
          invariant 0 <= j <= |cs|
          invariant FindChunk(cs[j..], chunkX, chunkZ) == FindChunk(cs, chunkX, chunkZ)
        {
          assert cs[j..][1..] == cs[j + 1..];
          if cs[j].x == chunkX && cs[j].z == chunkZ {
            return Some((vs[i], cs[j]));
          }
          j := j + 1;
        }
        assert vs[i..][1..] == vs[i + 1..];
        i := i + 1;
      }
      return None;
    }
  }

  /** A region has been generated from the catalog at call `calls` and the draws at `pos`. */
  ghost predicate GeneratedFrom(reg: RegionOre, pick: Pick, calls: nat, draw: Draw, pos: nat)
    reads reg
  {
    (forall k :: k in reg.veins <==> 0 <= k < LayersVirtualOres) &&
    forall layer :: 0 <= layer < LayersVirtualOres ==>
      reg.veins[layer] == RegionLayer(reg.xRegion, reg.zRegion, reg.dim, pick, calls, draw, pos, layer)
  }

  /** `Objects.hash(xRegion, zRegion, dim)`, the key of a region in its dimension's map. */
  function RegionHash(xRegion: RegionCoord, zRegion: RegionCoord, dim: Int32): (h: Int32)
    ensures h == Wrap32(29791 + 961 * xRegion + 31 * zRegion + dim)
  {
    ObjectsHash(xRegion, zRegion, dim)
  }

  /** `GENERATED_REGIONS_VIRTUAL_ORES`: per dimension, the generated regions by region hash. */
  class GeneratedRegions {
    var regions: map<Int32, map<Int32, RegionOre>>

    /** The regions filed in the registry. */
    ghost function Filed(): set<RegionOre>
      reads this
    {
      set dim, hash | dim in regions && hash in regions[dim] :: regions[dim][hash]
    }

    /**
     * Every stored region belongs to its dimension, is filed under its own hash, and holds exactly
     * the layers that generating it with the catalog `pick` and the draws `draw` produced.
     */
    ghost predicate Valid(pick: Pick, draw: Draw)
      reads this, Filed()
    {
      forall dim, hash :: dim in regions && hash in regions[dim] ==>
        regions[dim][hash].dim == dim &&
        RegionHash(regions[dim][hash].xRegion, regions[dim][hash].zRegion, dim) == hash &&
        GeneratedFrom(regions[dim][hash], pick, regions[dim][hash].genCalls, draw, regions[dim][hash].genPos)
    }

    constructor ()
      ensures regions == map[]
      ensures forall pick, draw :: Valid(pick, draw)
    {
      regions := map[];
    }
  }

  ghost predicate Stored(regions: map<Int32, map<Int32, RegionOre>>, dim: Int32, hash: Int32)
  {
    dim in regions && hash in regions[dim]
  }

  /** The dimension's map with `reg` filed under `hash`, the map created if it was absent. */
  ghost function FiledUnder(regions: map<Int32, map<Int32, RegionOre>>, dim: Int32, hash: Int32, reg: RegionOre)
    : map<Int32, map<Int32, RegionOre>>
  {
    var perDim: map<Int32, RegionOre> := if dim in regions then regions[dim] else map[];
    regions[dim := perDim[hash := reg]]
  }

  /**
   * `Chunk.createOreRegion()`: the region of the chunk's region coordinates in dimension `dim`.
   * If a region is already filed under the hash it is returned as it is, with nothing generated
   * and nothing changed. Otherwise a new region is generated and filed under the hash, the
   * dimension's map being created if it was absent.
   */
  method CreateOreRegion(generated: GeneratedRegions, chunkX: Int32, chunkZ: Int32, dim: Int32,
                         catalog: OreCatalog, random: Random) returns (reg: RegionOre)
    requires generated.Valid(catalog.pick, random.draw)
    modifies generated, catalog, random
    ensures generated.Valid(catalog.pick, random.draw)
    ensures reg.dim == dim
    ensures RegionHash(reg.xRegion, reg.zRegion, dim) == RegionHash(RegionOf(chunkX), RegionOf(chunkZ), dim)
    ensures GeneratedFrom(reg, catalog.pick, reg.genCalls, random.draw, reg.genPos)
    ensures var hash := RegionHash(RegionOf(chunkX), RegionOf(chunkZ), dim);
      Stored(generated.regions, dim, hash) && generated.regions[dim][hash] == reg
    ensures var hash := RegionHash(RegionOf(chunkX), RegionOf(chunkZ), dim);
      if Stored(old(generated.regions), dim, hash) then
        reg == old(generated.regions)[dim][hash] && unchanged(reg) &&
        generated.regions == old(generated.regions) &&
        catalog.calls == old(catalog.calls) && random.pos == old(random.pos)
      else
        fresh(reg) && reg.xRegion == RegionOf(chunkX) && reg.zRegion == RegionOf(chunkZ) &&
        reg.genCalls == old(catalog.calls) && reg.genPos == old(random.pos) &&
        GeneratedFrom(reg, catalog.pick, old(catalog.calls), random.draw, old(random.pos)) &&
        catalog.calls == old(catalog.calls) + SlotsInRegion * LayersVirtualOres &&
        random.pos == LayerDrawPos(catalog.pick, dim, old(catalog.calls), old(random.pos), LayersVirtualOres) &&
        generated.regions == FiledUnder(old(generated.regions), dim, hash, reg)
  {
    reg := new RegionOre(RegionOf(chunkX), RegionOf(chunkZ), dim);
    var hash := RegionHash(reg.xRegion, reg.zRegion, dim);
    ghost var before := generated.regions;
    if dim in generated.regions {
      var perDim := generated.regions[dim];
      if hash !in perDim {
        reg.Generate(catalog, random);
        assert generated.Valid(catalog.pick, random.draw);
        generated.regions := generated.regions[dim := perDim[hash := reg]];
      } else {
        return perDim[hash];
      }
    } else {
      reg.Generate(catalog, random);
      assert generated.Valid(catalog.pick, random.draw);
      generated.regions := generated.regions[dim := map[hash := reg]];
    }
    // The regions filed before are untouched: only the new one was generated.
    forall d, h | d in generated.regions && h in generated.regions[d]
      ensures generated.regions[d][h].dim == d
      ensures RegionHash(generated.regions[d][h].xRegion, generated.regions[d][h].zRegion, d) == h
      ensures GeneratedFrom(generated.regions[d][h], catalog.pick, generated.regions[d][h].genCalls, random.draw,
                            generated.regions[d][h].genPos)
    {
      if d != dim || h != hash {
        assert d in before && h in before[d] && generated.regions[d][h] == before[d][h];
      }
    }
  }

  /** Asking twice for a chunk's region yields the same region, generated once. */
  method CreateOreRegionTwice(generated: GeneratedRegions, chunkX: Int32, chunkZ: Int32, dim: Int32,
                              catalog: OreCatalog, random: Random) returns (first: RegionOre, second: RegionOre)
    requires generated.Valid(catalog.pick, random.draw)
    modifies generated, catalog, random
    ensures generated.Valid(catalog.pick, random.draw)
    ensures first == second
    ensures catalog.calls == old(catalog.calls) + (if fresh(first) then SlotsInRegion * LayersVirtualOres else 0)
  {
    first := CreateOreRegion(generated, chunkX, chunkZ, dim, catalog, random);
    second := CreateOreRegion(generated, chunkX, chunkZ, dim, catalog, random);
  }

  /**
   * `Chunk.getVeinAndChunk(layer)`: the chunk's region from the registry (generated and filed if
   * needed, exactly as `CreateOreRegion` does), then the first vein of that layer holding the
   * chunk, and its chunk entry. Whether the region was filed before or not, the answer is the
   * lookup in the layer its generation produced: nothing for a layer outside 0..1, and otherwise
   * a match exactly when the chunk lies in the filed region and its vein's slot got an ore. The
   * match is then the chunk's own vein and entry, with the ore's id and a size in its range.
   */
  method VeinAndChunkOf(generated: GeneratedRegions, chunkX: Int32, chunkZ: Int32, dim: Int32, layer: int,
                        catalog: OreCatalog, random: Random) returns (r: Option<(VeinOre, ChunkOre)>)
    requires generated.Valid(catalog.pick, random.draw)
    modifies generated, catalog, random
    ensures generated.Valid(catalog.pick, random.draw)
    ensures var hash := RegionHash(RegionOf(chunkX), RegionOf(chunkZ), dim);
      Stored(generated.regions, dim, hash) &&
      if Stored(old(generated.regions), dim, hash) then
        generated.regions == old(generated.regions) &&
        catalog.calls == old(catalog.calls) && random.pos == old(random.pos)
      else
        var reg := generated.regions[dim][hash];
        fresh(reg) && reg.xRegion == RegionOf(chunkX) && reg.zRegion == RegionOf(chunkZ) &&
        reg.genCalls == old(catalog.calls) && reg.genPos == old(random.pos) &&
        catalog.calls == old(catalog.calls) + SlotsInRegion * LayersVirtualOres &&
        random.pos == LayerDrawPos(catalog.pick, dim, old(catalog.calls), old(random.pos), LayersVirtualOres) &&
        generated.regions == FiledUnder(old(generated.regions), dim, hash, reg)
    ensures var reg := generated.regions[dim][RegionHash(RegionOf(chunkX), RegionOf(chunkZ), dim)];
      r == if 0 <= layer < LayersVirtualOres
           then FindVeinAndChunk(RegionLayer(reg.xRegion, reg.zRegion, dim, catalog.pick, reg.genCalls, random.draw, reg.genPos, layer),
                                 chunkX, chunkZ)
           else None
    ensures 0 <= layer < LayersVirtualOres ==>
      var reg := generated.regions[dim][RegionHash(RegionOf(chunkX), RegionOf(chunkZ), dim)];
      var answers := LayerAnswers(catalog.pick, layer, dim, reg.genCalls + SlotsInRegion * layer);
      (r.Some? <==> ChunkInRegion(reg.xRegion, reg.zRegion, chunkX, chunkZ) &&
                    0 <= ChunkSlot(reg.xRegion, reg.zRegion, chunkX, chunkZ) < SlotsInRegion &&
                    answers[ChunkSlot(reg.xRegion, reg.zRegion, chunkX, chunkZ)].Some?) &&
      (r.Some? ==> LookupHit(reg.xRegion, reg.zRegion, answers, chunkX, chunkZ, r.value.0, r.value.1))
  {
    var reg := CreateOreRegion(generated, chunkX, chunkZ, dim, catalog, random);
    r := reg.GetVeinAndChunk(chunkX, chunkZ, layer);
    if 0 <= layer < LayersVirtualOres {
      RegionLayerLookup(reg.xRegion, reg.zRegion, dim, catalog.pick, reg.genCalls, random.draw, reg.genPos, layer, chunkX, chunkZ);
    }
  }

  /** The two per-chunk ore layers the world stores: `saveOreLayer0` and `saveOreLayer1`. */
  datatype LayerWrite = SaveOreLayer0(veinId: int, size: int) | SaveOreLayer1(veinId: int, size: int)

  /** `Chunk.saveOreLayer(layer, veinId, size)`: only layers 0 and 1 are written; any other is a no-op. */
  function SaveOreLayer(layer: int, veinId: int, size: int): (w: Option<LayerWrite>)
    ensures w.Some? <==> layer == 0 || layer == 1
    ensures w.Some? ==> w.value.veinId == veinId && w.value.size == size
    ensures w.Some? ==> (w.value.SaveOreLayer0? <==> layer == 0)
  {
    match layer
    case 0 => Some(SaveOreLayer0(veinId, size))
    case 1 => Some(SaveOreLayer1(veinId, size))
    case _ => None
  }
}
