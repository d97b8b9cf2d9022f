# Virtual ores: region generator and region-hash record

A model of the virtual-ore core of the VirtualWorldResources mod. It proves properties of the model.

The world is cut into a hierarchy of blocks:
- a **region** is an 8 x 8 block of **veins**;
- a vein is a 4 x 4 block of **chunks**;
- coordinates move between the levels by arithmetic shifts of Kotlin `Int` values.

For every ore layer, region generation works slot by slot:
- it asks the ore catalog once per vein slot, x outer and z inner;
- each slot that gets an ore becomes a vein of 16 chunk entries;
- each entry draws its own size in `[first * 1000, last * 1000)`.

Generated regions are kept per dimension in a map keyed on `Objects.hash(xRegion, zRegion, dim)`.

A chunk is looked up in a layer by scanning that layer's veins in list order. A second enumeration, `getVeinChunks`, rebuilds a chunk's vein from coordinates alone, without generating anything.

The world's saved data keeps a set of region hashes:
- `saveHashRegion` adds a hash;
- `hasSave` tests that a hash is absent;
- `readFromNBT` replaces the set with the hashes of an int array;
- `writeToNBT` serialises the set back into an int array.

Files:
- `coordinates.dfy` (module `Coordinates`):
  - the shift constants, and `shr` as floor division;
  - the chunk, vein and region maps between the levels;
  - `Objects.hash` as a 32-bit wrapped polynomial.
- `ores.dfy` (module `Ores`):
  - the value types `ChunkOre`, `VeinOre` and `VirtualOreVein`;
  - the two random sources as oracle classes: `Random`, whose n-th `nextInt` draw is a function of n, and `OreCatalog`, whose n-th answer is a function of the layer, the dimension and n;
  - the range contract of each oracle, carried by its type.
- `generator_spec.dfy` (module `GeneratorSpec`): as functions of the catalog's answers and the draws, what generation produces (`VeinChunks`, `LayerVeins`, `RegionLayer`), what a lookup returns (`FindVeinAndChunk`) and what the coordinate-only enumeration lists (`VeinChunksUpTo`). It also holds the lemmas about them.
- `ore_generator.dfy` (module `OreGenerator`): the imperative operations.
  - `SetSize` and `GenerateVein`.
  - The class `RegionOre`, with its `veins` map and the methods `Generate`, `GetVeinChunks` and `GetVeinAndChunk`.
  - The registry class `GeneratedRegions`, with `CreateOreRegion` and `VeinAndChunkOf`. Its invariant `Valid` says that every filed region holds exactly the layers its one generation produced. To state this, each region keeps two ghost fields, `genCalls` and `genPos`: the catalog call and the draw position its generation started from. They are bookkeeping only, with no counterpart in the code.
  - The layer dispatch `SaveOreLayer`.
  - Each method is proved against the functions of `GeneratorSpec`.
- `save_data.dfy` (module `SaveData`): the class `VirtualWorldSaveData` over a `set<Int32>`.

Points where the model follows the code rather than a looser reading of it:
- `getVeinChunks` stops right after the target chunk is appended: its labelled break is inside the innermost loop. So for a chunk inside the region the result is the prefix of its vein's 16-chunk enumeration that ends at the chunk, not the whole vein.
  - The result does not depend on which slots got an ore. It is empty only for a chunk outside the region.
- `getVeinAndChunk` scans only the layer it is given, not every layer. It returns nothing for a layer that is absent from `veins`.
- `createOreRegion` does not detect hash collisions. A region filed under the same hash is returned even when its coordinates differ. `RegionHashCollision` exhibits two regions of one dimension with equal hashes.
- `LAYERS_VIRTUAL_ORES` is defined outside the modelled files. The model fixes it at 2, the two layers that `saveOreLayer` writes. No proof depends on the value.

## Model

| member | source | states |
|---|---|---|
| Coordinates.ShiftConstants | src/main/java/space/gtimpact/virtual_world/api/OreGenerator.kt:19-23 | the counts 4 and 8 are two to the chunk and vein shifts, and the region shift 5 is their sum |
| Coordinates.RegionOf | src/main/java/space/gtimpact/virtual_world/api/OreGenerator.kt:28-29 | `x shr 5` is the region r with 32 r <= x < 32 r + 32, i.e. floor division by 32 |
| Coordinates.NegativeChunk | src/main/java/space/gtimpact/virtual_world/api/OreGenerator.kt:28-29 | the shift rounds towards minus infinity: chunk -1 lies in vein -1 and region -1, chunk -33 in region -2 |
| Coordinates.RegionOfBlock | src/main/java/space/gtimpact/virtual_world/api/OreGenerator.kt:28-29 | every chunk of a region's 32 x 32 block maps back to that region |
| Coordinates.RegionOfVeinOfChunk | src/main/java/space/gtimpact/virtual_world/api/OreGenerator.kt:19-21 | `shr 2` then `shr 3` equals `shr 5`: the region of a chunk's vein is the chunk's region |
| Coordinates.VeinOfBlock | src/main/java/space/gtimpact/virtual_world/api/OreGenerator.kt:101-102 | each chunk `(vein shl 2) + offset`, offset 0..3, maps back to its vein |
| Coordinates.ObjectsHash | src/main/java/space/gtimpact/virtual_world/api/OreGenerator.kt:67 | the stepwise 32-bit `Objects.hash(a, b, c)` equals the wrapped polynomial 31^3 + 31^2 a + 31 b + c |
| Coordinates.RegionHashCollision | src/main/java/space/gtimpact/virtual_world/api/OreGenerator.kt:67 | in every dimension, the two different regions (0, 31) and (1, 0) share a hash |
| Ores.Random.NextInt | src/main/java/space/gtimpact/virtual_world/api/OreGenerator.kt:89 | a draw is the oracle's value at the current position, lies in [from, until), and consumes one position |
| Ores.OreCatalog.GetRandomVirtualOre | src/main/java/space/gtimpact/virtual_world/api/OreGenerator.kt:159 | the answer is the oracle's value for (layer, dim, call number), an ore has first < last, and one call is consumed |
| OreGenerator.SetSize | src/main/java/space/gtimpact/virtual_world/api/OreGenerator.kt:88-90 | only the size changes; it is the next draw, lies in [first * 1000, last * 1000) and consumes one draw |
| OreGenerator.GenerateVein | src/main/java/space/gtimpact/virtual_world/api/OreGenerator.kt:97-109 | the vein's chunk list grows by exactly `VeinChunks` of the vein and the next 16 draws; its coordinates and id do not change |
| GeneratorSpec.VeinChunksSpec | src/main/java/space/gtimpact/virtual_world/api/OreGenerator.kt:98-108 | the 16 appended chunks are the vein's block (4 xVein + x, 4 zVein + z), x outer and z inner, each with a size in the ore's range |
| GeneratorSpec.VeinChunkCoordsDistinct | src/main/java/space/gtimpact/virtual_world/api/OreGenerator.kt:98-102 | the 16 chunk positions of a vein are pairwise distinct |
| OreGenerator.RegionOre.Generate | src/main/java/space/gtimpact/virtual_world/api/OreGenerator.kt:154-173 | sets `veins[layer]` to `RegionLayer` for every layer and no other key; other keys keep their values; it makes 64 catalog calls per layer and consumes 16 draws per vein |
| OreGenerator.RegionOre.GenerateLayer | src/main/java/space/gtimpact/virtual_world/api/OreGenerator.kt:156-171 | the list collected for a layer is `LayerVeins` of that layer's 64 catalog answers; 64 calls, 16 draws per ore |
| OreGenerator.RegionOre.GenerateRow | src/main/java/space/gtimpact/virtual_world/api/OreGenerator.kt:158-169 | the inner z loop extends the collected veins from slot 8 xx to slot 8 xx + 8, as `LayerVeinsBefore` says |
| OreGenerator.RegionOre.GenerateSlot | src/main/java/space/gtimpact/virtual_world/api/OreGenerator.kt:159-168 | one catalog call; a vein exactly when the answer is an ore, at slot (xx, zz), with that ore's id and 16 drawn chunks |
| GeneratorSpec.LayerVeinsSplit | src/main/java/space/gtimpact/virtual_world/api/OreGenerator.kt:156-170 | the veins collected before slot s followed by those from s on form the whole layer, and the ore counts add up likewise |
| GeneratorSpec.LayerVeinsSound | src/main/java/space/gtimpact/virtual_world/api/OreGenerator.kt:157-170 | a layer has one vein per slot with an ore (so at most 64); each vein lies in the region, sits in a slot with an ore, carries that ore's id and covers its block with sizes in range |
| GeneratorSpec.LayerVeinsOrdered | src/main/java/space/gtimpact/virtual_world/api/OreGenerator.kt:157-158 | the veins of a layer come in strictly increasing slot order, none before the slot the enumeration starts from |
| GeneratorSpec.LayerVeinsLex | src/main/java/space/gtimpact/virtual_world/api/OreGenerator.kt:157-158 | the veins of a layer come in strictly increasing lexicographic (xVein, zVein) order |
| GeneratorSpec.SlotOrderIsLex | src/main/java/space/gtimpact/virtual_world/api/OreGenerator.kt:157-162 | within a region, slot order 8 xx + zz is the lexicographic order of vein coordinates |
| GeneratorSpec.LayerVeinsHas | src/main/java/space/gtimpact/virtual_world/api/OreGenerator.kt:159-167 | every slot whose catalog answer is an ore has a vein at that slot's coordinates |
| GeneratorSpec.LayerVeinsComplete | src/main/java/space/gtimpact/virtual_world/api/OreGenerator.kt:159-168 | a slot has a vein if and only if its catalog answer is an ore; a slot without one contributes nothing |
| GeneratorSpec.RegionLayerSpec | src/main/java/space/gtimpact/virtual_world/api/OreGenerator.kt:154-173 | a generated layer has at most 64 veins in lexicographic order, each inside the region, with 16 chunks covering its block, sizes in range and the id of the ore the catalog returned for its slot |
| GeneratorSpec.RegionLayerSlots | src/main/java/space/gtimpact/virtual_world/api/OreGenerator.kt:159-168 | slot t of a generated layer has a vein if and only if the catalog's answer to that layer's t-th call is an ore |
| OreGenerator.RegionOre.GetVeinAndChunk | src/main/java/space/gtimpact/virtual_world/api/OreGenerator.kt:192-201 | the result is the first (vein, chunk) match of `veins[layer]` in list order, or none when the layer is absent |
| GeneratorSpec.FindChunkSpec | src/main/java/space/gtimpact/virtual_world/api/OreGenerator.kt:194-198 | no match if and only if no chunk has the coordinates; otherwise the first chunk that has them |
| GeneratorSpec.FindVeinAndChunkSpec | src/main/java/space/gtimpact/virtual_world/api/OreGenerator.kt:193-200 | no match if and only if no chunk of any vein matches; otherwise the first vein with a match and that vein's first matching chunk |
| GeneratorSpec.LayerLookup | src/main/java/space/gtimpact/virtual_world/api/OreGenerator.kt:192-201 | in a generated layer a chunk is found if and only if it lies in the region and its vein's slot got an ore; the match is that vein, with the ore's id, and the chunk's own entry with its size in range |
| GeneratorSpec.LayerLookupFound | src/main/java/space/gtimpact/virtual_world/api/OreGenerator.kt:192-201 | a match in a generated layer is the chunk's own vein and entry, in the region, in a slot with an ore |
| GeneratorSpec.LayerLookupMisses | src/main/java/space/gtimpact/virtual_world/api/OreGenerator.kt:192-201 | a chunk of the region whose vein's slot got an ore is always found |
| GeneratorSpec.RegionLayerLookup | src/main/java/space/gtimpact/virtual_world/api/OreGenerator.kt:192-201 | the same two directions for a layer of a generated region, in terms of that layer's catalog answers |
| OreGenerator.RegionOre.constructor | src/main/java/space/gtimpact/virtual_world/api/OreGenerator.kt:62-66 | a new region has the chunk's region coordinates (`shr 5`) and the dimension, and no layer yet |
| OreGenerator.RegionHash | src/main/java/space/gtimpact/virtual_world/api/OreGenerator.kt:67 | a region's key is `Objects.hash(xRegion, zRegion, dim)`, the wrapped polynomial 31^3 + 31^2 xRegion + 31 zRegion + dim |
| OreGenerator.GeneratedRegions.Valid | src/main/java/space/gtimpact/virtual_world/api/OreGenerator.kt:68-77 | the registry's invariant: each filed region belongs to the dimension whose map holds it, is filed under its own hash, and holds exactly layers 0..1, each the layer its one generation produced |
| OreGenerator.GeneratedRegions.constructor | src/main/java/space/gtimpact/virtual_world/api/OreGenerator.kt:68 | the registry starts with no dimension, and the empty registry satisfies `Valid` for every catalog and draw source |
| OreGenerator.CreateOreRegion | src/main/java/space/gtimpact/virtual_world/api/OreGenerator.kt:60-81 | keeps `Valid`; a region already filed under the hash is returned unchanged, with no generation and no registry change; otherwise a new region is generated and filed under `Objects.hash(xRegion, zRegion, dim)`, the dimension's map is created if absent, and nothing else filed changes; either way the returned region holds exactly the layers its one generation produced |
| OreGenerator.CreateOreRegionTwice | src/main/java/space/gtimpact/virtual_world/api/OreGenerator.kt:68-74 | asking twice gives the same region and generates at most once |
| OreGenerator.VeinAndChunkOf | src/main/java/space/gtimpact/virtual_world/api/OreGenerator.kt:181-183 | keeps `Valid`; afterwards the chunk's region is filed; when it was filed before, the registry and both random sources are unchanged, and otherwise exactly one new region is filed, after 128 catalog calls and 16 draws per vein; the answer is the lookup in the layer that region's generation produced, or none for a layer outside 0..1; a chunk is found if and only if its vein's slot got an ore, and the match is the chunk's own vein and entry |
| OreGenerator.RegionOre.GetVeinChunks | src/main/java/space/gtimpact/virtual_world/api/OreGenerator.kt:111-149 | empty for a chunk outside the region; otherwise the chunk's vein's enumeration up to and including the chunk itself |
| GeneratorSpec.VeinChunksUpToSpec | src/main/java/space/gtimpact/virtual_world/api/OreGenerator.kt:125-146 | the listed chunks are a prefix of the vein's x-outer, z-inner enumeration, end with the chunk, and number 4 (cx - 4 xVein) + (cz - 4 zVein) + 1 |
| GeneratorSpec.VeinChunksUpToWhole | src/main/java/space/gtimpact/virtual_world/api/OreGenerator.kt:135-137 | the listed chunks are the whole vein if and only if the chunk is its vein's last, at local offset (3, 3) |
| GeneratorSpec.VeinChunksUpToOrigin | src/main/java/space/gtimpact/virtual_world/api/OreGenerator.kt:135-137 | chunk (0, 0) lists only itself |
| OreGenerator.RegionOre.GetVeinChunksWhole | src/main/java/space/gtimpact/virtual_world/api/OreGenerator.kt:111-149 | corrected enumeration: empty outside the region, otherwise all 16 chunks of the vein that holds the chunk |
| GeneratorSpec.ReconstructionAgrees | src/main/java/space/gtimpact/virtual_world/api/OreGenerator.kt:111-149 | for a chunk a generated layer holds, the listed chunks are a prefix of the coordinates of the vein the lookup finds |
| OreGenerator.SaveOreLayer | src/main/java/space/gtimpact/virtual_world/api/OreGenerator.kt:49-54 | a write happens if and only if the layer is 0 or 1; it goes to layer 0's store exactly for layer 0 and carries the vein id and size |
| SaveData.VirtualWorldSaveData.constructor | src/main/java/space/gtimpact/virtual_world/common/world/VirtualWorldSaveData.kt:48 | a fresh record is empty, so `hasSave` is true for every hash |
| SaveData.VirtualWorldSaveData.HasSave | src/main/java/space/gtimpact/virtual_world/common/world/VirtualWorldSaveData.kt:54-56 | true exactly while the hash is not in the set; the contracts of the constructor, `SaveHashRegion` and `ReadFromNBT` say how its answers change |
| SaveData.VirtualWorldSaveData.SaveHashRegion | src/main/java/space/gtimpact/virtual_world/common/world/VirtualWorldSaveData.kt:50-52 | adds the hash; afterwards `hasSave(hash)` is false, every other hash answers as before, and adding a present hash changes nothing |
| SaveData.VirtualWorldSaveData.ReadFromNBT | src/main/java/space/gtimpact/virtual_world/common/world/VirtualWorldSaveData.kt:63-64 | the set becomes exactly the hashes of the stored array; nothing recorded before survives |
| SaveData.VirtualWorldSaveData.WriteToNBT | src/main/java/space/gtimpact/virtual_world/common/world/VirtualWorldSaveData.kt:81 | the array holds every recorded hash exactly once and nothing else |
| SaveData.DistinctCard | src/main/java/space/gtimpact/virtual_world/common/world/VirtualWorldSaveData.kt:81 | an array without repeats has as many entries as distinct hashes |
| SaveData.WriteThenRead | src/main/java/space/gtimpact/virtual_world/common/world/VirtualWorldSaveData.kt:63-64 | writing a record and reading the array back gives the same set and the same `hasSave` answers |
| SaveData.ReadThenWrite | src/main/java/space/gtimpact/virtual_world/common/world/VirtualWorldSaveData.kt:81 | after reading an array the set is exactly its hashes, and writing it again gives the same hashes, each once; the length is kept when the array had no repeats |

## Findings

| source | as written | input that shows it | evidently intended | confidence | as-written member | corrected member |
|---|---|---|---|---|---|---|
| src/main/java/space/gtimpact/virtual_world/api/OreGenerator.kt:135-137 | `break@loop` fires right after the matching chunk is appended, so the list is only the vein's enumeration up to that chunk | chunk (0, 0) of region (0, 0): the list is [(0, 0)] instead of the 16 chunks of vein (0, 0) | the 16 chunks of the vein that holds the chunk, as the name `getVeinChunks` says | medium, not executed | GeneratorSpec.VeinChunksUpToOrigin | OreGenerator.RegionOre.GetVeinChunksWhole |

`OreGenerator.RegionOre.GetVeinChunks` models the code as written. `GeneratorSpec.VeinChunksUpToWhole` shows that it returns the whole vein only for a vein's last chunk. Nothing else in the model depends on either enumeration.

## Left out

- `Chunk.generateRegion` (OreGenerator.kt:25-47): the world-writing loop calls `getChunkFromChunkCoords`, `saveOreLayer0` and `saveOreLayer1` on the game's chunks, which are not part of this model. Only the pure layer dispatch `SaveOreLayer` is modelled.
- The ore catalog `getRandomVirtualOre` and its weighted choice are defined in files outside this model. They are an oracle indexed by layer, dimension and call number. Its only contract is that an ore it returns has `first < last`; without that, `nextInt` would throw, and the model does not represent that exception.
- `kotlin.random.Random` is a library generator. It is an oracle indexed by draw number, with the range contract of `nextInt`, and its algorithm is not modelled.
- The shared random source's call order across regions is represented only as the oracles' counters. Concurrency around it is not modelled, because the code is sequential.
- `first * 1000` and `last * 1000` are computed on unbounded integers. Kotlin's 32-bit overflow of that product, for ranges beyond about two million, is not modelled.
- `ChunkOre`'s default size, before `setSize`, is not modelled: `GenerateVein` builds each chunk with size 0 and overwrites it at once.
- `ChunkOre` and `VeinOre` are values, not heap objects. The code mutates each only before it is shared, so no aliasing is lost.
- `getVeinChunks` returns `ChunkCoordIntPair` objects. They are modelled as coordinate pairs.
- The placeholder vein id -1 of `getVeinChunks` is not modelled. The method discards the vein and keeps only its coordinates.
- `RegionOre.generate`'s slot loops are split into the methods `GenerateLayer`, `GenerateRow` and `GenerateSlot`. They run the same calls in the same order.
- `HashSet` iteration order is not modelled: `WriteToNBT` may list the hashes in any order.
- The NBT tags, `DimensionManager`, `IWorldNbt`, `markDirty`, the world load and save event handlers and `getInstance` (VirtualWorldSaveData.kt:14-45, 58-83 apart from 63-64 and 81) are the persistence adapter and event glue.
- `GENERATED_REGIONS_VIRTUAL_ORES` is declared in `VirtualAPI.kt`, which is not part of this model. `GeneratedRegions.constructor` takes it to start empty.
- `VirtualOres.kt` and `CommonProxy.kt` are the mod's bootstrap and lifecycle glue, with no algorithm to verify.
