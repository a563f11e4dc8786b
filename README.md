# EarthMapCreator world-generation core in Dafny

A model of the part of EarthMapCreator, a Vintage Story mod, that turns
pre-baked raster maps of the Earth into voxel terrain. It works in four
stages, all exact integer computations over arrays.

1. **Loaders.** `HeightMap`, `TopoMap`, `BathymetryMap`, `LandMaskMap` and
   `LakeMaskMap` each check their image with `DataMap.LoadBitmap`. They then
   cut the W x H image into a (W/512) x (H/512) grid of 512 x 512 region
   tiles. Each cell is derived from one pixel by a small integer rule. The
   `MapLayers` constructor runs these loaders in a fixed order.
2. **Sampling.** `MapLayerFromImage.GenLayer` fills a sizeX x sizeZ array
   from the tile grid at a zoom scale. It uses C#'s truncating `/` and `%`,
   gives 0 outside the grid, and can apply a post-process hook.
3. **Hooks.** `ClimatePostProcess` repacks the temperature and
   precipitation bytes, and `ForestPostProcess` gates tree density on the
   land mask.
4. **Columns.** `Terrain.GenerateTerrain` cuts the chunk's 32 x 32 window
   out of five region tiles. It classifies each column as ocean, dry land or
   lake, writes the two height maps of the chunk column, and fills the
   solid and fluid layers of its chunks.

Modules: `Wrappers` (Option/Result), `CSharpInt` (truncating division,
byte and ushort casts), `Tiles` (tiles, grids, images), `DataMap`,
`PixelRules`, `TilePartition`, `Loaders`, `MapLayers`, `Sampling`,
`Climate`, `TerrainColumns` (pure chunk geometry and column rules) and
`Terrain`.

Representation:
- A tile is a value: a `seq<int>` of 512·512 cells, row-major. Cell (x, z)
  is at z·512 + x, as in the host's `IntDataMap2D`. Tiles never change
  after loading.
- The loops that build a tile fill a real `array` and keep their i/j
  loops.
- `GenLayer` is a method on the `MapLayerFromImage` class, which holds the
  constructor's four fields.
- The chunk column request is a class holding arrays that
  `GenerateTerrain` updates in place:
  - `blocks[c, i]` and `fluids[c, i]`: the solid and fluid layer of chunk
    c at `ChunkIndex3d` index i;
  - the two `ushort` height maps, as `int` arrays written through an
    explicit 16-bit truncation.
- Exceptions are `Failure` values: the two `InvalidOperationException`s of
  `LoadBitmap`, and the index fault of the forest hook.

Where the code differs from its own documentation, the model follows the
code:
- The topography loader stores "no data" as -1, not 0, because every
  value is stored minus one.
- Ground is not always at or below surface. An ocean column whose
  bathymetry exceeds 110 has ground above its surface and gets no water
  (`TerrainColumns.OceanAboveSeaLevelHasNoWater`).
- `ForestAdd` is computed and then overwritten.
- `GenLayer` does not give 0 to every block off the map, though its safety check's comment (MapLayerFromImage.cs:48) says so. A block in (-regionSize, 0) truncates to region 0 and, after the sign correction, reads the far edge of that tile at block + regionSize (`Sampling.MapLayerFromImage.NegativeBlockWrapsIntoRegionZero`).
- The first pass of `GenerateTerrain` takes 111 as the ocean surface, while
  the column pass fills oceans up to 110.
- `Map.cs` calls the `TopoMap` constructor with three arguments, but the
  constructor declares two (path and land-cover path). The model uses the
  two declared ones; the river layer plays no part in topography.

## Model

| member | source | states |
|---|---|---|
| CSharpInt.Quot | EarthMapCreator/System/MapLayerFromImage.cs:41-42 | C# int division truncates toward zero: the remainder a - b·q lies in [0, b) for a ≥ 0 and in (-b, 0] for a < 0 |
| CSharpInt.Rem | EarthMapCreator/System/MapLayerFromImage.cs:55-56 | C# `%`: a = b·Quot(a, b) + r, with r taking the sign of the dividend |
| CSharpInt.QuotRemOfSmallNegative | EarthMapCreator/System/Climate.cs:44-47 | for a in (-b, 0) the truncated quotient is 0 and the remainder is a itself |
| CSharpInt.AddByte | EarthMapCreator/System/Climate.cs:27-28 | byte `+=` wraps: the sum is b + a or b + a - 256, and exact when below 256 |
| CSharpInt.ToByte | EarthMapCreator/System/Climate.cs:66-69 | the unchecked `(byte)` cast lies in [0, 256), is congruent to its input mod 256, and is the identity on [0, 256) |
| CSharpInt.ToUShort | EarthMapCreator/System/Terrain.cs:139-140 | the `(ushort)` cast lies in [0, 65536), is congruent to its input mod 65536, and is the identity on [0, 65536) |
| Tiles.CellIndex | EarthMapCreator/WorldGen/Map/LandMaskMap.cs:24-35 | cell (x, z) of a 512 x 512 tile sits at a flat index in [0, 512²) from which z and x are recovered by / and % 512 |
| Tiles.CellIndexBijective | EarthMapCreator/WorldGen/Map/LandMaskMap.cs:26-37 | every flat index of a tile belongs to exactly one (i, j), so the i/j loops write each cell exactly once |
| Tiles.GetUnchecked | EarthMapCreator/System/Climate.cs:57 | a read with coordinates in range is the ordinary read |
| DataMap.LoadBitmap | EarthMapCreator/WorldGen/Map/Map.cs:61-83 | loading succeeds exactly when the image matches the configured size and both sides are multiples of 512, and returns the image; a size mismatch reports both sizes even when the image is also unaligned; a matching but unaligned image fails with the alignment error, and that error occurs only for matching sizes |
| DataMap.FirstLoadError | EarthMapCreator/WorldGen/Map/Map.cs:38-46 | None exactly when every image in loading order passes; otherwise the error of an image that fails while all before it pass |
| DataMap.FirstLoadErrorSkipsLoaded | EarthMapCreator/WorldGen/Map/Map.cs:38-46 | images that pass do not change which error is reported |
| DataMap.LoadedImageIsTiled | EarthMapCreator/WorldGen/Map/Map.cs:77-80 | a loaded image is covered exactly by its (W/512) x (H/512) tiles, each pixel in tile (px/512, pz/512) at (px%512, pz%512) |
| PixelRules.HeightFraction | EarthMapCreator/WorldGen/Map/HeightMap.cs:54-55 | the integer nearest to 70·r/65535 |
| PixelRules.TopoFraction | EarthMapCreator/WorldGen/Map/TopoMap.cs:51-52 | the integer nearest to 140·r/65535 |
| PixelRules.BathyFraction | EarthMapCreator/WorldGen/Map/BathymetryMap.cs:39 | the integer nearest to r/257 |
| PixelRules.RoundingNeverTies | EarthMapCreator/WorldGen/Map/HeightMap.cs:54-55 | none of the three quotients is ever a half-way case, so round-half-to-even and the exact formulas agree |
| PixelRules.HeightOfWater | EarthMapCreator/WorldGen/Map/HeightMap.cs:41-44 | a pixel whose land-cover red channel is 0 has height 0 |
| PixelRules.HeightOfRiver | EarthMapCreator/WorldGen/Map/HeightMap.cs:46-51 | a land pixel with a river has height exactly 110 |
| PixelRules.HeightOfLand | EarthMapCreator/WorldGen/Map/HeightMap.cs:54-56 | other land pixels have height 110 + round(70·r/65535), in [110, 180] with 0 ↦ 110 and 65535 ↦ 180, so the Math.Max floor never changes the value |
| PixelRules.HeightOfMonotone | EarthMapCreator/WorldGen/Map/HeightMap.cs:54-56 | the height never decreases as r grows |
| PixelRules.TopoOfRange | EarthMapCreator/WorldGen/Map/TopoMap.cs:46-55 | r = 0 is stored as -1; r > 0 as 110 + round(140·r/65535) - 1, in [109, 249], with 65535 ↦ 249 |
| PixelRules.TopoOfMonotone | EarthMapCreator/WorldGen/Map/TopoMap.cs:51-55 | the stored topography never decreases as r grows |
| PixelRules.BathymetryOfRange | EarthMapCreator/WorldGen/Map/BathymetryMap.cs:35-41 | the stored depth lies in [0, 255], and is 0 exactly for r < 129 |
| PixelRules.BathymetryRoundTrip | EarthMapCreator/WorldGen/Map/BathymetryMap.cs:39 | for every byte b, r = 257·b is stored as b |
| PixelRules.BathymetryOfMonotone | EarthMapCreator/WorldGen/Map/BathymetryMap.cs:39 | the stored depth never decreases as r grows |
| TilePartition.PixelInImage | EarthMapCreator/WorldGen/Map/HeightMap.cs:36-39 | pixel (x·512 + i, z·512 + j) of every loop step lies inside the image |
| TilePartition.FillTile | EarthMapCreator/WorldGen/Map/HeightMap.cs:28-62 | the tile has 512² cells and cell (i, j) holds the rule applied to pixel (x·512 + i, z·512 + j) |
| TilePartition.Partition | EarthMapCreator/WorldGen/Map/HeightMap.cs:19-64 | the grid is (W/512) x (H/512) tiles, each cell derived from its own pixel |
| Loaders.LoadHeightMap | EarthMapCreator/WorldGen/Map/HeightMap.cs:14-64 | fails exactly when the height image, or then the land-cover image, fails LoadBitmap, with that error; otherwise each cell is the height rule on its pixel, land-cover pixel and river cell |
| Loaders.LoadTopoMap | EarthMapCreator/WorldGen/Map/TopoMap.cs:19-59 | the same failure cases; on success each cell is the topography rule on its pixel, with the land-cover image checked but not read into the value |
| Loaders.LoadBathymetryMap | EarthMapCreator/WorldGen/Map/BathymetryMap.cs:9-45 | fails exactly with LoadBitmap's error; otherwise each cell is the rescaled pixel |
| Loaders.LoadMaskMap | EarthMapCreator/WorldGen/Map/LandMaskMap.cs:11-42 | the land-mask constructor, and LakeMaskMap.cs lines 11-42, whose body is the same: fails exactly with LoadBitmap's error; otherwise each cell is its pixel's red channel |
| Loaders.HeightMapValues | EarthMapCreator/WorldGen/Map/HeightMap.cs:41-60 | with a 16-bit height channel every stored height is 0 or in [110, 180] |
| Loaders.MaskMapValues | EarthMapCreator/WorldGen/Map/LandMaskMap.cs:32-35 | with an 8-bit channel every stored mask value is in [0, 255] |
| MapLayers.LoadLayers | EarthMapCreator/WorldGen/Map/Map.cs:38-46 | the loaders run in the order topography, height, bathymetry, lake mask, land mask; the constructor fails exactly with the first LoadBitmap error in that order; on success all layers share one grid shape and each is its loader's tile grid |
| Climate.ClimatePostProcess | EarthMapCreator/System/Climate.cs:19-38 | the result lies in [0, 2²⁴) with low byte 0; bits 16-23 hold multi(temperature + add) and bits 8-15 hold multi(precipitation + add), each addition wrapping |
| Climate.ChannelsOfMiddleBits | EarthMapCreator/System/Climate.cs:23-24 | temperature is the high byte and precipitation the low byte of input bits 8-23 |
| Climate.ClimateReadsOnlyBits8To23 | EarthMapCreator/System/Climate.cs:23-24 | inputs that agree on bits 8-23 give the same result, whatever the other bits and the block position |
| Climate.ClimateNeutralConfig | EarthMapCreator/System/Climate.cs:19-38 | with multipliers 1.0 and additions 0 the result is the input's bits 8-23 with the low byte cleared |
| Climate.ForestPostProcess | EarthMapCreator/System/Climate.cs:40-71 | a successful result is a byte |
| Climate.ForestOutsideMap | EarthMapCreator/System/Climate.cs:44-54 | a truncated region outside the land-mask grid gives 0 |
| Climate.ForestInsideMap | EarthMapCreator/System/Climate.cs:57-70 | for non-negative in-map blocks: land mask 0 gives 0, otherwise byte(ForestMulti·val) from the raw val |
| Climate.ForestIgnoresForestAdd | EarthMapCreator/System/Climate.cs:66-70 | the result is the same for every ForestAdd |
| Climate.ForestNegativeBlockX | EarthMapCreator/System/Climate.cs:44-57 | a block x in (-512, 0) reads region 0 with a negative relative x: it throws on a tile's first row and reads cell (x + 512, row - 1) elsewhere |
| Climate.ForestPostProcessIntended | EarthMapCreator/System/Climate.cs:49-54 | the floor-division hook always returns a byte |
| Climate.ForestIntendedOffMap | EarthMapCreator/System/Climate.cs:49-54 | with floor division every block off the map, negative ones included, has no trees |
| Climate.ForestIntendedAgrees | EarthMapCreator/System/Climate.cs:44-70 | on non-negative blocks the source hook never throws and equals the floor-division hook |
| Climate.ForestNegativeBlockZ | EarthMapCreator/System/Climate.cs:44-57 | a block z in (-512, 0) with x ≥ 0 on the map reads region row 0 with a negative relative z, so the source hook always throws |
| Climate.ForestFaultsWestOfOrigin | EarthMapCreator/System/Climate.cs:44-57 | block (-1, 0) makes the source hook throw, while the floor-division hook gives 0 |
| Sampling.FlatIndex | EarthMapCreator/System/MapLayerFromImage.cs:64 | cell (x, z) goes to z·sizeX + x, inside [0, sizeX·sizeZ) |
| Sampling.FlatIndexInjective | EarthMapCreator/System/MapLayerFromImage.cs:49-64 | distinct cells have distinct slots, so no cell of the result is overwritten |
| Sampling.MapLayerFromImage.constructor | EarthMapCreator/System/MapLayerFromImage.cs:18-24 | the four fields are the constructor's arguments (no hook = None) |
| Sampling.MapLayerFromImage.Relative | EarthMapCreator/System/MapLayerFromImage.cs:55-59 | the corrected relative coordinate lies in [0, regionSize) and is the floor remainder of the block |
| Sampling.MapLayerFromImage.SampleBlock | EarthMapCreator/System/MapLayerFromImage.cs:38-66 | the inner-loop body computes the block's sample |
| Sampling.MapLayerFromImage.GenLayer | EarthMapCreator/System/MapLayerFromImage.cs:26-71 | the result has sizeX·sizeZ cells, and cell (x, z) at z·sizeX + x is the sample of block ((xCoord + x)·scale, (zCoord + z)·scale); the tiles are only read |
| Sampling.MapLayerFromImage.SampleOutsideGrid | EarthMapCreator/System/MapLayerFromImage.cs:45-51 | a block whose truncated region is outside the grid gives 0, whatever the hook |
| Sampling.MapLayerFromImage.SampleIdentity | EarthMapCreator/System/MapLayerFromImage.cs:61-66 | without a hook, an in-grid non-negative block gives the stored tile value |
| Sampling.MapLayerFromImage.SampleWithHook | EarthMapCreator/System/MapLayerFromImage.cs:64-65 | with a hook f, an in-grid block gives f(raw, blockX, blockZ) |
| Sampling.MapLayerFromImage.NegativeBlockWrapsIntoRegionZero | EarthMapCreator/System/MapLayerFromImage.cs:41-59 | a block in (-regionSize, 0) falls in region 0 at relative coordinate block + regionSize |
| Sampling.LoadThenSample | EarthMapCreator/System/MapLayerFromImage.cs:53-66 | sampling a loaded layer at scale 1 with no hook gives back, at each pixel, the value the loader derived from that pixel |
| TerrainColumns.ChunkIndex3d | EarthMapCreator/System/Terrain.cs:171-175 | in-range coordinates give an index below 32³ |
| TerrainColumns.ChunkIndex2d | EarthMapCreator/System/Terrain.cs:178-182 | in-range coordinates give an index below 32² |
| TerrainColumns.ChunkIndex3dRoundTrip | EarthMapCreator/System/Terrain.cs:171-175 | x, y and z are recovered from the index |
| TerrainColumns.ChunkIndex3dOnto | EarthMapCreator/System/Terrain.cs:171-175 | every index below 32³ is the index of its own coordinates |
| TerrainColumns.ChunkIndex2dRoundTrip | EarthMapCreator/System/Terrain.cs:178-182 | the height-map index is a bijection between columns and [0, 32²) |
| TerrainColumns.BottomLayerIsFirstArea | EarthMapCreator/System/Terrain.cs:101 | layer y = 0 of a chunk is exactly its first 32² indices |
| TerrainColumns.RegionOfChunkIsTileOfBlocks | EarthMapCreator/System/Terrain.cs:23-29 | for a non-negative chunk, chunk / 16 is the region holding its blocks, and the chunk lies inside it |
| TerrainColumns.RegionOfChunkWrongFor64 | EarthMapCreator/System/Terrain.cs:23-29 | with 64-block chunks chunk 8 gets region 0 though its blocks are in region 1 |
| TerrainColumns.RegionOfNegativeChunk | EarthMapCreator/System/Terrain.cs:28-29 | chunks -15 to -1 get region 0 by truncation but lie outside it, with a negative local offset |
| TerrainColumns.CutStaysInTile | EarthMapCreator/System/Terrain.cs:196-216 | every tile coordinate the cut reads is in [0, 512) |
| TerrainColumns.Classify | EarthMapCreator/System/Terrain.cs:110-136 | ocean iff landMask ≤ 0; dry land iff landMask > 0 and lakeMask ≤ 0; lake iff both > 0 |
| TerrainColumns.MakeColumn | EarthMapCreator/System/Terrain.cs:113-136 | ocean: ground = bathy, surface = 110, salt water; dry land: ground = surface = height, no fluid; lake: ground = topo if topo > 0 else bathy, surface = height, fresh water |
| TerrainColumns.FirstPassBoundsSurface | EarthMapCreator/System/Terrain.cs:77-136 | the first pass's surface (111 for ocean) is never below a column's surface |
| TerrainColumns.WriteAt | EarthMapCreator/System/Terrain.cs:152-164 | height y gets rock iff y ≤ ground, the column's fluid iff ground < y ≤ surface, and air otherwise |
| TerrainColumns.DryLandNeverFluid | EarthMapCreator/System/Terrain.cs:124-129 | no height of a dry-land column gets fluid |
| TerrainColumns.OceanAboveSeaLevelHasNoWater | EarthMapCreator/System/Terrain.cs:118-123 | an ocean column with bathymetry above 110 has ground above surface and no water |
| TerrainColumns.OceanWaterSpan | EarthMapCreator/System/Terrain.cs:118-164 | an ocean column is rock to bathy, salt water from bathy + 1 to 110, air above |
| TerrainColumns.RunningMaxIsMaximum | EarthMapCreator/System/Terrain.cs:77-93 | the running maximum from int.MinValue bounds every value seen and equals one of them, unless all lie below int.MinValue |
| TerrainColumns.SurfaceInLoopOrder | EarthMapCreator/System/Terrain.cs:78-80 | step lx·32 + lz of the first pass visits column (lx, lz) |
| TerrainColumns.MaxYBoundsEveryColumn | EarthMapCreator/System/Terrain.cs:77-93 | every column's surface is at or below maxY |
| Terrain.ChunkColumnRequest.constructor | EarthMapCreator/System/Terrain.cs:59-61 | the request holds the chunk coordinates, the chunks' solid and fluid layers and the two height maps |
| Terrain.BedrockLayerKept | EarthMapCreator/System/Terrain.cs:101-143 | layer y = 0 of chunk 0 ends as bedrock in every column |
| Terrain.NothingWrittenOutsideYLoop | EarthMapCreator/System/Terrain.cs:143-147 | voxels above maxY + 1 or at or above the world height keep their solid and fluid blocks |
| Terrain.WrittenVoxel | EarthMapCreator/System/Terrain.cs:152-164 | a written voxel is rock iff y ≤ ground, takes the fluid iff ground < y ≤ surface (solid block kept), and is air otherwise |
| Terrain.DryLandFluidUntouched | EarthMapCreator/System/Terrain.cs:124-164 | the fluid layer of a dry-land column is never written |
| Terrain.CutHeightMapForChunk | EarthMapCreator/System/Terrain.cs:184-226 | a fresh 32 x 32 array whose cell [lx, lz] is tile cell (localX·32 + lx, localZ·32 + lz), local = chunk - 16·region |
| Terrain.ComputeMaxY | EarthMapCreator/System/Terrain.cs:77-93 | maxY is the running maximum of the first-pass surfaces in loop order |
| Terrain.SetBedrockLayer | EarthMapCreator/System/Terrain.cs:101 | the first 32² solid blocks of chunk 0 become bedrock, nothing else changes |
| Terrain.FillColumn | EarthMapCreator/System/Terrain.cs:143-165 | exactly the voxels of column (lx, lz) with 1 ≤ y ≤ maxY + 1 and y below the world height are written, each as WriteAt says |
| Terrain.GenerateColumn | EarthMapCreator/System/Terrain.cs:106-165 | one column: both height maps change only at ChunkIndex2d(lx, lz), to ushort(ground) and ushort(surface), and the column is filled |
| Terrain.GenerateColumns | EarthMapCreator/System/Terrain.cs:104-167 | every column's heights and voxels are set |
| Terrain.GenerateTerrain | EarthMapCreator/System/Terrain.cs:39-168 | outside the height map's tile grid nothing changes; otherwise both height maps, every solid block and every fluid block end as the column rules, the bedrock layer and maxY prescribe |
| Terrain.OnChunkColumnGeneration | EarthMapCreator/System/Terrain.cs:21-37 | the region is chunk / 16, the region holding the chunk's blocks, and GenerateTerrain's outcome follows |

## Left out

- Image decoding, file discovery, disposal, timing and console output: images come in as a width, a height and a grid of red-channel values.
- Only the red channel is modelled; no rule reads the others.
- The river, climate and tree loaders: their constructors are not part of this model. `MapLayers.LoadLayers` takes their grids as already loaded. It cannot see a failure from their `LoadBitmap` calls. Those calls come first (river) and between bathymetry and lake mask (climate, tree).
- MapLayers.LoadLayers: the three-argument `TopoMap` call is modelled with the two parameters the constructor declares.
- `Math.Round` on floats: replaced by exact integer rounding. This is sound because no quotient is a tie (`PixelRules.RoundingNeverTies`).
- Climate.ClimatePostProcess: the double multipliers and the double-to-byte casts after them are functions given by the configuration. Only the 1.0 case is specialised.
- Climate.ForestPostProcess: ForestMulti is a given function from the raw int value to a byte, for the same reason.
- 32-bit overflow: integers are unbounded. Heights, coordinates and `maxY + 1` are assumed to stay within int range. Only the byte and ushort casts are modelled.
- Sampling.MapLayerFromImage: the region size is taken in (0, 512]. The host's RegionSize is 512, and a larger one would read past a tile row.
- Sampling.MapLayerFromImage.GenLayer: the requires excludes negative sizes, which the host never passes. C# throws there only when exactly one size is negative and the other is positive, so that `new int[sizeX * sizeZ]` gets a negative length. Otherwise both loops are skipped and the source returns sizeX·sizeZ zeros: one cell for (-1, -1), none when the other size is 0.
- Terrain.GenerateTerrain: the chunk size is fixed at the engine's 32. The chunk must lie inside its region, as it does for every non-negative chunk. Terrain.OnChunkColumnGeneration requires non-negative chunk coordinates. For chunks -15 to -1 the source's truncating division gives region 0 (`TerrainColumns.RegionOfNegativeChunk`). The local offset at Terrain.cs:202 is then negative, so `GetInt` at Terrain.cs:216 gets negative coordinates: it reads a neighbouring tile row or throws. The model does not follow that path.
- Host types: chunk data is a solid layer and a fluid layer per chunk. Indexing writes the solid layer, `SetFluid` the fluid layer, and `SetBlockBulk(0, 32, 32, id)` the first 32² solid cells of chunk 0. Block ids and the world height are parameters.
- `IsFreshWaterHere` (never called), the event registration, and the commented-out `GeneratingRegions` check.
- The composition of the forest hook with `GenLayer`, in which the hook reads a second grid, the land mask.
- Concurrency: the host calls the generator from worker threads, but the layers are read-only after loading.
- The offline Python scripts that prepare the rasters.

## Findings

| source | as written | input that shows it | evidently intended | confidence | as-written member | corrected member |
|---|---|---|---|---|---|---|
| EarthMapCreator/System/Climate.cs:44-57 | region and relative coordinates use truncating `/` and `%`, with no correction of negative remainders, so blocks just west of the map (`Climate.ForestNegativeBlockX`) or north of it (`Climate.ForestNegativeBlockZ`) pass the "outside the map" failsafe | block (-1, 0) on any map: region (0, 0), relative x = -1, flat index -1, `IndexOutOfRangeException` | blocks off the map, negative ones included, get no trees, as the failsafe's comment says | medium, not executed | Climate.ForestFaultsWestOfOrigin | Climate.ForestPostProcessIntended |
