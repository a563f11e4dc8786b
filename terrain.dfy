/**
 * The column generator of Terrain.cs, on the host's chunk column request:
 * a column of chunks stacked in y, each with a solid-block layer and a
 * fluid layer indexed by ChunkIndex3d, and the two height maps of the
 * column's map chunk, indexed by ChunkIndex2d.
 */
module Terrain {
  import opened CSharpInt
  import opened Tiles
  import opened TerrainColumns
  import opened MapLayers

  class ChunkColumnRequest {
    const chunkX: int
    const chunkZ: int
    /** blocks[c, i]: the solid block of chunk c (heights 32c .. 32c + 31) at index i. */
    const blocks: array2<int>
    /** fluids[c, i]: the fluid block at the same place (SetFluid). */
    const fluids: array2<int>
    const rainHeightMap: array<int>
    const terrainHeightMap: array<int>

    predicate Valid() {
      && blocks.Length0 >= 1 && blocks.Length1 == ChunkVolume
      && fluids.Length0 == blocks.Length0 && fluids.Length1 == ChunkVolume
      && rainHeightMap.Length == ChunkArea && terrainHeightMap.Length == ChunkArea
      && blocks != fluids && rainHeightMap != terrainHeightMap
    }

    constructor (chunkX: int, chunkZ: int, blocks: array2<int>, fluids: array2<int>,
                 rainHeightMap: array<int>, terrainHeightMap: array<int>)
      requires blocks.Length0 >= 1 && blocks.Length1 == ChunkVolume
      requires fluids.Length0 == blocks.Length0 && fluids.Length1 == ChunkVolume
      requires rainHeightMap.Length == ChunkArea && terrainHeightMap.Length == ChunkArea
      requires blocks != fluids && rainHeightMap != terrainHeightMap
      ensures Valid()
      ensures this.chunkX == chunkX && this.chunkZ == chunkZ
      ensures this.blocks == blocks && this.fluids == fluids
      ensures this.rainHeightMap == rainHeightMap && this.terrainHeightMap == terrainHeightMap
    {
      this.chunkX := chunkX;
      this.chunkZ := chunkZ;
      this.blocks := blocks;
      this.fluids := fluids;
      this.rainHeightMap := rainHeightMap;
      this.terrainHeightMap := terrainHeightMap;
    }
  }

  // ---- what each voxel ends up holding ----

  /** The world height of index i of chunk c. */
  function HeightOfCell(c: int, i: int): int {
    c * ChunkSize + IdxY(i)
  }

  /** The heights the column loop writes: 1 .. maxY + 1, below the world height. */
  predicate InYLoop(y: int, maxY: int, mapSizeY: int) {
    1 <= y <= maxY + 1 && y < mapSizeY
  }

  predicate InBedrockLayer(c: int, i: int) {
    c == 0 && 0 <= i < ChunkArea
  }

  /** The solid layer after the column loop wrote height y of column col over `before`. */
  function SolidAfter(col: Column, y: int, rock: int, before: int): int {
    match WriteAt(col, y)
    case PlaceRock => rock
    case PlaceFluid(_) => before
    case PlaceAir => 0
  }

  function FluidAfter(col: Column, y: int, before: int): int {
    match WriteAt(col, y)
    case PlaceFluid(id) => id
    case _ => before
  }

  function AfterBedrock(c: int, i: int, mantle: int, before: int): int {
    if InBedrockLayer(c, i) then mantle else before
  }

  /** The solid block at index i of chunk c after the column loop, given what it held before it. */
  function ColumnSolid(cm: ChunkMaps, maxY: int, mapSizeY: int, ids: BlockIds,
                       c: int, i: int, before: int): int
    requires cm.Valid() && 0 <= i < ChunkVolume
  {
    var y := HeightOfCell(c, i);
    if InYLoop(y, maxY, mapSizeY) then SolidAfter(cm.ColumnAt(IdxX(i), IdxZ(i), ids), y, ids.rock, before)
    else before
  }

  /** The final solid block: the bedrock layer, then the column loop. */
  function ExpectedSolid(cm: ChunkMaps, maxY: int, mapSizeY: int, ids: BlockIds,
                         c: int, i: int, before: int): int
    requires cm.Valid() && 0 <= i < ChunkVolume
  {
    ColumnSolid(cm, maxY, mapSizeY, ids, c, i, AfterBedrock(c, i, ids.mantle, before))
  }

  function ExpectedFluid(cm: ChunkMaps, maxY: int, mapSizeY: int, ids: BlockIds,
                         c: int, i: int, before: int): int
    requires cm.Valid() && 0 <= i < ChunkVolume
  {
    var y := HeightOfCell(c, i);
    if InYLoop(y, maxY, mapSizeY) then FluidAfter(cm.ColumnAt(IdxX(i), IdxZ(i), ids), y, before)
    else before
  }

  /** The five-map window of the request's chunk. */
  function MapsOf(layers: Layers, regionX: int, regionZ: int, chunkX: int, chunkZ: int): (cm: ChunkMaps)
    requires layers.Valid() && InGrid(layers.height, regionX, regionZ)
    requires ChunkInRegion(chunkX, regionX) && ChunkInRegion(chunkZ, regionZ)
    ensures cm.Valid()
  {
    ChunkMaps(layers.completeTopo[regionX][regionZ], layers.height[regionX][regionZ],
              layers.lakeMask[regionX][regionZ], layers.landMask[regionX][regionZ],
              layers.bathy[regionX][regionZ], LocalChunk(chunkX, regionX), LocalChunk(chunkZ, regionZ))
  }

  /** The whole state GenerateTerrain leaves behind for an in-grid region. */
  twostate predicate Generated(request: ChunkColumnRequest, cm: ChunkMaps, mapSizeY: int, ids: BlockIds)
    requires request.Valid() && cm.Valid()
    reads request.blocks, request.fluids, request.rainHeightMap, request.terrainHeightMap
  {
    && (forall lx, lz :: 0 <= lx < ChunkSize && 0 <= lz < ChunkSize ==>
          request.terrainHeightMap[ChunkIndex2d(lx, lz)] == ToUShort(cm.ColumnAt(lx, lz, ids).ground))
    && (forall lx, lz :: 0 <= lx < ChunkSize && 0 <= lz < ChunkSize ==>
          request.rainHeightMap[ChunkIndex2d(lx, lz)] == ToUShort(cm.ColumnAt(lx, lz, ids).surface))
    && (forall c, i :: 0 <= c < request.blocks.Length0 && 0 <= i < ChunkVolume ==>
          request.blocks[c, i] == ExpectedSolid(cm, cm.MaxY(), mapSizeY, ids, c, i, old(request.blocks[c, i])))
    && (forall c, i :: 0 <= c < request.fluids.Length0 && 0 <= i < ChunkVolume ==>
          request.fluids[c, i] == ExpectedFluid(cm, cm.MaxY(), mapSizeY, ids, c, i, old(request.fluids[c, i])))
  }

  // ---- properties of the final state ----

  /** Layer 0 of chunk 0 ends as bedrock in every column. */
  lemma BedrockLayerKept(cm: ChunkMaps, maxY: int, mapSizeY: int, ids: BlockIds, i: int, before: int)
    requires cm.Valid() && 0 <= i < ChunkArea
    ensures ExpectedSolid(cm, maxY, mapSizeY, ids, 0, i, before) == ids.mantle
  {
  }

  /** Voxels above maxY + 1 or at or above the world height keep their solid and fluid blocks. */
  lemma NothingWrittenOutsideYLoop(cm: ChunkMaps, maxY: int, mapSizeY: int, ids: BlockIds,
                                   c: int, i: int, solid: int, fluid: int)
    requires cm.Valid() && 0 <= i < ChunkVolume && !InBedrockLayer(c, i)
    requires HeightOfCell(c, i) > maxY + 1 || HeightOfCell(c, i) >= mapSizeY
    ensures ExpectedSolid(cm, maxY, mapSizeY, ids, c, i, solid) == solid
    ensures ExpectedFluid(cm, maxY, mapSizeY, ids, c, i, fluid) == fluid
  {
  }

  /**
   * A written voxel of height y is rock iff y <= ground, gets the column's
   * fluid iff ground < y <= surface, and is air otherwise.
   */
  lemma WrittenVoxel(cm: ChunkMaps, maxY: int, mapSizeY: int, ids: BlockIds,
                     c: int, i: int, solid: int, fluid: int)
    requires cm.Valid() && 0 <= i < ChunkVolume
    requires InYLoop(HeightOfCell(c, i), maxY, mapSizeY)
    ensures var y, col := HeightOfCell(c, i), cm.ColumnAt(IdxX(i), IdxZ(i), ids);
            && (y <= col.ground ==> ExpectedSolid(cm, maxY, mapSizeY, ids, c, i, solid) == ids.rock)
            && (col.ground < y <= col.surface ==>
                  ExpectedFluid(cm, maxY, mapSizeY, ids, c, i, fluid) == col.fluid &&
                  ExpectedSolid(cm, maxY, mapSizeY, ids, c, i, solid) == solid)
            && (y > col.ground && y > col.surface ==>
                  ExpectedSolid(cm, maxY, mapSizeY, ids, c, i, solid) == 0)
            && (!(col.ground < y <= col.surface) ==>
                  ExpectedFluid(cm, maxY, mapSizeY, ids, c, i, fluid) == fluid)
  {
  }

  /** The fluid layer of a dry-land column is never written. */
  lemma DryLandFluidUntouched(cm: ChunkMaps, maxY: int, mapSizeY: int, ids: BlockIds,
                              c: int, i: int, fluid: int)
    requires cm.Valid() && 0 <= i < ChunkVolume
    requires Classify(cm.Cut(cm.landMask, IdxX(i), IdxZ(i)), cm.Cut(cm.lakeMask, IdxX(i), IdxZ(i))) == DryLand
    ensures ExpectedFluid(cm, maxY, mapSizeY, ids, c, i, fluid) == fluid
  {
    var x, z := IdxX(i), IdxZ(i);
    DryLandNeverFluid(cm.Cut(cm.landMask, x, z), cm.Cut(cm.lakeMask, x, z), cm.Cut(cm.completeTopo, x, z),
                      cm.Cut(cm.height, x, z), cm.Cut(cm.bathy, x, z), ids, HeightOfCell(c, i));
  }

  // ---- the operations ----

  /**
   * CutHeightMapForChunk: the 32 x 32 window of the tile belonging to the
   * chunk, cell [lx, lz] taken from (localX * 32 + lx, localZ * 32 + lz).
   */
  method CutHeightMapForChunk(heightMap: Tile, chunkX: int, chunkZ: int, regionX: int, regionZ: int)
    returns (chunkElevation: array2<int>)
    requires ValidTile(heightMap)
    requires ChunkInRegion(chunkX, regionX) && ChunkInRegion(chunkZ, regionZ)
    ensures fresh(chunkElevation)
    ensures chunkElevation.Length0 == ChunkSize && chunkElevation.Length1 == ChunkSize
    ensures forall lx, lz :: 0 <= lx < ChunkSize && 0 <= lz < ChunkSize ==>
              chunkElevation[lx, lz] == Get(heightMap, LocalChunk(chunkX, regionX) * ChunkSize + lx,
                                                       LocalChunk(chunkZ, regionZ) * ChunkSize + lz)
  {
    var chunkSized2 := ChunkSize / 2;
    chunkElevation := new int[ChunkSize, ChunkSize];
    var localX := chunkX - chunkSized2 * regionX;
    var localZ := chunkZ - chunkSized2 * regionZ;
    var maxX := (1 + localX) * ChunkSize;
    var maxZ := (1 + localZ) * ChunkSize;
    var minX := localX * ChunkSize;
    var minZ := localZ * ChunkSize;
    var lx := 0;
    var lz := 0;
    var x := minX;
    while x < maxX
      invariant minX <= x <= maxX && lx == x - minX && lz == 0
      invariant forall a, b :: 0 <= a < lx && 0 <= b < ChunkSize ==>
                  chunkElevation[a, b] == Get(heightMap, minX + a, minZ + b)
    {
      var z := minZ;
      while z < maxZ
        invariant minZ <= z <= maxZ && lz == z - minZ
        invariant forall a, b :: 0 <= a < lx && 0 <= b < ChunkSize ==>
                    chunkElevation[a, b] == Get(heightMap, minX + a, minZ + b)
        invariant forall b :: 0 <= b < lz ==> chunkElevation[lx, b] == Get(heightMap, x, minZ + b)
      {
        var height := Get(heightMap, x, z);
        chunkElevation[lx, lz] := height;
        lz := lz + 1;
        z := z + 1;
      }
      lx := lx + 1;
      lz := 0;
      x := x + 1;
    }
  }

  /** The first pass over the cut maps: maxY is the maximum first-pass surface. */
  method ComputeMaxY(landMask: array2<int>, height: array2<int>, ghost cm: ChunkMaps) returns (maxY: int)
    requires cm.Valid()
    requires landMask.Length0 == ChunkSize && landMask.Length1 == ChunkSize
    requires height.Length0 == ChunkSize && height.Length1 == ChunkSize
    requires forall lx, lz :: 0 <= lx < ChunkSize && 0 <= lz < ChunkSize ==>
               landMask[lx, lz] == cm.Cut(cm.landMask, lx, lz) && height[lx, lz] == cm.Cut(cm.height, lx, lz)
    ensures maxY == cm.MaxY()
  {
    ghost var surfaces := cm.Surfaces();
    maxY := MinInt32;
    for lx := 0 to ChunkSize
      invariant maxY == RunningMax(surfaces, lx * ChunkSize)
    {
      for lz := 0 to ChunkSize
        invariant maxY == RunningMax(surfaces, lx * ChunkSize + lz)
      {
        SurfaceInLoopOrder(cm, lx, lz);
        var isLand := landMask[lx, lz] > 0;
        var surfaceHeight;
        if !isLand {
          surfaceHeight := SeaLevel;
        } else {
          surfaceHeight := height[lx, lz];
        }
        if surfaceHeight > maxY {
          maxY := surfaceHeight;
        }
      }
    }
  }

  /** SetBlockBulk(0, 32, 32, bedrock): the bottom layer of chunk 0. */
  method SetBedrockLayer(request: ChunkColumnRequest, mantle: int)
    requires request.Valid()
    modifies request.blocks
    ensures forall c, i :: 0 <= c < request.blocks.Length0 && 0 <= i < ChunkVolume ==>
              request.blocks[c, i] == AfterBedrock(c, i, mantle, old(request.blocks[c, i]))
  {
    for i := 0 to ChunkArea
      invariant forall c, i' :: 0 <= c < request.blocks.Length0 && 0 <= i' < ChunkVolume ==>
                  request.blocks[c, i'] == if c == 0 && i' < i then mantle else old(request.blocks[c, i'])
    {
      request.blocks[0, i] := mantle;
    }
  }

  predicate OnColumn(i: int, lx: int, lz: int) {
    IdxX(i) == lx && IdxZ(i) == lz
  }

  /** Height y lies in chunk y / 32 at layer y % 32. */
  lemma SplitHeight(y: int, c: int, ly: int)
    requires 0 <= ly < ChunkSize && y == c * ChunkSize + ly
    ensures c == y / ChunkSize && ly == y % ChunkSize
  {
  }

  /** The y loop of one column (lx, lz). */
  method FillColumn(request: ChunkColumnRequest, lx: int, lz: int, col: Column,
                    maxY: int, mapSizeY: int, rock: int)
    requires request.Valid() && 0 <= lx < ChunkSize && 0 <= lz < ChunkSize
    modifies request.blocks, request.fluids
    ensures forall c, i :: 0 <= c < request.blocks.Length0 && 0 <= i < ChunkVolume ==>
              request.blocks[c, i] ==
                if OnColumn(i, lx, lz) && InYLoop(HeightOfCell(c, i), maxY, mapSizeY)
                then SolidAfter(col, HeightOfCell(c, i), rock, old(request.blocks[c, i]))
                else old(request.blocks[c, i])
    ensures forall c, i :: 0 <= c < request.fluids.Length0 && 0 <= i < ChunkVolume ==>
              request.fluids[c, i] ==
                if OnColumn(i, lx, lz) && InYLoop(HeightOfCell(c, i), maxY, mapSizeY)
                then FluidAfter(col, HeightOfCell(c, i), old(request.fluids[c, i]))
                else old(request.fluids[c, i])
  {
    var yy := 1;
    while yy <= maxY + 1
      invariant 1 <= yy && (yy == 1 || yy <= maxY + 2)
      invariant forall c, i :: 0 <= c < request.blocks.Length0 && 0 <= i < ChunkVolume ==>
                  request.blocks[c, i] ==
                    if OnColumn(i, lx, lz) && InYLoop(HeightOfCell(c, i), maxY, mapSizeY) && HeightOfCell(c, i) < yy
                    then SolidAfter(col, HeightOfCell(c, i), rock, old(request.blocks[c, i]))
                    else old(request.blocks[c, i])
      invariant forall c, i :: 0 <= c < request.fluids.Length0 && 0 <= i < ChunkVolume ==>
                  request.fluids[c, i] ==
                    if OnColumn(i, lx, lz) && InYLoop(HeightOfCell(c, i), maxY, mapSizeY) && HeightOfCell(c, i) < yy
                    then FluidAfter(col, HeightOfCell(c, i), old(request.fluids[c, i]))
                    else old(request.fluids[c, i])
    {
      if yy >= mapSizeY {
        yy := yy + 1;
        continue;
      }
      var chunkIndex := yy / ChunkSize;
      if chunkIndex >= request.blocks.Length0 {
        yy := yy + 1;
        continue;
      }
      var ly := yy % ChunkSize;
      var chunkIdx := ChunkIndex3d(lx, ly, lz);
      ChunkIndex3dRoundTrip(lx, ly, lz);
      forall c, i | 0 <= c < request.blocks.Length0 && 0 <= i < ChunkVolume &&
                    OnColumn(i, lx, lz) && HeightOfCell(c, i) == yy
        ensures c == chunkIndex && i == chunkIdx
      {
        SplitHeight(yy, c, IdxY(i));
        ChunkIndex3dOnto(i);
      }
      if yy <= col.ground {
        request.blocks[chunkIndex, chunkIdx] := rock;
      } else if yy <= col.surface {
        request.fluids[chunkIndex, chunkIdx] := col.fluid;
      } else {
        request.blocks[chunkIndex, chunkIdx] := 0;
      }
      yy := yy + 1;
    }
  }

  /** The cut window of tile t agrees with the chunk maps. */
  predicate CutOf(cut: array2<int>, cm: ChunkMaps, t: Tile)
    requires cm.Valid() && ValidTile(t)
    reads cut
  {
    && cut.Length0 == ChunkSize && cut.Length1 == ChunkSize
    && forall lx, lz :: 0 <= lx < ChunkSize && 0 <= lz < ChunkSize ==> cut[lx, lz] == cm.Cut(t, lx, lz)
  }

  /** The array CutHeightMapForChunk returns is the chunk-map window of its tile. */
  lemma CutIsWindow(cut: array2<int>, cm: ChunkMaps, t: Tile, chunkX: int, chunkZ: int, regionX: int, regionZ: int)
    requires cm.Valid() && ValidTile(t)
    requires cm.localX == LocalChunk(chunkX, regionX) && cm.localZ == LocalChunk(chunkZ, regionZ)
    requires cut.Length0 == ChunkSize && cut.Length1 == ChunkSize
    requires forall lx, lz :: 0 <= lx < ChunkSize && 0 <= lz < ChunkSize ==>
               cut[lx, lz] == Get(t, LocalChunk(chunkX, regionX) * ChunkSize + lx,
                                     LocalChunk(chunkZ, regionZ) * ChunkSize + lz)
    ensures CutOf(cut, cm, t)
  {
  }

  /** One step of the column loop: classify column (lx, lz), set its two heights and fill it. */
  method GenerateColumn(request: ChunkColumnRequest, ghost cm: ChunkMaps,
                        bisectedCompleteTopoMap: array2<int>, bisectedHeightMap: array2<int>,
                        bisectedLakeMaskMap: array2<int>, bisectedLandMaskMap: array2<int>,
                        bisectedBathyMap: array2<int>, lx: int, lz: int, maxY: int, mapSizeY: int, ids: BlockIds)
    requires request.Valid() && cm.Valid() && 0 <= lx < ChunkSize && 0 <= lz < ChunkSize
    requires CutOf(bisectedCompleteTopoMap, cm, cm.completeTopo) && CutOf(bisectedHeightMap, cm, cm.height)
    requires CutOf(bisectedLakeMaskMap, cm, cm.lakeMask) && CutOf(bisectedLandMaskMap, cm, cm.landMask)
    requires CutOf(bisectedBathyMap, cm, cm.bathy)
    modifies request.blocks, request.fluids, request.rainHeightMap, request.terrainHeightMap
    ensures forall k :: 0 <= k < ChunkArea ==>
              request.terrainHeightMap[k] ==
                if k == ChunkIndex2d(lx, lz) then ToUShort(cm.ColumnAt(lx, lz, ids).ground)
                else old(request.terrainHeightMap[k])
    ensures forall k :: 0 <= k < ChunkArea ==>
              request.rainHeightMap[k] ==
                if k == ChunkIndex2d(lx, lz) then ToUShort(cm.ColumnAt(lx, lz, ids).surface)
                else old(request.rainHeightMap[k])
    ensures forall c, i :: 0 <= c < request.blocks.Length0 && 0 <= i < ChunkVolume ==>
              request.blocks[c, i] ==
                if OnColumn(i, lx, lz) && InYLoop(HeightOfCell(c, i), maxY, mapSizeY)
                then SolidAfter(cm.ColumnAt(lx, lz, ids), HeightOfCell(c, i), ids.rock, old(request.blocks[c, i]))
                else old(request.blocks[c, i])
    ensures forall c, i :: 0 <= c < request.fluids.Length0 && 0 <= i < ChunkVolume ==>
              request.fluids[c, i] ==
                if OnColumn(i, lx, lz) && InYLoop(HeightOfCell(c, i), maxY, mapSizeY)
                then FluidAfter(cm.ColumnAt(lx, lz, ids), HeightOfCell(c, i), old(request.fluids[c, i]))
                else old(request.fluids[c, i])
  {
    var mapIdx := ChunkIndex2d(lx, lz);
    ChunkIndex2dRoundTrip(mapIdx);
    var isLand := bisectedLandMaskMap[lx, lz] > 0;
    var isLake := bisectedLakeMaskMap[lx, lz] > 0;
    var groundHeight;
    var surfaceHeight;
    var fluidBlockId := 0;
    if !isLand {
      groundHeight := bisectedBathyMap[lx, lz];
      surfaceHeight := SeaLevel - 1;
      fluidBlockId := ids.saltWater;
    } else if !isLake {
      groundHeight := bisectedHeightMap[lx, lz];
      surfaceHeight := groundHeight;
    } else {
      var topoHeight := bisectedCompleteTopoMap[lx, lz];
      groundHeight := if topoHeight > 0 then topoHeight else bisectedBathyMap[lx, lz];
      surfaceHeight := bisectedHeightMap[lx, lz];
      fluidBlockId := ids.water;
    }
    var col := Column(groundHeight, surfaceHeight, fluidBlockId);
    assert col == cm.ColumnAt(lx, lz, ids);

    request.terrainHeightMap[mapIdx] := ToUShort(groundHeight);
    request.rainHeightMap[mapIdx] := ToUShort(surfaceHeight);

    FillColumn(request, lx, lz, col, maxY, mapSizeY, ids.rock);
  }

  /** Whether column (x, z) comes before (lx, lz) in the lx-outer, lz-inner loop order. */
  predicate ColumnDone(lx: int, lz: int, x: int, z: int) {
    x < lx || (x == lx && z < lz)
  }

  /** The column loops of GenerateTerrain, over every (lx, lz) of the chunk. */
  method GenerateColumns(request: ChunkColumnRequest, ghost cm: ChunkMaps,
                         bisectedCompleteTopoMap: array2<int>, bisectedHeightMap: array2<int>,
                         bisectedLakeMaskMap: array2<int>, bisectedLandMaskMap: array2<int>,
                         bisectedBathyMap: array2<int>, maxY: int, mapSizeY: int, ids: BlockIds)
    requires request.Valid() && cm.Valid()
    requires CutOf(bisectedCompleteTopoMap, cm, cm.completeTopo) && CutOf(bisectedHeightMap, cm, cm.height)
    requires CutOf(bisectedLakeMaskMap, cm, cm.lakeMask) && CutOf(bisectedLandMaskMap, cm, cm.landMask)
    requires CutOf(bisectedBathyMap, cm, cm.bathy)
    modifies request.blocks, request.fluids, request.rainHeightMap, request.terrainHeightMap
    ensures forall lx, lz :: 0 <= lx < ChunkSize && 0 <= lz < ChunkSize ==>
              request.terrainHeightMap[ChunkIndex2d(lx, lz)] == ToUShort(cm.ColumnAt(lx, lz, ids).ground)
    ensures forall lx, lz :: 0 <= lx < ChunkSize && 0 <= lz < ChunkSize ==>
              request.rainHeightMap[ChunkIndex2d(lx, lz)] == ToUShort(cm.ColumnAt(lx, lz, ids).surface)
    ensures forall c, i :: 0 <= c < request.blocks.Length0 && 0 <= i < ChunkVolume ==>
              request.blocks[c, i] == ColumnSolid(cm, maxY, mapSizeY, ids, c, i, old(request.blocks[c, i]))
    ensures forall c, i :: 0 <= c < request.fluids.Length0 && 0 <= i < ChunkVolume ==>
              request.fluids[c, i] == ExpectedFluid(cm, maxY, mapSizeY, ids, c, i, old(request.fluids[c, i]))
  {
    var rainHeightMap := request.rainHeightMap;
    var terrainHeightMap := request.terrainHeightMap;

    for lx := 0 to ChunkSize
      invariant forall x, z :: 0 <= x < ChunkSize && 0 <= z < ChunkSize && ColumnDone(lx, 0, x, z) ==>
                  terrainHeightMap[ChunkIndex2d(x, z)] == ToUShort(cm.ColumnAt(x, z, ids).ground)
      invariant forall x, z :: 0 <= x < ChunkSize && 0 <= z < ChunkSize && ColumnDone(lx, 0, x, z) ==>
                  rainHeightMap[ChunkIndex2d(x, z)] == ToUShort(cm.ColumnAt(x, z, ids).surface)
      invariant forall c, i :: 0 <= c < request.blocks.Length0 && 0 <= i < ChunkVolume ==>
                  request.blocks[c, i] == if ColumnDone(lx, 0, IdxX(i), IdxZ(i))
                    then ColumnSolid(cm, maxY, mapSizeY, ids, c, i, old(request.blocks[c, i]))
                    else old(request.blocks[c, i])
      invariant forall c, i :: 0 <= c < request.fluids.Length0 && 0 <= i < ChunkVolume ==>
                  request.fluids[c, i] == if ColumnDone(lx, 0, IdxX(i), IdxZ(i))
                    then ExpectedFluid(cm, maxY, mapSizeY, ids, c, i, old(request.fluids[c, i]))
                    else old(request.fluids[c, i])
    {
      for lz := 0 to ChunkSize
        invariant forall x, z :: 0 <= x < ChunkSize && 0 <= z < ChunkSize && ColumnDone(lx, lz, x, z) ==>
                    terrainHeightMap[ChunkIndex2d(x, z)] == ToUShort(cm.ColumnAt(x, z, ids).ground)
        invariant forall x, z :: 0 <= x < ChunkSize && 0 <= z < ChunkSize && ColumnDone(lx, lz, x, z) ==>
                    rainHeightMap[ChunkIndex2d(x, z)] == ToUShort(cm.ColumnAt(x, z, ids).surface)
        invariant forall c, i :: 0 <= c < request.blocks.Length0 && 0 <= i < ChunkVolume ==>
                    request.blocks[c, i] == if ColumnDone(lx, lz, IdxX(i), IdxZ(i))
                      then ColumnSolid(cm, maxY, mapSizeY, ids, c, i, old(request.blocks[c, i]))
                      else old(request.blocks[c, i])
        invariant forall c, i :: 0 <= c < request.fluids.Length0 && 0 <= i < ChunkVolume ==>
                    request.fluids[c, i] == if ColumnDone(lx, lz, IdxX(i), IdxZ(i))
                      then ExpectedFluid(cm, maxY, mapSizeY, ids, c, i, old(request.fluids[c, i]))
                      else old(request.fluids[c, i])
      {
        ChunkIndex2dRoundTrip(ChunkIndex2d(lx, lz));
        GenerateColumn(request, cm, bisectedCompleteTopoMap, bisectedHeightMap, bisectedLakeMaskMap,
                       bisectedLandMaskMap, bisectedBathyMap, lx, lz, maxY, mapSizeY, ids);
      }
    }
  }

  /**
   * GenerateTerrain: nothing happens for a region outside the height map's
   * tile grid; otherwise the chunk's column of blocks and its two height
   * maps are filled from the five region tiles.
   */
  method GenerateTerrain(layers: Layers, request: ChunkColumnRequest, regionX: int, regionZ: int,
                         mapSizeY: int, ids: BlockIds)
    requires layers.Valid() && request.Valid()
    requires InGrid(layers.height, regionX, regionZ) ==>
               ChunkInRegion(request.chunkX, regionX) && ChunkInRegion(request.chunkZ, regionZ)
    modifies request.blocks, request.fluids, request.rainHeightMap, request.terrainHeightMap
    ensures !InGrid(layers.height, regionX, regionZ) ==>
              unchanged(request.blocks, request.fluids, request.rainHeightMap, request.terrainHeightMap)
    ensures InGrid(layers.height, regionX, regionZ) ==>
              Generated(request, MapsOf(layers, regionX, regionZ, request.chunkX, request.chunkZ), mapSizeY, ids)
  {
    if regionX < 0 || regionX >= |layers.height| || regionZ < 0 || regionZ >= |layers.height[0]| {
      return;
    }
    var completeTopoMap := layers.completeTopo[regionX][regionZ];
    var heightMap := layers.height[regionX][regionZ];
    var lakeMaskMap := layers.lakeMask[regionX][regionZ];
    var landMaskMap := layers.landMask[regionX][regionZ];
    var bathyMap := layers.bathy[regionX][regionZ];
    ghost var cm := MapsOf(layers, regionX, regionZ, request.chunkX, request.chunkZ);

    var chunkX, chunkZ := request.chunkX, request.chunkZ;
    var bisectedCompleteTopoMap := CutHeightMapForChunk(completeTopoMap, chunkX, chunkZ, regionX, regionZ);
    var bisectedHeightMap := CutHeightMapForChunk(heightMap, chunkX, chunkZ, regionX, regionZ);
    var bisectedLakeMaskMap := CutHeightMapForChunk(lakeMaskMap, chunkX, chunkZ, regionX, regionZ);
    var bisectedLandMaskMap := CutHeightMapForChunk(landMaskMap, chunkX, chunkZ, regionX, regionZ);
    var bisectedBathyMap := CutHeightMapForChunk(bathyMap, chunkX, chunkZ, regionX, regionZ);

    var maxY := ComputeMaxY(bisectedLandMaskMap, bisectedHeightMap, cm);

    CutIsWindow(bisectedCompleteTopoMap, cm, completeTopoMap, chunkX, chunkZ, regionX, regionZ);
    CutIsWindow(bisectedHeightMap, cm, heightMap, chunkX, chunkZ, regionX, regionZ);
    CutIsWindow(bisectedLakeMaskMap, cm, lakeMaskMap, chunkX, chunkZ, regionX, regionZ);
    CutIsWindow(bisectedLandMaskMap, cm, landMaskMap, chunkX, chunkZ, regionX, regionZ);
    CutIsWindow(bisectedBathyMap, cm, bathyMap, chunkX, chunkZ, regionX, regionZ);

    SetBedrockLayer(request, ids.mantle);
    label Bedrock:
    GenerateColumns(request, cm, bisectedCompleteTopoMap, bisectedHeightMap, bisectedLakeMaskMap,
                    bisectedLandMaskMap, bisectedBathyMap, maxY, mapSizeY, ids);
    forall c, i | 0 <= c < request.blocks.Length0 && 0 <= i < ChunkVolume
      ensures request.blocks[c, i] == ExpectedSolid(cm, maxY, mapSizeY, ids, c, i, old(request.blocks[c, i]))
    {
      assert old@Bedrock(request.blocks[c, i]) == AfterBedrock(c, i, ids.mantle, old(request.blocks[c, i]));
    }
  }

  /**
   * Event_OnChunkColumnGeneration: the region is the chunk coordinate
   * divided by half the chunk size, which with 32-block chunks is the
   * region holding the chunk.
   */
  method OnChunkColumnGeneration(layers: Layers, request: ChunkColumnRequest, mapSizeY: int, ids: BlockIds)
    requires layers.Valid() && request.Valid()
    requires request.chunkX >= 0 && request.chunkZ >= 0
    modifies request.blocks, request.fluids, request.rainHeightMap, request.terrainHeightMap
    ensures var regionX, regionZ := request.chunkX * ChunkSize / TileSize, request.chunkZ * ChunkSize / TileSize;
            && (!InGrid(layers.height, regionX, regionZ) ==>
                  unchanged(request.blocks, request.fluids, request.rainHeightMap, request.terrainHeightMap))
            && (InGrid(layers.height, regionX, regionZ) ==>
                  Generated(request, MapsOf(layers, regionX, regionZ, request.chunkX, request.chunkZ), mapSizeY, ids))
  {
    var regionX := RegionOfChunk(request.chunkX, ChunkSize);
    var regionZ := RegionOfChunk(request.chunkZ, ChunkSize);
    RegionOfChunkIsTileOfBlocks(request.chunkX);
    RegionOfChunkIsTileOfBlocks(request.chunkZ);
    GenerateTerrain(layers, request, regionX, regionZ, mapSizeY, ids);
  }
}
