/**
 * The pure part of the column generator (Terrain.cs): chunk geometry,
 * the region of a chunk, the classification of a column and the block
 * each height of a column receives.  The engine's ChunkSize is 32.
 */
module TerrainColumns {
  import opened CSharpInt
  import opened Tiles

  const ChunkSize: int := 32
  /** Cells of one horizontal chunk layer, and of a chunk's height maps. */
  const ChunkArea: int := 32 * 32
  const ChunkVolume: int := 32 * 32 * 32
  /** `halfChunkSize`, used by the source as the number of chunks per region. */
  const ChunksPerRegion: int := ChunkSize / 2
  /** The `seaLevel` local of GenerateTerrain; oceans fill up to one below it. */
  const SeaLevel: int := 111

  /** The host's block ids, read from the world config. */
  datatype BlockIds = BlockIds(mantle: int, rock: int, water: int, saltWater: int)

  // ---- chunk geometry ----

  /** ChunkIndex3d: (y * 32 + z) * 32 + x. */
  function ChunkIndex3d(x: int, y: int, z: int): (i: int)
    requires 0 <= x < ChunkSize && 0 <= y < ChunkSize && 0 <= z < ChunkSize
    ensures 0 <= i < ChunkVolume
  {
    (y * ChunkSize + z) * ChunkSize + x
  }

  /** ChunkIndex2d: z * 32 + x. */
  function ChunkIndex2d(x: int, z: int): (i: int)
    requires 0 <= x < ChunkSize && 0 <= z < ChunkSize
    ensures 0 <= i < ChunkArea
  {
    z * ChunkSize + x
  }

  /** The coordinates a chunk-data index stands for. */
  function IdxX(i: int): int { i % ChunkSize }
  function IdxZ(i: int): int { (i / ChunkSize) % ChunkSize }
  function IdxY(i: int): int { i / ChunkArea }

  /** ChunkIndex3d is a bijection onto [0, 32^3): coordinates are recovered from the index. */
  lemma ChunkIndex3dRoundTrip(x: int, y: int, z: int)
    requires 0 <= x < ChunkSize && 0 <= y < ChunkSize && 0 <= z < ChunkSize
    ensures IdxX(ChunkIndex3d(x, y, z)) == x
    ensures IdxY(ChunkIndex3d(x, y, z)) == y
    ensures IdxZ(ChunkIndex3d(x, y, z)) == z
  {
    var i := ChunkIndex3d(x, y, z);
    assert i == (y * ChunkSize + z) * ChunkSize + x;
    assert i / ChunkSize == y * ChunkSize + z;
    assert i / ChunkArea == y;
  }

  /** Every chunk-data index is the index of its own coordinates. */
  lemma ChunkIndex3dOnto(i: int)
    requires 0 <= i < ChunkVolume
    ensures 0 <= IdxX(i) < ChunkSize && 0 <= IdxY(i) < ChunkSize && 0 <= IdxZ(i) < ChunkSize
    ensures ChunkIndex3d(IdxX(i), IdxY(i), IdxZ(i)) == i
  {
    assert (i / ChunkSize) / ChunkSize == i / ChunkArea;
  }

  /** ChunkIndex2d is a bijection onto [0, 32^2). */
  lemma ChunkIndex2dRoundTrip(k: int)
    requires 0 <= k < ChunkArea
    ensures 0 <= k % ChunkSize < ChunkSize && 0 <= k / ChunkSize < ChunkSize
    ensures ChunkIndex2d(k % ChunkSize, k / ChunkSize) == k
    ensures forall x, z :: 0 <= x < ChunkSize && 0 <= z < ChunkSize && ChunkIndex2d(x, z) == k ==>
              x == k % ChunkSize && z == k / ChunkSize
  {
  }

  /** The bottom layer of a chunk (y = 0) is exactly the first 32 * 32 indices. */
  lemma BottomLayerIsFirstArea(i: int)
    requires 0 <= i < ChunkVolume
    ensures IdxY(i) == 0 <==> i < ChunkArea
  {
  }

  // ---- regions ----

  /**
   * Event_OnChunkColumnGeneration: the region of a chunk is its coordinate
   * divided (truncating) by half the chunk size.
   */
  function RegionOfChunk(chunk: int, chunkSize: int): int
    requires chunkSize >= 2
  {
    Quot(chunk, chunkSize / 2)
  }

  /** The chunk's offset inside its region, in chunks. */
  function LocalChunk(chunk: int, region: int): int {
    chunk - ChunksPerRegion * region
  }

  predicate ChunkInRegion(chunk: int, region: int) {
    0 <= LocalChunk(chunk, region) < ChunksPerRegion
  }

  /**
   * With 32-block chunks a region of 512 blocks holds 16 chunks, so the
   * region found is the one that holds the chunk's blocks and the chunk lies
   * inside it.
   */
  lemma RegionOfChunkIsTileOfBlocks(chunk: int)
    requires chunk >= 0
    ensures RegionOfChunk(chunk, ChunkSize) == (chunk * ChunkSize) / TileSize
    ensures ChunkInRegion(chunk, RegionOfChunk(chunk, ChunkSize))
  {
    QuotRemOfNonNegative(chunk, ChunksPerRegion);
  }

  /**
   * The divisor is right only for 32: with 64-block chunks a region holds 8
   * chunks, yet chunk 8 is still given region 0.
   */
  lemma RegionOfChunkWrongFor64()
    ensures RegionOfChunk(8, 64) == 0
    ensures (8 * 64) / TileSize == 1
  {
  }

  /**
   * Chunks -15 .. -1 are given region 0 by the truncating division, and lie
   * outside it: their local offset is negative, so the cut would read
   * GetInt at negative coordinates.
   */
  lemma RegionOfNegativeChunk(chunk: int)
    requires -ChunksPerRegion < chunk < 0
    ensures RegionOfChunk(chunk, ChunkSize) == 0
    ensures LocalChunk(chunk, 0) == chunk && !ChunkInRegion(chunk, 0)
  {
    QuotRemOfSmallNegative(chunk, ChunksPerRegion);
  }

  /** Cut cells read the tile at local * 32 + l, always inside [0, 512). */
  lemma CutStaysInTile(chunk: int, region: int, l: int)
    requires ChunkInRegion(chunk, region) && 0 <= l < ChunkSize
    ensures 0 <= LocalChunk(chunk, region) * ChunkSize + l < TileSize
  {
  }

  // ---- columns ----

  datatype ColumnClass = Ocean | DryLand | Lake

  /** How GenerateTerrain classifies a column from its two mask values. */
  function Classify(landMask: int, lakeMask: int): (c: ColumnClass)
    ensures c == Ocean <==> landMask <= 0
    ensures c == DryLand <==> landMask > 0 && lakeMask <= 0
    ensures c == Lake <==> landMask > 0 && lakeMask > 0
  {
    if landMask <= 0 then Ocean
    else if lakeMask <= 0 then DryLand
    else Lake
  }

  /** One column's heights: rock up to ground, fluid up to surface, air above. */
  datatype Column = Column(ground: int, surface: int, fluid: int)

  /** The per-class choice of heights and fluid (0 for no fluid). */
  function MakeColumn(landMask: int, lakeMask: int, topo: int, height: int, bathy: int,
                      ids: BlockIds): (col: Column)
    ensures Classify(landMask, lakeMask) == Ocean ==> col == Column(bathy, SeaLevel - 1, ids.saltWater)
    ensures Classify(landMask, lakeMask) == DryLand ==> col == Column(height, height, 0)
    ensures Classify(landMask, lakeMask) == Lake ==>
              col == Column(if topo > 0 then topo else bathy, height, ids.water)
  {
    match Classify(landMask, lakeMask)
    case Ocean => Column(bathy, SeaLevel - 1, ids.saltWater)
    case DryLand => Column(height, height, 0)
    case Lake => Column(if topo > 0 then topo else bathy, height, ids.water)
  }

  /** The surface the first pass uses to bound the column loop. */
  function FirstPassSurface(landMask: int, height: int): int {
    if landMask > 0 then height else SeaLevel
  }

  /** The first pass never underestimates a column's surface. */
  lemma FirstPassBoundsSurface(landMask: int, lakeMask: int, topo: int, height: int, bathy: int, ids: BlockIds)
    ensures MakeColumn(landMask, lakeMask, topo, height, bathy, ids).surface <= FirstPassSurface(landMask, height)
  {
  }

  /** What the column loop does at height y. */
  datatype Write = PlaceRock | PlaceFluid(id: int) | PlaceAir

  function WriteAt(col: Column, y: int): (w: Write)
    ensures w == PlaceRock <==> y <= col.ground
    ensures w.PlaceFluid? <==> col.ground < y <= col.surface
    ensures w.PlaceFluid? ==> w.id == col.fluid
    ensures w == PlaceAir <==> y > col.ground && y > col.surface
  {
    if y <= col.ground then PlaceRock
    else if y <= col.surface then PlaceFluid(col.fluid)
    else PlaceAir
  }

  /** Dry land gets rock then air, never fluid. */
  lemma DryLandNeverFluid(landMask: int, lakeMask: int, topo: int, height: int, bathy: int,
                          ids: BlockIds, y: int)
    requires Classify(landMask, lakeMask) == DryLand
    ensures !WriteAt(MakeColumn(landMask, lakeMask, topo, height, bathy, ids), y).PlaceFluid?
  {
  }

  /**
   * Ground is not always below the surface: an ocean column whose
   * bathymetry exceeds 110 has its ground above its surface and gets no
   * water at all.
   */
  lemma OceanAboveSeaLevelHasNoWater(landMask: int, lakeMask: int, topo: int, height: int, bathy: int,
                                     ids: BlockIds, y: int)
    requires landMask <= 0 && bathy > SeaLevel - 1
    ensures var col := MakeColumn(landMask, lakeMask, topo, height, bathy, ids);
            col.ground > col.surface && !WriteAt(col, y).PlaceFluid?
  {
  }

  /** An ocean column below sea level is filled with salt water from bathy + 1 up to 110. */
  lemma OceanWaterSpan(landMask: int, lakeMask: int, topo: int, height: int, bathy: int,
                       ids: BlockIds, y: int)
    requires landMask <= 0
    ensures WriteAt(MakeColumn(landMask, lakeMask, topo, height, bathy, ids), y) ==
              if y <= bathy then PlaceRock
              else if y <= SeaLevel - 1 then PlaceFluid(ids.saltWater)
              else PlaceAir
  {
  }

  // ---- the five-map window of a chunk ----

  /** The five tiles of a chunk's region and the chunk's offset in it. */
  datatype ChunkMaps = ChunkMaps(completeTopo: Tile, height: Tile, lakeMask: Tile, landMask: Tile,
                                 bathy: Tile, localX: int, localZ: int)
  {
    predicate Valid() {
      && ValidTile(completeTopo) && ValidTile(height) && ValidTile(lakeMask)
      && ValidTile(landMask) && ValidTile(bathy)
      && 0 <= localX < ChunksPerRegion && 0 <= localZ < ChunksPerRegion
    }

    /** CutHeightMapForChunk's cell (lx, lz) of tile t. */
    function Cut(t: Tile, lx: int, lz: int): int
      requires Valid() && ValidTile(t) && 0 <= lx < ChunkSize && 0 <= lz < ChunkSize
    {
      Get(t, localX * ChunkSize + lx, localZ * ChunkSize + lz)
    }

    function ColumnAt(lx: int, lz: int, ids: BlockIds): Column
      requires Valid() && 0 <= lx < ChunkSize && 0 <= lz < ChunkSize
    {
      MakeColumn(Cut(landMask, lx, lz), Cut(lakeMask, lx, lz), Cut(completeTopo, lx, lz),
                 Cut(height, lx, lz), Cut(bathy, lx, lz), ids)
    }

    function SurfaceAt(lx: int, lz: int): int
      requires Valid() && 0 <= lx < ChunkSize && 0 <= lz < ChunkSize
    {
      FirstPassSurface(Cut(landMask, lx, lz), Cut(height, lx, lz))
    }

    /** The first-pass surfaces in loop order: step k visits column (k / 32, k % 32). */
    function Surfaces(): (s: seq<int>)
      requires Valid()
      ensures |s| == ChunkArea
    {
      seq(ChunkArea, k requires 0 <= k < ChunkArea => SurfaceAt(k / ChunkSize, k % ChunkSize))
    }

    /** The loop bound of the column loop. */
    function MaxY(): int
      requires Valid()
    {
      RunningMax(Surfaces(), ChunkArea)
    }
  }

  /** The first pass after n steps, starting from int.MinValue. */
  function RunningMax(s: seq<int>, n: int): int
    requires 0 <= n <= |s|
  {
    if n == 0 then MinInt32
    else
      var m := RunningMax(s, n - 1);
      if s[n - 1] > m then s[n - 1] else m
  }

  /**
   * The running maximum is the maximum of the first n values, or
   * int.MinValue when every one of them lies below it.
   */
  lemma {:induction false} RunningMaxIsMaximum(s: seq<int>, n: int)
    requires 0 <= n <= |s|
    ensures RunningMax(s, n) >= MinInt32
    ensures forall k :: 0 <= k < n ==> s[k] <= RunningMax(s, n)
    ensures RunningMax(s, n) == MinInt32 || exists k :: 0 <= k < n && s[k] == RunningMax(s, n)
  {
    if n > 0 {
      RunningMaxIsMaximum(s, n - 1);
    }
  }

  /** Step lx * 32 + lz of the first pass visits column (lx, lz). */
  lemma SurfaceInLoopOrder(cm: ChunkMaps, lx: int, lz: int)
    requires cm.Valid() && 0 <= lx < ChunkSize && 0 <= lz < ChunkSize
    ensures cm.Surfaces()[lx * ChunkSize + lz] == cm.SurfaceAt(lx, lz)
  {
    var k := lx * ChunkSize + lz;
    assert k / ChunkSize == lx && k % ChunkSize == lz;
  }

  /** Every column's surface lies at or below maxY. */
  lemma MaxYBoundsEveryColumn(cm: ChunkMaps, lx: int, lz: int, ids: BlockIds)
    requires cm.Valid() && 0 <= lx < ChunkSize && 0 <= lz < ChunkSize
    ensures cm.ColumnAt(lx, lz, ids).surface <= cm.MaxY()
  {
    RunningMaxIsMaximum(cm.Surfaces(), ChunkArea);
    SurfaceInLoopOrder(cm, lx, lz);
  }
}
