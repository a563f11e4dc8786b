/**
 * The five loader constructors: HeightMap, TopoMap, BathymetryMap,
 * LandMaskMap and LakeMaskMap.  Each runs LoadBitmap on its image (and the
 * height and topography loaders on the land-cover image as well), then the
 * partition pass with its own pixel rule.  A thrown exception is a Failure.
 */
module Loaders {
  import opened Wrappers
  import opened Tiles
  import opened PixelRules
  import opened DataMap
  import opened TilePartition

  ghost predicate IsHeightMap(g: Grid, img: Raster, landcover: Raster, rivers: Grid)
    requires RuleFits(HeightRule(landcover, rivers), img)
  {
    && ValidGrid(g, XRegions(img), ZRegions(img))
    && forall x, z, i, j :: InTile(img, x, z, i, j) ==>
         Get(g[x][z], i, j) ==
           HeightOf(landcover.red[x * TileSize + i][z * TileSize + j], Get(rivers[x][z], i, j),
                    img.red[x * TileSize + i][z * TileSize + j])
  }

  /** The land-cover image is checked and read, but plays no part in the value. */
  ghost predicate IsTopoMap(g: Grid, img: Raster)
    requires img.WellFormed()
  {
    && ValidGrid(g, XRegions(img), ZRegions(img))
    && forall x, z, i, j :: InTile(img, x, z, i, j) ==>
         Get(g[x][z], i, j) == TopoOf(img.red[x * TileSize + i][z * TileSize + j])
  }

  ghost predicate IsBathymetryMap(g: Grid, img: Raster)
    requires img.WellFormed()
  {
    && ValidGrid(g, XRegions(img), ZRegions(img))
    && forall x, z, i, j :: InTile(img, x, z, i, j) ==>
         Get(g[x][z], i, j) == BathymetryOf(img.red[x * TileSize + i][z * TileSize + j])
  }

  ghost predicate IsMaskMap(g: Grid, img: Raster)
    requires img.WellFormed()
  {
    && ValidGrid(g, XRegions(img), ZRegions(img))
    && forall x, z, i, j :: InTile(img, x, z, i, j) ==>
         Get(g[x][z], i, j) == img.red[x * TileSize + i][z * TileSize + j]
  }

  method LoadHeightMap(img: Raster, landcover: Raster, rivers: Grid, cfg: WorldConfig)
    returns (r: Result<Grid, LoadError>)
    requires img.WellFormed() && landcover.WellFormed()
    requires ValidGrid(rivers, cfg.mapWidthBlocks / TileSize, cfg.mapHeightBlocks / TileSize)
    ensures r.Failure? <==> FirstLoadError([img, landcover], cfg).Some?
    ensures r.Failure? ==> r.error == FirstLoadError([img, landcover], cfg).value
    ensures r.Success? ==> RuleFits(HeightRule(landcover, rivers), img) &&
                           IsHeightMap(r.value, img, landcover, rivers)
  {
    var checked := LoadBitmap(img, cfg);
    if checked.Failure? {
      return Failure(checked.error);
    }
    var landcoverChecked := LoadBitmap(landcover, cfg);
    if landcoverChecked.Failure? {
      return Failure(landcoverChecked.error);
    }
    var g := Partition(img, HeightRule(landcover, rivers));
    return Success(g);
  }

  method LoadTopoMap(img: Raster, landcover: Raster, cfg: WorldConfig)
    returns (r: Result<Grid, LoadError>)
    requires img.WellFormed() && landcover.WellFormed()
    ensures r.Failure? <==> FirstLoadError([img, landcover], cfg).Some?
    ensures r.Failure? ==> r.error == FirstLoadError([img, landcover], cfg).value
    ensures r.Success? ==> IsTopoMap(r.value, img)
  {
    var checked := LoadBitmap(img, cfg);
    if checked.Failure? {
      return Failure(checked.error);
    }
    var landcoverChecked := LoadBitmap(landcover, cfg);
    if landcoverChecked.Failure? {
      return Failure(landcoverChecked.error);
    }
    var g := Partition(img, TopoRule(landcover));
    return Success(g);
  }

  method LoadBathymetryMap(img: Raster, cfg: WorldConfig) returns (r: Result<Grid, LoadError>)
    requires img.WellFormed()
    ensures r.Failure? <==> !Loads(img, cfg)
    ensures r.Failure? ==> r == Failure(LoadBitmap(img, cfg).error)
    ensures r.Success? ==> IsBathymetryMap(r.value, img)
  {
    var checked := LoadBitmap(img, cfg);
    if checked.Failure? {
      return Failure(checked.error);
    }
    var g := Partition(img, BathymetryRule);
    return Success(g);
  }

  /** LandMaskMap and LakeMaskMap: two classes with the same constructor body. */
  method LoadMaskMap(img: Raster, cfg: WorldConfig) returns (r: Result<Grid, LoadError>)
    requires img.WellFormed()
    ensures r.Failure? <==> !Loads(img, cfg)
    ensures r.Failure? ==> r == Failure(LoadBitmap(img, cfg).error)
    ensures r.Success? ==> IsMaskMap(r.value, img)
  {
    var checked := LoadBitmap(img, cfg);
    if checked.Failure? {
      return Failure(checked.error);
    }
    var g := Partition(img, RedChannelRule);
    return Success(g);
  }

  predicate ChannelsWithin(img: Raster, bound: int) {
    forall x, z :: 0 <= x < |img.red| && 0 <= z < |img.red[x]| ==> 0 <= img.red[x][z] < bound
  }

  /** On a 16-bit height channel every stored height is 0 (water) or in [110, 180]. */
  lemma HeightMapValues(g: Grid, img: Raster, landcover: Raster, rivers: Grid,
                        x: int, z: int, i: int, j: int)
    requires RuleFits(HeightRule(landcover, rivers), img) && IsHeightMap(g, img, landcover, rivers)
    requires ChannelsWithin(img, 0x1_0000)
    requires InTile(img, x, z, i, j)
    ensures Get(g[x][z], i, j) == 0 || SeaLevel <= Get(g[x][z], i, j) <= HeightMaxHeight
  {
    PixelInImage(img, x, z, i, j);
    var px, pz := x * TileSize + i, z * TileSize + j;
    var lcR, river := landcover.red[px][pz], Get(rivers[x][z], i, j);
    if lcR > 0 && river <= 0 {
      HeightOfLand(lcR, river, img.red[px][pz]);
    }
  }

  /** On an 8-bit channel every stored mask value is a byte. */
  lemma MaskMapValues(g: Grid, img: Raster, x: int, z: int, i: int, j: int)
    requires img.WellFormed() && IsMaskMap(g, img)
    requires ChannelsWithin(img, 0x100)
    requires InTile(img, x, z, i, j)
    ensures 0 <= Get(g[x][z], i, j) < 0x100
  {
    PixelInImage(img, x, z, i, j);
  }
}
