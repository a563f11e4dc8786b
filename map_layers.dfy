/**
 * The MapLayers constructor (Map.cs): loads the layers in a fixed order;
 * the first loader that throws aborts the whole load.
 */
module MapLayers {
  import opened Wrappers
  import opened Tiles
  import opened DataMap
  import opened TilePartition
  import opened Loaders

  /** The tiled layers, each indexed [regionX][regionZ]. */
  datatype Layers = Layers(
    river: Grid,
    completeTopo: Grid,
    height: Grid,
    bathy: Grid,
    climate: Grid,
    tree: Grid,
    lakeMask: Grid,
    landMask: Grid)
  {
    /** Every layer has the tile-grid shape of the height layer. */
    predicate Valid() {
      var xr, zr := |height|, Depth(height);
      && ValidGrid(river, xr, zr) && ValidGrid(completeTopo, xr, zr) && ValidGrid(height, xr, zr)
      && ValidGrid(bathy, xr, zr) && ValidGrid(climate, xr, zr) && ValidGrid(tree, xr, zr)
      && ValidGrid(lakeMask, xr, zr) && ValidGrid(landMask, xr, zr)
    }
  }

  /** The decoded images behind the five loaders that are modelled. */
  datatype Images = Images(completeTopo: Raster, heightmap: Raster, bathymetry: Raster,
                           landmask: Raster, lakeMask: Raster)
  {
    predicate WellFormed() {
      && completeTopo.WellFormed() && heightmap.WellFormed() && bathymetry.WellFormed()
      && landmask.WellFormed() && lakeMask.WellFormed()
    }

    /** Every LoadBitmap call of the constructor, in the order they are made. */
    function CheckOrder(): seq<Raster> {
      [completeTopo, landmask, heightmap, landmask, bathymetry, lakeMask, landmask]
    }
  }

  /**
   * The constructor body.  The river, climate and tree layers come from
   * loaders that are not part of this model and are passed in already built.
   */
  method LoadLayers(imgs: Images, river: Grid, climate: Grid, tree: Grid, cfg: WorldConfig)
    returns (r: Result<Layers, LoadError>)
    requires imgs.WellFormed()
    requires ValidGrid(river, cfg.mapWidthBlocks / TileSize, cfg.mapHeightBlocks / TileSize)
    requires ValidGrid(climate, cfg.mapWidthBlocks / TileSize, cfg.mapHeightBlocks / TileSize)
    requires ValidGrid(tree, cfg.mapWidthBlocks / TileSize, cfg.mapHeightBlocks / TileSize)
    ensures r.Failure? <==> FirstLoadError(imgs.CheckOrder(), cfg).Some?
    ensures r.Failure? ==> r.error == FirstLoadError(imgs.CheckOrder(), cfg).value
    ensures r.Success? ==>
              && r.value.Valid()
              && r.value.river == river && r.value.climate == climate && r.value.tree == tree
              && IsTopoMap(r.value.completeTopo, imgs.completeTopo)
              && RuleFits(HeightRule(imgs.landmask, river), imgs.heightmap)
              && IsHeightMap(r.value.height, imgs.heightmap, imgs.landmask, river)
              && IsBathymetryMap(r.value.bathy, imgs.bathymetry)
              && IsMaskMap(r.value.lakeMask, imgs.lakeMask)
              && IsMaskMap(r.value.landMask, imgs.landmask)
  {
    ghost var order := imgs.CheckOrder();
    var topo := LoadTopoMap(imgs.completeTopo, imgs.landmask, cfg);
    if topo.Failure? {
      return Failure(topo.error);
    }
    var height := LoadHeightMap(imgs.heightmap, imgs.landmask, river, cfg);
    if height.Failure? {
      FirstLoadErrorSkipsLoaded(order, 2, cfg);
      assert order[2..][..2] == [imgs.heightmap, imgs.landmask];
      return Failure(height.error);
    }
    var bathy := LoadBathymetryMap(imgs.bathymetry, cfg);
    if bathy.Failure? {
      FirstLoadErrorSkipsLoaded(order, 4, cfg);
      return Failure(bathy.error);
    }
    var lake := LoadMaskMap(imgs.lakeMask, cfg);
    if lake.Failure? {
      FirstLoadErrorSkipsLoaded(order, 5, cfg);
      return Failure(lake.error);
    }
    var land := LoadMaskMap(imgs.landmask, cfg);
    FirstLoadErrorSkipsLoaded(order, 7, cfg);
    assert land.Success?;
    return Success(Layers(river, topo.value, height.value, bathy.value, climate, tree,
                          lake.value, land.value));
  }
}
