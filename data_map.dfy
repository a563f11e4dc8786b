/**
 * DataMap.LoadBitmap (Map.cs): the dimension checks every raster goes
 * through before it is cut into region tiles.
 */
module DataMap {
  import opened Wrappers
  import opened Tiles

  /** The map extent from the configuration (MapWidthBlocks, MapHeightBlocks). */
  datatype WorldConfig = WorldConfig(mapWidthBlocks: int, mapHeightBlocks: int)

  /** The two InvalidOperationExceptions LoadBitmap throws. */
  datatype LoadError =
    | DimensionMismatch(width: int, height: int, cfgWidth: int, cfgHeight: int)
    | UnalignedDimensions

  /** LoadBitmap: the size check comes first, then the alignment check. */
  function LoadBitmap(img: Raster, cfg: WorldConfig): (r: Result<Raster, LoadError>)
    ensures r.Success? <==>
              && img.width == cfg.mapWidthBlocks && img.height == cfg.mapHeightBlocks
              && img.width % TileSize == 0 && img.height % TileSize == 0
    ensures r.Success? ==> r.value == img
    ensures img.width != cfg.mapWidthBlocks || img.height != cfg.mapHeightBlocks ==>
              r == Failure(DimensionMismatch(img.width, img.height, cfg.mapWidthBlocks, cfg.mapHeightBlocks))
    ensures r.Failure? && r.error == UnalignedDimensions ==>
              img.width == cfg.mapWidthBlocks && img.height == cfg.mapHeightBlocks
    ensures img.width == cfg.mapWidthBlocks && img.height == cfg.mapHeightBlocks &&
            (img.width % TileSize != 0 || img.height % TileSize != 0) ==>
              r == Failure(UnalignedDimensions)
  {
    if img.width != cfg.mapWidthBlocks || img.height != cfg.mapHeightBlocks then
      Failure(DimensionMismatch(img.width, img.height, cfg.mapWidthBlocks, cfg.mapHeightBlocks))
    else if img.width % 512 != 0 || img.height % 512 != 0 then
      Failure(UnalignedDimensions)
    else
      Success(img)
  }

  predicate Loads(img: Raster, cfg: WorldConfig) {
    LoadBitmap(img, cfg).Success?
  }

  /**
   * The error of the first image, in loading order, that LoadBitmap rejects;
   * None when every image passes.
   */
  function FirstLoadError(imgs: seq<Raster>, cfg: WorldConfig): (e: Option<LoadError>)
    ensures e.None? <==> forall k :: 0 <= k < |imgs| ==> Loads(imgs[k], cfg)
    ensures e.Some? ==> exists k :: 0 <= k < |imgs| && LoadBitmap(imgs[k], cfg) == Failure(e.value) &&
                                    forall k' :: 0 <= k' < k ==> Loads(imgs[k'], cfg)
  {
    if |imgs| == 0 then None
    else match LoadBitmap(imgs[0], cfg)
      case Failure(err) => Some(err)
      case Success(_) =>
        var rest := FirstLoadError(imgs[1..], cfg);
        assert forall k :: 1 <= k < |imgs| ==> imgs[k] == imgs[1..][k - 1];
        if rest.Some? then
          ghost var k :| 0 <= k < |imgs| - 1 && LoadBitmap(imgs[1..][k], cfg) == Failure(rest.value) &&
                         forall k' :: 0 <= k' < k ==> Loads(imgs[1..][k'], cfg);
          assert LoadBitmap(imgs[k + 1], cfg) == Failure(rest.value);
          assert forall k' :: 0 <= k' < k + 1 ==> Loads(imgs[k'], cfg) by {
            forall k' | 0 <= k' < k + 1 ensures Loads(imgs[k'], cfg) {
              if k' > 0 { assert imgs[k'] == imgs[1..][k' - 1]; }
            }
          }
          rest
        else
          rest
  }

  /** Images that load do not change which error is reported first. */
  lemma {:induction false} FirstLoadErrorSkipsLoaded(imgs: seq<Raster>, n: nat, cfg: WorldConfig)
    requires n <= |imgs|
    requires forall k :: 0 <= k < n ==> Loads(imgs[k], cfg)
    ensures FirstLoadError(imgs, cfg) == FirstLoadError(imgs[n..], cfg)
  {
    if n > 0 {
      assert Loads(imgs[0], cfg);
      assert imgs[1..][n - 1..] == imgs[n..];
      FirstLoadErrorSkipsLoaded(imgs[1..], n - 1, cfg);
    }
  }

  /**
   * A loaded image is covered exactly by its (W/512) x (H/512) tile grid:
   * pixel (px, pz) is cell (px % 512, pz % 512) of tile (px / 512, pz / 512),
   * and that tile exists.
   */
  lemma LoadedImageIsTiled(img: Raster, cfg: WorldConfig, px: int, pz: int)
    requires Loads(img, cfg)
    requires 0 <= px < img.width && 0 <= pz < img.height
    ensures (img.width / TileSize) * TileSize == img.width
    ensures (img.height / TileSize) * TileSize == img.height
    ensures 0 <= px / TileSize < img.width / TileSize && 0 <= pz / TileSize < img.height / TileSize
    ensures (px / TileSize) * TileSize + px % TileSize == px
    ensures (pz / TileSize) * TileSize + pz % TileSize == pz
  {
    assert img.width % TileSize == 0 && img.height % TileSize == 0;
    assert px / TileSize < img.width / TileSize by {
      assert px < (img.width / TileSize) * TileSize;
    }
    assert pz / TileSize < img.height / TileSize by {
      assert pz < (img.height / TileSize) * TileSize;
    }
  }
}
