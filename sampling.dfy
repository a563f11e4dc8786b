/**
 * MapLayerFromImage (MapLayerFromImage.cs): the host asks for a sizeX x
 * sizeZ block of a layer at a zoom scale; each cell is sampled from the
 * region tiles, with an optional post-process hook.
 */
module Sampling {
  import opened Wrappers
  import opened CSharpInt
  import opened Tiles
  import opened TilePartition

  lemma MulLe(a: int, b: int, c: int)
    requires 0 <= a <= b && c >= 0
    ensures a * c <= b * c
  {
  }

  /** A decomposition a == b * q + r with 0 <= r < b is the Euclidean one. */
  lemma EuclideanRemainderUnique(a: int, b: int, q: int, r: int)
    requires b > 0 && a == b * q + r && 0 <= r < b
    ensures r == a % b
  {
    var k := q - a / b;
    assert b * k == a % b - r;
    if k >= 1 {
      MulLe(1, k, b);
    } else if k <= -1 {
      MulLe(1, -k, b);
    }
  }

  lemma Distribute(a: int, b: int, c: int)
    ensures a * c + b * c == (a + b) * c
  {
  }

  /** Where output cell (x, z) goes in the result array: z * sizeX + x. */
  function FlatIndex(x: int, z: int, sizeX: int, sizeZ: int): (k: int)
    requires 0 <= x < sizeX && 0 <= z < sizeZ
    ensures 0 <= k < sizeX * sizeZ
  {
    MulLe(z + 1, sizeZ, sizeX);
    z * sizeX + x
  }

  /** Distinct output cells have distinct slots, so no cell is overwritten. */
  lemma FlatIndexInjective(x1: int, z1: int, x2: int, z2: int, sizeX: int, sizeZ: int)
    requires 0 <= x1 < sizeX && 0 <= z1 < sizeZ && 0 <= x2 < sizeX && 0 <= z2 < sizeZ
    requires FlatIndex(x1, z1, sizeX, sizeZ) == FlatIndex(x2, z2, sizeX, sizeZ)
    ensures x1 == x2 && z1 == z2
  {
    if z1 < z2 {
      MulLe(z1 + 1, z2, sizeX);
    } else if z2 < z1 {
      MulLe(z2 + 1, z1, sizeX);
    }
  }

  class MapLayerFromImage {
    const sourceMap: Grid
    /** The host's region size: the side of a tile, as the hook sees it. */
    const regionSize: int
    /** The layer's zoom: one output cell per `scale` blocks. */
    const scale: int
    /** The post-process function, or None when the constructor got null. */
    const postProcess: Option<(int, int, int) -> int>

    predicate Valid() {
      Rectangular(sourceMap) && 0 < regionSize <= TileSize
    }

    constructor (sourceMap: Grid, regionSize: int, scale: int, postProcess: Option<(int, int, int) -> int>)
      requires Rectangular(sourceMap) && 0 < regionSize <= TileSize
      ensures Valid()
      ensures this.sourceMap == sourceMap && this.regionSize == regionSize
      ensures this.scale == scale && this.postProcess == postProcess
    {
      this.sourceMap := sourceMap;
      this.regionSize := regionSize;
      this.scale := scale;
      this.postProcess := postProcess;
    }

    /** The relative coordinate after the sign correction: the Euclidean remainder. */
    function Relative(block: int): (rel: int)
      requires Valid()
      ensures 0 <= rel < regionSize
      ensures rel == block % regionSize
    {
      var r := Rem(block, regionSize);
      var rel := if r < 0 then r + regionSize else r;
      var q := if r < 0 then Quot(block, regionSize) - 1 else Quot(block, regionSize);
      EuclideanRemainderUnique(block, regionSize, q, rel);
      rel
    }

    /**
     * The value of one sampled block: 0 outside the tile grid.  This is the
     * specification of SampleBlock, pinned down by the Sample lemmas below.
     */
    function Sample(blockX: int, blockZ: int): int
      requires Valid()
    {
      var regionX := Quot(blockX, regionSize);
      var regionZ := Quot(blockZ, regionSize);
      if !InGrid(sourceMap, regionX, regionZ) then 0
      else
        var raw := Get(sourceMap[regionX][regionZ], Relative(blockX), Relative(blockZ));
        match postProcess
        case None => raw
        case Some(f) => f(raw, blockX, blockZ)
    }

    /** Output cell (x, z) samples block ((xCoord + x) * scale, (zCoord + z) * scale). */
    function Cell(xCoord: int, zCoord: int, x: int, z: int): int
      requires Valid()
    {
      Sample((xCoord + x) * scale, (zCoord + z) * scale)
    }

    /** The body of GenLayer's inner loop for one block. */
    method SampleBlock(currentBlockX: int, currentBlockZ: int) returns (value: int)
      requires Valid()
      ensures value == Sample(currentBlockX, currentBlockZ)
    {
      var regionX := Quot(currentBlockX, regionSize);
      var regionZ := Quot(currentBlockZ, regionSize);
      if regionX < 0 || regionX >= |sourceMap| || regionZ < 0 || regionZ >= |sourceMap[0]| {
        return 0;
      }
      var regionMap := sourceMap[regionX][regionZ];
      var relativeX := Rem(currentBlockX, regionSize);
      var relativeZ := Rem(currentBlockZ, regionSize);
      if relativeX < 0 { relativeX := relativeX + regionSize; }
      if relativeZ < 0 { relativeZ := relativeZ + regionSize; }
      var rawValue := Get(regionMap, relativeX, relativeZ);
      value := if postProcess.Some? then postProcess.value(rawValue, currentBlockX, currentBlockZ) else rawValue;
    }

    /**
     * GenLayer: cell (x, z) of the result, at index z * sizeX + x, is the
     * sample of block ((xCoord + x) * scale, (zCoord + z) * scale).
     */
    method GenLayer(xCoord: int, zCoord: int, sizeX: int, sizeZ: int) returns (result: seq<int>)
      requires Valid() && sizeX >= 0 && sizeZ >= 0
      ensures |result| == sizeX * sizeZ
      ensures forall x, z :: 0 <= x < sizeX && 0 <= z < sizeZ ==>
                result[FlatIndex(x, z, sizeX, sizeZ)] == Cell(xCoord, zCoord, x, z)
    {
      var cells := new int[sizeX * sizeZ];
      var blockXStart := xCoord * scale;
      var blockZStart := zCoord * scale;
      for x := 0 to sizeX
        invariant forall x', z' :: 0 <= x' < x && 0 <= z' < sizeZ ==>
                    cells[FlatIndex(x', z', sizeX, sizeZ)] == Cell(xCoord, zCoord, x', z')
      {
        for z := 0 to sizeZ
          invariant forall x', z' :: 0 <= x' < x && 0 <= z' < sizeZ ==>
                      cells[FlatIndex(x', z', sizeX, sizeZ)] == Cell(xCoord, zCoord, x', z')
          invariant forall z' :: 0 <= z' < z ==>
                      cells[FlatIndex(x, z', sizeX, sizeZ)] == Cell(xCoord, zCoord, x, z')
        {
          Distribute(xCoord, x, scale);
          Distribute(zCoord, z, scale);
          var value := SampleBlock(blockXStart + x * scale, blockZStart + z * scale);
          var index := FlatIndex(x, z, sizeX, sizeZ);
          forall x', z' | 0 <= x' < sizeX && 0 <= z' < sizeZ && FlatIndex(x', z', sizeX, sizeZ) == index
            ensures x' == x && z' == z
          {
            FlatIndexInjective(x', z', x, z, sizeX, sizeZ);
          }
          cells[index] := value;
        }
      }
      result := cells[..];
    }

    /** Outside the tile grid a cell is 0 and the hook is not consulted. */
    lemma SampleOutsideGrid(blockX: int, blockZ: int)
      requires Valid()
      requires !InGrid(sourceMap, Quot(blockX, regionSize), Quot(blockZ, regionSize))
      ensures Sample(blockX, blockZ) == 0
    {
    }

    /** Without a hook, an in-range block reads exactly the stored tile cell. */
    lemma SampleIdentity(blockX: int, blockZ: int)
      requires Valid() && postProcess.None?
      requires blockX >= 0 && blockZ >= 0
      requires InGrid(sourceMap, blockX / regionSize, blockZ / regionSize)
      ensures Sample(blockX, blockZ) ==
              Get(sourceMap[blockX / regionSize][blockZ / regionSize], blockX % regionSize, blockZ % regionSize)
    {
      QuotRemOfNonNegative(blockX, regionSize);
      QuotRemOfNonNegative(blockZ, regionSize);
    }

    /** With a hook f, an in-range cell is f(raw, blockX, blockZ). */
    lemma SampleWithHook(blockX: int, blockZ: int)
      requires Valid() && postProcess.Some?
      requires InGrid(sourceMap, Quot(blockX, regionSize), Quot(blockZ, regionSize))
      ensures var raw := Get(sourceMap[Quot(blockX, regionSize)][Quot(blockZ, regionSize)],
                             blockX % regionSize, blockZ % regionSize);
              Sample(blockX, blockZ) == postProcess.value(raw, blockX, blockZ)
    {
    }

    /**
     * A block in (-regionSize, 0) falls in region 0 (the quotient truncates)
     * and is read at relative coordinate block + regionSize.
     */
    lemma NegativeBlockWrapsIntoRegionZero(block: int)
      requires Valid() && -regionSize < block < 0
      ensures Quot(block, regionSize) == 0 && Relative(block) == block + regionSize
    {
      QuotRemOfSmallNegative(block, regionSize);
    }
  }

  /**
   * Loading then sampling: a layer built by the partition pass, sampled
   * at scale 1 with region size 512 and no hook, gives back at each pixel
   * the value the loader derived from it.
   */
  lemma LoadThenSample(layer: MapLayerFromImage, img: Raster, rule: Rule,
                       xCoord: int, zCoord: int, x: int, z: int)
    requires RuleFits(rule, img) && IsPartition(layer.sourceMap, img, rule)
    requires layer.Valid() && layer.regionSize == TileSize && layer.scale == 1 && layer.postProcess.None?
    requires 0 <= xCoord + x < XRegions(img) * TileSize && 0 <= zCoord + z < ZRegions(img) * TileSize
    ensures var px, pz := xCoord + x, zCoord + z;
            layer.Cell(xCoord, zCoord, x, z) ==
              Derive(rule, img, px / TileSize, pz / TileSize, px % TileSize, pz % TileSize)
  {
    var px, pz := xCoord + x, zCoord + z;
    assert px / TileSize < XRegions(img) && pz / TileSize < ZRegions(img);
    layer.SampleIdentity(px, pz);
  }
}
