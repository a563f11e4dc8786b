/**
 * The shared partition pass of the five loader constructors: an image of
 * W x H pixels becomes a (W/512) x (H/512) grid of 512 x 512 tiles, cell
 * (i, j) of tile (x, z) derived from pixel (x*512 + i, z*512 + j).
 * The loaders differ only in the per-pixel rule.
 */
module TilePartition {
  import opened Tiles
  import opened PixelRules

  /** Which loader is running, with the extra inputs its rule reads. */
  datatype Rule =
    | HeightRule(landcover: Raster, rivers: Grid)
    | TopoRule(landcover: Raster)
    | BathymetryRule
    | RedChannelRule

  function XRegions(img: Raster): int { img.width / TileSize }
  function ZRegions(img: Raster): int { img.height / TileSize }

  /** What a rule needs to read every pixel of the image. */
  predicate RuleFits(rule: Rule, img: Raster) {
    && img.WellFormed()
    && match rule
       case HeightRule(lc, rivers) =>
         && lc.WellFormed() && lc.width == img.width && lc.height == img.height
         && ValidGrid(rivers, XRegions(img), ZRegions(img))
       case TopoRule(lc) =>
         lc.WellFormed() && lc.width == img.width && lc.height == img.height
       case _ => true
  }

  predicate InTile(img: Raster, x: int, z: int, i: int, j: int) {
    && 0 <= x < XRegions(img) && 0 <= z < ZRegions(img)
    && 0 <= i < TileSize && 0 <= j < TileSize
  }

  lemma PixelInImage(img: Raster, x: int, z: int, i: int, j: int)
    requires InTile(img, x, z, i, j)
    ensures 0 <= x * TileSize + i < img.width && 0 <= z * TileSize + j < img.height
  {
  }

  /** The value the loader stores for cell (i, j) of tile (x, z). */
  function Derive(rule: Rule, img: Raster, x: int, z: int, i: int, j: int): int
    requires RuleFits(rule, img) && InTile(img, x, z, i, j)
  {
    PixelInImage(img, x, z, i, j);
    var px, pz := x * TileSize + i, z * TileSize + j;
    match rule
    case HeightRule(lc, rivers) => HeightOf(lc.red[px][pz], Get(rivers[x][z], i, j), img.red[px][pz])
    case TopoRule(lc) => TopoOf(img.red[px][pz])
    case BathymetryRule => BathymetryOf(img.red[px][pz])
    case RedChannelRule => img.red[px][pz]
  }

  /** The tile grid a loader builds from an image with a rule. */
  ghost predicate IsPartition(g: Grid, img: Raster, rule: Rule)
    requires RuleFits(rule, img)
  {
    && ValidGrid(g, XRegions(img), ZRegions(img))
    && forall x, z, i, j :: InTile(img, x, z, i, j) ==> Get(g[x][z], i, j) == Derive(rule, img, x, z, i, j)
  }

  /**
   * One tile: `Data = new int[512 * 512]`, then SetInt(i, j, value) for every
   * i, j of the nested loops.
   */
  method FillTile(img: Raster, rule: Rule, x: int, z: int) returns (t: Tile)
    requires RuleFits(rule, img)
    requires 0 <= x < XRegions(img) && 0 <= z < ZRegions(img)
    ensures ValidTile(t)
    ensures forall i, j :: 0 <= i < TileSize && 0 <= j < TileSize ==> Get(t, i, j) == Derive(rule, img, x, z, i, j)
  {
    var data := new int[TileCells];
    for i := 0 to TileSize
      invariant forall i', j' :: 0 <= i' < i && 0 <= j' < TileSize ==>
                  data[CellIndex(i', j')] == Derive(rule, img, x, z, i', j')
    {
      for j := 0 to TileSize
        invariant forall i', j' :: 0 <= i' < i && 0 <= j' < TileSize ==>
                    data[CellIndex(i', j')] == Derive(rule, img, x, z, i', j')
        invariant forall j' :: 0 <= j' < j ==> data[CellIndex(i, j')] == Derive(rule, img, x, z, i, j')
      {
        data[CellIndex(i, j)] := Derive(rule, img, x, z, i, j);
      }
    }
    t := data[..];
  }

  /** The x/z loops over regions: `IntValues = new IntDataMap2D[xRegions][]` and so on. */
  method Partition(img: Raster, rule: Rule) returns (g: Grid)
    requires RuleFits(rule, img)
    ensures IsPartition(g, img, rule)
  {
    var xRegions := img.width / TileSize;
    var zRegions := img.height / TileSize;
    g := [];
    for x := 0 to xRegions
      invariant |g| == x
      invariant forall x' :: 0 <= x' < x ==> |g[x']| == zRegions
      invariant forall x', z' :: 0 <= x' < x && 0 <= z' < zRegions ==> ValidTile(g[x'][z'])
      invariant forall x', z', i, j :: 0 <= x' < x && InTile(img, x', z', i, j) ==>
                  Get(g[x'][z'], i, j) == Derive(rule, img, x', z', i, j)
    {
      var column: seq<Tile> := [];
      for z := 0 to zRegions
        invariant |column| == z
        invariant forall z' :: 0 <= z' < z ==> ValidTile(column[z'])
        invariant forall z', i, j :: 0 <= z' < z && InTile(img, x, z', i, j) ==>
                    Get(column[z'], i, j) == Derive(rule, img, x, z', i, j)
      {
        var t := FillTile(img, rule, x, z);
        column := column + [t];
      }
      g := g + [column];
    }
  }
}
