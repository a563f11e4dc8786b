/**
 * Region tiles and raster images.
 *
 * A tile is the host's IntDataMap2D with Size 512: a flat array of 512*512
 * ints, cell (x, z) stored at index z*512 + x (GetInt and SetInt).  Tiles
 * are never changed after loading, so they are modelled as values.  A
 * tiled layer (`IntDataMap2D[][]`) is a grid indexed [regionX][regionZ].
 */
module Tiles {
  import opened Wrappers

  const TileSize: int := 512
  const TileCells: int := 512 * 512

  type Tile = seq<int>

  type Grid = seq<seq<Tile>>

  predicate ValidTile(t: Tile) {
    |t| == TileCells
  }

  /** The flat index of cell (x, z) in a tile. */
  function CellIndex(x: int, z: int): (k: int)
    requires 0 <= x < TileSize && 0 <= z < TileSize
    ensures 0 <= k < TileCells
    ensures k / TileSize == z && k % TileSize == x
  {
    z * TileSize + x
  }

  /** Each flat index belongs to exactly one cell: the cell loops write each entry once. */
  lemma CellIndexBijective(k: int)
    requires 0 <= k < TileCells
    ensures 0 <= k % TileSize < TileSize && 0 <= k / TileSize < TileSize
    ensures CellIndex(k % TileSize, k / TileSize) == k
    ensures forall x, z :: 0 <= x < TileSize && 0 <= z < TileSize && CellIndex(x, z) == k ==>
              x == k % TileSize && z == k / TileSize
  {
  }

  /** IntDataMap2D.GetInt(x, z). */
  function Get(t: Tile, x: int, z: int): int
    requires ValidTile(t) && 0 <= x < TileSize && 0 <= z < TileSize
  {
    t[CellIndex(x, z)]
  }

  /**
   * GetInt called with coordinates that may lie outside [0, 512): the array
   * access checks only the flat index, so a negative x reads a cell of the
   * previous row, and a negative flat index throws (None).
   */
  function GetUnchecked(t: Tile, x: int, z: int): (v: Option<int>)
    requires ValidTile(t)
    ensures 0 <= x < TileSize && 0 <= z < TileSize ==> v == Some(Get(t, x, z))
  {
    var k := z * TileSize + x;
    if 0 <= k < TileCells then Some(t[k]) else None
  }

  /** A grid of xRegions columns of zRegions tiles each. */
  predicate ValidGrid(g: Grid, xRegions: int, zRegions: int) {
    && |g| == xRegions
    && forall x :: 0 <= x < |g| ==>
         && |g[x]| == zRegions
         && forall z :: 0 <= z < zRegions ==> ValidTile(g[x][z])
  }

  /** The number of tile rows, read as `IntValues[0].Length` by the source. */
  function Depth(g: Grid): nat {
    if |g| == 0 then 0 else |g[0]|
  }

  predicate Rectangular(g: Grid) {
    ValidGrid(g, |g|, Depth(g))
  }

  /**
   * The bounds check the source repeats before every tile lookup:
   * `rx < 0 || rx >= IntValues.Length || rz < 0 || rz >= IntValues[0].Length`.
   */
  predicate InGrid(g: Grid, rx: int, rz: int) {
    0 <= rx < |g| && 0 <= rz < |g[0]|
  }

  /** A decoded image, reduced to its red channel: red[x][z] is pixel (x, z). */
  datatype Raster = Raster(width: nat, height: nat, red: seq<seq<int>>) {
    predicate WellFormed() {
      |red| == width && forall x :: 0 <= x < width ==> |red[x]| == height
    }
  }
}
