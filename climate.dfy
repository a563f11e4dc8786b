/**
 * The two post-process hooks of Climate.cs, handed to MapLayerFromImage
 * for the climate and forest layers.
 *
 * The multipliers are doubles and the double-to-byte casts after them are
 * not modelled: each `(byte)(multi * v)` is a function given by the
 * configuration.
 */
module Climate {
  import opened Wrappers
  import opened CSharpInt
  import opened Tiles

  /** The region size the forest hook assumes. */
  const RegionSize: int := 512

  datatype ClimateConfig = ClimateConfig(
    temperatureAdd: Byte,
    precipitationAdd: Byte,
    /** byte(TemperatureMulti * b) */
    temperatureMulti: Byte -> Byte,
    /** byte(PrecipitationMulti * b) */
    precipitationMulti: Byte -> Byte)

  datatype ForestConfig = ForestConfig(
    forestAdd: Byte,
    /** byte(ForestMulti * v), applied to the raw int value */
    forestMulti: int -> Byte)

  /** A C# exception escaping the hook. */
  datatype Fault = IndexOutOfRange

  /** `(byte)((val >> 16) & 0xFF)`: the red channel, read as temperature. */
  function Temperature(val: int): Byte {
    (val / 0x1_0000) % 0x100
  }

  /** `(byte)((val >> 8) & 0xFF)`: the green channel, read as precipitation. */
  function Precipitation(val: int): Byte {
    (val / 0x100) % 0x100
  }

  /** The result packs the scaled channels back at bits 16-23 and 8-15, blue 0. */
  function ClimatePostProcess(cfg: ClimateConfig, val: int, blockX: int, blockZ: int): (rgb: int)
    ensures 0 <= rgb < 0x100_0000 && rgb % 0x100 == 0
    ensures rgb / 0x1_0000 == cfg.temperatureMulti(AddByte(Temperature(val), cfg.temperatureAdd))
    ensures (rgb / 0x100) % 0x100 == cfg.precipitationMulti(AddByte(Precipitation(val), cfg.precipitationAdd))
  {
    var red := AddByte(Temperature(val), cfg.temperatureAdd);
    var green := AddByte(Precipitation(val), cfg.precipitationAdd);
    var red' := cfg.temperatureMulti(red);
    var green' := cfg.precipitationMulti(green);
    var rgb := red';
    var rgb' := rgb * 0x100 + green';
    rgb' * 0x100 + 0
  }

  /** Quotient and remainder by one of the two channel divisors are unique. */
  lemma DivModUnique(n: int, d: int, q: int, r: int)
    requires d == 0x100 || d == 0x1_0000
    requires n == d * q + r && 0 <= r < d
    ensures n / d == q && n % d == r
  {
    if d == 0x100 {
      assert n == 0x100 * q + r;
    } else {
      assert n == 0x1_0000 * q + r;
    }
  }

  /** Both channels are functions of bits 8-23 alone. */
  lemma ChannelsOfMiddleBits(val: int)
    ensures Temperature(val) == ((val / 0x100) % 0x1_0000) / 0x100
    ensures Precipitation(val) == ((val / 0x100) % 0x1_0000) % 0x100
  {
    var q, r0 := val / 0x100, val % 0x100;
    var m := q % 0x1_0000;
    var a := q / 0x1_0000;
    assert q == 0x1_0000 * a + m;
    DivModUnique(q, 0x100, 0x100 * a + m / 0x100, m % 0x100);
    DivModUnique(val, 0x1_0000, q / 0x100, 0x100 * (q % 0x100) + r0);
    DivModUnique(q / 0x100, 0x100, a, m / 0x100);
  }

  /** Bits 0-7 and 24 upwards of the input, and the block position, do not matter. */
  lemma ClimateReadsOnlyBits8To23(cfg: ClimateConfig, v1: int, v2: int,
                                  x1: int, z1: int, x2: int, z2: int)
    requires (v1 / 0x100) % 0x1_0000 == (v2 / 0x100) % 0x1_0000
    ensures ClimatePostProcess(cfg, v1, x1, z1) == ClimatePostProcess(cfg, v2, x2, z2)
  {
    ChannelsOfMiddleBits(v1);
    ChannelsOfMiddleBits(v2);
  }

  /** Both multipliers 1.0 and both additions 0: bits 8-23 kept, the low byte cleared. */
  lemma ClimateNeutralConfig(cfg: ClimateConfig, val: int, blockX: int, blockZ: int)
    requires cfg.temperatureAdd == 0 && cfg.precipitationAdd == 0
    requires forall b: Byte :: cfg.temperatureMulti(b) == b && cfg.precipitationMulti(b) == b
    ensures ClimatePostProcess(cfg, val, blockX, blockZ) == ((val / 0x100) % 0x1_0000) * 0x100
  {
    ChannelsOfMiddleBits(val);
    var m := (val / 0x100) % 0x1_0000;
    assert m == (m / 0x100) * 0x100 + m % 0x100;
  }

  /**
   * ForestPostProcess.  Region and relative coordinates use C#'s truncating
   * `/` and `%`, and negative remainders are not corrected.
   */
  function ForestPostProcess(landMask: Grid, cfg: ForestConfig, val: int, blockX: int, blockZ: int)
    : (r: Result<int, Fault>)
    requires Rectangular(landMask)
    ensures r.Success? ==> 0 <= r.value < 0x100
  {
    var regionX := Quot(blockX, RegionSize);
    var regionZ := Quot(blockZ, RegionSize);
    var relativeX := Rem(blockX, RegionSize);
    var relativeZ := Rem(blockZ, RegionSize);
    if !InGrid(landMask, regionX, regionZ) then Success(0)
    else match GetUnchecked(landMask[regionX][regionZ], relativeX, relativeZ)
      case None => Failure(IndexOutOfRange)
      case Some(landmaskValue) =>
        if landmaskValue == 0 then Success(0)
        else
          var trees := ToByte(val);
          var trees' := AddByte(trees, cfg.forestAdd);
          var trees'' := cfg.forestMulti(val);
          Success(trees'')
  }

  lemma ForestOutsideMap(landMask: Grid, cfg: ForestConfig, val: int, blockX: int, blockZ: int)
    requires Rectangular(landMask)
    requires !InGrid(landMask, Quot(blockX, RegionSize), Quot(blockZ, RegionSize))
    ensures ForestPostProcess(landMask, cfg, val, blockX, blockZ) == Success(0)
  {
  }

  /**
   * For non-negative blocks inside the map the hook never throws: water
   * (land mask 0) has no trees, land gets byte(ForestMulti * val).
   */
  lemma ForestInsideMap(landMask: Grid, cfg: ForestConfig, val: int, blockX: int, blockZ: int)
    requires Rectangular(landMask)
    requires blockX >= 0 && blockZ >= 0
    requires InGrid(landMask, blockX / RegionSize, blockZ / RegionSize)
    ensures var land := Get(landMask[blockX / RegionSize][blockZ / RegionSize], blockX % RegionSize, blockZ % RegionSize);
            ForestPostProcess(landMask, cfg, val, blockX, blockZ) ==
              if land == 0 then Success(0) else Success(cfg.forestMulti(val))
  {
    QuotRemOfNonNegative(blockX, RegionSize);
    QuotRemOfNonNegative(blockZ, RegionSize);
  }

  /** ForestAdd is computed and then overwritten: it never affects the result. */
  lemma ForestIgnoresForestAdd(landMask: Grid, add1: Byte, add2: Byte, multi: int -> Byte,
                               val: int, blockX: int, blockZ: int)
    requires Rectangular(landMask)
    ensures ForestPostProcess(landMask, ForestConfig(add1, multi), val, blockX, blockZ) ==
            ForestPostProcess(landMask, ForestConfig(add2, multi), val, blockX, blockZ)
  {
  }

  /**
   * A block in (-512, 0) on the x axis lands in region 0 with a negative
   * relative x: on the first row of a tile the read throws, on any other row
   * it reads the land mask of cell (blockX + 512, row - 1) instead.
   */
  lemma ForestNegativeBlockX(landMask: Grid, cfg: ForestConfig, val: int, blockX: int, blockZ: int)
    requires Rectangular(landMask)
    requires -RegionSize < blockX < 0 && blockZ >= 0
    requires InGrid(landMask, 0, blockZ / RegionSize)
    ensures blockZ % RegionSize == 0 ==>
              ForestPostProcess(landMask, cfg, val, blockX, blockZ) == Failure(IndexOutOfRange)
    ensures blockZ % RegionSize > 0 ==>
              var land := Get(landMask[0][blockZ / RegionSize], blockX + RegionSize, blockZ % RegionSize - 1);
              ForestPostProcess(landMask, cfg, val, blockX, blockZ) ==
                if land == 0 then Success(0) else Success(cfg.forestMulti(val))
  {
    QuotRemOfSmallNegative(blockX, RegionSize);
    QuotRemOfNonNegative(blockZ, RegionSize);
    var rz := blockZ % RegionSize;
    if rz > 0 {
      assert rz * TileSize + blockX == CellIndex(blockX + RegionSize, rz - 1);
    }
  }

  /**
   * A block in (-512, 0) on the z axis lands in region row 0 with a negative
   * relative z: the flat index relativeZ * 512 + relativeX is always
   * negative, so the read always throws.
   */
  lemma ForestNegativeBlockZ(landMask: Grid, cfg: ForestConfig, val: int, blockX: int, blockZ: int)
    requires Rectangular(landMask)
    requires blockX >= 0 && -RegionSize < blockZ < 0
    requires InGrid(landMask, blockX / RegionSize, 0)
    ensures ForestPostProcess(landMask, cfg, val, blockX, blockZ) == Failure(IndexOutOfRange)
  {
    QuotRemOfNonNegative(blockX, RegionSize);
    QuotRemOfSmallNegative(blockZ, RegionSize);
    assert blockZ * TileSize + blockX % RegionSize < 0;
  }

  /**
   * The forest hook as its failsafe intends it: floor division puts every
   * negative block outside the map, so every block off the map has no
   * trees and no read leaves the tile.
   */
  function ForestPostProcessIntended(landMask: Grid, cfg: ForestConfig, val: int, blockX: int, blockZ: int)
    : (r: int)
    requires Rectangular(landMask)
    ensures 0 <= r < 0x100
  {
    var regionX := blockX / RegionSize;
    var regionZ := blockZ / RegionSize;
    if !InGrid(landMask, regionX, regionZ) then 0
    else
      var landmaskValue := Get(landMask[regionX][regionZ], blockX % RegionSize, blockZ % RegionSize);
      if landmaskValue == 0 then 0 else cfg.forestMulti(val)
  }

  /** Every block off the map, negative ones included, gets no trees. */
  lemma ForestIntendedOffMap(landMask: Grid, cfg: ForestConfig, val: int, blockX: int, blockZ: int)
    requires Rectangular(landMask)
    requires blockX < 0 || blockZ < 0 ||
             blockX >= |landMask| * RegionSize || blockZ >= Depth(landMask) * RegionSize
    ensures ForestPostProcessIntended(landMask, cfg, val, blockX, blockZ) == 0
  {
    if blockX >= |landMask| * RegionSize {
      assert blockX / RegionSize >= |landMask|;
    }
    if blockZ >= Depth(landMask) * RegionSize {
      assert blockZ / RegionSize >= Depth(landMask);
    }
  }

  /** On non-negative blocks the source and the intended hook agree, and the source never throws. */
  lemma ForestIntendedAgrees(landMask: Grid, cfg: ForestConfig, val: int, blockX: int, blockZ: int)
    requires Rectangular(landMask) && blockX >= 0 && blockZ >= 0
    ensures ForestPostProcess(landMask, cfg, val, blockX, blockZ) ==
            Success(ForestPostProcessIntended(landMask, cfg, val, blockX, blockZ))
  {
    QuotRemOfNonNegative(blockX, RegionSize);
    QuotRemOfNonNegative(blockZ, RegionSize);
  }

  /** Block (-1, 0), one block west of the map: the source throws, the intended hook gives 0. */
  lemma ForestFaultsWestOfOrigin(landMask: Grid, cfg: ForestConfig, val: int)
    requires Rectangular(landMask) && |landMask| > 0 && Depth(landMask) > 0
    ensures ForestPostProcess(landMask, cfg, val, -1, 0) == Failure(IndexOutOfRange)
    ensures ForestPostProcessIntended(landMask, cfg, val, -1, 0) == 0
  {
    ForestNegativeBlockX(landMask, cfg, val, -1, 0);
    ForestIntendedOffMap(landMask, cfg, val, -1, 0);
  }
}
