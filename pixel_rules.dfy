/**
 * The per-pixel derivation rules of the five raster loaders
 * (HeightMap.cs, TopoMap.cs, BathymetryMap.cs, LandMaskMap.cs, LakeMaskMap.cs).
 *
 * The source rounds a float with Math.Round.  None of the three quotients
 * below can be exactly half-way between two integers (the numerator of the
 * doubled quotient is even, the denominator odd), and the float error is
 * far below the distance to a tie, so each rounding is the exact integer
 * "round half up" quotient written out here.
 */
module PixelRules {

  const SeaLevel: int := 110
  const HeightMaxHeight: int := 180
  const TopoMaxHeight: int := 250

  /** round(70 * r / 65535): HeightRange * (r / 65535.0f), HeightRange = 180 - 110. */
  function HeightFraction(r: int): (q: int)
    ensures 2 * 65535 * q - 65535 <= 2 * 70 * r < 2 * 65535 * q + 65535
  {
    (140 * r + 65535) / 131070
  }

  /** round(140 * r / 65535): HeightRange * (r / 65535.0f), HeightRange = 250 - 110. */
  function TopoFraction(r: int): (q: int)
    ensures 2 * 65535 * q - 65535 <= 2 * 140 * r < 2 * 65535 * q + 65535
  {
    (280 * r + 65535) / 131070
  }

  /** round(r / 257.0): a 16-bit channel rescaled to 8 bits. */
  function BathyFraction(r: int): (q: int)
    ensures 2 * 257 * q - 257 <= 2 * r < 2 * 257 * q + 257
  {
    (2 * r + 257) / 514
  }

  /**
   * No rounding above is a tie, so Math.Round's round-half-to-even and the
   * round-half-up quotients agree; the doubled distance to every half-way
   * point is at least 5, far above the float error of the source.
   */
  lemma RoundingNeverTies(r: int, k: int)
    ensures 2 * 70 * r - 65535 * (2 * k + 1) >= 5 || 2 * 70 * r - 65535 * (2 * k + 1) <= -5
    ensures 2 * 140 * r - 65535 * (2 * k + 1) >= 5 || 2 * 140 * r - 65535 * (2 * k + 1) <= -5
    ensures 2 * r != 257 * (2 * k + 1)
  {
    var d1 := 2 * 70 * r - 65535 * (2 * k + 1);
    var d2 := 2 * 140 * r - 65535 * (2 * k + 1);
    assert d1 == 5 * (28 * r - 13107 * (2 * k + 1));
    assert d2 == 5 * (56 * r - 13107 * (2 * k + 1));
    assert d1 != 0 && d2 != 0;
  }

  /**
   * HeightMap: 0 off land (land-cover red channel 0), sea level on a river,
   * otherwise sea level plus the rounded share of the 70-block height range,
   * floored at sea level.
   */
  function HeightOf(landR: int, river: int, r: int): int {
    if landR > 0 then
      if river > 0 then SeaLevel
      else
        var height := SeaLevel + HeightFraction(r);
        if height > SeaLevel then height else SeaLevel
    else 0
  }

  /** TopoMap: channel 0 means no data; the stored value is always one less. */
  function TopoOf(r: int): int {
    var height := if r > 0 then SeaLevel + TopoFraction(r) else 0;
    height - 1
  }

  /** BathymetryMap: the 16-bit channel rescaled to 0..255. */
  function BathymetryOf(r: int): int {
    BathyFraction(r)
  }

  lemma HeightOfWater(river: int, r: int)
    ensures HeightOf(0, river, r) == 0
  {
  }

  lemma HeightOfRiver(landR: int, river: int, r: int)
    requires landR > 0 && river > 0
    ensures HeightOf(landR, river, r) == SeaLevel
  {
  }

  /**
   * On dry land without a river the height is 110 + round(70 r / 65535), in
   * [110, 180]; the Math.Max floor never changes it.
   */
  lemma HeightOfLand(landR: int, river: int, r: int)
    requires landR > 0 && river <= 0 && 0 <= r <= 65535
    ensures HeightOf(landR, river, r) == SeaLevel + HeightFraction(r)
    ensures SeaLevel <= HeightOf(landR, river, r) <= HeightMaxHeight
    ensures r == 0 ==> HeightOf(landR, river, r) == SeaLevel
    ensures r == 65535 ==> HeightOf(landR, river, r) == HeightMaxHeight
  {
    assert 0 <= HeightFraction(r) <= 70;
  }

  lemma HeightOfMonotone(landR: int, river: int, r1: int, r2: int)
    requires 0 <= r1 <= r2
    ensures HeightOf(landR, river, r1) <= HeightOf(landR, river, r2)
  {
    assert HeightFraction(r1) <= HeightFraction(r2);
  }

  /** R = 0 is stored as -1; R > 0 as 110 + round(140 R / 65535) - 1, in [109, 249]. */
  lemma TopoOfRange(r: int)
    requires 0 <= r <= 65535
    ensures r == 0 ==> TopoOf(r) == -1
    ensures r > 0 ==> TopoOf(r) == SeaLevel + TopoFraction(r) - 1
    ensures r > 0 ==> SeaLevel - 1 <= TopoOf(r) <= TopoMaxHeight - 1
    ensures r == 65535 ==> TopoOf(r) == TopoMaxHeight - 1
  {
    assert 0 <= TopoFraction(r) <= 140;
  }

  lemma TopoOfMonotone(r1: int, r2: int)
    requires 0 <= r1 <= r2
    ensures TopoOf(r1) <= TopoOf(r2)
  {
    assert TopoFraction(r1) <= TopoFraction(r2);
    if r1 == 0 && r2 > 0 {
      assert TopoFraction(r2) >= 0;
    }
  }

  lemma BathymetryOfRange(r: int)
    requires 0 <= r <= 65535
    ensures 0 <= BathymetryOf(r) <= 255
    ensures BathymetryOf(r) == 0 <==> r < 129
  {
  }

  /** Every byte b survives the 8-to-16-bit widening R = 257 b and back. */
  lemma BathymetryRoundTrip(b: int)
    requires 0 <= b < 0x100
    ensures BathymetryOf(257 * b) == b
  {
  }

  lemma BathymetryOfMonotone(r1: int, r2: int)
    requires r1 <= r2
    ensures BathymetryOf(r1) <= BathymetryOf(r2)
  {
  }
}
