/**
 * The pieces of C# integer semantics the engine relies on, written out
 * because Dafny's `int` is unbounded and its `/` and `%` are Euclidean.
 */
module CSharpInt {

  /** int.MinValue, the seed of the maximum search in Terrain.GenerateTerrain. */
  const MinInt32: int := -0x8000_0000

  type Byte = b: int | 0 <= b < 0x100

  /** C#'s `a / b` on int: the quotient truncated toward zero. */
  function Quot(a: int, b: int): (q: int)
    requires b > 0
    ensures a >= 0 ==> 0 <= a - b * q < b
    ensures a < 0 ==> -b < a - b * q <= 0
  {
    if a >= 0 then a / b else -((-a) / b)
  }

  /** C#'s `a % b` on int: the remainder takes the sign of the dividend. */
  function Rem(a: int, b: int): (r: int)
    requires b > 0
    ensures a == b * Quot(a, b) + r
    ensures a >= 0 ==> 0 <= r < b
    ensures a < 0 ==> -b < r <= 0
  {
    if a >= 0 then a % b else -((-a) % b)
  }

  /** An unchecked `(byte)` cast of an int: keep the low eight bits. */
  function ToByte(v: int): (b: Byte)
    ensures (v - b) % 0x100 == 0
    ensures 0 <= v < 0x100 ==> b == v
  {
    v % 0x100
  }

  /** An unchecked `(ushort)` cast of an int: keep the low sixteen bits. */
  function ToUShort(v: int): (u: int)
    ensures 0 <= u < 0x1_0000
    ensures (v - u) % 0x1_0000 == 0
    ensures 0 <= v < 0x1_0000 ==> u == v
  {
    v % 0x1_0000
  }

  /** Byte compound addition `b += a`: wraps modulo 256. */
  function AddByte(b: Byte, a: Byte): (s: Byte)
    ensures s == b + a || s == b + a - 0x100
    ensures b + a < 0x100 ==> s == b + a
  {
    ToByte(b + a)
  }

  /** Truncation and Euclidean division agree on non-negative dividends. */
  lemma QuotRemOfNonNegative(a: int, b: int)
    requires a >= 0 && b > 0
    ensures Quot(a, b) == a / b && Rem(a, b) == a % b
  {
  }

  /**
   * For a dividend in (-b, 0) the truncated quotient is 0, not -1, and the
   * remainder is the dividend itself.
   */
  lemma QuotRemOfSmallNegative(a: int, b: int)
    requires b > 0 && -b < a < 0
    ensures Quot(a, b) == 0 && Rem(a, b) == a
  {
  }
}
