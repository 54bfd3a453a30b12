/** Fixed-width integers of the C# source.
    Every narrow field is an unbounded `int` restricted to its range, and every
    cast or compound assignment that can overflow goes through an explicit
    two's-complement wrap (C# arithmetic is unchecked by default). */
module Bits {

  type SByte = x: int | -0x80 <= x < 0x80
  type Byte = x: int | 0 <= x < 0x100
  type Short = x: int | -0x8000 <= x < 0x8000
  type UShort = x: int | 0 <= x < 0x1_0000
  type Int32 = x: int | -0x8000_0000 <= x < 0x8000_0000

  /** `(sbyte)x`: keeps the low 8 bits, read as a signed number. */
  function Wrap8(x: int): (r: SByte)
    ensures (x - r) % 0x100 == 0
    ensures -0x80 <= x < 0x80 ==> r == x
    ensures -0x180 <= x < -0x80 ==> r == x + 0x100
    ensures 0x80 <= x < 0x180 ==> r == x - 0x100
  {
    (x + 0x80) % 0x100 - 0x80
  }

  /** `(short)x`: keeps the low 16 bits, read as a signed number. */
  function Wrap16(x: int): (r: Short)
    ensures (x - r) % 0x1_0000 == 0
    ensures -0x8000 <= x < 0x8000 ==> r == x
    ensures -0x1_8000 <= x < -0x8000 ==> r == x + 0x1_0000
    ensures 0x8000 <= x < 0x1_8000 ==> r == x - 0x1_0000
  {
    (x + 0x8000) % 0x1_0000 - 0x8000
  }

  /** `(int)x` on a wider value: keeps the low 32 bits, read as a signed number. */
  function Wrap32(x: int): (r: Int32)
    ensures (x - r) % 0x1_0000_0000 == 0
    ensures -0x8000_0000 <= x < 0x8000_0000 ==> r == x
    ensures -0x1_8000_0000 <= x < -0x8000_0000 ==> r == x + 0x1_0000_0000
    ensures 0x8000_0000 <= x < 0x1_8000_0000 ==> r == x - 0x1_0000_0000
  {
    (x + 0x8000_0000) % 0x1_0000_0000 - 0x8000_0000
  }

  /** `Math.Abs` on a value that cannot overflow it. */
  function Abs(x: int): (r: nat)
    ensures r == x || r == -x
  {
    if x < 0 then -x else x
  }
}
