/** The fixed-width integers of the source (C# `ulong`, `long`, `int`) and its casts. */
module Numerics {

  const TWO_TO_THE_32: int := 0x1_0000_0000
  const TWO_TO_THE_64: int := 0x1_0000_0000_0000_0000
  const INT_MIN: int := -0x8000_0000
  const INT_MAX: int := 0x7FFF_FFFF

  /** C# `ulong`: steam ids and discord ids. */
  type ULong = x: int | 0 <= x < TWO_TO_THE_64

  /** C# `int`: link codes. */
  type Int32 = x: int | INT_MIN <= x <= INT_MAX

  /** Unchecked C# `int` arithmetic: the mathematical value wrapped into 32 bits. */
  function Wrap32(x: int): (r: Int32)
    ensures (r - x) % TWO_TO_THE_32 == 0
    ensures INT_MIN <= x <= INT_MAX ==> r == x
  {
    var m := (x - INT_MIN) % TWO_TO_THE_32;
    m + INT_MIN
  }

  /** The C# cast `(int) x` of a real: truncation toward zero. */
  function Truncate(x: real): (r: int)
    ensures x >= 0.0 ==> r as real <= x < r as real + 1.0
    ensures x < 0.0 ==> r as real - 1.0 < x <= r as real
  {
    if x >= 0.0 then x.Floor else -((-x).Floor)
  }
}
