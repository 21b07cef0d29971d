/** The fixed-width integers of the Go runtime that the core relies on. */
module Ints {

  const TwoTo63: int := 0x8000_0000_0000_0000
  const TwoTo64: int := 0x1_0000_0000_0000_0000

  /** Go's `byte`: one element of an instruction stream or of a string. */
  newtype byte = x: int | 0 <= x < 0x100

  /** Go's `int64`, the payload of an Integer object. */
  newtype int64 = x: int | -0x8000_0000_0000_0000 <= x < 0x8000_0000_0000_0000

  /**
   * Two's-complement reduction of an unbounded integer to 64 bits: what Go's
   * int64 addition does on overflow and what a conversion `int64(n)` does.
   */
  function Wrap64(x: int): (r: int64)
    ensures (r as int - x) % TwoTo64 == 0
    ensures -TwoTo63 <= x < TwoTo63 ==> r as int == x
  {
    var m := x % TwoTo64;
    assert x == TwoTo64 * (x / TwoTo64) + m;
    if m < TwoTo63 then m as int64 else (m - TwoTo64) as int64
  }
}
