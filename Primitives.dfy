/** Machine types of the firmware and the small helpers every other module uses. */
module Primitives {

  /** A byte on the UART (C `uint8_t`). */
  newtype uint8 = x: int | 0 <= x < 0x100

  /** A C `int` on the target (32-bit two's complement). */
  newtype int32 = x: int | -0x8000_0000 <= x < 0x8000_0000

  predicate IsInt32(x: int) {
    -0x8000_0000 <= x < 0x8000_0000
  }

  datatype Option<T> = None | Some(value: T)

  /** The clamp written as `(v < lo) ? lo : (v > hi) ? hi : v`, which is also
      what `std::clamp(v, lo, hi)` returns; `std::clamp` demands `lo <= hi`. */
  function Clamp(v: int, lo: int, hi: int): (r: int)
    requires lo <= hi
    ensures lo <= r <= hi
    ensures lo <= v <= hi ==> r == v
    ensures v < lo ==> r == lo
    ensures hi < v ==> r == hi
  {
    if v < lo then lo else if v > hi then hi else v
  }
}
