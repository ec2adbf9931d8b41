/**
 * Fixed-width C integer types and the conversions between them that the
 * driver code relies on: unsigned arithmetic wraps modulo 2^N, and storing an
 * unsigned value into a signed object of the same width reinterprets it in
 * two's complement (what GCC and Clang do for this implementation-defined
 * conversion).
 */
module CTypes {

  const TWO_TO_THE_31: int := 0x8000_0000
  const TWO_TO_THE_32: int := 0x1_0000_0000
  const TWO_TO_THE_63: int := 0x8000_0000_0000_0000
  const TWO_TO_THE_64: int := 0x1_0000_0000_0000_0000

  type uint32 = x: int | 0 <= x < TWO_TO_THE_32
  type uint64 = x: int | 0 <= x < TWO_TO_THE_64
  type int64 = x: int | -TWO_TO_THE_63 <= x < TWO_TO_THE_63

  /** The value of an arbitrary integer once truncated to uint32_t. */
  function Wrap32(x: int): (r: uint32)
    ensures (r - x) % TWO_TO_THE_32 == 0
    ensures 0 <= x < TWO_TO_THE_32 ==> r == x
  {
    x % TWO_TO_THE_32
  }

  /** `(int32_t)x` for a uint32_t value `x`: the two's-complement reading. */
  function ToInt32(x: uint32): (r: int)
    ensures -TWO_TO_THE_31 <= r < TWO_TO_THE_31
    ensures Wrap32(r) == x
    ensures r < 0 <==> x >= TWO_TO_THE_31
  {
    if x < TWO_TO_THE_31 then x else x - TWO_TO_THE_32
  }

  /** The value of an arbitrary integer once truncated to uint64_t. */
  function Wrap64(x: int): (r: uint64)
    ensures (r - x) % TWO_TO_THE_64 == 0
    ensures 0 <= x < TWO_TO_THE_64 ==> r == x
  {
    x % TWO_TO_THE_64
  }

  /** A uint64_t value stored into an int64_t object: the two's-complement reading. */
  function ToInt64(x: uint64): (r: int64)
    ensures Wrap64(r) == x
    ensures x < TWO_TO_THE_63 ==> r == x
  {
    if x < TWO_TO_THE_63 then x else x - TWO_TO_THE_64
  }

  /**
   * An integer that fits in int64_t survives the trip through uint64_t
   * arithmetic and back: the wrap-around is invisible.
   */
  lemma Int64RoundTrip(x: int)
    ensures -TWO_TO_THE_63 <= x < TWO_TO_THE_63 ==> ToInt64(Wrap64(x)) == x
  {
  }
}
