/** Octets, and the explicit narrowing of an integer to one. */
module Bytes {
  type byte = b: int | 0 <= b < 256

  /** `static_cast<unsigned char>` of a non-negative integer. */
  function Narrow(n: nat): byte {
    n % 256
  }
}
