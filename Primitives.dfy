/** Machine-level value types shared by every layer of the cache. */
module Primitives {

  /** One byte of a cached payload. */
  type byte = b: int | 0 <= b < 256

  /** A cached payload, `Vec<u8>` in the source. */
  type Bytes = seq<byte>

  /** One more than the largest `usize` on a 64-bit target. */
  const USIZE_BOUND: int := 0x1_0000_0000_0000_0000

  /** Rust's `usize` on a 64-bit target. */
  type usize = n: int | 0 <= n < USIZE_BOUND

  /** `a - b` on `usize` as a release build computes it: wrapping modulo 2^64. */
  function WrappingSub(a: usize, b: usize): (r: usize)
    ensures a >= b ==> r == a - b
    ensures a < b ==> r == USIZE_BOUND - (b - a)
  {
    (a - b) % USIZE_BOUND
  }
}
