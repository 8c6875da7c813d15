/** Octets, fixed-width integers and digests. */
module Bytes {
  type byte = b: int | 0 <= b < 256
  type u32 = n: int | 0 <= n < 0x1_0000_0000
  type u64 = n: int | 0 <= n < 0x1_0000_0000_0000_0000

  const DIGEST_LENGTH := 32

  /** The raw output of SHA-256. */
  type Digest = d: seq<byte> | |d| == DIGEST_LENGTH witness seq(DIGEST_LENGTH, i => 0)
}
