/** Results and fixed-width words shared by every component. */
module Common {

  /** A call either completes with a value or reverts with an error. */
  datatype Result<+T, +E> = Ok(value: T) | Err(error: E)

  datatype Option<+T> = None | Some(value: T)

  type Byte = b: nat | b < 256

  /** 2^160 and 2^256, the number of addresses and of `uint256` values. */
  const TWO_160: nat := 0x1_0000000000_0000000000_0000000000_0000000000
  const TWO_256: nat := 0x1_00000000_00000000_00000000_00000000_00000000_00000000_00000000_00000000
  const UINT256_MAX: nat := TWO_256 - 1

  type Address = a: nat | a < TWO_160

  /** Solidity's `bytes32`, read as a big-endian number; `bytes32(0)` is 0. */
  type Bytes32 = n: nat | n < TWO_256
}
