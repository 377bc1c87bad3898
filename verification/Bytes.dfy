/** Byte strings, Go's fixed-width integers and the results shared by every module. */
module Bytes {

  type byte = b: int | 0 <= b < 256
  type bytes = seq<byte>

  const TWO_31: int := 0x8000_0000
  const TWO_32: int := 0x1_0000_0000
  const TWO_63: int := 0x8000_0000_0000_0000
  const TWO_64: int := 0x1_0000_0000_0000_0000
  const TWO_256: int := 0x1_0000_0000_0000_0000_0000_0000_0000_0000_0000_0000_0000_0000_0000_0000_0000_0000

  /** The largest Go `int`, and so the longest Go slice. */
  const MAX_INT: int := 0x7FFF_FFFF_FFFF_FFFF

  type uint32 = n: int | 0 <= n < TWO_32
  type uint64 = n: int | 0 <= n < TWO_64
  type uint256 = n: int | 0 <= n < TWO_256
  type int32 = n: int | -TWO_31 <= n < TWO_31

  /** The conversions `int32(x)` and `int64(x)`: keep the low bits, read them in two's complement. */
  function AsInt32(n: nat): int32 {
    var low := n % TWO_32;
    if low < TWO_31 then low else low - TWO_32
  }

  function AsInt64(n: nat): int {
    var low := n % TWO_64;
    if low < TWO_63 then low else low - TWO_64
  }

  /** The conversion `uint64(x)` of a signed 32-bit value: the sign is extended. */
  function SignExtend(n: int32): uint64 {
    if n < 0 then n + TWO_64 else n
  }

  datatype Option<+T> = None | Some(value: T)

  datatype Error =
    | IntOverflow
    | UnexpectedEOF
    | InvalidLength
    | UnexpectedEndOfGroup
    | IllegalWireType
    | EndGroupForNonGroup
    | IllegalTag
    | WrongWireType

  datatype Result<+T> = Ok(value: T) | Err(error: Error)
}
