/** Fixed-width integer types of the .NET runtime. */
module Primitives {

  /** System.Byte */
  newtype byte = b: int | 0 <= b < 0x100

  /** System.Int32 */
  newtype int32 = x: int | -0x8000_0000 <= x < 0x8000_0000

  /** Number of distinct System.UInt32 values; an unchecked (UInt32) cast is a reduction modulo this. */
  const UInt32Range: nat := 0x1_0000_0000

  /** The unchecked C# cast (UInt32)x of an Int32 value. */
  function ToUInt32(x: int32): (u: nat)
    ensures u < UInt32Range
    ensures x >= 0 ==> u == x as nat
    ensures x < 0 ==> u == x as int + UInt32Range
  {
    (x as int) % UInt32Range
  }
}
