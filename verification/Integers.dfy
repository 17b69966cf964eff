/** The fixed-width integers of the source language. */
module Integers {
  type Byte = x: int | 0 <= x < 0x100
  type UInt16 = x: int | 0 <= x < 0x1_0000
  type UInt32 = x: int | 0 <= x < 0x1_0000_0000
  type GInt = x: int | -0x8000_0000 <= x < 0x8000_0000
}
