/** Clock times: 64 bits, the largest value meaning "none", with sums and differences that
    wrap around. */
module ClockTime {
  const NONE: Time := 0xFFFF_FFFF_FFFF_FFFF
  const RANGE := 0x1_0000_0000_0000_0000
  const MSECOND := 1_000_000

  type Time = x: int | 0 <= x < 0x1_0000_0000_0000_0000

  function Add(a: Time, b: Time): Time { if a + b >= RANGE then a + b - RANGE else a + b }

  function Sub(a: Time, b: Time): Time { if a < b then a - b + RANGE else a - b }
}
