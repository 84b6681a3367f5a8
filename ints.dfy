/** Go's fixed-width integers, as the values reflection reads and the driver reports. */
module Ints {
  const INT64_MIN: int := -0x8000_0000_0000_0000
  const INT64_MAX: int := 0x7fff_ffff_ffff_ffff
  const UINT64_MAX: int := 0xffff_ffff_ffff_ffff

  /** Go's int64 and uint64. */
  type Int64 = x: int | INT64_MIN <= x <= INT64_MAX
  type Uint64 = x: int | 0 <= x <= UINT64_MAX
}
