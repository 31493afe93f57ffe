/** The range of a signed 64-bit integer. */
module Int64 {
  const I64_MIN := -0x8000_0000_0000_0000
  const I64_MAX := 0x7fff_ffff_ffff_ffff
}
