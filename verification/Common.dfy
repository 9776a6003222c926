/** What several modules share: optional values and the driver's integer widths. */
module Common {

  datatype Option<+T> = None | Some(value: T)

  const TWO_32: nat := 0x1_0000_0000
  const TWO_64: nat := 0x1_0000_0000_0000_0000
  const U64_MAX: nat := TWO_64 - 1
  const INT_MAX: nat := 0x7FFF_FFFF
  const INT_MIN: int := -0x8000_0000

  type U32 = x: nat | x < TWO_32
  type U64 = x: nat | x < TWO_64
  type S32 = x: int | INT_MIN <= x <= INT_MAX
}
