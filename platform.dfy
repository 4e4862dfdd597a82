/** Integer and byte types of the 64-bit targets the plugin is built for. */
module Platform {

  type Byte = bv8

  /** SIZE_T and `unsigned long long`: 64-bit unsigned integers. */
  type SizeT = n: nat | n < 0x1_0000_0000_0000_0000

  /** int32, the type of compression levels. */
  type Int32 = x: int | -0x8000_0000 <= x < 0x8000_0000

  function Min(a: int, b: int): (m: int) {
    if a <= b then a else b
  }
}
