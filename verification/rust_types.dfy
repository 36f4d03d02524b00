/** The Rust scalar types the records use, as bounded integers. */
module RustTypes {

  type Int32 = x: int | -0x8000_0000 <= x < 0x8000_0000

  type Int64 = x: int | -0x8000_0000_0000_0000 <= x < 0x8000_0000_0000_0000

  type Uint16 = x: int | 0 <= x < 0x1_0000

  /** An `f32` value, idealised as an exact real: episode numbers are compared
      for equality and order only, so rounding, NaN and infinities are not modelled. */
  type Float = real
}
