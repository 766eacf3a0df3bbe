/** Small shared vocabulary: Rust's `Option`, bytes and the unsigned
    integer ranges the source relies on. */
module Common {

  /** Rust's `Option<T>`. */
  datatype Option<+T> = None | Some(value: T)

  /** An 8-bit byte (`u8`). */
  type byte = x: int | 0 <= x < 256

  /** A 32-bit unsigned word (`u32`). */
  type u32 = x: int | 0 <= x < 0x1_0000_0000

  /** An `f32`, by its bit pattern: floating-point arithmetic is not
      modelled, only values that are stored and copied. */
  datatype F32 = F32(bits: u32)

  /** The bit pattern of `1.0_f32`. */
  const F32_ONE: F32 := F32(0x3F80_0000)

  /** The least significant byte of a word: Rust's `w as u8`. */
  function LowByte(w: u32): byte
  {
    w % 256
  }
}
