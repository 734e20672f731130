/**
 * The fixed-width C integer types that basicmidi.h uses (`<stdint.h>` and
 * `int`), as ranges of unbounded integers, with the conversions C applies
 * between them written out explicitly.
 */
module CInt {

  const U64Modulus: int := 0x1_0000_0000_0000_0000
  const U32Modulus: int := 0x1_0000_0000
  const I32Max: int := 0x7FFF_FFFF

  type u8 = x: int | 0 <= x < 0x100
  type u16 = x: int | 0 <= x < 0x1_0000
  type i16 = x: int | -0x8000 <= x < 0x8000
  type u32 = x: int | 0 <= x < 0x1_0000_0000
  type i32 = x: int | -0x8000_0000 <= x < 0x8000_0000
  type u64 = x: int | 0 <= x < 0x1_0000_0000_0000_0000

  /**
   * Conversion of any integer to `uint64_t`: C reduces the value modulo
   * 2^64, so a negative `int` becomes a large unsigned value. Unsigned
   * 64-bit arithmetic wraps the same way.
   */
  function ToU64(x: int): (r: u64)
    ensures (r - x) % U64Modulus == 0
    ensures 0 <= x < U64Modulus ==> r == x
  {
    x % U64Modulus
  }

  /**
   * Conversion of an integer to 32-bit `int`. Out of range this is
   * implementation-defined in C; the model takes the two's-complement
   * reduction modulo 2^32 that GCC and Clang document.
   */
  function ToI32(x: int): (r: i32)
    ensures (r - x) % U32Modulus == 0
    ensures -I32Max - 1 <= x <= I32Max ==> r == x
  {
    var m := x % U32Modulus;
    if m <= I32Max then m else m - U32Modulus
  }
}
