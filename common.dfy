/** C integer widths and the Option wrapper shared by every module of the model. */
module Common {

  /** unsigned char */
  type Byte = x: int | 0 <= x < 0x100
  /** unsigned short */
  type UShort = x: int | 0 <= x < 0x1_0000
  /** unsigned int (32 bits) */
  type UInt = x: int | 0 <= x < 0x1_0000_0000
  /** size_t (64 bits) */
  type Size = x: int | 0 <= x < 0x1_0000_0000_0000_0000

  const SIZE_MODULUS: int := 0x1_0000_0000_0000_0000
  const SIZE_MAX: Size := 0xFFFF_FFFF_FFFF_FFFF

  /** Conversion of a C integer value to size_t: arithmetic modulo 2^64. */
  function ToSize(x: int): (r: Size)
    ensures 0 <= x < SIZE_MODULUS ==> r == x
    ensures (x - r) % SIZE_MODULUS == 0
  {
    x % SIZE_MODULUS
  }

  datatype Option<T> = None | Some(value: T)

  function Min(a: int, b: int): int { if a <= b then a else b }
  function Max(a: int, b: int): int { if a >= b then a else b }
}
