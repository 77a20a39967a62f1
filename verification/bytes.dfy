/** Byte-level vocabulary of the driver. The C code moves register contents as
    `uint8_t` bit patterns (`bv8` here). Its read primitive hands them out as
    `int8_t`, the same eight bits read as a two's-complement number; callers
    that store the result back into a `uint8_t` get the bits back unchanged,
    so the model keeps the bits and reads them as signed only where the C code
    compares or classifies the signed value. */
module Bytes {

  /** The values of C's `int8_t`. */
  type Int8 = x: int | -128 <= x < 128

  /** The `uint8_t` to `int8_t` conversion: the unique signed byte with the
      same residue modulo 256 (so the same bit pattern). */
  function ToSigned(b: bv8): (x: Int8)
    ensures x % 256 == b as int
    ensures x < 0 <==> b & 0x80 != 0
  {
    if b < 0x80 then b as int else b as int - 256
  }

  /** The three-bit field in bits 4..6 of a byte. */
  function Field4to6(v: bv8): (f: bv8)
    ensures f < 8
  {
    (v >> 4) & 0x07
  }
}
