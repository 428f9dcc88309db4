/**
 * The fixed-width integers of the C++ code and the conversions between them.
 * Dafny's integers are unbounded; every wrap-around is written out here.
 */
module CInt {

  type Int32 = x: int | -0x8000_0000 <= x < 0x8000_0000
  type Uint32 = x: int | 0 <= x < 0x1_0000_0000

  /** The largest unsigned 32-bit value. */
  const MaxUint32: Uint32 := 0xFFFF_FFFF

  /** Conversion of an integer to unsigned int (reduction modulo 2^32). */
  function ToUint32(v: int): Uint32
  {
    v % 0x1_0000_0000
  }

  /** Conversion of an unsigned int to int or GLint/GLsizei (two's complement). */
  function ToInt32(v: Uint32): Int32
  {
    if v < 0x8000_0000 then v else v - 0x1_0000_0000
  }

  /** Narrowing of a wider integer (a size_t, an unsigned expression) to a 32-bit int. */
  function NarrowToInt32(v: int): Int32
  {
    ToInt32(ToUint32(v))
  }

  /** Narrowing keeps every value that fits in 32 bits, and only those. */
  lemma NarrowExact(v: int)
    ensures NarrowToInt32(v) == v <==> -0x8000_0000 <= v < 0x8000_0000
  {
  }
}
