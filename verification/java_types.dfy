/** The Java primitive types the codecs carry, with their widths made explicit. */
module JavaTypes {

  const MinInt32: int := -0x8000_0000
  const MaxInt32: int := 0x7fff_ffff
  const MinLong: int := -0x8000_0000_0000_0000
  const MaxLong: int := 0x7fff_ffff_ffff_ffff

  /** A Java `int`. */
  type Int32 = x: int | MinInt32 <= x <= MaxInt32

  /** A Java `long`. */
  type Long = x: int | MinLong <= x <= MaxLong

  /** A Java `float`, kept opaque: only its IEEE-754 bit pattern is visible
      and no arithmetic is done on it. Two floats are equal when their bit
      patterns are. */
  datatype Float32 = Float32(bits: bv32)

  /** `0.0f`, whose bit pattern is all zeros. */
  const ZeroFloat: Float32 := Float32(0)
}
