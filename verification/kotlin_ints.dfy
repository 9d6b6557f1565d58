/** Kotlin's fixed-width integer types, which every counter of the game uses. */
module KotlinInts {

  const MIN_INT: int := -0x8000_0000
  const MAX_INT: int := 0x7fff_ffff

  /** Kotlin `Int`: a 32-bit two's-complement integer. */
  newtype Int32 = x: int | -0x8000_0000 <= x < 0x8000_0000

  /** Kotlin `Long`: a 64-bit two's-complement integer. */
  newtype Int64 = x: int | -0x8000_0000_0000_0000 <= x < 0x8000_0000_0000_0000

  /** The value of an `Int` operation whose exact mathematical result is `x`:
      `x` modulo 2^32, read back as a signed number. */
  function Wrap32(x: int): (r: Int32)
    ensures MIN_INT <= x <= MAX_INT ==> r as int == x
    ensures x == MAX_INT + 1 ==> r as int == MIN_INT
  {
    ((x - MIN_INT) % 0x1_0000_0000 + MIN_INT) as Int32
  }
}
