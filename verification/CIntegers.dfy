/** C integer conversions: fixed widths with the wrap-around written out. */
module CIntegers {
  const TWO_16 := 0x1_0000
  const TWO_31 := 0x8000_0000
  const TWO_32 := 0x1_0000_0000

  type U16 = x: int | 0 <= x < TWO_16
  type U32 = x: int | 0 <= x < TWO_32
  type I32 = x: int | -TWO_31 <= x < TWO_31

  function ToU16(x: int): U16 {
    x % TWO_16
  }

  function ToU32(x: int): U32 {
    x % TWO_32
  }

  function ToI32(x: int): I32 {
    var u := x % TWO_32;
    if u < TWO_31 then u else u - TWO_32
  }

  /** A conversion to the other signedness and back changes nothing. */
  lemma ThereAndBack(i: I32, u: U32)
    ensures ToI32(ToU32(i)) == i
    ensures ToU32(ToI32(u)) == u
  {
  }

  /** Equal as 32-bit patterns. */
  predicate Same32(x: int, y: int) {
    (x - y) % TWO_32 == 0
  }

  /** Conversions keep the pattern. */
  lemma ConversionsKeep(x: int)
    ensures Same32(ToU32(x), x) && Same32(ToI32(x), x)
  {
  }
}
