/** The Kotlin `Int` bit operations `transmit` uses, on 32-bit two's-complement values. */
module KotlinBits {

  /** The shift count of `x shl offset`: Kotlin keeps the low five bits of `offset`. */
  function ShiftCount(offset: int): (count: bv5)
    ensures count as int == offset % 32
  {
    (offset % 32) as bv5
  }

  /** `1 shl count`. */
  function Bit(count: bv5): bv32 {
    (1 as bv32) << count
  }

  /** Bit i of a 32-bit value is set. */
  predicate BitSet(x: bv32, i: bv5) {
    (x >> i) & 1 == 1
  }

  lemma BitSetZero(i: bv5)
    ensures !BitSet(0, i)
  {
  }

  lemma BitSetOr(x: bv32, y: bv32, i: bv5)
    ensures BitSet(x | y, i) <==> BitSet(x, i) || BitSet(y, i)
  {
  }

  lemma BitSetBit(count: bv5, i: bv5)
    ensures BitSet(Bit(count), i) <==> i == count
  {
  }

  /** Or-ing in `1 shl count` sets exactly that bit. */
  lemma BitSetOrBit(x: bv32, count: bv5, i: bv5)
    ensures BitSet(x | Bit(count), i) <==> BitSet(x, i) || i == count
  {
    BitSetOr(x, Bit(count), i);
    BitSetBit(count, i);
  }

  /** `x or (1 shl count)` when `pressed`, `x` otherwise. */
  function SetIf(x: bv32, pressed: bool, count: bv5): bv32 {
    if pressed then x | Bit(count) else x
  }

  /** Setting a bit adds exactly that bit. */
  lemma BitSetSetIf(x: bv32, pressed: bool, count: bv5, i: bv5)
    ensures BitSet(SetIf(x, pressed, count), i) <==> BitSet(x, i) || (pressed && i == count)
  {
    if pressed {
      BitSetOrBit(x, count, i);
    }
  }

  /** An offset in 0..7 is its own shift count. */
  lemma SmallShiftCount(offset: int)
    requires 0 <= offset < 8
    ensures ShiftCount(offset) < 8
  {
  }

  /** Setting a bit below 8 keeps a value within a byte. */
  lemma SetIfBelowByte(x: bv32, pressed: bool, count: bv5)
    requires x < 256 && count < 8
    ensures SetIf(x, pressed, count) < 256
  {
  }
}
