/**
 * The C integer conversions the decoder relies on, on two's-complement bit
 * patterns.  Where C leaves the result implementation-defined (right shift of
 * a negative int32_t, conversion of an out-of-range value to int16_t) this
 * module fixes the usual two's-complement behaviour: the shift copies the sign
 * bit, the conversion keeps the low 16 bits.
 *
 * A pattern's value is the weighted sum of its bits, so that facts about
 * values reduce to facts about single bits.
 */
module CInt {
  import opened InstructionTypes

  /** Bit `i` of `p`, as 0 or 1. */
  function Bit(p: bv16, i: bv16): (b: int)
    requires i < 16
    ensures 0 <= b <= 1
    ensures b == 1 <==> p & (1 << i) != 0
  {
    if p & (1 << i) == 0 then 0 else 1
  }

  /** The value of a uint16_t whose bits are `p`: bit i weighs 2^i. */
  function Uint16Value(p: bv16): (v: int)
    ensures 0 <= v < 0x1_0000
    ensures v < 0x8000 <==> p < 0x8000
  {
    assert Bit(p, 15) == 1 <==> p >= 0x8000;
    Low15Value(p) + 0x8000 * Bit(p, 15)
  }

  /** The weighted sum of bits 0 to 14. */
  function Low15Value(p: bv16): (v: int)
    ensures 0 <= v < 0x8000
  {
    Bit(p, 0) + 2 * Bit(p, 1) + 4 * Bit(p, 2) + 8 * Bit(p, 3)
    + 0x10 * Bit(p, 4) + 0x20 * Bit(p, 5) + 0x40 * Bit(p, 6) + 0x80 * Bit(p, 7)
    + 0x100 * Bit(p, 8) + 0x200 * Bit(p, 9) + 0x400 * Bit(p, 10) + 0x800 * Bit(p, 11)
    + 0x1000 * Bit(p, 12) + 0x2000 * Bit(p, 13) + 0x4000 * Bit(p, 14)
  }

  /** The value of an int16_t whose bits are `p`: bit 15 weighs -2^15. */
  function Int16Value(p: bv16): (v: i16)
    ensures v < 0 <==> p >= 0x8000
    ensures v == if p < 0x8000 then Uint16Value(p) else Uint16Value(p) - 0x1_0000
  {
    var u: int := Uint16Value(p);
    var sign: int := Bit(p, 15);
    assert sign == 1 <==> p >= 0x8000;
    u - 0x1_0000 * sign
  }

  /** The upper half of a 32-bit pattern. */
  function High16(p: bv32): bv16
  {
    (p >> 16) as bv16
  }

  /** The lower half of a 32-bit pattern. */
  function Low16(p: bv32): bv16
  {
    (p & 0xFFFF) as bv16
  }

  /**
   * The value of an int32_t whose bits are `p`: its upper half read as an
   * int16_t, scaled by 2^16, plus its lower half read unsigned.
   */
  function Int32Value(p: bv32): (v: i32)
    ensures v < 0 <==> p >= 0x8000_0000
  {
    var high: int := Int16Value(High16(p));
    var low: int := Uint16Value(Low16(p));
    HighHalfSign(p);
    Int32Range(high, low);
    high * 0x1_0000 + low
  }

  lemma HighHalfSign(p: bv32)
    ensures High16(p) >= 0x8000 <==> p >= 0x8000_0000
  {
  }

  lemma Int32Range(high: int, low: int)
    requires -0x8000 <= high < 0x8000 && 0 <= low < 0x1_0000
    ensures -0x8000_0000 <= high * 0x1_0000 + low < 0x8000_0000
    ensures high * 0x1_0000 + low < 0 <==> high < 0
  {
  }

  /** `(int32_t) p >> k`: shift right, filling the vacated bits with the sign bit. */
  function ArithmeticShiftRight(p: bv32, k: bv32): bv32
    requires k < 32
  {
    if p < 0x8000_0000 then p >> k else !(!p >> k)
  }

  /** Converting an int32_t to int16_t keeps every value int16_t can hold. */
  lemma Int16CastKeepsSmallValues(p: bv32)
    ensures -0x8000 <= Int32Value(p) < 0x8000 ==> Int16Value(Low16(p)) == Int32Value(p)
  {
    var high: int := Int16Value(High16(p));
    var low: int := Uint16Value(Low16(p));
    if -0x8000 <= Int32Value(p) < 0x8000 {
      SmallHalves(high, low);
    }
  }

  lemma SmallHalves(high: int, low: int)
    requires -0x8000 <= high < 0x8000 && 0 <= low < 0x1_0000
    requires -0x8000 <= high * 0x1_0000 + low < 0x8000
    ensures (high == 0 && low < 0x8000) || (high == -1 && low >= 0x8000)
  {
  }

  /** `(int32_t) x` for an int16_t `x` with bits `p`: bit 15 is copied into the upper half. */
  function SignExtend16(p: bv16): bv32
  {
    if p < 0x8000 then p as bv32 else 0xFFFF_0000 | p as bv32
  }

  /** Widening an int16_t to int32_t keeps its value. */
  lemma SignExtend16Value(p: bv16)
    ensures Int32Value(SignExtend16(p)) == Int16Value(p)
  {
    if p < 0x8000 {
      SignExtend16Positive(p, SignExtend16(p));
    } else {
      SignExtend16Negative(p, SignExtend16(p));
    }
  }

  lemma SignExtend16Positive(p: bv16, r: bv32)
    requires p < 0x8000 && r == p as bv32
    ensures Int32Value(r) == Int16Value(p)
  {
    Halves(r, 0, p);
    Int16ValueOfZero();
  }

  lemma SignExtend16Negative(p: bv16, r: bv32)
    requires p >= 0x8000 && r == 0xFFFF_0000 | p as bv32
    ensures Int32Value(r) == Int16Value(p)
  {
    Halves(r, 0xFFFF, p);
    Int16ValueOfAllOnes();
  }

  lemma Halves(r: bv32, high: bv16, low: bv16)
    requires r == ((high as bv32) << 16) | low as bv32
    ensures High16(r) == high && Low16(r) == low
  {
  }

  lemma Int16ValueOfZero()
    ensures Int16Value(0) == 0
  {
  }

  lemma Int16ValueOf0xFF00()
    ensures Int16Value(0xFF00) == -0x100
  {
  }

  lemma Int16ValueOfAllOnes()
    ensures Int16Value(0xFFFF) == -1
  {
  }

  /** `x & 0x1F` on an int16_t `x`: on a two's-complement pattern, keeping the low five bits takes the value modulo 32. */
  lemma LowFiveBitsAreModulo32(q: bv16)
    ensures Uint16Value(q & 0x1F) == Int16Value(q) % 32
  {
    var low := Uint16Value(q & 0x1F);
    var k := Bit(q, 5) + 2 * Bit(q, 6) + 4 * Bit(q, 7) + 8 * Bit(q, 8) + 0x10 * Bit(q, 9) + 0x20 * Bit(q, 10)
      + 0x40 * Bit(q, 11) + 0x80 * Bit(q, 12) + 0x100 * Bit(q, 13) + 0x200 * Bit(q, 14) - 0x400 * Bit(q, 15);
    LowFiveBits(q);
    assert Int16Value(q) == low + 32 * k;
    Modulo32(low, k);
  }

  lemma LowFiveBits(q: bv16)
    ensures Uint16Value(q & 0x1F) == Bit(q, 0) + 2 * Bit(q, 1) + 4 * Bit(q, 2) + 8 * Bit(q, 3) + 0x10 * Bit(q, 4)
  {
  }

  lemma Modulo32(low: int, k: int)
    requires 0 <= low < 32
    ensures (low + 32 * k) % 32 == low
  {
  }

  /** An int32_t whose lowest bit is clear holds an even value. */
  lemma Int32ValueEven(p: bv32)
    requires p & 1 == 0
    ensures Int32Value(p) % 2 == 0
  {
    assert Low16(p) & 1 == 0;
    UintEven(Low16(p));
    EvenSum(Int16Value(High16(p)), Uint16Value(Low16(p)));
  }

  lemma UintEven(q: bv16)
    requires q & 1 == 0
    ensures Uint16Value(q) % 2 == 0
  {
    assert Bit(q, 0) == 0;
  }

  lemma EvenSum(high: int, low: int)
    requires low % 2 == 0
    ensures (high * 0x1_0000 + low) % 2 == 0
  {
  }

  /** A pattern whose bits 15 to 11 agree holds a value that fits in 12 bits. */
  lemma Int16ValueFits12(q: bv16)
    requires q < 0x800 || q >= 0xF800
    ensures -0x800 <= Int16Value(q) < 0x800
  {
    if q < 0x800 {
      assert Uint16Value(q) < 0x800 by { UintBelow0x800(q); }
    } else {
      assert Uint16Value(q) >= 0xF800 by { UintAbove0xF800(q); }
    }
  }

  /** A pattern whose bits 15 to 12 agree holds a value that fits in 13 bits. */
  lemma Int16ValueFits13(q: bv16)
    requires q < 0x1000 || q >= 0xF000
    ensures -0x1000 <= Int16Value(q) < 0x1000
  {
    if q < 0x1000 {
      assert Uint16Value(q) < 0x1000 by { UintBelow0x1000(q); }
    } else {
      assert Uint16Value(q) >= 0xF000 by { UintAbove0xF000(q); }
    }
  }

  /** A 32-bit pattern whose bits 31 to 15 agree holds the value of its low half read as an int16_t. */
  lemma Int32ValueOfSignExtended(p: bv32)
    requires p < 0x8000 || p >= 0xFFFF_8000
    ensures Int32Value(p) == Int16Value(Low16(p))
  {
    if p < 0x8000 {
      PositiveLowHalf(p);
      SignExtend16Positive(Low16(p), p);
    } else {
      NegativeLowHalf(p);
      SignExtend16Negative(Low16(p), p);
    }
  }

  lemma PositiveLowHalf(p: bv32)
    requires p < 0x8000
    ensures Low16(p) < 0x8000 && p == Low16(p) as bv32
  {
  }

  lemma NegativeLowHalf(p: bv32)
    requires p >= 0xFFFF_8000
    ensures Low16(p) >= 0x8000 && p == 0xFFFF_0000 | Low16(p) as bv32
  {
  }

  /** A 32-bit pattern whose bits 31 to 11 agree holds a value that fits in 12 bits. */
  lemma Int32ValueFits12(p: bv32)
    requires p < 0x800 || p >= 0xFFFF_F800
    ensures -0x800 <= Int32Value(p) < 0x800
  {
    Int32ValueOfSignExtended(p);
    Int16ValueFits12(Low16(p));
  }

  /** A 32-bit pattern whose bits 31 to 12 agree holds a value that fits in 13 bits. */
  lemma Int32ValueFits13(p: bv32)
    requires p < 0x1000 || p >= 0xFFFF_F000
    ensures -0x1000 <= Int32Value(p) < 0x1000
  {
    Int32ValueOfSignExtended(p);
    Int16ValueFits13(Low16(p));
  }

  /** A 32-bit pattern whose bits 31 to 19 agree holds a value that fits in 20 bits. */
  lemma Int32ValueFits20(p: bv32)
    requires p < 0x8_0000 || p >= 0xFFF8_0000
    ensures -0x8_0000 <= Int32Value(p) < 0x8_0000
  {
    var high := High16(p);
    if p < 0x8_0000 {
      assert high < 8;
      assert Uint16Value(high) < 8 by { UintBelow8(high); }
    } else {
      assert high >= 0xFFF8;
      assert Uint16Value(high) >= 0xFFF8 by { UintAbove0xFFF8(high); }
    }
  }

  /** A 32-bit pattern whose bits 31 to 20 agree holds a value that fits in 21 bits. */
  lemma Int32ValueFits21(p: bv32)
    requires p < 0x10_0000 || p >= 0xFFF0_0000
    ensures -0x10_0000 <= Int32Value(p) < 0x10_0000
  {
    var high := High16(p);
    if p < 0x10_0000 {
      assert high < 0x10;
      assert Uint16Value(high) < 0x10 by { UintBelow0x10(high); }
    } else {
      assert high >= 0xFFF0;
      assert Uint16Value(high) >= 0xFFF0 by { UintAbove0xFFF0(high); }
    }
  }

  lemma UintBelow8(q: bv16)
    requires q < 8
    ensures Uint16Value(q) < 8
  {
  }

  lemma UintAbove0xFFF8(q: bv16)
    requires q >= 0xFFF8
    ensures Uint16Value(q) >= 0xFFF8
  {
  }

  lemma UintBelow0x10(q: bv16)
    requires q < 0x10
    ensures Uint16Value(q) < 0x10
  {
  }

  lemma UintAbove0xFFF0(q: bv16)
    requires q >= 0xFFF0
    ensures Uint16Value(q) >= 0xFFF0
  {
  }

  lemma UintBelow0x800(q: bv16)
    requires q < 0x800
    ensures Uint16Value(q) < 0x800
  {
  }

  lemma UintAbove0xF800(q: bv16)
    requires q >= 0xF800
    ensures Uint16Value(q) >= 0xF800
  {
  }

  lemma UintBelow0x1000(q: bv16)
    requires q < 0x1000
    ensures Uint16Value(q) < 0x1000
  {
  }

  lemma UintAbove0xF000(q: bv16)
    requires q >= 0xF000
    ensures Uint16Value(q) >= 0xF000
  {
  }
}
