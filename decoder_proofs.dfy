/**
 * What the decoder's stored fields mean: each immediate the parsers store,
 * read as the C field type's value, against the immediate the RISC-V ISA
 * defines, and the dependence of the decoded format on the opcode alone.
 */
module DecoderProofs {
  import opened InstructionTypes
  import opened CInt
  import opened Rv32i
  import opened Decoder

  /**
   * parse_itype stores the I-immediate exactly: a 12-bit signed value,
   * negative exactly when inst[31] is set.
   */
  lemma ParseITypeImmediate(number: Word)
    ensures Int16Value(ParseIType(number).imm) == IImmediate(number)
    ensures -0x800 <= Int16Value(ParseIType(number).imm) < 0x800
    ensures Int16Value(ParseIType(number).imm) < 0 <==> number >= 0x8000_0000
  {
    IImmediateBitsShape(number);
    Int32ValueOfSignExtended(IImmediateBits(number));
    IImmediateRange(number);
  }

  /** parse_stype stores the S-immediate exactly: a 12-bit signed value, negative exactly when inst[31] is set. */
  lemma ParseSTypeImmediate(number: Word)
    ensures Int16Value(ParseSType(number).imm) == SImmediate(number)
    ensures -0x800 <= Int16Value(ParseSType(number).imm) < 0x800
    ensures Int16Value(ParseSType(number).imm) < 0 <==> number >= 0x8000_0000
  {
    SImmediateBitsShape(number);
    Int32ValueOfSignExtended(SImmediateBits(number));
    SImmediateRange(number);
  }

  /**
   * parse_btype stores the B-immediate exactly: an even offset in
   * [-4096, 4094], negative exactly when inst[31] is set.
   */
  lemma ParseBTypeImmediate(number: Word)
    ensures Int16Value(ParseBType(number).imm) == BImmediate(number)
    ensures -0x1000 <= Int16Value(ParseBType(number).imm) <= 0xFFE
    ensures Int16Value(ParseBType(number).imm) % 2 == 0
    ensures Int16Value(ParseBType(number).imm) < 0 <==> number >= 0x8000_0000
  {
    BImmediateBitsShape(number);
    Int32ValueOfSignExtended(BImmediateBits(number));
    BImmediateRange(number);
  }

  /**
   * parse_utype stores inst[31:12] read as a 20-bit two's-complement number,
   * negative exactly when inst[31] is set.
   */
  lemma ParseUTypeImmediate(number: Word)
    ensures Int32Value(ParseUType(number).imm) == UpperImmediate(number)
    ensures -0x8_0000 <= Int32Value(ParseUType(number).imm) < 0x8_0000
    ensures Int32Value(ParseUType(number).imm) < 0 <==> number >= 0x8000_0000
  {
    UpperImmediateRange(number);
  }

  /**
   * The int32_t parse_jtype builds from the int16_t `truncated` it holds and
   * the sign bit inst[31]: widened by sign extension, then with bits 31 to 24
   * set when inst[31] is set, which takes 2^24 off a non-negative value.
   */
  function WidenedJValue(signBit: bool, truncated: int): int
  {
    if signBit && truncated >= 0 then truncated - 0x100_0000 else truncated
  }

  /** The value parse_jtype stores: the J-immediate truncated to int16_t, then widened as above. */
  lemma ParseJTypeImmediate(number: Word)
    ensures Int32Value(ParseJType(number).imm)
            == WidenedJValue(number >= 0x8000_0000, Int16Value(Low16(JImmediateBits(number))))
  {
    WidenedValue(number >= 0x8000_0000, Low16(JImmediateBits(number)), ParseJType(number).imm);
  }

  /**
   * Hence parse_jtype stores the J-immediate exactly when it fits in an
   * int16_t, that is for jumps of less than 32 KiB either way, and a
   * different value for every longer jump.
   */
  lemma ParseJTypeMatchesIsa(number: Word)
    ensures Int32Value(ParseJType(number).imm) == JImmediate(number) <==> -0x8000 <= JImmediate(number) < 0x8000
  {
    ParseJTypeImmediate(number);
    TruncatedJImmediate(number);
    StoredMatchesIff(JImmediate(number), Int16Value(Low16(JImmediateBits(number))),
                     Int32Value(ParseJType(number).imm), number >= 0x8000_0000);
  }

  /** The J-immediate is a 21-bit value that its int16_t truncation keeps when it fits. */
  lemma TruncatedJImmediate(number: Word)
    ensures -0x10_0000 <= JImmediate(number) < 0x10_0000
    ensures -0x8000 <= JImmediate(number) < 0x8000 ==> Int16Value(Low16(JImmediateBits(number))) == JImmediate(number)
  {
    Int16CastKeepsSmallValues(JImmediateBits(number));
    JImmediateRange(number);
  }

  /**
   * The arithmetic of ParseJTypeMatchesIsa: a 21-bit value j, its truncation
   * t, and the value stored from t and the sign of j.
   */
  lemma StoredMatchesIff(j: int, t: int, stored: int, negative: bool)
    requires -0x10_0000 <= j < 0x10_0000 && -0x8000 <= t < 0x8000
    requires -0x8000 <= j < 0x8000 ==> t == j
    requires negative <==> j < 0
    requires stored == WidenedJValue(negative, t)
    ensures stored == j <==> -0x8000 <= j < 0x8000
  {
  }

  /** What parse_jtype does keep: the stored offset is even, and negative whenever inst[31] is set. */
  lemma ParseJTypeImmediateShape(number: Word)
    ensures Int32Value(ParseJType(number).imm) % 2 == 0
    ensures number >= 0x8000_0000 ==> Int32Value(ParseJType(number).imm) < 0
  {
    ParseJTypeImmediate(number);
    JWidenedEven(number >= 0x8000_0000, Low16(JImmediateBits(number)));
    Int32ValueEven(ParseJType(number).imm);
  }

  /** A jump of 64 KiB forward (JAL x0 with only imm[16] set) is stored as a jump of 0. */
  lemma ParseJTypeLosesBit16()
    ensures JImmediate(0x0001_006F) == 0x1_0000
    ensures Int32Value(ParseJType(0x0001_006F).imm) == 0
  {
    ParseJTypeImmediate(0x0001_006F);
  }

  /** The all-zero J-immediate (the word 0x6F, JAL x0 0) is stored as 0. */
  lemma ParseJTypeZero()
    ensures Int32Value(ParseJType(0x6F).imm) == 0
  {
    ParseJTypeImmediate(0x6F);
  }

  /** Two words with the same opcode decode to the same format. */
  lemma DecodeFormatDependsOnlyOnOpcode(a: Word, b: Word)
    requires Opcode(a) == Opcode(b)
    ensures DecodeInstruction(a).R? == DecodeInstruction(b).R?
    ensures DecodeInstruction(a).I? == DecodeInstruction(b).I?
    ensures DecodeInstruction(a).S? == DecodeInstruction(b).S?
    ensures DecodeInstruction(a).B? == DecodeInstruction(b).B?
    ensures DecodeInstruction(a).U? == DecodeInstruction(b).U?
    ensures DecodeInstruction(a).J? == DecodeInstruction(b).J?
    ensures DecodeInstruction(a).Fence? == DecodeInstruction(b).Fence?
    ensures DecodeInstruction(a).Invalid? == DecodeInstruction(b).Invalid?
  {
  }

  /** The all-zero word is not an instruction. */
  lemma DecodeZeroIsInvalid()
    ensures DecodeInstruction(0) == Invalid
  {
  }

  // The value arithmetic behind ParseJTypeImmediate, on the int16_t that
  // parse_jtype widens and the sign bit it tests.

  lemma WidenedValue(negative: bool, narrowed: bv16, p: bv32)
    requires p == JWidened(negative, narrowed)
    ensures Int32Value(p) == WidenedJValue(negative, Int16Value(narrowed))
  {
    if !negative {
      SignExtend16Value(narrowed);
    } else if narrowed >= 0x8000 {
      NegativeWidening(narrowed);
      SignExtend16Value(narrowed);
    } else {
      PositiveWidening(narrowed);
      TruncatedValue(p, narrowed);
    }
  }

  lemma JWidenedEven(negative: bool, narrowed: bv16)
    requires narrowed & 1 == 0
    ensures JWidened(negative, narrowed) & 1 == 0
  {
  }

  /** Setting bits 31 to 24 changes nothing in a widened negative int16_t ... */
  lemma NegativeWidening(narrowed: bv16)
    requires narrowed >= 0x8000
    ensures SignExtend16(narrowed) | 0xFF00_0000 == SignExtend16(narrowed)
  {
  }

  /** ... but turns a widened non-negative one into an int32_t below -2^23. */
  lemma PositiveWidening(narrowed: bv16)
    requires narrowed < 0x8000
    ensures SignExtend16(narrowed) | 0xFF00_0000 == ((0xFF00 as bv32) << 16) | narrowed as bv32
  {
  }

  lemma TruncatedValue(p: bv32, narrowed: bv16)
    requires narrowed < 0x8000 && p == ((0xFF00 as bv32) << 16) | narrowed as bv32
    ensures Int32Value(p) == Int16Value(narrowed) - 0x100_0000
  {
    Halves(p, 0xFF00, narrowed);
    Int16ValueOf0xFF00();
  }
}
