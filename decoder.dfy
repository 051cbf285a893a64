/**
 * The decoding half of instruction_types.c: bit-field extraction, the six
 * format parsers and decode_instruction.  Every C integer is modelled by its
 * bit pattern (uint32_t and int32_t as bv32, uint16_t and int16_t as bv16,
 * uint8_t as bv8); the proofs that the stored patterns hold the values the
 * RISC-V ISA defines are in DecoderProofs.
 */
module Decoder {
  import opened InstructionTypes
  import opened CInt
  import opened Rv32i

  /**
   * extract_bits_to_char: the `length` bits of `number` starting at bit
   * `start`, narrowed to uint8_t.  The int32_t offsets are given by their bit
   * patterns; C leaves negative shifts and shifts by 32 or more undefined,
   * and `1 << 31` overflows, hence the bounds on `start` and `length`.
   */
  function ExtractBitsToChar(number: Word, start: bv32, length: bv32): (r: bv8)
    requires start < 32 && length < 31
    ensures length <= 8 ==> r as bv32 < 1 << length
  {
    var mask: bv32 := (1 << length) - 1;
    ((number >> start) & mask & 0xFF) as bv8
  }

  function ExtractOpcode(number: Word): (r: bv8)
    ensures r == Field(number, 6, 0) && r < 0x80
  {
    ExtractBitsToChar(number, 0, 7)
  }

  function ExtractRd(number: Word): (r: bv8)
    ensures r == Field(number, 11, 7) && r < 0x20
  {
    ExtractBitsToChar(number, 7, 5)
  }

  function ExtractFunct3(number: Word): (r: bv8)
    ensures r == Field(number, 14, 12) && r < 0x8
  {
    ExtractBitsToChar(number, 12, 3)
  }

  function ExtractRs1(number: Word): (r: bv8)
    ensures r == Field(number, 19, 15) && r < 0x20
  {
    ExtractBitsToChar(number, 15, 5)
  }

  function ExtractRs2(number: Word): (r: bv8)
    ensures r == Field(number, 24, 20) && r < 0x20
  {
    ExtractBitsToChar(number, 20, 5)
  }

  /** parse_rtype: the six fields of an R-type word. */
  function ParseRType(number: Word): (r: RType)
    ensures r.opcode == Field(number, 6, 0) && r.rd == Field(number, 11, 7) && r.funct3 == Field(number, 14, 12)
    ensures r.rs1 == Field(number, 19, 15) && r.rs2 == Field(number, 24, 20) && r.funct7 == Field(number, 31, 25)
  {
    RType(ExtractOpcode(number), ExtractRd(number), ExtractFunct3(number), ExtractRs1(number), ExtractRs2(number),
          ExtractBitsToChar(number, 25, 7))
  }

  /**
   * parse_itype: the immediate is the word shifted right arithmetically by
   * 20 (as an int32_t) and converted to int16_t, which keeps the low 16 bits
   * of the I-immediate.
   */
  function ParseIType(number: Word): (r: IType)
    ensures r.opcode == Field(number, 6, 0) && r.rd == Field(number, 11, 7) && r.funct3 == Field(number, 14, 12)
    ensures r.rs1 == Field(number, 19, 15) && r.imm == Low16(IImmediateBits(number))
  {
    IShiftIsImmediate(number);
    IType(ExtractOpcode(number), ExtractRd(number), ExtractFunct3(number), ExtractRs1(number),
          Low16(ArithmeticShiftRight(number, 20)))
  }

  /**
   * parse_stype: imm[11:5] and imm[4:0] are joined into an int16_t; when
   * imm[11] is set the upper four bits are filled with ones.  The join is an
   * int below 2^12, so its int16_t bits are those of the bv16 join here.
   */
  function ParseSType(number: Word): (r: SType)
    ensures r.opcode == Field(number, 6, 0) && r.funct3 == Field(number, 14, 12)
    ensures r.rs1 == Field(number, 19, 15) && r.rs2 == Field(number, 24, 20)
    ensures r.imm == Low16(SImmediateBits(number))
  {
    SPatternIsLowHalf(number);
    SType(ExtractOpcode(number), SImmediatePattern(number), ExtractFunct3(number), ExtractRs1(number), ExtractRs2(number))
  }

  /** The int16_t bits parse_stype builds. */
  function SImmediatePattern(number: Word): bv16
  {
    var imm11_5: bv16 := ((number >> 25) & 0x7F) as bv16;
    var imm4_0: bv16 := ((number >> 7) & 0x1F) as bv16;
    var imm: bv16 := (imm11_5 << 5) | imm4_0;
    if imm11_5 >> 6 != 0 then imm | 0xF000 else imm
  }

  /**
   * parse_btype: imm[11], imm[4:1], imm[10:5] and imm[12] are placed into an
   * int16_t; when imm[12] is set the upper four bits are filled with ones.
   */
  function ParseBType(number: Word): (r: BType)
    ensures r.opcode == Field(number, 6, 0) && r.funct3 == Field(number, 14, 12)
    ensures r.rs1 == Field(number, 19, 15) && r.rs2 == Field(number, 24, 20)
    ensures r.imm == Low16(BImmediateBits(number))
  {
    BPatternIsLowHalf(number);
    BType(ExtractOpcode(number), BImmediatePattern(number), ExtractFunct3(number), ExtractRs1(number), ExtractRs2(number))
  }

  /** The int16_t bits parse_btype builds. */
  function BImmediatePattern(number: Word): bv16
  {
    var imm11: bv16 := ((number >> 7) & 0x01) as bv16;
    var imm4_1: bv16 := ((number >> 8) & 0x0F) as bv16;
    var imm10_5: bv16 := ((number >> 25) & 0x3F) as bv16;
    var imm12: bv16 := ((number >> 31) & 0x01) as bv16;
    var imm: bv16 := (imm11 << 11) | (imm10_5 << 5) | (imm4_1 << 1) | (imm12 << 12);
    if imm12 != 0 then imm | 0xF000 else imm
  }

  /** parse_utype: the immediate is the word shifted right arithmetically by 12 (as an int32_t). */
  function ParseUType(number: Word): (r: UType)
    ensures r.opcode == Field(number, 6, 0) && r.rd == Field(number, 11, 7)
    ensures r.imm == UpperImmediateBits(number)
  {
    UShiftIsImmediate(number);
    UType(ExtractOpcode(number), ExtractRd(number), ArithmeticShiftRight(number, 12))
  }

  /**
   * parse_jtype: imm[20], imm[10:1], imm[11] and imm[19:12] are placed into
   * an int (the uint16_t pieces are promoted before shifting), the result is
   * converted to int16_t, which keeps only its low 16 bits, and widened again
   * into the int32_t field; when imm[20] is set, bits 31 to 24 are then set.
   * Bits 16 to 20 of the placed offset are lost on the way (see
   * DecoderProofs.ParseJTypeImmediate).
   */
  function ParseJType(number: Word): (r: JType)
    ensures r.opcode == Field(number, 6, 0) && r.rd == Field(number, 11, 7)
    ensures r.imm == JWidened(number >= 0x8000_0000, Low16(JImmediateBits(number)))
  {
    JNarrowedIsLowHalf(number);
    JPatternIsWidened(number);
    JType(ExtractOpcode(number), ExtractRd(number), JImmediatePattern(number))
  }

  /** The int16_t bits parse_jtype builds before widening them. */
  function JNarrowed(number: Word): bv16
  {
    var imm20: bv32 := (number >> 31) & 0x01;
    var imm10_1: bv32 := (number >> 21) & 0x3FF;
    var imm11: bv32 := (number >> 20) & 0x01;
    var imm19_12: bv32 := (number >> 12) & 0xFF;
    Low16((imm20 << 20) | (imm10_1 << 1) | (imm11 << 11) | (imm19_12 << 12))
  }

  /** The int32_t bits parse_jtype stores. */
  function JImmediatePattern(number: Word): bv32
  {
    var imm: bv32 := SignExtend16(JNarrowed(number));
    if (number >> 31) & 0x01 != 0 then imm | 0xFF00_0000 else imm
  }

  /**
   * The int16_t `narrowed` widened to int32_t, and bits 31 to 24 set when
   * `negative`: what parse_jtype stores, given the low half of the
   * J-immediate and its sign.
   */
  function JWidened(negative: bool, narrowed: bv16): bv32
  {
    if negative then SignExtend16(narrowed) | 0xFF00_0000 else SignExtend16(narrowed)
  }

  /**
   * decode_instruction: the opcode inst[6:0] alone selects the format; the
   * word is then parsed as that format.  FENCE carries no fields, and every
   * other opcode, word 0 among them, is invalid.
   */
  function DecodeInstruction(number: Word): (r: Instruction)
    ensures r.U? <==> Opcode(number) == OPCODE_LUI || Opcode(number) == OPCODE_AUIPC
    ensures r.J? <==> Opcode(number) == OPCODE_JAL
    ensures r.I? <==> Opcode(number) == OPCODE_JALR || Opcode(number) == OPCODE_LOAD
                      || Opcode(number) == OPCODE_OP_IMM || Opcode(number) == OPCODE_SYSTEM
    ensures r.B? <==> Opcode(number) == OPCODE_BRANCH
    ensures r.S? <==> Opcode(number) == OPCODE_STORE
    ensures r.R? <==> Opcode(number) == OPCODE_OP
    ensures r.Fence? <==> Opcode(number) == OPCODE_MISC_MEM
    ensures r.U? ==> r.u == ParseUType(number)
    ensures r.J? ==> r.j == ParseJType(number)
    ensures r.I? ==> r.i == ParseIType(number)
    ensures r.B? ==> r.b == ParseBType(number)
    ensures r.S? ==> r.s == ParseSType(number)
    ensures r.R? ==> r.r == ParseRType(number)
  {
    var opcode: bv8 := (number & 0x7F) as bv8;
    if opcode == 0x37 || opcode == 0x17 then U(ParseUType(number))
    else if opcode == 0x6F then J(ParseJType(number))
    else if opcode == 0x67 || opcode == 0x03 || opcode == 0x13 || opcode == 0x73 then I(ParseIType(number))
    else if opcode == 0x63 then B(ParseBType(number))
    else if opcode == 0x23 then S(ParseSType(number))
    else if opcode == 0x33 then R(ParseRType(number))
    else if opcode == 0x0F then Fence
    else Invalid
  }

  // Bit-level facts behind the parsers' contracts, one small step each.

  /**
   * extract_bits_to_char returns the field inst[start + length - 1:start]
   * whenever that field fits in a uint8_t and lies within the word.
   */
  lemma ExtractBitsToCharIsField(number: Word, start: bv32, length: bv32)
    requires start < 32 && length < 31
    ensures 1 <= length <= 8 && start + length <= 32
            ==> ExtractBitsToChar(number, start, length) == Field(number, start + length - 1, start)
  {
    if 1 <= length <= 8 && start + length <= 32 {
      if length == 1 { FieldOfLength1(number, start); }
      else if length == 2 { FieldOfLength2(number, start); }
      else if length == 3 { FieldOfLength3(number, start); }
      else if length == 4 { FieldOfLength4(number, start); }
      else if length == 5 { FieldOfLength5(number, start); }
      else if length == 6 { FieldOfLength6(number, start); }
      else if length == 7 { FieldOfLength7(number, start); }
      else { FieldOfLength8(number, start); }
    }
  }

  lemma FieldOfLength1(number: Word, start: bv32)
    requires start < 32 && start + 1 <= 32
    ensures ExtractBitsToChar(number, start, 1) == Field(number, start + 0, start)
  {
  }

  lemma FieldOfLength2(number: Word, start: bv32)
    requires start < 32 && start + 2 <= 32
    ensures ExtractBitsToChar(number, start, 2) == Field(number, start + 1, start)
  {
  }

  lemma FieldOfLength3(number: Word, start: bv32)
    requires start < 32 && start + 3 <= 32
    ensures ExtractBitsToChar(number, start, 3) == Field(number, start + 2, start)
  {
  }

  lemma FieldOfLength4(number: Word, start: bv32)
    requires start < 32 && start + 4 <= 32
    ensures ExtractBitsToChar(number, start, 4) == Field(number, start + 3, start)
  {
  }

  lemma FieldOfLength5(number: Word, start: bv32)
    requires start < 32 && start + 5 <= 32
    ensures ExtractBitsToChar(number, start, 5) == Field(number, start + 4, start)
  {
  }

  lemma FieldOfLength6(number: Word, start: bv32)
    requires start < 32 && start + 6 <= 32
    ensures ExtractBitsToChar(number, start, 6) == Field(number, start + 5, start)
  {
  }

  lemma FieldOfLength7(number: Word, start: bv32)
    requires start < 32 && start + 7 <= 32
    ensures ExtractBitsToChar(number, start, 7) == Field(number, start + 6, start)
  {
  }

  lemma FieldOfLength8(number: Word, start: bv32)
    requires start < 32 && start + 8 <= 32
    ensures ExtractBitsToChar(number, start, 8) == Field(number, start + 7, start)
  {
  }

  lemma IShiftIsImmediate(number: Word)
    ensures ArithmeticShiftRight(number, 20) == IImmediateBits(number)
  {
    if number < 0x8000_0000 {
      IShiftNonNegative(number);
    } else {
      IShiftNegative(number);
    }
  }

  lemma IShiftNonNegative(number: Word)
    requires number < 0x8000_0000
    ensures number >> 20 == (number >> 20) & 0x7FF
  {
  }

  lemma IShiftNegative(number: Word)
    requires number >= 0x8000_0000
    ensures !(!number >> 20) == 0xFFFF_F800 | ((number >> 20) & 0x7FF)
  {
  }

  lemma UShiftIsImmediate(number: Word)
    ensures ArithmeticShiftRight(number, 12) == UpperImmediateBits(number)
  {
    if number < 0x8000_0000 {
      UShiftNonNegative(number);
    } else {
      UShiftNegative(number);
    }
  }

  lemma UShiftNonNegative(number: Word)
    requires number < 0x8000_0000
    ensures number >> 12 == (number >> 12) & 0xF_FFFF
  {
  }

  lemma UShiftNegative(number: Word)
    requires number >= 0x8000_0000
    ensures !(!number >> 12) == 0xFFF0_0000 | ((number >> 12) & 0xF_FFFF)
  {
  }

  lemma SPatternIsLowHalf(number: Word)
    ensures SImmediatePattern(number) == Low16(SImmediateBits(number))
  {
    if number < 0x8000_0000 {
      SPatternNonNegative(number);
    } else {
      SPatternNegative(number);
    }
  }

  lemma SPatternNonNegative(number: Word)
    requires number < 0x8000_0000
    ensures SImmediateBits(number) == SImmediatePattern(number) as bv32
  {
  }

  lemma SPatternNegative(number: Word)
    requires number >= 0x8000_0000
    ensures SImmediateBits(number) == 0xFFFF_0000 | SImmediatePattern(number) as bv32
  {
  }

  lemma BPatternIsLowHalf(number: Word)
    ensures BImmediatePattern(number) == Low16(BImmediateBits(number))
  {
    if number < 0x8000_0000 {
      BPatternNonNegative(number);
    } else {
      BPatternNegative(number);
    }
  }

  lemma BPatternNonNegative(number: Word)
    requires number < 0x8000_0000
    ensures BImmediateBits(number) == BImmediatePattern(number) as bv32
  {
  }

  lemma BPatternNegative(number: Word)
    requires number >= 0x8000_0000
    ensures BImmediateBits(number) == 0xFFFF_0000 | BImmediatePattern(number) as bv32
  {
  }

  lemma JNarrowedIsLowHalf(number: Word)
    ensures JNarrowed(number) == Low16(JImmediateBits(number))
  {
    JLowBits(number, SignFill(number, 0xFFF0_0000));
  }

  lemma JPatternIsWidened(number: Word)
    ensures JImmediatePattern(number) == JWidened(number >= 0x8000_0000, JNarrowed(number))
  {
  }

  lemma JLowBits(number: Word, fill: bv32)
    requires fill == 0 || fill == 0xFFF0_0000
    ensures (((((number >> 31) & 0x01) << 20) | (((number >> 21) & 0x3FF) << 1) | (((number >> 20) & 0x01) << 11)
             | (((number >> 12) & 0xFF) << 12)) & 0xFFFF)
            == ((fill | (((number >> 12) & 0xFF) << 12) | (((number >> 20) & 1) << 11)
                 | (((number >> 25) & 0x3F) << 5) | (((number >> 21) & 0xF) << 1)) & 0xFFFF)
  {
  }
}
