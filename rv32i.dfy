/**
 * Reference definitions from chapter 2 of the RISC-V Unprivileged ISA
 * (version 20191213): the instruction fields of section 2.2, "Base
 * Instruction Formats", and the immediates of section 2.3, "Immediate
 * Encoding Variants" (Figure 2.4, which gives every bit of each 32-bit
 * immediate).  They are written from those bit-position tables,
 * independently of how the decoder computes them, so that the decoder can be
 * proved against them.
 */
module Rv32i {
  import opened InstructionTypes
  import opened CInt

  // Major opcodes (inst[6:0]) of the RV32I base instruction set.
  const OPCODE_LOAD: bv32 := 0x03
  const OPCODE_MISC_MEM: bv32 := 0x0F
  const OPCODE_OP_IMM: bv32 := 0x13
  const OPCODE_AUIPC: bv32 := 0x17
  const OPCODE_STORE: bv32 := 0x23
  const OPCODE_OP: bv32 := 0x33
  const OPCODE_LUI: bv32 := 0x37
  const OPCODE_BRANCH: bv32 := 0x63
  const OPCODE_JALR: bv32 := 0x67
  const OPCODE_JAL: bv32 := 0x6F
  const OPCODE_SYSTEM: bv32 := 0x73

  /** The major opcode field inst[6:0]. */
  function Opcode(w: Word): bv32
  {
    w & 0x7F
  }

  /** The field inst[hi:lo], at most eight bits wide, as the bits of a byte. */
  function Field(w: Word, hi: bv32, lo: bv32): bv8
    requires lo <= hi < 32 && hi - lo < 8
  {
    ((w << (31 - hi)) >> (31 - hi + lo)) as bv8
  }

  /** The bits of `positions` all set to inst[31], the sign of every immediate; the others clear. */
  function SignFill(w: Word, positions: bv32): bv32
  {
    if w & 0x8000_0000 == 0 then 0 else positions
  }

  /** I-immediate: [31:11] inst[31], [10:5] inst[30:25], [4:1] inst[24:21], [0] inst[20]. */
  function IImmediateBits(w: Word): bv32
  {
    SignFill(w, 0xFFFF_F800) | (((w >> 25) & 0x3F) << 5) | (((w >> 21) & 0xF) << 1) | ((w >> 20) & 1)
  }

  /** S-immediate: [31:11] inst[31], [10:5] inst[30:25], [4:1] inst[11:8], [0] inst[7]. */
  function SImmediateBits(w: Word): bv32
  {
    SignFill(w, 0xFFFF_F800) | (((w >> 25) & 0x3F) << 5) | (((w >> 8) & 0xF) << 1) | ((w >> 7) & 1)
  }

  /** B-immediate: [31:12] inst[31], [11] inst[7], [10:5] inst[30:25], [4:1] inst[11:8], [0] zero. */
  function BImmediateBits(w: Word): bv32
  {
    SignFill(w, 0xFFFF_F000) | (((w >> 7) & 1) << 11) | (((w >> 25) & 0x3F) << 5) | (((w >> 8) & 0xF) << 1)
  }

  /**
   * The upper immediate field inst[31:12] of LUI and AUIPC, as the 20-bit
   * two's-complement number that the U-immediate ([31:12] inst[31:12],
   * [11:0] zero) holds in its upper 20 bits.
   */
  function UpperImmediateBits(w: Word): bv32
  {
    SignFill(w, 0xFFF0_0000) | ((w >> 12) & 0xF_FFFF)
  }

  /**
   * J-immediate: [31:20] inst[31], [19:12] inst[19:12], [11] inst[20],
   * [10:5] inst[30:25], [4:1] inst[24:21], [0] zero.
   */
  function JImmediateBits(w: Word): bv32
  {
    SignFill(w, 0xFFF0_0000) | (((w >> 12) & 0xFF) << 12) | (((w >> 20) & 1) << 11)
    | (((w >> 25) & 0x3F) << 5) | (((w >> 21) & 0xF) << 1)
  }

  /** The value of each immediate, as a two's-complement XLEN-bit (32-bit) number. */
  function IImmediate(w: Word): (v: i32)
    ensures v < 0 <==> w >= 0x8000_0000
  {
    Int32Value(IImmediateBits(w))
  }

  function SImmediate(w: Word): (v: i32)
    ensures v < 0 <==> w >= 0x8000_0000
  {
    Int32Value(SImmediateBits(w))
  }

  function BImmediate(w: Word): (v: i32)
    ensures v < 0 <==> w >= 0x8000_0000
  {
    Int32Value(BImmediateBits(w))
  }

  function UpperImmediate(w: Word): (v: i32)
    ensures v < 0 <==> w >= 0x8000_0000
  {
    Int32Value(UpperImmediateBits(w))
  }

  function JImmediate(w: Word): (v: i32)
    ensures v < 0 <==> w >= 0x8000_0000
  {
    Int32Value(JImmediateBits(w))
  }

  /** The I- and S-immediates are 12-bit signed numbers. */
  lemma IImmediateRange(w: Word)
    ensures -0x800 <= IImmediate(w) < 0x800
  {
    IImmediateBitsShape(w);
    Int32ValueFits12(IImmediateBits(w));
  }

  lemma IImmediateBitsShape(w: Word)
    ensures IImmediateBits(w) < 0x800 || IImmediateBits(w) >= 0xFFFF_F800
  {
  }

  lemma SImmediateRange(w: Word)
    ensures -0x800 <= SImmediate(w) < 0x800
  {
    SImmediateBitsShape(w);
    Int32ValueFits12(SImmediateBits(w));
  }

  lemma SImmediateBitsShape(w: Word)
    ensures SImmediateBits(w) < 0x800 || SImmediateBits(w) >= 0xFFFF_F800
  {
  }

  /** The B-immediate is an even 13-bit signed number: a multiple of two bytes in [-4096, 4094]. */
  lemma BImmediateRange(w: Word)
    ensures -0x1000 <= BImmediate(w) <= 0xFFE && BImmediate(w) % 2 == 0
  {
    BImmediateBitsShape(w);
    Int32ValueFits13(BImmediateBits(w));
    Int32ValueEven(BImmediateBits(w));
  }

  lemma BImmediateBitsShape(w: Word)
    ensures BImmediateBits(w) < 0x1000 || BImmediateBits(w) >= 0xFFFF_F000
    ensures BImmediateBits(w) & 1 == 0
  {
  }

  /** The upper immediate field is a 20-bit signed number. */
  lemma UpperImmediateRange(w: Word)
    ensures -0x8_0000 <= UpperImmediate(w) < 0x8_0000
  {
    UpperImmediateBitsShape(w);
    Int32ValueFits20(UpperImmediateBits(w));
  }

  lemma UpperImmediateBitsShape(w: Word)
    ensures UpperImmediateBits(w) < 0x8_0000 || UpperImmediateBits(w) >= 0xFFF8_0000
  {
  }

  /** The J-immediate is an even 21-bit signed number: a multiple of two bytes in [-1 MiB, 1 MiB - 2]. */
  lemma JImmediateRange(w: Word)
    ensures -0x10_0000 <= JImmediate(w) <= 0xF_FFFE && JImmediate(w) % 2 == 0
  {
    JImmediateBitsShape(w);
    Int32ValueFits21(JImmediateBits(w));
    Int32ValueEven(JImmediateBits(w));
  }

  lemma JImmediateBitsShape(w: Word)
    ensures JImmediateBits(w) < 0x10_0000 || JImmediateBits(w) >= 0xFFF0_0000
    ensures JImmediateBits(w) & 1 == 0
  {
  }
}
