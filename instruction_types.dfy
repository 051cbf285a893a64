/**
 * The decoded-instruction representation of instruction_types.h: one record
 * per base instruction format and the tagged union over them.
 *
 * The C structs store every register and funct field as uint8_t, the I, S and
 * B immediates as int16_t and the U and J immediates as int32_t.  Each field
 * here holds the bits of its C field (bv8, bv16, bv32); the value of a signed
 * field is read from its bits by the CInt module, as the formatter does when
 * it prints it.  The C tag enumeration and the union become one datatype, so
 * only the member that matches the tag exists.
 */
module InstructionTypes {

  /** An instruction word, the uint32_t the decoder receives. */
  type Word = bv32

  /** The value of an int16_t. */
  type i16 = x: int | -0x8000 <= x < 0x8000

  /** The value of an int32_t. */
  type i32 = x: int | -0x8000_0000 <= x < 0x8000_0000

  /** Register-register operations. */
  datatype RType = RType(opcode: bv8, rd: bv8, funct3: bv8, rs1: bv8, rs2: bv8, funct7: bv8)

  /** Loads, ALU-immediate operations, JALR, ECALL and EBREAK. */
  datatype IType = IType(opcode: bv8, rd: bv8, funct3: bv8, rs1: bv8, imm: bv16)

  /** Stores: no destination register. */
  datatype SType = SType(opcode: bv8, imm: bv16, funct3: bv8, rs1: bv8, rs2: bv8)

  /** Conditional branches: no destination register. */
  datatype BType = BType(opcode: bv8, imm: bv16, funct3: bv8, rs1: bv8, rs2: bv8)

  /** LUI and AUIPC: no funct3 and no source registers. */
  datatype UType = UType(opcode: bv8, rd: bv8, imm: bv32)

  /** JAL: no funct3 and no source registers. */
  datatype JType = JType(opcode: bv8, rd: bv8, imm: bv32)

  /**
   * The tagged union `instruction`: the constructor is the tag
   * (R_TYPE ... INVALID) and carries the one union member that tag selects.
   * FENCE and INVALID carry nothing.
   */
  datatype Instruction =
    | R(r: RType)
    | I(i: IType)
    | S(s: SType)
    | B(b: BType)
    | U(u: UType)
    | J(j: JType)
    | Fence
    | Invalid
}
