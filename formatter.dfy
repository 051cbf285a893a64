/**
 * The mnemonic printer: each `*_instruction_string` helper writes one
 * operand layout, each `*_to_string` helper picks the mnemonic for one
 * format, and ToString dispatches on the tag into a freshly allocated
 * 64-byte buffer.
 *
 * sprintf's `%d` is Decimal.IntToString, applied to the value of the C
 * field: a uint8_t register or funct field, an int16_t immediate read by
 * Int16Value or an int32_t immediate read by Int32Value.
 */
module Formatter {
  import opened Wrappers
  import opened InstructionTypes
  import opened CInt
  import opened Decimal

  const INVALID_MSG := "Invalid instruction"

  /** The size of the buffer to_string allocates, terminating NUL included. */
  const BUFFER_SIZE := 64

  /**
   * What a helper leaves in the buffer: the text it wrote, or nothing at all
   * when no mnemonic matches the fields (the C helpers then return
   * INVALID_MSG, which every caller discards, and the buffer keeps whatever
   * malloc left in it).
   */
  datatype Buffer = Unwritten | Written(text: string)

  /** `x%d` of a uint8_t register number. */
  function RegisterName(r: bv8): string
  {
    "x" + IntToString(r as int)
  }

  /** `%d(x%d)` of an offset and a base register. */
  function MemoryOperand(offset: int, base: bv8): string
  {
    IntToString(offset) + "(" + RegisterName(base) + ")"
  }

  /** The shared `%s %s %s` layout: a mnemonic and two operands, each after a space. */
  function TwoOperands(cmd: string, a: string, b: string): string
  {
    cmd + " " + a + " " + b
  }

  /** The shared `%s %s %s %s` layout: a mnemonic and three operands, each after a space. */
  function ThreeOperands(cmd: string, a: string, b: string, c: string): string
  {
    cmd + " " + a + " " + b + " " + c
  }

  /** `%s x%d x%d x%d` of cmd, rd, rs1, rs2. */
  function RTypeInstructionString(instr: RType, cmd: string): string
  {
    ThreeOperands(cmd, RegisterName(instr.rd), RegisterName(instr.rs1), RegisterName(instr.rs2))
  }

  /** `%s x%d %d(x%d)` of cmd, rd, imm, rs1. */
  function ITypeLoadInstructionString(instr: IType, cmd: string): string
  {
    TwoOperands(cmd, RegisterName(instr.rd), MemoryOperand(Int16Value(instr.imm), instr.rs1))
  }

  /** `%s x%d x%d %d` of cmd, rd, rs1, imm. */
  function ITypeInstructionString(instr: IType, cmd: string): string
  {
    ThreeOperands(cmd, RegisterName(instr.rd), RegisterName(instr.rs1), IntToString(Int16Value(instr.imm)))
  }

  /** `%s x%d x%d %d` of cmd, rd, rs1, imm & 0x1F: only the low five bits of the immediate. */
  function ITypeShiftInstructionString(instr: IType, cmd: string): string
  {
    ThreeOperands(cmd, RegisterName(instr.rd), RegisterName(instr.rs1), IntToString(Uint16Value(instr.imm & 0x1F)))
  }

  /** `%s x%d %d(x%d)` of cmd, rs2, imm, rs1: the register stored comes first. */
  function STypeInstructionString(instr: SType, cmd: string): string
  {
    TwoOperands(cmd, RegisterName(instr.rs2), MemoryOperand(Int16Value(instr.imm), instr.rs1))
  }

  /** `%s x%d x%d %d` of cmd, rs1, rs2, imm. */
  function BTypeInstructionString(instr: BType, cmd: string): string
  {
    ThreeOperands(cmd, RegisterName(instr.rs1), RegisterName(instr.rs2), IntToString(Int16Value(instr.imm)))
  }

  /** `%s x%d %d` of cmd, rd, imm. */
  function JTypeInstructionString(instr: JType, cmd: string): string
  {
    TwoOperands(cmd, RegisterName(instr.rd), IntToString(Int32Value(instr.imm)))
  }

  /** `%s x%d %d` of cmd, rd, imm. */
  function UTypeInstructionString(instr: UType, cmd: string): string
  {
    TwoOperands(cmd, RegisterName(instr.rd), IntToString(Int32Value(instr.imm)))
  }

  /** OP: the mnemonic from funct3, and from funct7 only for ADD/SUB and SRL/SRA. */
  function RTypeToString(instr: RType): Buffer
  {
    if instr.funct3 == 0 then
      if instr.funct7 == 0 then Written(RTypeInstructionString(instr, "ADD"))
      else if instr.funct7 == 1 << 5 then Written(RTypeInstructionString(instr, "SUB"))
      else Unwritten
    else if instr.funct3 == 1 then Written(RTypeInstructionString(instr, "SLL"))
    else if instr.funct3 == 2 then Written(RTypeInstructionString(instr, "SLT"))
    else if instr.funct3 == 3 then Written(RTypeInstructionString(instr, "SLTU"))
    else if instr.funct3 == 4 then Written(RTypeInstructionString(instr, "XOR"))
    else if instr.funct3 == 5 then
      if instr.funct7 == 0 then Written(RTypeInstructionString(instr, "SRL"))
      else if instr.funct7 == 1 << 5 then Written(RTypeInstructionString(instr, "SRA"))
      else Unwritten
    else if instr.funct3 == 6 then Written(RTypeInstructionString(instr, "OR"))
    else if instr.funct3 == 7 then Written(RTypeInstructionString(instr, "AND"))
    else Unwritten
  }

  /**
   * JALR, the loads, OP-IMM and SYSTEM.  OP-IMM's funct3 011 is printed as
   * SLTU, and its funct3 101 by the whole immediate: SRLI when it is 0, SRAI
   * when it is 32.  SYSTEM prints ECALL for immediate 0 and EBREAK for 1.
   */
  function ITypeToString(instr: IType): Buffer
  {
    if instr.opcode == 0x67 then Written(ITypeInstructionString(instr, "JALR"))
    else if instr.opcode == 0x03 then
      if instr.funct3 == 0 then Written(ITypeLoadInstructionString(instr, "LB"))
      else if instr.funct3 == 1 then Written(ITypeLoadInstructionString(instr, "LH"))
      else if instr.funct3 == 2 then Written(ITypeLoadInstructionString(instr, "LW"))
      else if instr.funct3 == 4 then Written(ITypeLoadInstructionString(instr, "LBU"))
      else if instr.funct3 == 5 then Written(ITypeLoadInstructionString(instr, "LHU"))
      else Unwritten
    else if instr.opcode == 0x13 then
      if instr.funct3 == 0 then Written(ITypeInstructionString(instr, "ADDI"))
      else if instr.funct3 == 2 then Written(ITypeInstructionString(instr, "SLTI"))
      else if instr.funct3 == 3 then Written(ITypeInstructionString(instr, "SLTU"))
      else if instr.funct3 == 4 then Written(ITypeInstructionString(instr, "XORI"))
      else if instr.funct3 == 6 then Written(ITypeInstructionString(instr, "ORI"))
      else if instr.funct3 == 7 then Written(ITypeInstructionString(instr, "ANDI"))
      else if instr.funct3 == 1 then Written(ITypeShiftInstructionString(instr, "SLLI"))
      else if instr.funct3 == 5 then
        if Int16Value(instr.imm) == 0 then Written(ITypeShiftInstructionString(instr, "SRLI"))
        else if Int16Value(instr.imm) == 32 then Written(ITypeShiftInstructionString(instr, "SRAI"))
        else Unwritten
      else Unwritten
    else if instr.opcode == 0x73 then
      if Int16Value(instr.imm) == 0 then Written("ECALL")
      else if Int16Value(instr.imm) == 1 then Written("EBREAK")
      else Unwritten
    else Unwritten
  }

  /** Stores by funct3. */
  function STypeToString(instr: SType): Buffer
  {
    if instr.funct3 == 0 then Written(STypeInstructionString(instr, "SB"))
    else if instr.funct3 == 1 then Written(STypeInstructionString(instr, "SH"))
    else if instr.funct3 == 2 then Written(STypeInstructionString(instr, "SW"))
    else Unwritten
  }

  /** Branches by funct3. */
  function BTypeToString(instr: BType): Buffer
  {
    if instr.funct3 == 0 then Written(BTypeInstructionString(instr, "BEQ"))
    else if instr.funct3 == 1 then Written(BTypeInstructionString(instr, "BNE"))
    else if instr.funct3 == 4 then Written(BTypeInstructionString(instr, "BLT"))
    else if instr.funct3 == 5 then Written(BTypeInstructionString(instr, "BGE"))
    else if instr.funct3 == 6 then Written(BTypeInstructionString(instr, "BLTU"))
    else if instr.funct3 == 7 then Written(BTypeInstructionString(instr, "BGEU"))
    else Unwritten
  }

  /** LUI and AUIPC by opcode. */
  function UTypeToString(instr: UType): Buffer
  {
    if instr.opcode == 0x37 then Written(UTypeInstructionString(instr, "LUI"))
    else if instr.opcode == 0x17 then Written(UTypeInstructionString(instr, "AUIPC"))
    else Unwritten
  }

  /** JAL by opcode. */
  function JTypeToString(instr: JType): Buffer
  {
    if instr.opcode == 0x6F then Written(JTypeInstructionString(instr, "JAL"))
    else Unwritten
  }

  /** What to_string leaves in its buffer for each tag. */
  function Rendering(instruction: Instruction): Buffer
  {
    match instruction
    case R(r) => RTypeToString(r)
    case I(i) => ITypeToString(i)
    case S(s) => STypeToString(s)
    case B(b) => BTypeToString(b)
    case U(u) => UTypeToString(u)
    case J(j) => JTypeToString(j)
    case Fence => Written("FENCE")
    case Invalid => Written(INVALID_MSG)
  }

  /**
   * to_string: None when the allocation of the buffer fails (the NULL
   * return), otherwise the buffer as the helper for the tag leaves it.  Every
   * text written fits the buffer with its terminating NUL.
   */
  method ToString(instruction: Instruction, allocationSucceeds: bool) returns (str: Option<Buffer>)
    ensures str.Some? <==> allocationSucceeds
    ensures str.Some? ==> str.value == Rendering(instruction)
    ensures str.Some? && str.value.Written? ==> |str.value.text| < BUFFER_SIZE
  {
    if !allocationSucceeds {
      return None;
    }
    RenderingFits(instruction);
    return Some(Rendering(instruction));
  }

  /** Every text the formatter writes is at most 63 characters long. */
  lemma RenderingFits(instruction: Instruction)
    ensures Rendering(instruction).Written? ==> |Rendering(instruction).text| < BUFFER_SIZE
  {
    match instruction {
      case R(r) => RTypeFits(r);
      case I(i) => ITypeFits(i);
      case S(s) => STypeFits(s);
      case B(b) => BTypeFits(b);
      case U(u) => UTypeFits(u);
      case J(j) => JTypeFits(j);
      case Fence =>
      case Invalid =>
    }
  }

  lemma RTypeFits(instr: RType)
    ensures RTypeToString(instr).Written? ==> |RTypeToString(instr).text| <= 19
  {
    if instr.funct3 == 0 { RTypeLength(instr, "ADD"); RTypeLength(instr, "SUB"); }
    else if instr.funct3 == 1 { RTypeLength(instr, "SLL"); }
    else if instr.funct3 == 2 { RTypeLength(instr, "SLT"); }
    else if instr.funct3 == 3 { RTypeLength(instr, "SLTU"); }
    else if instr.funct3 == 4 { RTypeLength(instr, "XOR"); }
    else if instr.funct3 == 5 { RTypeLength(instr, "SRL"); RTypeLength(instr, "SRA"); }
    else if instr.funct3 == 6 { RTypeLength(instr, "OR"); }
    else if instr.funct3 == 7 { RTypeLength(instr, "AND"); }
  }

  lemma ITypeFits(instr: IType)
    ensures ITypeToString(instr).Written? ==> |ITypeToString(instr).text| <= 27
  {
    if instr.opcode == 0x67 {
      ITypeLength(instr, "JALR");
    } else if instr.opcode == 0x03 {
      LoadFits(instr);
    } else if instr.opcode == 0x13 {
      OpImmFits(instr);
    }
  }

  lemma LoadFits(instr: IType)
    requires instr.opcode == 0x03
    ensures ITypeToString(instr).Written? ==> |ITypeToString(instr).text| <= 27
  {
    if instr.funct3 == 0 { LoadLength(instr, "LB"); }
    else if instr.funct3 == 1 { LoadLength(instr, "LH"); }
    else if instr.funct3 == 2 { LoadLength(instr, "LW"); }
    else if instr.funct3 == 4 { LoadLength(instr, "LBU"); }
    else if instr.funct3 == 5 { LoadLength(instr, "LHU"); }
  }

  lemma OpImmFits(instr: IType)
    requires instr.opcode == 0x13
    ensures ITypeToString(instr).Written? ==> |ITypeToString(instr).text| <= 27
  {
    if instr.funct3 == 0 { ITypeLength(instr, "ADDI"); }
    else if instr.funct3 == 2 { ITypeLength(instr, "SLTI"); }
    else if instr.funct3 == 3 { ITypeLength(instr, "SLTU"); }
    else if instr.funct3 == 4 { ITypeLength(instr, "XORI"); }
    else if instr.funct3 == 6 { ITypeLength(instr, "ORI"); }
    else if instr.funct3 == 7 { ITypeLength(instr, "ANDI"); }
    else if instr.funct3 == 1 { ShiftLength(instr, "SLLI"); }
    else if instr.funct3 == 5 { ShiftRightFits(instr); }
  }

  lemma ShiftRightFits(instr: IType)
    requires instr.opcode == 0x13 && instr.funct3 == 5
    ensures ITypeToString(instr).Written? ==> |ITypeToString(instr).text| <= 27
  {
    ShiftLength(instr, "SRLI");
    ShiftLength(instr, "SRAI");
  }

  lemma STypeFits(instr: SType)
    ensures STypeToString(instr).Written? ==> |STypeToString(instr).text| <= 25
  {
    if instr.funct3 == 0 { STypeLength(instr, "SB"); }
    else if instr.funct3 == 1 { STypeLength(instr, "SH"); }
    else if instr.funct3 == 2 { STypeLength(instr, "SW"); }
  }

  lemma BTypeFits(instr: BType)
    ensures BTypeToString(instr).Written? ==> |BTypeToString(instr).text| <= 26
  {
    if instr.funct3 == 0 { BTypeLength(instr, "BEQ"); }
    else if instr.funct3 == 1 { BTypeLength(instr, "BNE"); }
    else if instr.funct3 == 4 { BTypeLength(instr, "BLT"); }
    else if instr.funct3 == 5 { BTypeLength(instr, "BGE"); }
    else if instr.funct3 == 6 { BTypeLength(instr, "BLTU"); }
    else if instr.funct3 == 7 { BTypeLength(instr, "BGEU"); }
  }

  lemma UTypeFits(instr: UType)
    ensures UTypeToString(instr).Written? ==> |UTypeToString(instr).text| <= 22
  {
    UTypeLength(instr, "LUI");
    UTypeLength(instr, "AUIPC");
  }

  lemma JTypeFits(instr: JType)
    ensures JTypeToString(instr).Written? ==> |JTypeToString(instr).text| <= 20
  {
    JTypeLength(instr, "JAL");
  }

  // The length of each layout for any mnemonic cmd.

  lemma RTypeLength(instr: RType, cmd: string)
    ensures |RTypeInstructionString(instr, cmd)| <= |cmd| + 15
  {
    RegisterNameLength(instr.rd);
    RegisterNameLength(instr.rs1);
    RegisterNameLength(instr.rs2);
  }

  lemma ITypeLength(instr: IType, cmd: string)
    ensures |ITypeInstructionString(instr, cmd)| <= |cmd| + 22
  {
    RegisterNameLength(instr.rd);
    RegisterNameLength(instr.rs1);
    ImmediateLength(Int16Value(instr.imm));
  }

  lemma ShiftLength(instr: IType, cmd: string)
    ensures |ITypeShiftInstructionString(instr, cmd)| <= |cmd| + 22
  {
    RegisterNameLength(instr.rd);
    RegisterNameLength(instr.rs1);
    ImmediateLength(Uint16Value(instr.imm & 0x1F));
  }

  lemma LoadLength(instr: IType, cmd: string)
    ensures |ITypeLoadInstructionString(instr, cmd)| <= |cmd| + 23
  {
    RegisterNameLength(instr.rd);
    MemoryOperandLength(Int16Value(instr.imm), instr.rs1);
  }

  lemma STypeLength(instr: SType, cmd: string)
    ensures |STypeInstructionString(instr, cmd)| <= |cmd| + 23
  {
    RegisterNameLength(instr.rs2);
    MemoryOperandLength(Int16Value(instr.imm), instr.rs1);
  }

  lemma BTypeLength(instr: BType, cmd: string)
    ensures |BTypeInstructionString(instr, cmd)| <= |cmd| + 22
  {
    RegisterNameLength(instr.rs1);
    RegisterNameLength(instr.rs2);
    ImmediateLength(Int16Value(instr.imm));
  }

  lemma UTypeLength(instr: UType, cmd: string)
    ensures |UTypeInstructionString(instr, cmd)| <= |cmd| + 17
  {
    RegisterNameLength(instr.rd);
    ImmediateLength(Int32Value(instr.imm));
  }

  lemma JTypeLength(instr: JType, cmd: string)
    ensures |JTypeInstructionString(instr, cmd)| <= |cmd| + 17
  {
    RegisterNameLength(instr.rd);
    ImmediateLength(Int32Value(instr.imm));
  }

  /** `%d(x%d)` takes at most 11 + 6 characters. */
  lemma MemoryOperandLength(offset: i32, base: bv8)
    ensures |MemoryOperand(offset, base)| <= 17
  {
    ImmediateLength(offset);
    RegisterNameLength(base);
  }

  /** `%d` of an int16_t or int32_t takes at most 11 characters. */
  lemma ImmediateLength(v: i32)
    ensures |IntToString(v)| <= 11
  {
    IntToStringLength(v);
  }

  /** A register is named by `x` and at most three digits. */
  lemma RegisterNameLength(r: bv8)
    ensures |RegisterName(r)| <= 4
  {
    assert Pow10(3) == 1000;
    NatToStringLength(r as int, 3);
  }
}
