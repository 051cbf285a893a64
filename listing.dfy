/**
 * What the printer shows for a decoded word.  For every word of each major
 * opcode, the lemmas here give the line that Rendering(DecodeInstruction(w))
 * reads back as: the mnemonic from the printer's table for that opcode, and
 * the operands in the format's order, given by the ISA's register fields
 * and immediates of the word (Rv32i), not by the decoder's structures.
 */
module Listing {
  import opened Wrappers
  import opened InstructionTypes
  import opened CInt
  import opened Rv32i
  import opened Decoder
  import opened DecoderProofs
  import opened Formatter
  import opened FormatterProofs

  /** The line a buffer's text reads back as; None when nothing was written. */
  function ReadBack(buffer: Buffer): Option<AssemblyLine>
  {
    if buffer.Written? then ReadLine(buffer.text) else None
  }

  /** The line the printer's text for `w` reads back as. */
  function PrintedLine(w: Word): Option<AssemblyLine>
  {
    ReadBack(Rendering(DecodeInstruction(w)))
  }

  /** The register and function fields of section 2.2, as the numbers the text shows. */
  function Rd(w: Word): int { Field(w, 11, 7) as int }
  function Rs1(w: Word): int { Field(w, 19, 15) as int }
  function Rs2(w: Word): int { Field(w, 24, 20) as int }
  function Funct3(w: Word): int { Field(w, 14, 12) as int }
  function Funct7(w: Word): int { Field(w, 31, 25) as int }

  // The printer's mnemonic tables.

  /** LOAD, by funct3. */
  const LOAD_MNEMONICS: map<int, string> := map[0 := "LB", 1 := "LH", 2 := "LW", 4 := "LBU", 5 := "LHU"]

  /** STORE, by funct3. */
  const STORE_MNEMONICS: map<int, string> := map[0 := "SB", 1 := "SH", 2 := "SW"]

  /** BRANCH, by funct3. */
  const BRANCH_MNEMONICS: map<int, string> :=
    map[0 := "BEQ", 1 := "BNE", 4 := "BLT", 5 := "BGE", 6 := "BLTU", 7 := "BGEU"]

  /** OP rows that funct3 alone selects; funct7 is not examined. */
  const OP_MNEMONICS: map<int, string> := map[1 := "SLL", 2 := "SLT", 3 := "SLTU", 4 := "XOR", 6 := "OR", 7 := "AND"]

  /** OP rows selected by funct3 and funct7 together. */
  const OP_FUNCT7_MNEMONICS: map<(int, int), string> :=
    map[(0, 0) := "ADD", (0, 0x20) := "SUB", (5, 0) := "SRL", (5, 0x20) := "SRA"]

  /** OP-IMM rows with an immediate operand, by funct3 (funct3 011 is named SLTU here). */
  const OP_IMM_MNEMONICS: map<int, string> :=
    map[0 := "ADDI", 2 := "SLTI", 3 := "SLTU", 4 := "XORI", 6 := "ORI", 7 := "ANDI"]

  lemma OpcodeField(w: Word)
    ensures Field(w, 6, 0) as bv32 == Opcode(w)
  {
  }

  // For each major opcode: the line every word of it prints, from its ISA
  // fields, and then the same statement about the decoded structure.

  /** OP: `rd rs1 rs2`, for exactly the rows of the two OP tables. */
  lemma OpListing(w: Word)
    requires Opcode(w) == OPCODE_OP
    ensures Rendering(DecodeInstruction(w)).Written?
            <==> Funct3(w) in OP_MNEMONICS || (Funct3(w), Funct7(w)) in OP_FUNCT7_MNEMONICS
    ensures Funct3(w) in OP_MNEMONICS
            ==> PrintedLine(w) == Some(AssemblyLine(OP_MNEMONICS[Funct3(w)], [Register(Rd(w)), Register(Rs1(w)), Register(Rs2(w))]))
    ensures (Funct3(w), Funct7(w)) in OP_FUNCT7_MNEMONICS
            ==> PrintedLine(w)
                == Some(AssemblyLine(OP_FUNCT7_MNEMONICS[(Funct3(w), Funct7(w))], [Register(Rd(w)), Register(Rs1(w)), Register(Rs2(w))]))
  {
    var instr := ParseRType(w);
    assert DecodeInstruction(w) == R(instr);
    OpTable(instr);
    OpRows(instr);
    OpFunct7Rows(instr);
  }

  lemma OpRows(instr: RType)
    ensures instr.funct3 as int in OP_MNEMONICS
            ==> ReadBack(RTypeToString(instr))
                == Some(AssemblyLine(OP_MNEMONICS[instr.funct3 as int], [Register(instr.rd as int), Register(instr.rs1 as int), Register(instr.rs2 as int)]))
  {
    OpTable(instr);
    if instr.funct3 as int in OP_MNEMONICS {
      ReadRTypeInstructionString(instr, OP_MNEMONICS[instr.funct3 as int]);
    }
  }

  lemma OpFunct7Rows(instr: RType)
    ensures (instr.funct3 as int, instr.funct7 as int) in OP_FUNCT7_MNEMONICS
            ==> ReadBack(RTypeToString(instr))
                == Some(AssemblyLine(OP_FUNCT7_MNEMONICS[(instr.funct3 as int, instr.funct7 as int)],
                                     [Register(instr.rd as int), Register(instr.rs1 as int), Register(instr.rs2 as int)]))
  {
    OpTable(instr);
    if (instr.funct3 as int, instr.funct7 as int) in OP_FUNCT7_MNEMONICS {
      ReadRTypeInstructionString(instr, OP_FUNCT7_MNEMONICS[(instr.funct3 as int, instr.funct7 as int)]);
    }
  }

  /** RTypeToString follows the two OP tables, and writes nothing outside them. */
  lemma OpTable(instr: RType)
    ensures RTypeToString(instr).Written? <==> instr.funct3 as int in OP_MNEMONICS || (instr.funct3 as int, instr.funct7 as int) in OP_FUNCT7_MNEMONICS
    ensures instr.funct3 as int in OP_MNEMONICS
            ==> RTypeToString(instr) == Written(RTypeInstructionString(instr, OP_MNEMONICS[instr.funct3 as int]))
    ensures (instr.funct3 as int, instr.funct7 as int) in OP_FUNCT7_MNEMONICS
            ==> RTypeToString(instr) == Written(RTypeInstructionString(instr, OP_FUNCT7_MNEMONICS[(instr.funct3 as int, instr.funct7 as int)]))
    ensures forall k | k in OP_MNEMONICS :: ' ' !in OP_MNEMONICS[k]
    ensures forall k | k in OP_FUNCT7_MNEMONICS :: ' ' !in OP_FUNCT7_MNEMONICS[k]
  {
    var f, g := instr.funct3 as int, instr.funct7 as int;
    if instr.funct3 == 0 { assert f == 0; OpFunct7(instr.funct7); }
    else if instr.funct3 == 1 { assert f == 1; }
    else if instr.funct3 == 2 { assert f == 2; }
    else if instr.funct3 == 3 { assert f == 3; }
    else if instr.funct3 == 4 { assert f == 4; }
    else if instr.funct3 == 5 { assert f == 5; OpFunct7(instr.funct7); }
    else if instr.funct3 == 6 { assert f == 6; }
    else if instr.funct3 == 7 { assert f == 7; }
    else { assert !(0 <= f <= 7); }
  }

  lemma OpFunct7(funct7: bv8)
    ensures funct7 as int == 0 <==> funct7 == 0
    ensures funct7 as int == 0x20 <==> funct7 == 0x20
  {
  }

  /** JALR: `rd rs1 imm`, whatever funct3 holds. */
  lemma JalrListing(w: Word)
    requires Opcode(w) == OPCODE_JALR
    ensures PrintedLine(w) == Some(AssemblyLine("JALR", [Register(Rd(w)), Register(Rs1(w)), Immediate(IImmediate(w))]))
  {
    var instr := ParseIType(w);
    assert DecodeInstruction(w) == I(instr);
    ParseITypeImmediate(w);
    JalrRow(instr);
  }

  lemma JalrRow(instr: IType)
    requires instr.opcode == 0x67
    ensures ReadBack(ITypeToString(instr))
            == Some(AssemblyLine("JALR", [Register(instr.rd as int), Register(instr.rs1 as int), Immediate(Int16Value(instr.imm))]))
  {
    ReadITypeInstructionString(instr, "JALR");
  }

  /** LOAD: `rd imm(rs1)`, for exactly the rows of the LOAD table. */
  lemma LoadListing(w: Word)
    requires Opcode(w) == OPCODE_LOAD
    ensures Rendering(DecodeInstruction(w)).Written? <==> Funct3(w) in LOAD_MNEMONICS
    ensures Funct3(w) in LOAD_MNEMONICS
            ==> PrintedLine(w) == Some(AssemblyLine(LOAD_MNEMONICS[Funct3(w)], [Register(Rd(w)), Memory(IImmediate(w), Rs1(w))]))
  {
    var instr := ParseIType(w);
    assert DecodeInstruction(w) == I(instr);
    ParseITypeImmediate(w);
    LoadRows(instr);
  }

  lemma LoadRows(instr: IType)
    requires instr.opcode == 0x03
    ensures ITypeToString(instr).Written? <==> instr.funct3 as int in LOAD_MNEMONICS
    ensures instr.funct3 as int in LOAD_MNEMONICS
            ==> ReadBack(ITypeToString(instr))
                == Some(AssemblyLine(LOAD_MNEMONICS[instr.funct3 as int], [Register(instr.rd as int), Memory(Int16Value(instr.imm), instr.rs1 as int)]))
  {
    LoadTable(instr);
    if instr.funct3 as int in LOAD_MNEMONICS {
      ReadITypeLoadInstructionString(instr, LOAD_MNEMONICS[instr.funct3 as int]);
    }
  }

  lemma LoadTable(instr: IType)
    requires instr.opcode == 0x03
    ensures ITypeToString(instr).Written? <==> instr.funct3 as int in LOAD_MNEMONICS
    ensures instr.funct3 as int in LOAD_MNEMONICS
            ==> ITypeToString(instr) == Written(ITypeLoadInstructionString(instr, LOAD_MNEMONICS[instr.funct3 as int]))
    ensures forall k | k in LOAD_MNEMONICS :: ' ' !in LOAD_MNEMONICS[k]
  {
    var f := instr.funct3 as int;
    if instr.funct3 == 0 { assert f == 0; }
    else if instr.funct3 == 1 { assert f == 1; }
    else if instr.funct3 == 2 { assert f == 2; }
    else if instr.funct3 == 4 { assert f == 4; }
    else if instr.funct3 == 5 { assert f == 5; }
    else { assert !(0 <= f <= 2) && f != 4 && f != 5; }
  }

  /**
   * OP-IMM: `rd rs1 imm` for the rows of the OP-IMM table, `rd rs1 shamt`
   * for SLLI with the I-immediate modulo 32 as shift amount, and for
   * funct3 101 only the immediates 0 (SRLI) and 32 (SRAI), both printed
   * with shift amount 0.
   */
  lemma OpImmListing(w: Word)
    requires Opcode(w) == OPCODE_OP_IMM
    ensures Rendering(DecodeInstruction(w)).Written?
            <==> Funct3(w) in OP_IMM_MNEMONICS || Funct3(w) == 1 || (Funct3(w) == 5 && (IImmediate(w) == 0 || IImmediate(w) == 32))
    ensures Funct3(w) in OP_IMM_MNEMONICS
            ==> PrintedLine(w)
                == Some(AssemblyLine(OP_IMM_MNEMONICS[Funct3(w)], [Register(Rd(w)), Register(Rs1(w)), Immediate(IImmediate(w))]))
  {
    var instr := ParseIType(w);
    assert DecodeInstruction(w) == I(instr);
    ParseITypeImmediate(w);
    OpImmWritten(instr);
    OpImmRows(instr);
  }

  /** SLLI prints its immediate modulo 32. */
  lemma SlliListing(w: Word)
    requires Opcode(w) == OPCODE_OP_IMM && Funct3(w) == 1
    ensures PrintedLine(w) == Some(AssemblyLine("SLLI", [Register(Rd(w)), Register(Rs1(w)), Immediate(IImmediate(w) % 32)]))
  {
    var instr := ParseIType(w);
    assert DecodeInstruction(w) == I(instr);
    assert instr.funct3 == 1;
    ParseITypeImmediate(w);
    OpImmShiftRows(instr);
  }

  /** funct3 101 prints SRLI or SRAI with shift amount 0, for the only two immediates it prints. */
  lemma ShiftRightListing(w: Word)
    requires Opcode(w) == OPCODE_OP_IMM && Funct3(w) == 5
    ensures IImmediate(w) == 0 ==> PrintedLine(w) == Some(AssemblyLine("SRLI", [Register(Rd(w)), Register(Rs1(w)), Immediate(0)]))
    ensures IImmediate(w) == 32 ==> PrintedLine(w) == Some(AssemblyLine("SRAI", [Register(Rd(w)), Register(Rs1(w)), Immediate(0)]))
  {
    var instr := ParseIType(w);
    assert DecodeInstruction(w) == I(instr);
    assert instr.funct3 == 5;
    ParseITypeImmediate(w);
    OpImmShiftRows(instr);
  }

  lemma OpImmWritten(instr: IType)
    requires instr.opcode == 0x13
    ensures ITypeToString(instr).Written?
            <==> instr.funct3 as int in OP_IMM_MNEMONICS || instr.funct3 == 1
                 || (instr.funct3 == 5 && (Int16Value(instr.imm) == 0 || Int16Value(instr.imm) == 32))
  {
    OpImmTable(instr);
    if instr.funct3 == 5 {
      ShiftRightWritten(instr);
    }
  }

  lemma OpImmRows(instr: IType)
    requires instr.opcode == 0x13
    ensures instr.funct3 as int in OP_IMM_MNEMONICS
            ==> ReadBack(ITypeToString(instr))
                == Some(AssemblyLine(OP_IMM_MNEMONICS[instr.funct3 as int],
                                     [Register(instr.rd as int), Register(instr.rs1 as int), Immediate(Int16Value(instr.imm))]))
  {
    OpImmTable(instr);
    if instr.funct3 as int in OP_IMM_MNEMONICS {
      ReadITypeInstructionString(instr, OP_IMM_MNEMONICS[instr.funct3 as int]);
    }
  }

  lemma OpImmShiftRows(instr: IType)
    requires instr.opcode == 0x13
    ensures instr.funct3 == 1
            ==> ReadBack(ITypeToString(instr))
                == Some(AssemblyLine("SLLI", [Register(instr.rd as int), Register(instr.rs1 as int), Immediate(Int16Value(instr.imm) % 32)]))
    ensures instr.funct3 == 5 && Int16Value(instr.imm) == 0
            ==> ReadBack(ITypeToString(instr)) == Some(AssemblyLine("SRLI", [Register(instr.rd as int), Register(instr.rs1 as int), Immediate(0)]))
    ensures instr.funct3 == 5 && Int16Value(instr.imm) == 32
            ==> ReadBack(ITypeToString(instr)) == Some(AssemblyLine("SRAI", [Register(instr.rd as int), Register(instr.rs1 as int), Immediate(0)]))
  {
    if instr.funct3 == 1 {
      assert ITypeToString(instr) == Written(ITypeShiftInstructionString(instr, "SLLI"));
      ReadITypeShiftInstructionString(instr, "SLLI");
    } else if instr.funct3 == 5 {
      ShiftRightWritten(instr);
      if Int16Value(instr.imm) == 0 {
        ShiftRightLogicalPrintsZero(instr);
      } else if Int16Value(instr.imm) == 32 {
        ShiftRightArithmeticPrintsZero(instr);
      }
    }
  }

  lemma OpImmTable(instr: IType)
    requires instr.opcode == 0x13
    ensures instr.funct3 as int in OP_IMM_MNEMONICS
            ==> ITypeToString(instr) == Written(ITypeInstructionString(instr, OP_IMM_MNEMONICS[instr.funct3 as int]))
    ensures instr.funct3 as int !in OP_IMM_MNEMONICS && instr.funct3 != 1 && instr.funct3 != 5 ==> ITypeToString(instr) == Unwritten
    ensures forall k | k in OP_IMM_MNEMONICS :: ' ' !in OP_IMM_MNEMONICS[k]
  {
    var f := instr.funct3 as int;
    if instr.funct3 == 0 { assert f == 0; }
    else if instr.funct3 == 1 { assert f == 1; }
    else if instr.funct3 == 2 { assert f == 2; }
    else if instr.funct3 == 3 { assert f == 3; }
    else if instr.funct3 == 4 { assert f == 4; }
    else if instr.funct3 == 5 { assert f == 5; }
    else if instr.funct3 == 6 { assert f == 6; }
    else if instr.funct3 == 7 { assert f == 7; }
    else { assert !(0 <= f <= 7); }
  }

  /** SYSTEM: ECALL for the I-immediate 0, EBREAK for 1, no operands, and nothing otherwise. */
  lemma SystemListing(w: Word)
    requires Opcode(w) == OPCODE_SYSTEM
    ensures Rendering(DecodeInstruction(w)).Written? <==> IImmediate(w) == 0 || IImmediate(w) == 1
    ensures IImmediate(w) == 0 ==> PrintedLine(w) == Some(AssemblyLine("ECALL", []))
    ensures IImmediate(w) == 1 ==> PrintedLine(w) == Some(AssemblyLine("EBREAK", []))
  {
    var instr := ParseIType(w);
    assert DecodeInstruction(w) == I(instr);
    ParseITypeImmediate(w);
    SystemRows(instr);
  }

  lemma SystemRows(instr: IType)
    requires instr.opcode == 0x73
    ensures ITypeToString(instr).Written? <==> Int16Value(instr.imm) == 0 || Int16Value(instr.imm) == 1
    ensures Int16Value(instr.imm) == 0 ==> ReadBack(ITypeToString(instr)) == Some(AssemblyLine("ECALL", []))
    ensures Int16Value(instr.imm) == 1 ==> ReadBack(ITypeToString(instr)) == Some(AssemblyLine("EBREAK", []))
  {
    SystemMnemonics(instr);
    ReadMnemonic("ECALL");
    ReadMnemonic("EBREAK");
  }

  /** STORE: `rs2 imm(rs1)`, for exactly the rows of the STORE table. */
  lemma StoreListing(w: Word)
    requires Opcode(w) == OPCODE_STORE
    ensures Rendering(DecodeInstruction(w)).Written? <==> Funct3(w) in STORE_MNEMONICS
    ensures Funct3(w) in STORE_MNEMONICS
            ==> PrintedLine(w) == Some(AssemblyLine(STORE_MNEMONICS[Funct3(w)], [Register(Rs2(w)), Memory(SImmediate(w), Rs1(w))]))
  {
    var instr := ParseSType(w);
    assert DecodeInstruction(w) == S(instr);
    ParseSTypeImmediate(w);
    StoreRows(instr);
  }

  lemma StoreRows(instr: SType)
    ensures STypeToString(instr).Written? <==> instr.funct3 as int in STORE_MNEMONICS
    ensures instr.funct3 as int in STORE_MNEMONICS
            ==> ReadBack(STypeToString(instr))
                == Some(AssemblyLine(STORE_MNEMONICS[instr.funct3 as int], [Register(instr.rs2 as int), Memory(Int16Value(instr.imm), instr.rs1 as int)]))
  {
    StoreTable(instr);
    if instr.funct3 as int in STORE_MNEMONICS {
      ReadSTypeInstructionString(instr, STORE_MNEMONICS[instr.funct3 as int]);
    }
  }

  lemma StoreTable(instr: SType)
    ensures STypeToString(instr).Written? <==> instr.funct3 as int in STORE_MNEMONICS
    ensures instr.funct3 as int in STORE_MNEMONICS
            ==> STypeToString(instr) == Written(STypeInstructionString(instr, STORE_MNEMONICS[instr.funct3 as int]))
    ensures forall k | k in STORE_MNEMONICS :: ' ' !in STORE_MNEMONICS[k]
  {
    var f := instr.funct3 as int;
    if instr.funct3 == 0 { assert f == 0; }
    else if instr.funct3 == 1 { assert f == 1; }
    else if instr.funct3 == 2 { assert f == 2; }
    else { assert !(0 <= f <= 2); }
  }

  /** BRANCH: `rs1 rs2 imm`, for exactly the rows of the BRANCH table. */
  lemma BranchListing(w: Word)
    requires Opcode(w) == OPCODE_BRANCH
    ensures Rendering(DecodeInstruction(w)).Written? <==> Funct3(w) in BRANCH_MNEMONICS
    ensures Funct3(w) in BRANCH_MNEMONICS
            ==> PrintedLine(w)
                == Some(AssemblyLine(BRANCH_MNEMONICS[Funct3(w)], [Register(Rs1(w)), Register(Rs2(w)), Immediate(BImmediate(w))]))
  {
    var instr := ParseBType(w);
    assert DecodeInstruction(w) == B(instr);
    ParseBTypeImmediate(w);
    BranchRows(instr);
  }

  lemma BranchRows(instr: BType)
    ensures BTypeToString(instr).Written? <==> instr.funct3 as int in BRANCH_MNEMONICS
    ensures instr.funct3 as int in BRANCH_MNEMONICS
            ==> ReadBack(BTypeToString(instr))
                == Some(AssemblyLine(BRANCH_MNEMONICS[instr.funct3 as int],
                                     [Register(instr.rs1 as int), Register(instr.rs2 as int), Immediate(Int16Value(instr.imm))]))
  {
    BranchTable(instr);
    if instr.funct3 as int in BRANCH_MNEMONICS {
      ReadBTypeInstructionString(instr, BRANCH_MNEMONICS[instr.funct3 as int]);
    }
  }

  lemma BranchTable(instr: BType)
    ensures BTypeToString(instr).Written? <==> instr.funct3 as int in BRANCH_MNEMONICS
    ensures instr.funct3 as int in BRANCH_MNEMONICS
            ==> BTypeToString(instr) == Written(BTypeInstructionString(instr, BRANCH_MNEMONICS[instr.funct3 as int]))
    ensures forall k | k in BRANCH_MNEMONICS :: ' ' !in BRANCH_MNEMONICS[k]
  {
    var f := instr.funct3 as int;
    if instr.funct3 == 0 { assert f == 0; }
    else if instr.funct3 == 1 { assert f == 1; }
    else if instr.funct3 == 4 { assert f == 4; }
    else if instr.funct3 == 5 { assert f == 5; }
    else if instr.funct3 == 6 { assert f == 6; }
    else if instr.funct3 == 7 { assert f == 7; }
    else { assert f != 0 && f != 1 && !(4 <= f <= 7); }
  }

  /** LUI and AUIPC: `rd imm`, the immediate being inst[31:12] as a signed 20-bit number. */
  lemma UpperListing(w: Word)
    requires Opcode(w) == OPCODE_LUI || Opcode(w) == OPCODE_AUIPC
    ensures Opcode(w) == OPCODE_LUI
            ==> PrintedLine(w) == Some(AssemblyLine("LUI", [Register(Rd(w)), Immediate(UpperImmediate(w))]))
    ensures Opcode(w) == OPCODE_AUIPC
            ==> PrintedLine(w) == Some(AssemblyLine("AUIPC", [Register(Rd(w)), Immediate(UpperImmediate(w))]))
  {
    var instr := ParseUType(w);
    assert DecodeInstruction(w) == U(instr);
    OpcodeField(w);
    ParseUTypeImmediate(w);
    UpperRows(instr);
  }

  lemma UpperRows(instr: UType)
    ensures instr.opcode == 0x37
            ==> ReadBack(UTypeToString(instr)) == Some(AssemblyLine("LUI", [Register(instr.rd as int), Immediate(Int32Value(instr.imm))]))
    ensures instr.opcode == 0x17
            ==> ReadBack(UTypeToString(instr)) == Some(AssemblyLine("AUIPC", [Register(instr.rd as int), Immediate(Int32Value(instr.imm))]))
  {
    if instr.opcode == 0x37 {
      ReadUTypeInstructionString(instr, "LUI");
    } else if instr.opcode == 0x17 {
      ReadUTypeInstructionString(instr, "AUIPC");
    }
  }

  /**
   * JAL: `rd imm`, the immediate being what parse_jtype stores, which is the
   * ISA J-immediate exactly when that lies in [-32768, 32767].
   */
  lemma JalListing(w: Word)
    requires Opcode(w) == OPCODE_JAL
    ensures PrintedLine(w)
            == Some(AssemblyLine("JAL", [Register(Rd(w)),
                                         Immediate(WidenedJValue(w >= 0x8000_0000, Int16Value(Low16(JImmediateBits(w)))))]))
    ensures PrintedLine(w) == Some(AssemblyLine("JAL", [Register(Rd(w)), Immediate(JImmediate(w))]))
            <==> -0x8000 <= JImmediate(w) < 0x8000
  {
    var instr := ParseJType(w);
    assert DecodeInstruction(w) == J(instr);
    ParseJTypeImmediate(w);
    ParseJTypeMatchesIsa(w);
    JalRow(instr);
  }

  lemma JalRow(instr: JType)
    requires instr.opcode == 0x6F
    ensures ReadBack(JTypeToString(instr)) == Some(AssemblyLine("JAL", [Register(instr.rd as int), Immediate(Int32Value(instr.imm))]))
  {
    ReadJTypeInstructionString(instr, "JAL");
  }

  /** MISC-MEM: the bare mnemonic FENCE. */
  lemma FenceListing(w: Word)
    requires Opcode(w) == OPCODE_MISC_MEM
    ensures PrintedLine(w) == Some(AssemblyLine("FENCE", []))
  {
    assert DecodeInstruction(w) == Fence;
    ReadMnemonic("FENCE");
  }

  /** Every other opcode prints the placeholder message. */
  lemma InvalidListing(w: Word)
    requires Opcode(w) !in {OPCODE_LUI, OPCODE_AUIPC, OPCODE_JAL, OPCODE_JALR, OPCODE_LOAD, OPCODE_OP_IMM,
                            OPCODE_SYSTEM, OPCODE_BRANCH, OPCODE_STORE, OPCODE_OP, OPCODE_MISC_MEM}
    ensures Rendering(DecodeInstruction(w)) == Written(INVALID_MSG)
  {
    assert DecodeInstruction(w) == Invalid;
  }
}
