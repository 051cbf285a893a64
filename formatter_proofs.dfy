/**
 * What the formatter's text says.  ReadLine reads a line of assembly text
 * (a mnemonic, then operands separated by single spaces, each a register
 * `xN`, an immediate, or a memory operand `offset(xN)`).  Reading back each
 * layout yields the mnemonic and the instruction's fields in the order the
 * format prints them.  The remaining lemmas pin down which mnemonic each
 * field combination gets, and the example words the printer is known for.
 */
module FormatterProofs {
  import opened Wrappers
  import opened InstructionTypes
  import opened CInt
  import opened Decimal
  import opened Text
  import opened Decoder
  import opened Formatter

  datatype Operand = Register(number: int) | Immediate(value: int) | Memory(offset: int, base: int)

  datatype AssemblyLine = AssemblyLine(mnemonic: string, operands: seq<Operand>)

  /** `xN` for a decimal N. */
  function ReadRegister(s: string): Option<int>
  {
    if |s| >= 1 && s[0] == 'x' then ParseInt(s[1..]) else None
  }

  /** One operand: `offset(xN)` if it holds a parenthesis, `xN` if it starts with x, else a number. */
  function ReadOperand(s: string): Option<Operand>
  {
    if '(' in s then
      var parts := SplitOn(s, '(');
      if |parts| == 2 && |parts[1]| >= 1 && parts[1][|parts[1]| - 1] == ')' then
        var offset := ParseInt(parts[0]);
        var base := ReadRegister(parts[1][..|parts[1]| - 1]);
        if offset.Some? && base.Some? then Some(Memory(offset.value, base.value)) else None
      else None
    else if |s| >= 1 && s[0] == 'x' then
      var number := ReadRegister(s);
      if number.Some? then Some(Register(number.value)) else None
    else
      var value := ParseInt(s);
      if value.Some? then Some(Immediate(value.value)) else None
  }

  function ReadOperands(words: seq<string>): Option<seq<Operand>>
    decreases |words|
  {
    if |words| == 0 then Some([])
    else
      var first := ReadOperand(words[0]);
      var rest := ReadOperands(words[1..]);
      if first.Some? && rest.Some? then Some([first.value] + rest.value) else None
  }

  /** A line of text as a mnemonic and its operands, or None when an operand does not read. */
  function ReadLine(text: string): Option<AssemblyLine>
  {
    var words := SplitOn(text, ' ');
    var operands := ReadOperands(words[1..]);
    if operands.Some? then Some(AssemblyLine(words[0], operands.value)) else None
  }

  // Reading back each layout: the operands come out in the order the
  // format prints them, with the values of the fields.

  /** R-type: `rd rs1 rs2`. */
  lemma ReadRTypeInstructionString(instr: RType, cmd: string)
    requires ' ' !in cmd
    ensures ReadLine(RTypeInstructionString(instr, cmd))
            == Some(AssemblyLine(cmd, [Register(instr.rd as int), Register(instr.rs1 as int), Register(instr.rs2 as int)]))
  {
    var a, b, c := RegisterName(instr.rd), RegisterName(instr.rs1), RegisterName(instr.rs2);
    ReadRegisterName(instr.rd);
    ReadRegisterName(instr.rs1);
    ReadRegisterName(instr.rs2);
    SplitThreeOperands(cmd, a, b, c);
    ReadThree(a, b, c);
  }

  /** OP-IMM and JALR: `rd rs1 imm`. */
  lemma ReadITypeInstructionString(instr: IType, cmd: string)
    requires ' ' !in cmd
    ensures ReadLine(ITypeInstructionString(instr, cmd))
            == Some(AssemblyLine(cmd, [Register(instr.rd as int), Register(instr.rs1 as int), Immediate(Int16Value(instr.imm))]))
  {
    ReadRegisterRegisterImmediate(cmd, instr.rd, instr.rs1, Int16Value(instr.imm));
  }

  /** Shifts: `rd rs1 shamt`, where the shift amount printed is the immediate modulo 32. */
  lemma ReadITypeShiftInstructionString(instr: IType, cmd: string)
    requires ' ' !in cmd
    ensures ReadLine(ITypeShiftInstructionString(instr, cmd))
            == Some(AssemblyLine(cmd, [Register(instr.rd as int), Register(instr.rs1 as int), Immediate(Int16Value(instr.imm) % 32)]))
  {
    ReadRegisterRegisterImmediate(cmd, instr.rd, instr.rs1, Uint16Value(instr.imm & 0x1F));
    LowFiveBitsAreModulo32(instr.imm);
  }

  /** Loads: `rd imm(rs1)`. */
  lemma ReadITypeLoadInstructionString(instr: IType, cmd: string)
    requires ' ' !in cmd
    ensures ReadLine(ITypeLoadInstructionString(instr, cmd))
            == Some(AssemblyLine(cmd, [Register(instr.rd as int), Memory(Int16Value(instr.imm), instr.rs1 as int)]))
  {
    ReadRegisterMemory(cmd, instr.rd, Int16Value(instr.imm), instr.rs1);
  }

  /** Stores: `rs2 imm(rs1)`, the register stored first. */
  lemma ReadSTypeInstructionString(instr: SType, cmd: string)
    requires ' ' !in cmd
    ensures ReadLine(STypeInstructionString(instr, cmd))
            == Some(AssemblyLine(cmd, [Register(instr.rs2 as int), Memory(Int16Value(instr.imm), instr.rs1 as int)]))
  {
    ReadRegisterMemory(cmd, instr.rs2, Int16Value(instr.imm), instr.rs1);
  }

  /** Branches: `rs1 rs2 imm`. */
  lemma ReadBTypeInstructionString(instr: BType, cmd: string)
    requires ' ' !in cmd
    ensures ReadLine(BTypeInstructionString(instr, cmd))
            == Some(AssemblyLine(cmd, [Register(instr.rs1 as int), Register(instr.rs2 as int), Immediate(Int16Value(instr.imm))]))
  {
    ReadRegisterRegisterImmediate(cmd, instr.rs1, instr.rs2, Int16Value(instr.imm));
  }

  /** LUI and AUIPC: `rd imm`. */
  lemma ReadUTypeInstructionString(instr: UType, cmd: string)
    requires ' ' !in cmd
    ensures ReadLine(UTypeInstructionString(instr, cmd))
            == Some(AssemblyLine(cmd, [Register(instr.rd as int), Immediate(Int32Value(instr.imm))]))
  {
    ReadRegisterImmediate(cmd, instr.rd, Int32Value(instr.imm));
  }

  /** JAL: `rd imm`. */
  lemma ReadJTypeInstructionString(instr: JType, cmd: string)
    requires ' ' !in cmd
    ensures ReadLine(JTypeInstructionString(instr, cmd))
            == Some(AssemblyLine(cmd, [Register(instr.rd as int), Immediate(Int32Value(instr.imm))]))
  {
    ReadRegisterImmediate(cmd, instr.rd, Int32Value(instr.imm));
  }

  /** A mnemonic alone (ECALL, EBREAK, FENCE) reads back with no operands. */
  lemma ReadMnemonic(cmd: string)
    requires ' ' !in cmd
    ensures ReadLine(cmd) == Some(AssemblyLine(cmd, []))
  {
    SplitOnPiece(cmd, ' ');
    assert [cmd][1..] == [];
  }

  // The three layouts that carry a number, for any registers and value.

  lemma ReadRegisterRegisterImmediate(cmd: string, first: bv8, second: bv8, value: int)
    requires ' ' !in cmd
    ensures ReadLine(ThreeOperands(cmd, RegisterName(first), RegisterName(second), IntToString(value)))
            == Some(AssemblyLine(cmd, [Register(first as int), Register(second as int), Immediate(value)]))
  {
    var a, b, c := RegisterName(first), RegisterName(second), IntToString(value);
    ReadRegisterName(first);
    ReadRegisterName(second);
    ReadNumber(value);
    SplitThreeOperands(cmd, a, b, c);
    ReadThree(a, b, c);
  }

  lemma ReadRegisterMemory(cmd: string, register: bv8, offset: int, base: bv8)
    requires ' ' !in cmd
    ensures ReadLine(TwoOperands(cmd, RegisterName(register), MemoryOperand(offset, base)))
            == Some(AssemblyLine(cmd, [Register(register as int), Memory(offset, base as int)]))
  {
    var a, b := RegisterName(register), MemoryOperand(offset, base);
    ReadRegisterName(register);
    ReadMemoryOperand(offset, base);
    SplitTwoOperands(cmd, a, b);
    ReadTwo(a, b);
  }

  lemma ReadRegisterImmediate(cmd: string, register: bv8, value: int)
    requires ' ' !in cmd
    ensures ReadLine(TwoOperands(cmd, RegisterName(register), IntToString(value)))
            == Some(AssemblyLine(cmd, [Register(register as int), Immediate(value)]))
  {
    var a, b := RegisterName(register), IntToString(value);
    ReadRegisterName(register);
    ReadNumber(value);
    SplitTwoOperands(cmd, a, b);
    ReadTwo(a, b);
  }

  // Which mnemonic each field combination gets, and which get none.

  /** OP writes text exactly for funct3 below 8, and for ADD/SUB and SRL/SRA only when funct7 is 0 or 0x20. */
  lemma RTypeWritten(instr: RType)
    ensures RTypeToString(instr).Written?
            <==> instr.funct3 < 8 && ((instr.funct3 != 0 && instr.funct3 != 5) || instr.funct7 == 0 || instr.funct7 == 0x20)
  {
  }

  /** funct7 matters only for funct3 000 and 101. */
  lemma RTypeIgnoresFunct7(instr: RType, funct7: bv8)
    requires instr.funct3 != 0 && instr.funct3 != 5
    ensures RTypeToString(instr.(funct7 := funct7)) == RTypeToString(instr)
  {
  }

  /** JALR is printed whatever funct3 holds. */
  lemma JalrIgnoresFunct3(instr: IType, funct3: bv8)
    requires instr.opcode == 0x67
    ensures ITypeToString(instr.(funct3 := funct3)) == ITypeToString(instr)
    ensures ITypeToString(instr).Written?
  {
  }

  /** SYSTEM is printed whatever funct3, rd and rs1 hold ... */
  lemma SystemIgnoresRegisters(instr: IType, funct3: bv8, rd: bv8, rs1: bv8)
    requires instr.opcode == 0x73
    ensures ITypeToString(instr.(funct3 := funct3, rd := rd, rs1 := rs1)) == ITypeToString(instr)
  {
  }

  /** ... as ECALL for the immediate 0, EBREAK for 1, and not at all otherwise. */
  lemma SystemMnemonics(instr: IType)
    requires instr.opcode == 0x73
    ensures ITypeToString(instr) == Written("ECALL") <==> Int16Value(instr.imm) == 0
    ensures ITypeToString(instr) == Written("EBREAK") <==> Int16Value(instr.imm) == 1
    ensures ITypeToString(instr).Written? <==> 0 <= Int16Value(instr.imm) <= 1
  {
  }

  /** OP-IMM funct3 101 is printed only for the immediates 0 (SRLI) and 32 (SRAI) ... */
  lemma ShiftRightWritten(instr: IType)
    requires instr.opcode == 0x13 && instr.funct3 == 5
    ensures ITypeToString(instr).Written? <==> Int16Value(instr.imm) == 0 || Int16Value(instr.imm) == 32
  {
  }

  /** ... and both print the shift amount 0: no right shift by a non-zero amount is ever printed. */
  lemma ShiftRightLogicalPrintsZero(instr: IType)
    requires instr.opcode == 0x13 && instr.funct3 == 5 && Int16Value(instr.imm) == 0
    ensures ReadLine(ITypeToString(instr).text)
            == Some(AssemblyLine("SRLI", [Register(instr.rd as int), Register(instr.rs1 as int), Immediate(0)]))
  {
    var text := ITypeShiftInstructionString(instr, "SRLI");
    assert ITypeToString(instr) == Written(text);
    ReadITypeShiftInstructionString(instr, "SRLI");
    assert ReadLine(text)
           == Some(AssemblyLine("SRLI", [Register(instr.rd as int), Register(instr.rs1 as int), Immediate(Int16Value(instr.imm) % 32)]));
  }

  lemma ShiftRightArithmeticPrintsZero(instr: IType)
    requires instr.opcode == 0x13 && instr.funct3 == 5 && Int16Value(instr.imm) == 32
    ensures ReadLine(ITypeToString(instr).text)
            == Some(AssemblyLine("SRAI", [Register(instr.rd as int), Register(instr.rs1 as int), Immediate(0)]))
  {
    var text := ITypeShiftInstructionString(instr, "SRAI");
    assert ITypeToString(instr) == Written(text);
    ReadITypeShiftInstructionString(instr, "SRAI");
    assert ReadLine(text)
           == Some(AssemblyLine("SRAI", [Register(instr.rd as int), Register(instr.rs1 as int), Immediate(Int16Value(instr.imm) % 32)]));
  }

  /** Loads write text exactly for funct3 000, 001, 010, 100 and 101. */
  lemma LoadWritten(instr: IType)
    requires instr.opcode == 0x03
    ensures ITypeToString(instr).Written? <==> instr.funct3 <= 2 || instr.funct3 == 4 || instr.funct3 == 5
  {
  }

  /** Stores write text exactly for funct3 000, 001 and 010. */
  lemma STypeWritten(instr: SType)
    ensures STypeToString(instr).Written? <==> instr.funct3 <= 2
  {
  }

  /** Branches write text exactly for funct3 000, 001 and 100 to 111. */
  lemma BTypeWritten(instr: BType)
    ensures BTypeToString(instr).Written? <==> instr.funct3 <= 1 || 4 <= instr.funct3 <= 7
  {
  }

  /** Every LUI, AUIPC and JAL the decoder produces is printed. */
  lemma DecodedUpperAndJumpWritten(number: Word)
    requires DecodeInstruction(number).U? || DecodeInstruction(number).J?
    ensures Rendering(DecodeInstruction(number)).Written?
  {
  }

  // Example words.

  lemma AddiExample()
    ensures Rendering(DecodeInstruction(0x0000_0013)) == Written("ADDI x0 x0 0")
  {
    ExampleOperands();
  }

  lemma AddExample()
    ensures Rendering(DecodeInstruction(0x0000_0033)) == Written("ADD x0 x0 x0")
  {
    ExampleOperands();
  }

  lemma SubExample()
    ensures Rendering(DecodeInstruction(0x4000_0033)) == Written("SUB x0 x0 x0")
  {
    ExampleOperands();
  }

  lemma EbreakExample()
    ensures Rendering(DecodeInstruction(0x0010_0073)) == Written("EBREAK")
  {
    assert ParseIType(0x0010_0073).imm == 1;
    Int16ValueOfOne();
  }

  lemma JalExample()
    ensures Rendering(DecodeInstruction(0x0000_006F)) == Written("JAL x0 0")
  {
    ExampleOperands();
    assert ParseJType(0x0000_006F).imm == 0;
    Int32ValueOfZero();
  }

  lemma FenceExample()
    ensures Rendering(DecodeInstruction(0x0000_000F)) == Written("FENCE")
  {
  }

  lemma ZeroWordExample()
    ensures Rendering(DecodeInstruction(0)) == Written("Invalid instruction")
  {
  }

  lemma ExampleOperands()
    ensures RegisterName(0) == "x0"
    ensures IntToString(Int16Value(0)) == "0"
  {
    Int16ValueOfZero();
  }

  lemma Int16ValueOfOne()
    ensures Int16Value(1) == 1
  {
  }

  lemma Int32ValueOfZero()
    ensures Int32Value(0) == 0
  {
    Halves(0, 0, 0);
    Int16ValueOfZero();
  }

  // Reading single operands.

  /** `%d` writes only a sign and digits: no space, parenthesis or `x`. */
  lemma IntToStringCharacters(v: int)
    ensures ' ' !in IntToString(v) && '(' !in IntToString(v) && ')' !in IntToString(v)
    ensures IntToString(v)[0] != 'x'
  {
    var s := IntToString(v);
    forall i | 0 <= i < |s|
      ensures s[i] == '-' || IsDigit(s[i])
    {
      if i > 0 {
        assert s[i] == s[1..][i - 1];
      }
    }
  }

  lemma ReadNumber(v: int)
    ensures ReadOperand(IntToString(v)) == Some(Immediate(v))
    ensures ' ' !in IntToString(v)
  {
    IntToStringCharacters(v);
    IntToStringRoundTrip(v);
  }

  lemma ReadRegisterName(r: bv8)
    ensures ReadRegister(RegisterName(r)) == Some(r as int)
    ensures ReadOperand(RegisterName(r)) == Some(Register(r as int))
    ensures ' ' !in RegisterName(r) && '(' !in RegisterName(r) && ')' !in RegisterName(r)
  {
    var s := RegisterName(r);
    assert s[1..] == IntToString(r as int);
    IntToStringCharacters(r as int);
    IntToStringRoundTrip(r as int);
  }

  lemma ReadMemoryOperand(offset: int, base: bv8)
    ensures ReadOperand(MemoryOperand(offset, base)) == Some(Memory(offset, base as int))
    ensures ' ' !in MemoryOperand(offset, base)
  {
    var number, register := IntToString(offset), RegisterName(base);
    IntToStringCharacters(offset);
    IntToStringRoundTrip(offset);
    ReadRegisterName(base);
    SplitMemoryOperand(number, register);
    assert (register + ")")[..|register + ")"| - 1] == register;
  }

  /** `offset(register)` splits at its parenthesis into the offset and `register)`. */
  lemma SplitMemoryOperand(number: string, register: string)
    requires '(' !in number && '(' !in register && ' ' !in number && ' ' !in register
    ensures '(' in number + "(" + register + ")"
    ensures ' ' !in number + "(" + register + ")"
    ensures SplitOn(number + "(" + register + ")", '(') == [number, register + ")"]
  {
    var s := number + "(" + register + ")";
    assert s == number + ['('] + (register + ")");
    assert s[|number|] == '(';
    SplitOnJoin(number, '(', register + ")");
    SplitOnPiece(register + ")", '(');
  }

  // Splitting the shared layouts at their spaces.

  lemma SplitTwoOperands(cmd: string, a: string, b: string)
    requires ' ' !in cmd && ' ' !in a && ' ' !in b
    ensures SplitOn(TwoOperands(cmd, a, b), ' ') == [cmd, a, b]
  {
    assert TwoOperands(cmd, a, b) == cmd + [' '] + (a + [' '] + b);
    SplitOnJoin(cmd, ' ', a + [' '] + b);
    SplitOnJoin(a, ' ', b);
    SplitOnPiece(b, ' ');
  }

  lemma SplitThreeOperands(cmd: string, a: string, b: string, c: string)
    requires ' ' !in cmd && ' ' !in a && ' ' !in b && ' ' !in c
    ensures SplitOn(ThreeOperands(cmd, a, b, c), ' ') == [cmd, a, b, c]
  {
    assert ThreeOperands(cmd, a, b, c) == cmd + [' '] + (a + [' '] + (b + [' '] + c));
    SplitOnJoin(cmd, ' ', a + [' '] + (b + [' '] + c));
    SplitOnJoin(a, ' ', b + [' '] + c);
    SplitOnJoin(b, ' ', c);
    SplitOnPiece(c, ' ');
  }

  lemma ReadOne(a: string)
    requires ReadOperand(a).Some?
    ensures ReadOperands([a]) == Some([ReadOperand(a).value])
  {
    assert [a][1..] == [];
    assert ReadOperands([]) == Some([]);
    assert [ReadOperand(a).value] + [] == [ReadOperand(a).value];
  }

  lemma ReadTwo(a: string, b: string)
    requires ReadOperand(a).Some? && ReadOperand(b).Some?
    ensures ReadOperands([a, b]) == Some([ReadOperand(a).value, ReadOperand(b).value])
  {
    assert [a, b][1..] == [b];
    ReadOne(b);
    assert [ReadOperand(a).value] + [ReadOperand(b).value] == [ReadOperand(a).value, ReadOperand(b).value];
  }

  lemma ReadThree(a: string, b: string, c: string)
    requires ReadOperand(a).Some? && ReadOperand(b).Some? && ReadOperand(c).Some?
    ensures ReadOperands([a, b, c]) == Some([ReadOperand(a).value, ReadOperand(b).value, ReadOperand(c).value])
  {
    assert [a, b, c][1..] == [b, c];
    ReadTwo(b, c);
    assert [ReadOperand(a).value] + [ReadOperand(b).value, ReadOperand(c).value]
           == [ReadOperand(a).value, ReadOperand(b).value, ReadOperand(c).value];
  }
}
