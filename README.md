# RV32I single-word decoder and mnemonic printer

This project models the core of a small RISC-V disassembler: the decoder
that splits one 32-bit RV32I instruction word into the fields of its format
(`decode_instruction` and the `parse_*type` helpers), and the printer that
turns a decoded instruction into one line of assembly text such as
`ADDI x1 x2 -5` (`to_string` and the `*_to_string` helpers).

The fields the C structures hold are modelled as their bit patterns: `bv8`
for a `uint8_t`, `bv16` for an `int16_t` and `bv32` for an `int32_t`. The
module `CInt` gives the value C reads from each pattern. Where C leaves a
result implementation-defined, the model fixes two's-complement behaviour:
`>>` on a negative `int32_t` copies the sign bit, and a conversion of an
out-of-range value to `int16_t` keeps the low 16 bits.

The decoder is proved against an independent reference: the module `Rv32i`
writes out, bit by bit, the instruction fields of section 2.2 and the
immediates of section 2.3 (Figure 2.4) of the RISC-V Unprivileged ISA,
version 20191213. The printer is proved against a reader (`ReadLine`) that
parses the text back into a mnemonic and operands. The module `Listing`
joins the two: for every word of each major opcode it gives the line the
printed text reads back as, with the mnemonic from the printer's table for
that opcode and the operands taken from the word's ISA fields and
immediates.

The model keeps these behaviours of the code as written:

- A word whose opcode is not one of the eleven RV32I major opcodes is
  `Invalid`, by the `default` branch of `decode_instruction`. This includes
  the word 0, whose opcode is 0.
- `parse_jtype` stores the 21-bit J-immediate in an `int16_t`, then ORs
  `0xFF000000` into it when bit 31 is set. The stored immediate equals the
  architectural one exactly when that one lies in [-32768, 32767].
- The printer prints OP-IMM funct3 101 only when the whole immediate is 0
  (`SRLI`) or 32 (`SRAI`). So every right shift it prints has shift amount 0.
- OP-IMM funct3 011 is printed with the mnemonic `SLTU`.
- ECALL and EBREAK are chosen by the immediate alone; funct3, rd and rs1 are
  not examined.
- When no mnemonic matches the fields, the helper writes nothing into the
  buffer. The model calls that buffer `Unwritten`.

## Model

| member | source | states |
|---|---|---|
| Decoder.ExtractBitsToChar | instruction_types.c:19-22 | the result is the field masked to `length` bits, so it is below 2^length |
| Decoder.ExtractBitsToCharIsField | instruction_types.c:19-22 | for a length of 1 to 8 bits inside the word, the result is the field inst[start+length-1:start] |
| Decoder.ExtractOpcode | instruction_types.c:30-32 | the result is the ISA's opcode field inst[6:0], below 0x80 |
| Decoder.ExtractRd | instruction_types.c:40-42 | the result is the ISA's rd field inst[11:7], below 32 |
| Decoder.ExtractFunct3 | instruction_types.c:51-53 | the result is the ISA's funct3 field inst[14:12], below 8 |
| Decoder.ExtractRs1 | instruction_types.c:62-64 | the result is the ISA's rs1 field inst[19:15], below 32 |
| Decoder.ExtractRs2 | instruction_types.c:73-75 | the result is the ISA's rs2 field inst[24:20], below 32 |
| Decoder.ParseRType | instruction_types.c:77-86 | every R-type field, funct7 included, is the ISA field at its bit positions |
| Decoder.ParseIType | instruction_types.c:88-96 | opcode, rd, funct3 and rs1 are the ISA fields; imm is the low half of the ISA I-immediate |
| Decoder.ParseSType | instruction_types.c:98-114 | opcode, funct3, rs1 and rs2 are the ISA fields; imm is the low half of the ISA S-immediate |
| Decoder.ParseBType | instruction_types.c:116-134 | opcode, funct3, rs1 and rs2 are the ISA fields; imm is the low half of the ISA B-immediate |
| Decoder.ParseUType | instruction_types.c:136-142 | opcode and rd are the ISA fields; imm is inst[31:12] as a sign-extended 20-bit number |
| Decoder.ParseJType | instruction_types.c:144-160 | opcode and rd are the ISA fields; imm is the low 16 bits of the ISA J-immediate, with the upper byte set when bit 31 is set |
| Decoder.DecodeInstruction | instruction_types.c:163-202 | the tag is U, J, I, B, S, R or FENCE exactly for the opcodes of that format; the payload is that format's parse; every other opcode gives Invalid |
| Decoder.IShiftIsImmediate | instruction_types.c:94 | the arithmetic shift of the word by 20 is the ISA I-immediate |
| Decoder.UShiftIsImmediate | instruction_types.c:140 | the arithmetic shift of the word by 12 is the sign-extended upper immediate |
| Decoder.SPatternIsLowHalf | instruction_types.c:105-112 | the int16_t bits the S-type code assembles (`SImmediatePattern`) are the low half of the ISA S-immediate |
| Decoder.BPatternIsLowHalf | instruction_types.c:123-132 | the int16_t bits the B-type code assembles (`BImmediatePattern`) are the low half of the ISA B-immediate |
| Decoder.JNarrowedIsLowHalf | instruction_types.c:149-154 | the int16_t bits the J-type code builds before the sign fill (`JNarrowed`) are the low half of the ISA J-immediate |
| DecoderProofs.ParseITypeImmediate | instruction_types.c:88-96 | the stored int16_t immediate has the ISA I-immediate's value, lies in [-2048, 2047], and is negative exactly when bit 31 is set |
| DecoderProofs.ParseSTypeImmediate | instruction_types.c:98-114 | the stored immediate has the ISA S-immediate's value, lies in [-2048, 2047], and is negative exactly when bit 31 is set |
| DecoderProofs.ParseBTypeImmediate | instruction_types.c:116-134 | the stored immediate has the ISA B-immediate's value, is even, lies in [-4096, 4094], and is negative exactly when bit 31 is set |
| DecoderProofs.ParseUTypeImmediate | instruction_types.c:136-142 | the stored int32_t has the value of inst[31:12] as a 20-bit signed number, and is negative exactly when bit 31 is set |
| DecoderProofs.ParseJTypeImmediate | instruction_types.c:144-160 | the stored value (`JImmediatePattern`) is the J-immediate truncated to int16_t, minus 2^24 when bit 31 is set and the truncation is not negative |
| DecoderProofs.ParseJTypeMatchesIsa | instruction_types.c:144-160 | the stored value equals the ISA J-immediate if and only if that immediate lies in [-32768, 32767] |
| DecoderProofs.ParseJTypeImmediateShape | instruction_types.c:144-160 | the stored value is even, and negative whenever bit 31 is set |
| DecoderProofs.ParseJTypeLosesBit16 | instruction_types.c:154 | for the word 0x0001006F the ISA offset is 65536 while the stored immediate is 0 |
| DecoderProofs.ParseJTypeZero | instruction_types.c:144-160 | `JAL x0 0` decodes with immediate 0 |
| DecoderProofs.DecodeFormatDependsOnlyOnOpcode | instruction_types.c:165-200 | two words with the same opcode decode to the same tag |
| DecoderProofs.DecodeZeroIsInvalid | instruction_types.c:198-199 | the word 0 decodes to Invalid |
| Rv32i.IImmediateRange | instruction_types.c:94 | the I-immediate is a 12-bit signed number |
| Rv32i.SImmediateRange | instruction_types.c:105-112 | the S-immediate is a 12-bit signed number |
| Rv32i.BImmediateRange | instruction_types.c:123-132 | the B-immediate is even and lies in [-4096, 4094] |
| Rv32i.UpperImmediateRange | instruction_types.c:140 | the upper immediate field is a 20-bit signed number |
| Rv32i.JImmediateRange | instruction_types.c:150-158 | the J-immediate is even and lies in [-2^20, 2^20 - 2] |
| CInt.Int16Value | instruction_types.h:18-24 | the value of an int16_t field is negative exactly when bit 15 is set, and otherwise equals its unsigned value |
| CInt.Int32Value | instruction_types.h:42-52 | the value of an int32_t field is negative exactly when bit 31 is set |
| CInt.Int16CastKeepsSmallValues | instruction_types.c:154 | converting an int32_t to int16_t keeps every value in [-32768, 32767] |
| CInt.SignExtend16Value | instruction_types.c:154-158 | widening an int16_t to int32_t keeps its value |
| CInt.LowFiveBitsAreModulo32 | instruction_types.c:216-218 | `imm & 0x1F` read unsigned is the int16_t immediate modulo 32 |
| Decimal.IntToString | instruction_types.c:204-234 | `%d` writes at least one character; it starts with a minus sign exactly for a negative value, and every other character is a digit |
| Decimal.NatToStringValue | instruction_types.c:204-234 | the digits `%d` writes for a natural number denote that number |
| Decimal.IntToStringRoundTrip | instruction_types.c:204-234 | parsing the text `%d` writes for any int gives that int back |
| Decimal.IntToStringInjective | instruction_types.c:204-234 | different values are written as different text |
| Decimal.IntToStringLength | instruction_types.c:204-234 | `%d` of an int32_t writes at most 11 characters |
| FormatterProofs.ReadRTypeInstructionString | instruction_types.c:204-206 | the R-type line reads back as the mnemonic and registers rd, rs1, rs2 |
| FormatterProofs.ReadITypeLoadInstructionString | instruction_types.c:208-210 | the load line reads back as the mnemonic, register rd and memory operand imm(rs1) |
| FormatterProofs.ReadITypeInstructionString | instruction_types.c:212-214 | the I-type line reads back as the mnemonic, rd, rs1 and the immediate's value |
| FormatterProofs.ReadITypeShiftInstructionString | instruction_types.c:216-218 | the shift line reads back as the mnemonic, rd, rs1 and the immediate modulo 32 |
| FormatterProofs.ReadSTypeInstructionString | instruction_types.c:220-222 | the store line reads back as the mnemonic, register rs2 and memory operand imm(rs1) |
| FormatterProofs.ReadBTypeInstructionString | instruction_types.c:224-226 | the branch line reads back as the mnemonic, rs1, rs2 and the immediate's value |
| FormatterProofs.ReadJTypeInstructionString | instruction_types.c:228-230 | the JAL line reads back as the mnemonic, rd and the immediate's value |
| FormatterProofs.ReadUTypeInstructionString | instruction_types.c:232-234 | the LUI/AUIPC line reads back as the mnemonic, rd and the immediate's value |
| FormatterProofs.RTypeWritten | instruction_types.c:236-273 | OP is printed exactly for funct3 below 8, with funct7 0 or 0x20 required only for funct3 000 and 101 |
| FormatterProofs.RTypeIgnoresFunct7 | instruction_types.c:236-273 | outside funct3 000 and 101, funct7 does not change the output |
| FormatterProofs.JalrIgnoresFunct3 | instruction_types.c:277-278 | JALR is always printed, and funct3 does not change the output |
| FormatterProofs.LoadWritten | instruction_types.c:279-296 | LOAD is printed exactly for funct3 000, 001, 010, 100 and 101 |
| FormatterProofs.ShiftRightWritten | instruction_types.c:320-326 | OP-IMM funct3 101 is printed exactly when the immediate is 0 or 32 |
| FormatterProofs.ShiftRightLogicalPrintsZero | instruction_types.c:320-322 | with immediate 0 the line reads back as SRLI rd, rs1 and shift amount 0 |
| FormatterProofs.ShiftRightArithmeticPrintsZero | instruction_types.c:323-325 | with immediate 32 the line reads back as SRAI rd, rs1 and shift amount 0 |
| FormatterProofs.SystemIgnoresRegisters | instruction_types.c:328-334 | for SYSTEM, funct3, rd and rs1 do not change the output |
| FormatterProofs.SystemMnemonics | instruction_types.c:328-334 | SYSTEM prints ECALL exactly for immediate 0 and EBREAK exactly for 1; it is printed exactly for those two |
| FormatterProofs.STypeWritten | instruction_types.c:338-352 | STORE is printed exactly for funct3 000, 001 and 010 |
| FormatterProofs.BTypeWritten | instruction_types.c:354-377 | BRANCH is printed exactly for funct3 000, 001 and 100 to 111 |
| FormatterProofs.DecodedUpperAndJumpWritten | instruction_types.c:379-395 | every LUI, AUIPC and JAL the decoder produces is printed |
| FormatterProofs.AddiExample | instruction_types.c:297-300 | the word 0x00000013 prints `ADDI x0 x0 0` |
| FormatterProofs.AddExample | instruction_types.c:239-241 | the word 0x00000033 prints `ADD x0 x0 x0` |
| FormatterProofs.SubExample | instruction_types.c:242-243 | the word 0x40000033 prints `SUB x0 x0 x0` |
| FormatterProofs.EbreakExample | instruction_types.c:328-334 | the word 0x00100073 prints `EBREAK` |
| FormatterProofs.JalExample | instruction_types.c:389-395 | the word 0x0000006F prints `JAL x0 0` |
| FormatterProofs.FenceExample | instruction_types.c:421-423 | the word 0x0000000F prints `FENCE` |
| FormatterProofs.ZeroWordExample | instruction_types.c:424-426 | the word 0 prints `Invalid instruction` |
| Listing.OpListing | instruction_types.c:236-273 | an OP word is printed exactly for the rows of the two OP tables; it reads back as that row's mnemonic and the registers rd, rs1, rs2 of the word |
| Listing.OpTable | instruction_types.c:236-273 | `rtype_to_string` writes exactly for the rows of the two OP tables, with the row's mnemonic |
| Listing.JalrListing | instruction_types.c:277-278 | every JALR word reads back as JALR, rd, rs1 and the word's I-immediate |
| Listing.LoadListing | instruction_types.c:279-296 | a LOAD word is printed exactly for the rows of the LOAD table; it reads back as the row's mnemonic, rd and the memory operand I-immediate(rs1) |
| Listing.LoadTable | instruction_types.c:279-296 | `itype_to_string` writes a LOAD exactly for the table's rows, with the row's mnemonic |
| Listing.OpImmListing | instruction_types.c:297-327 | an OP-IMM word is printed exactly for the table rows, SLLI, and funct3 101 with immediate 0 or 32; a table row reads back as its mnemonic, rd, rs1 and the word's I-immediate |
| Listing.OpImmTable | instruction_types.c:297-327 | `itype_to_string` writes an OP-IMM table row with its mnemonic, and nothing for funct3 outside the table, 001 and 101 |
| Listing.SlliListing | instruction_types.c:317-319 | an SLLI word reads back as SLLI, rd, rs1 and the I-immediate modulo 32 |
| Listing.ShiftRightListing | instruction_types.c:320-326 | funct3 101 reads back as SRLI for immediate 0 and SRAI for immediate 32, both with shift amount 0 |
| Listing.SystemListing | instruction_types.c:328-334 | a SYSTEM word is printed exactly when its I-immediate is 0 (ECALL) or 1 (EBREAK), with no operands |
| Listing.StoreListing | instruction_types.c:338-352 | a STORE word is printed exactly for the rows of the STORE table; it reads back as the row's mnemonic, rs2 and the memory operand S-immediate(rs1) |
| Listing.StoreTable | instruction_types.c:338-352 | `stype_to_string` writes exactly for the table's rows, with the row's mnemonic |
| Listing.BranchListing | instruction_types.c:354-377 | a BRANCH word is printed exactly for the rows of the BRANCH table; it reads back as the row's mnemonic, rs1, rs2 and the word's B-immediate |
| Listing.BranchTable | instruction_types.c:354-377 | `btype_to_string` writes exactly for the table's rows, with the row's mnemonic |
| Listing.UpperListing | instruction_types.c:379-387 | a LUI or AUIPC word reads back as its mnemonic, rd and the word's upper immediate |
| Listing.JalListing | instruction_types.c:389-395 | a JAL word reads back as JAL, rd and the stored immediate; that line carries the ISA J-immediate exactly when it lies in [-32768, 32767] |
| Listing.FenceListing | instruction_types.c:421-423 | a MISC-MEM word reads back as FENCE with no operands |
| Listing.InvalidListing | instruction_types.c:424-426 | a word with any other opcode prints `Invalid instruction` |
| Formatter.ToString | instruction_types.c:397-429 | None exactly when the allocation fails; otherwise the buffer the format's helper leaves, whose text always fits the 64-byte buffer with its NUL |
| Formatter.RenderingFits | instruction_types.c:397-429 | every text the printer writes is at most 63 characters |
| Formatter.RTypeFits | instruction_types.c:236-273 | every R-type line is at most 19 characters |
| Formatter.ITypeFits | instruction_types.c:275-336 | every I-type line is at most 27 characters |
| Formatter.STypeFits | instruction_types.c:338-352 | every store line is at most 25 characters |
| Formatter.BTypeFits | instruction_types.c:354-377 | every branch line is at most 26 characters |
| Formatter.UTypeFits | instruction_types.c:379-387 | every LUI/AUIPC line is at most 22 characters |
| Formatter.JTypeFits | instruction_types.c:389-395 | every JAL line is at most 20 characters |

## Left out

- disassembler.c is not part of this model. It holds the interactive loop, file reading, `strtol` parsing of the input, `printf` and the exit codes. It prints the string `to_string` returns and never frees it.
- The heap is not modelled. Whether `malloc` succeeds is the parameter `allocationSucceeds` of `Formatter.ToString`.
- The buffer is a value, not a 64-byte array. Its contents after a helper that wrote nothing are the value `Unwritten`, not the bytes `malloc` left in it. The `INVALID_MSG` pointer that the `*_to_string` helpers return is discarded by every caller, so it is not modelled.
- General `sprintf` is not modelled. Only the `%d` conversion of an integer is, as `Decimal.IntToString`, and the fixed texts around it.
- Behaviour that C leaves implementation-defined is fixed as two's complement, as described above.
- The padding and layout of the C structures and the union are not modelled; each format is a datatype of its fields.
