# SM83 interpreter core of a Game Boy emulator, in Dafny

This project models the CPU core of a small Game Boy emulator written in C.
The CPU is an SM83: eight-bit registers A, B, C, D, E, H, L and a flag
register F with bits Z, N, H and C, plus the sixteen-bit PC and SP. The
pairs AF, BC, DE and HL are read and written by name. A flat 64 KiB bus
holds ROM, RAM and the I/O registers, all alike. The modelled parts are:

- **Register file** (`registers.dfy`, module `Registers`). The flag codec
  stores the four flags in bits 7..4 of a byte and clears the low nibble.
  The pair helpers read, write, increment and decrement a pair by its
  name.
- **Bus** (`bus.dfy`, module `Bus`). `Memory` is the 65536-byte array as
  a value. Class `Bus` updates that array in place. It also holds the
  masked accessors for IF/IE and for DIV/TIMA/TMA/TAC.
- **ALU** (`alu.dfy`, module `Alu`). It covers 8-bit add, subtract and
  compare with and without carry, AND/XOR/OR, INC/DEC, 16-bit ADD HL and
  the signed SP offset. It also has the relative jump target, DAA and the
  rotate/shift/swap operations of the CB page. Each function's contract
  states its result arithmetically, bit by bit, or as a carry/borrow
  equation.
- **CPU aggregate** (`cpu.dfy`, module `Cpu`). `CpuState` is a snapshot of
  the registers, IME, the HALT latch, the cycle count, the cycle counter
  and memory. Class `Cpu` is the mutable aggregate. Its methods are the
  emulator's register helpers and the byte and word fetches an
  instruction makes.
- **Unprefixed instructions** (`instruction.dfy`, module `Instruction`).
  `Execute` specifies all 256 opcodes, decoded as x/y/z fields, and one
  lemma per opcode group unfolds it for that group.
  **Interpreter** (`interpreter.dfy`, module `Interpreter`) holds one
  method per case of the emulator's switch. Each method updates a `Cpu`
  in place and is proved to end in `Execute` of the state it started
  from.
- **CB-prefixed instructions** (`prefix.dfy`, module `Prefix`):
  `get_register_pointer`, the rotate/shift/swap, BIT, RES and SET
  operations and the write-back. These are specified by `PrefixExecute`
  and proved about it.
- **Step** (`step.dfy`, module `Step`): interrupt dispatch, the DIV and
  TIMA timers, the `op_tcycles` table and `cpu_step`. Each is a function
  on `CpuState`, with a method that updates a `Cpu` to exactly that
  state.
- **Cross-instruction properties** (`properties.dfy`, module
  `Properties`): what ADD/ADC, SUB/SBC and CP do to A and the flags,
  where JR and JP cc land, push/pop, call/return, RST/return,
  register-to-register loads, INC then DEC, and which opcodes touch IME,
  HALT and the cycle counter.

The machine's integer widths are written out. Bytes and words are
integer subtypes below 0x100 and 0x10000, and every increment, decrement
and address step wraps explicitly (`% 0x100`, `% 0x1_0000`).

## Model

| member | source | states |
|---|---|---|
| Registers.FlagsToByte | src/cpu.c:83-88 | the byte's low nibble is zero and bits 7, 6, 5, 4 are set exactly when Z, N, H, C are |
| Registers.ByteToFlags | src/cpu.c:90-98 | Z is bit 7 and C bit 4 of the byte; encoding the decoded flags gives back the byte with its low nibble cleared |
| Registers.FlagsRoundTrip | src/cpu.c:83-98 | decoding an encoded flag register gives back the same four flags |
| Registers.FlagsKeepHighNibble | src/cpu.c:83-98 | encoding the flags read from the four high bits of any byte gives that byte minus its low nibble |
| Registers.Read16Halves | src/cpu.c:37-48 | reading a pair puts its first register in the high byte and its second in the low byte; AF's low byte is the encoded flags; any other name reads 0 |
| Registers.WriteThenRead16 | src/cpu.c:37-69 | writing BC, DE or HL and reading it back gives the written word; AF gives it back with the low nibble cleared; other names read 0 |
| Registers.WriteThenReadAf | src/cpu.c:37-69 | writing AF and reading it back loses exactly the low four bits of the word |
| Registers.WriteChangesOnlyItsHalves | src/cpu.c:51-69 | writing a pair changes only its two registers (PC or SP for those names) and nothing for an unknown name |
| Registers.WriteLeavesOtherPairs | src/cpu.c:51-69 | writing one pair leaves the value read from every other pair unchanged |
| Registers.IncrementWrap | src/cpu.c:71-75 | incrementing BC, DE or HL adds one modulo 0x10000, so 0xFFFF becomes 0 |
| Registers.DecrementWrap | src/cpu.c:77-81 | decrementing BC, DE or HL subtracts one modulo 0x10000, so 0 becomes 0xFFFF |
| Registers.IncrementDecrementInverse | src/cpu.c:71-81 | decrementing after incrementing a pair, or the reverse, restores every register |
| Registers.IncrementPcSetsOne | src/cpu.c:71-75 | the read-modify-write helpers, given the name "pc", store 0+1 into PC, because reading that name yields 0 |
| Registers.Set | src/prefix_instruction.c:5-17 | storing through a register name changes that register only and keeps F, PC and SP |
| Bus.Store | src/bus.c:28-30 | after a byte store, the address holds the value and every other address is unchanged |
| Bus.Store16 | src/instruction.c:81-86 | a word store puts the low byte at the address and the high byte at the next address (wrapping), and nothing else changes |
| Bus.Load16AfterStore16 | src/instruction.c:81-86 | loading a word just stored at the same address gives back the word |
| Bus.Store16OfLoad16 | src/instruction.c:815-821 | storing back the word just loaded leaves memory unchanged |
| Bus.WithDivIncremented | src/cpu.c:169-172 | DIV grows by one modulo 256 and no other byte changes |
| Bus.InterruptRegisterRoundTrip | src/bus.c:34-54 | IF and IE read back what was written to them; other addresses read 0 and ignore writes; a write changes no other address |
| Bus.TimerRegisterRoundTrip | src/bus.c:56-86 | TIMA, TMA and TAC read back what was written; a write to DIV resets it to 0; addresses outside 0xFF04..0xFF07 read 0 and ignore writes |
| Bus.Bus.constructor | src/bus.c:18-22 | a fresh 64 KiB memory array |
| Bus.Bus.Read8 | src/bus.c:24-26 | returns the byte at the address |
| Bus.Bus.Write8 | src/bus.c:28-30 | the new contents are the old ones with that one byte stored |
| Bus.Bus.Read16 | src/instruction.c:815-821 | returns the little-endian word at the address and the next one |
| Bus.Bus.Write16 | src/instruction.c:783-788 | the new contents are the old ones with the word stored little-endian |
| Bus.Bus.ReadInterruptRegister | src/bus.c:34-43 | returns IF or IE for their addresses and 0 otherwise |
| Bus.Bus.WriteInterruptRegister | src/bus.c:45-54 | stores to IF or IE only; other addresses leave memory unchanged |
| Bus.Bus.ReadTimerRegister | src/bus.c:56-69 | returns DIV, TIMA, TMA or TAC for their addresses and 0 otherwise |
| Bus.Bus.WriteTimerRegister | src/bus.c:71-86 | a write to DIV stores 0, one to TIMA, TMA or TAC stores the value, and any other address is ignored |
| Bus.Bus.IncrementDiv | src/cpu.c:169-172 | the contents become those with DIV incremented modulo 256 |
| Alu.Signed | src/instruction.c:181-185 | the immediate read as a two's-complement byte lies in -128..127 and agrees with it modulo 256 |
| Alu.Add | src/instruction.c:499-559 | result plus 256 times the carry equals a + v + carry-in; the low nibbles obey the same equation with the half carry; Z iff the result is 0; N clear |
| Alu.Sub | src/instruction.c:570-624 | result equals a - v - carry-in plus 256 times the borrow, the same for the low nibbles with the half borrow; Z iff the result is 0; N set |
| Alu.Compare | src/instruction.c:711-735 | Z iff a == v, C iff a < v, H iff a's low nibble is below v's, N set |
| Alu.SubUndoesAdd | src/instruction.c:499-624 | subtracting with the same value and carry-in undoes an addition, and the borrow equals the carry |
| Alu.And | src/instruction.c:631-655 | every bit of the result is the AND of the operands' bits; flags Z per result, N 0, H 1, C 0 |
| Alu.Xor | src/instruction.c:656-682 | every bit of the result is the XOR of the operands' bits; flags Z per result, others clear |
| Alu.Or | src/instruction.c:683-708 | every bit of the result is the OR of the operands' bits; flags Z per result, others clear |
| Alu.XorSelfIsZero | src/instruction.c:656-682 | XOR A with itself yields 0 with only Z set |
| Alu.Arithmetic | src/instruction.c:496-740 | compare (operation 7) leaves the accumulator value unchanged |
| Alu.AddCarries | src/instruction.c:498-561 | ADD/ADC give the sum modulo 256, C exactly when the sum exceeds 0xFF and H exactly when the low nibbles and the carry-in exceed 0xF |
| Alu.SubBorrows | src/instruction.c:569-625 | SUB/SBC give the difference modulo 256, C exactly when A is below the operand plus the borrow-in and H exactly when A's low nibble is below the operand's plus the borrow-in |
| Alu.Increment | src/instruction.c:55-61 | value + 1 wrapping 0xFF to 0; Z iff 0; N clear; H iff the low nibble was 0xF; C kept |
| Alu.Decrement | src/instruction.c:62-68 | value - 1 wrapping 0 to 0xFF; Z iff 0; N set; H iff the low nibble was 0; C kept |
| Alu.DecrementUndoesIncrement | src/instruction.c:55-68 | DEC after INC, and INC after DEC, give back the value |
| Alu.AddWord | src/instruction.c:87-94 | HL + v equals the result plus 0x10000 times C; the 12-bit halves obey the same with H; Z kept; N clear |
| Alu.AddOffset | src/instruction.c:1038-1048 | SP plus the signed byte modulo 0x10000; C and H are the carries out of bit 7 and bit 3 of the unsigned low byte; Z and N clear |
| Alu.OffsetLowByte | src/instruction.c:1038-1048 | the low byte of SP + signed e equals the low byte of SP's low byte + e |
| Alu.OffsetLowNibble | src/instruction.c:1038-1048 | the low nibble of SP + signed e equals that of the low nibbles' sum |
| Alu.Jump | src/instruction.c:181-185 | a relative jump adds e below 0x80 and subtracts 256 - e above, modulo 0x10000 |
| Alu.DecimalAdjust | src/instruction.c:275-295 | Z iff the result is 0; H cleared; N kept; C never cleared after an addition and kept after a subtraction |
| Alu.DecimalAdjustAfterAdd | src/instruction.c:275-295 | after adding two packed-BCD bytes with carry-in, DAA yields a BCD byte whose value plus 100 times C is the decimal sum |
| Alu.DecimalAdjustOfDigitSum | src/instruction.c:275-295 | for any digit-wise sum the adder can produce, DAA yields the BCD encoding of 10 * high + low |
| Alu.DecimalAdjustAfterSub | src/instruction.c:275-295 | after subtracting one packed-BCD byte and a borrow-in from another, DAA yields a BCD byte whose value minus 100 times C is the decimal difference |
| Alu.DecimalAdjustOfDigitDifference | src/instruction.c:275-295 | for any digit-wise difference the subtractor can produce, DAA yields a BCD byte whose value minus 100 times C is 10 * high + low |
| Alu.RotateLeftCircular | src/prefix_instruction.c:38-41 | 2v equals the result plus 255 times the bit carried out, which is v's bit 7 |
| Alu.RotateRightCircular | src/prefix_instruction.c:42-45 | v equals twice the result minus 255 times the bit carried out, which is v's bit 0 |
| Alu.RotateLeft | src/prefix_instruction.c:46-52 | 2v + carry-in equals the result plus 256 times the bit carried out |
| Alu.RotateRight | src/prefix_instruction.c:53-59 | v + 256 times carry-in equals twice the result plus the bit carried out |
| Alu.ShiftLeft | src/prefix_instruction.c:60-63 | 2v equals the result plus 256 times the bit carried out, and the result is even |
| Alu.ShiftRightArithmetic | src/prefix_instruction.c:64-67 | v as signed equals twice the signed result plus the bit carried out, and bit 7 is kept |
| Alu.ShiftRightLogical | src/prefix_instruction.c:72-75 | v equals twice the result plus the bit carried out, and the result is below 0x80 |
| Alu.Swap | src/prefix_instruction.c:68-71 | the result's nibbles are v's nibbles exchanged, and the carry is cleared |
| Alu.RotateCircularInverse | src/prefix_instruction.c:38-45 | RRC undoes RLC and RLC undoes RRC |
| Alu.RotateThroughCarryInverse | src/prefix_instruction.c:46-59 | RR with the carry RL produced restores the value and the carry, and symmetrically |
| Alu.SwapInvolution | src/prefix_instruction.c:68-71 | SWAP twice is the identity |
| Cpu.WithOperand | src/instruction.c:482-492 | storing to an operand field makes that operand read back the value and keeps F, PC, SP, IME, HALT and the counters |
| Cpu.WithOperandFrame | src/instruction.c:470-492 | storing one operand leaves every other operand unchanged, except (HL) after a write to H or L |
| Cpu.InitTestPairs | src/cpu.c:20-34 | after the test reset AF = 0x01B0, BC = 0x0013, DE = 0x00D8, HL = 0x014D, SP = 0xFFFE, PC = 0x0100 |
| Cpu.Cpu.constructor | src/cpu.c:15-17 | every register, flag, counter, IME and HALT start at zero/false on the given bus |
| Cpu.Cpu.InitTest | src/cpu.c:20-34 | the registers become the test reset values and nothing else changes |
| Cpu.Cpu.WriteRegister16 | src/cpu.c:51-69 | the registers become those with the named pair written, nothing else changes |
| Cpu.Cpu.IncrementRegister16 | src/cpu.c:71-75 | the registers become those with the named pair incremented |
| Cpu.Cpu.DecrementRegister16 | src/cpu.c:77-81 | the registers become those with the named pair decremented |
| Cpu.Cpu.FetchByte | src/instruction.c:69-72 | returns the byte at PC and advances PC by one |
| Cpu.Cpu.PopByte | src/instruction.c:752-757 | returns the byte at SP and advances SP by one |
| Cpu.Cpu.FetchWord | src/instruction.c:42-46 | returns the little-endian word at PC and advances PC by two |
| Instruction.CbOpTcyclesByOperand | src/instruction.c:11-29 | a CB opcode takes 8 T-cycles on a register, 12 for BIT on (HL) and 16 for the other (HL) forms |
| Instruction.DecodeLoad | src/instruction.c:453-494 | 0x76 only sets HALT; every other 0x40..0x7F copies the source operand into the destination |
| Instruction.DecodeNoOperation | src/instruction.c:38-140 | NOP and STOP change nothing |
| Instruction.DecodeUnused | src/instruction.c:1186-1188 | the eleven opcodes with no case change nothing |
| Instruction.DecodeJumpHl | src/instruction.c:1049-1053 | JP HL sets PC to HL and changes nothing else |
| Interpreter.ReadOperand | src/instruction.c:470-480 | the source selection returns the operand named by the three-bit field |
| Interpreter.WriteOperand | src/instruction.c:482-492 | the destination selection leaves the state with that operand replaced |
| Interpreter.PushWord | src/instruction.c:783-788 | the state becomes `Push` of the word: SP down by two, the word stored little-endian there |
| Interpreter.ReturnFromStack | src/instruction.c:815-821 | the state becomes `Return`: PC loaded from the stack, SP up by two |
| Interpreter.TestCondition | src/instruction.c:744-751 | returns whether the NZ/Z/NC/C condition of the opcode holds |
| Interpreter.AccumulateValue | src/instruction.c:496-740 | the state becomes `Accumulate` of the ALU operation |
| Interpreter.AddToA | src/instruction.c:499-566 | ADD and ADC end in `Accumulate` |
| Interpreter.SubtractFromA | src/instruction.c:570-740 | SUB, SBC and CP end in `Accumulate` |
| Interpreter.LogicWithA | src/instruction.c:631-708 | AND, XOR and OR end in `Accumulate` |
| Interpreter.NoOperation | src/instruction.c:38-41 | NOP and STOP leave the state as `Execute` has it |
| Interpreter.LoadPairImmediate | src/instruction.c:42-46 | LD BC/DE/HL,nn ends in `Execute` |
| Interpreter.LoadPairBytes | src/instruction.c:42-46 | loading the low register from the first byte and the high register from the second is `Execute` of LD rr,nn |
| Interpreter.LoadSpImmediate | src/instruction.c:359-363 | LD SP,nn ends in `Execute` |
| Interpreter.StoreAIndirect | src/instruction.c:47-50 | LD (BC)/(DE)/(HL+)/(HL-),A ends in `Execute` |
| Interpreter.LoadAIndirect | src/instruction.c:95-98 | LD A,(BC)/(DE)/(HL+)/(HL-) ends in `Execute` |
| Interpreter.IncrementPair | src/instruction.c:51-54 | INC BC/DE/HL ends in `Execute` |
| Interpreter.DecrementPair | src/instruction.c:99-102 | DEC BC/DE/HL ends in `Execute` |
| Interpreter.StepSp | src/instruction.c:369-372 | INC SP and DEC SP end in `Execute` |
| Interpreter.IncrementRegister | src/instruction.c:55-61 | INC r ends in `Execute` |
| Interpreter.DecrementRegister | src/instruction.c:62-68 | DEC r ends in `Execute` |
| Interpreter.IncrementIndirect | src/instruction.c:373-381 | INC (HL) ends in `Execute` |
| Interpreter.DecrementIndirect | src/instruction.c:382-390 | DEC (HL) ends in `Execute` |
| Interpreter.LoadRegisterImmediate | src/instruction.c:69-72 | LD r,n ends in `Execute` |
| Interpreter.LoadIndirectImmediate | src/instruction.c:391-394 | LD (HL),n ends in `Execute` |
| Interpreter.RotateLeftCircularA | src/instruction.c:73-80 | RLCA ends in `Execute` |
| Interpreter.RotateRightCircularA | src/instruction.c:121-133 | RRCA ends in `Execute` |
| Interpreter.RotateLeftA | src/instruction.c:172-180 | RLA ends in `Execute` |
| Interpreter.RotateRightA | src/instruction.c:220-232 | RRA ends in `Execute` |
| Interpreter.DecimalAdjustA | src/instruction.c:275-295 | DAA ends in `Execute` |
| Interpreter.ComplementA | src/instruction.c:338-348 | CPL ends in `Execute` |
| Interpreter.SetCarryFlag | src/instruction.c:395-400 | SCF ends in `Execute` |
| Interpreter.ComplementCarryFlag | src/instruction.c:443-452 | CCF ends in `Execute` |
| Interpreter.StoreSp | src/instruction.c:81-86 | LD (nn),SP ends in `Execute` |
| Interpreter.AddHlPair | src/instruction.c:87-94 | ADD HL,BC/DE/SP ends in `Execute` |
| Interpreter.AddHlHl | src/instruction.c:303-310 | ADD HL,HL ends in `Execute` |
| Interpreter.JumpRelative | src/instruction.c:181-185 | JR e ends in `Execute` |
| Interpreter.JumpRelativeIf | src/instruction.c:236-242 | JR cc,e ends in `Execute` |
| Interpreter.JumpRelativeWhen | src/instruction.c:236-242 | reads the offset and jumps exactly when told to: `RelativeJump` |
| Interpreter.Load | src/instruction.c:453-494 | the LD r,r' block and HALT end in `Execute` |
| Interpreter.AccumulateOperand | src/instruction.c:496-740 | the 0x80..0xBF ALU block ends in `Execute` |
| Interpreter.ReturnIf | src/instruction.c:744-751 | RET cc ends in `Execute` |
| Interpreter.PopPair | src/instruction.c:752-757 | POP BC/DE/HL ends in `Execute` |
| Interpreter.PopPairBytes | src/instruction.c:752-757 | popping the low register from SP and the high register from SP+1 is `Execute` of POP rr |
| Interpreter.PopAf | src/instruction.c:1092-1101 | POP AF ends in `Execute` |
| Interpreter.JumpIf | src/instruction.c:758-766 | JP cc,nn ends in `Execute` |
| Interpreter.JumpAbsolute | src/instruction.c:767-771 | JP nn ends in `Execute` |
| Interpreter.CallIf | src/instruction.c:772-782 | CALL cc,nn ends in `Execute` |
| Interpreter.PushPair | src/instruction.c:783-788 | PUSH BC/DE/HL ends in `Execute` |
| Interpreter.PushAf | src/instruction.c:1112-1122 | PUSH AF ends in `Execute` |
| Interpreter.AccumulateImmediate | src/instruction.c:789-799 | the ALU-with-immediate opcodes end in `Execute` |
| Interpreter.Restart | src/instruction.c:800-806 | RST ends in `Execute` |
| Interpreter.ReturnAlways | src/instruction.c:815-821 | RET ends in `Execute` |
| Interpreter.ReturnEnable | src/instruction.c:948-954 | RETI ends in `Execute` |
| Interpreter.PrefixCb | src/instruction.c:831-838 | the CB prefix ends in `Execute` |
| Interpreter.CallAbsolute | src/instruction.c:850-858 | CALL nn ends in `Execute` |
| Interpreter.StoreHigh | src/instruction.c:998-1003 | LDH (n),A ends in `Execute` |
| Interpreter.LoadHigh | src/instruction.c:1086-1091 | LDH A,(n) ends in `Execute` |
| Interpreter.StoreHighC | src/instruction.c:1010-1014 | LD (C),A ends in `Execute` |
| Interpreter.LoadHighC | src/instruction.c:1102-1106 | LD A,(C) ends in `Execute` |
| Interpreter.AddSpOffset | src/instruction.c:1038-1048 | ADD SP,e ends in `Execute` |
| Interpreter.LoadHlSpOffset | src/instruction.c:1140-1150 | LD HL,SP+e ends in `Execute` |
| Interpreter.JumpHl | src/instruction.c:1049-1053 | JP HL ends in `Execute` |
| Interpreter.LoadSpHl | src/instruction.c:1151-1155 | LD SP,HL ends in `Execute` |
| Interpreter.StoreAbsolute | src/instruction.c:1054-1060 | LD (nn),A ends in `Execute` |
| Interpreter.LoadAbsolute | src/instruction.c:1156-1162 | LD A,(nn) ends in `Execute` |
| Interpreter.SetInterruptsEnabled | src/instruction.c:1107-1111 | DI and EI end in `Execute` |
| Interpreter.Unassigned | src/instruction.c:1186-1188 | an opcode with no case leaves the state as `Execute` has it |
| Interpreter.ExecuteBlock0 | src/instruction.c:35-452 | every opcode below 0x40 ends in `Execute` |
| Interpreter.ExecuteBlock3 | src/instruction.c:741-1185 | every opcode from 0xC0 ends in `Execute` |
| Interpreter.InstructionExecute | src/instruction.c:4-1190 | `instruction_execute` leaves the CPU in `Execute` of the state it started from, for all 256 opcodes |
| Prefix.RegisterPointer | src/prefix_instruction.c:5-17 | there is no register for index 6 (the byte at HL) or beyond 7, and a register for every other index |
| Prefix.RegisterPointerNamesOperand | src/prefix_instruction.c:5-33 | the register behind an index other than 6 is the operand that index names, for reading and writing |
| Prefix.Shift | src/prefix_instruction.c:37-76 | the rotate/shift switch returns `ShiftOperation` of the value and the carry |
| Prefix.LoadOperand | src/prefix_instruction.c:28-33 | reads the operand the low three bits name, from memory at HL for index 6 |
| Prefix.StoreOperand | src/prefix_instruction.c:97-102 | writes the operand back, to memory at HL for index 6 |
| Prefix.PrefixInstructionExecute | src/prefix_instruction.c:19-103 | the CPU ends in `PrefixExecute` of the state it started from |
| Prefix.ResetAndSetBit | src/prefix_instruction.c:88-94 | RES clears and SET sets bit b of the operand, every other bit is kept, and F, PC and SP are unchanged |
| Prefix.TestBit | src/prefix_instruction.c:82-86 | BIT sets Z iff bit b of the operand is clear, N 0, H 1, keeps C and changes nothing but F |
| Prefix.ShiftFlags | src/prefix_instruction.c:36-80 | a rotate/shift writes its result back, sets Z per the result, clears N and H, and puts the bit shifted out in C (0 for SWAP) |
| Prefix.RotateLeftThenRightCircular | src/prefix_instruction.c:38-45 | RRC after RLC on the same operand gives back its value |
| Properties.ExecuteFrame | src/instruction.c:4-1190 | no opcode changes the cycle count; only CB sets the counter; only DI, EI and RETI change IME; only 0x76 sets HALT |
| Properties.Block0Frame | src/instruction.c:35-452 | opcodes below 0x40 change neither count, counter, IME nor HALT |
| Properties.Block3Frame | src/instruction.c:741-1185 | from 0xC0 only CB sets the counter, only DI clears and EI/RETI set IME, and HALT and the count are kept |
| Properties.WriteBackPair | src/cpu.c:37-69 | writing back the value just read from a pair changes no register |
| Properties.PopAfterPush | src/instruction.c:752-788 | popping what was pushed restores every register, and the stack top holds the pushed word |
| Properties.PushThenPop | src/instruction.c:752-788 | PUSH rr then POP rr restores all registers (including AF's flags) and leaves memory as the push left it |
| Properties.ReturnAfterCall | src/instruction.c:815-858 | returning from a call restores every register |
| Properties.CallThenReturn | src/instruction.c:815-858 | CALL nn jumps to nn; the following RET resumes after the call's operand with every other register restored |
| Properties.RestartThenReturn | src/instruction.c:800-821 | RST jumps to 8y with the return address on the stack, and RET restores every register |
| Properties.LoadCopies | src/instruction.c:453-494 | LD r,r' makes the destination equal the source and keeps F, PC, SP and every other operand |
| Properties.DecrementAfterIncrement | src/instruction.c:55-390 | DEC after INC on any operand restores the state except N/H/Z, and keeps C |
| Properties.IncrementThenDecrement | src/instruction.c:55-390 | executing INC then the matching DEC opcode restores everything but the flags, and C is kept |
| Properties.AccumulateAdd | src/instruction.c:496-561 | ALU operations 0 and 1 on any operand: A becomes A + v (+ C for ADC) modulo 256, C and H are the carries out of bits 7 and 3, Z iff A is 0, N clear, only A and F change |
| Properties.AddToAccumulator | src/instruction.c:496-561 | ADD A,r (0x80-0x87) and ADC A,r (0x88-0x8F) on the operand named by bits 0-2: A becomes the sum modulo 256, C and H are the carries out of bits 7 and 3, Z iff A is 0, N clear, only A and F change |
| Properties.AccumulateSub | src/instruction.c:567-625 | ALU operations 2 and 3 on any operand: A becomes A - v (- C for SBC) modulo 256, C and H are the borrows of the byte and of the low nibble, Z iff A is 0, N set, only A and F change |
| Properties.SubtractFromAccumulator | src/instruction.c:567-625 | SUB r (0x90-0x97) and SBC A,r (0x98-0x9F): A becomes the difference modulo 256, C and H are the borrows of the byte and of the low nibble, Z iff A is 0, N set, only A and F change |
| Properties.CompareWithAccumulator | src/instruction.c:708-736 | CP r (0xB8-0xBF) keeps A; Z iff A equals the operand, C iff A is below it, H iff A's low nibble is below the operand's; N set; only F changes |
| Properties.RelativeJumpTarget | src/instruction.c:180-406 | JR e and JR NZ/Z/NC/C,e: PC moves past the offset and, exactly when taken, on by the signed offset modulo 0x10000; nothing else changes |
| Properties.AbsoluteJumpTarget | src/instruction.c:757-961 | JP NZ/Z/NC/C,nn: PC becomes nn when the condition holds and PC + 2 otherwise; nothing else changes |
| Step.ServedInterrupt | src/cpu.c:111-161 | the interrupt served is the lowest requested bit among 0..4, and none when bits 0..4 are all clear |
| Step.InterruptDispatch | src/cpu.c:102-162 | with an interrupt enabled and requested, PC goes to its vector and the old PC is on the stack two below SP; otherwise nothing changes; IME, HALT and counts are kept |
| Step.InterruptClearsItsRequest | src/cpu.c:102-162 | the served interrupt's IF bit is cleared and the other IF bits are kept, unless the push overwrites IF |
| Step.InterruptThenReturn | src/cpu.c:102-162 | RETI after a dispatch restores PC and SP and sets IME |
| Step.ServeInterrupt | src/cpu.c:116-124 | one dispatch: IF bit cleared, PC pushed high byte first, PC set to the vector |
| Step.HandleInterrupts | src/cpu.c:102-162 | the CPU ends in `InterruptsHandled` of the state it started from |
| Step.AsWrittenTimerDividesByZero | src/cpu.c:181-206 | with the frequency held in sixteen bits, TAC modes 1 and 2 divide by zero, and only those |
| Step.TimerPeriods | src/cpu.c:168-199 | TIMA counts every 256, 4, 16 or 64 M-cycles in modes 0..3 and DIV every 64, which at four T-cycles per M-cycle of the 4194304 Hz clock are the selected frequency and 16384 Hz |
| Step.AsWrittenTimerPeriodInTCycles | src/cpu.c:181-206 | in modes 0 and 3 the emulator's divisor `4194304 / freq` is four times the M-cycle period, a T-cycle period |
| Step.AsWrittenTimersLag | src/cpu.c:168-206 | with TAC = 0x04 and TIMA = 0, the emulator's update at count 256 ticks DIV but not TIMA, and at count 64 ticks nothing, where TIMA and DIV are due |
| Step.AsWrittenTimersQuarterSpeed | src/cpu.c:168-206 | where its division is defined, the emulator's update at a count 4n is the intended update at n: its timers run four times too slowly |
| Step.TimerUpdate | src/cpu.c:167-225 | DIV ticks when the M-cycle count is a multiple of 64; TIMA ticks when due and is reloaded from TMA on overflow; IF bit 2 is set exactly on that overflow; no other byte changes |
| Step.UpdateTimers | src/cpu.c:167-225 | the memory becomes `TimersUpdated` of the old memory and the M-cycle count; nothing else changes |
| Step.TickTima | src/cpu.c:176-224 | the memory becomes `TimaTicked` of the old memory |
| Step.OpTcyclesShape | src/cpu.c:230-248 | every entry is 0, 4, 8, 12, 16, 20 or 32, and 0 exactly for the opcodes with no case |
| Step.RowNonZero | src/cpu.c:232-243 | rows 0x0..0xC hold no zero |
| Step.RowWithZeros | src/cpu.c:245-247 | rows 0xD..0xF are zero exactly at the unused opcodes |
| Step.RunCycles | src/cpu.c:286-315 | running an instruction adds `op_tcycles / 4` to the count, or the CB entry in T-cycles for 0xCB, and clears the counter |
| Step.HaltedWaits | src/cpu.c:269-283 | a halted CPU with nothing to dispatch and nothing pending after the timer update stays halted, keeps every register including PC and adds one to the count |
| Step.HaltStops | src/instruction.c:459-464 | executing HALT with IME clear latches `halted`, moves PC past the 0x76, changes no other register and adds one to the count |
| Step.RunInstruction | src/cpu.c:286-315 | the CPU ends in `Run` of the state it started from |
| Step.CpuStep | src/cpu.c:252-317 | the CPU ends in `Stepped` of the state it started from |

## Left out

- `bus_read16`, `bus_write16`, `bus_increment_div` and `load_rom` are
  declared or called by the core, but their bodies are not part of this
  model. Words are modelled as two little-endian bytes at the address and
  the next address (wrapping). `bus_increment_div` is modelled as DIV + 1
  modulo 256.
- The `cpu` struct's definition is not part of this model. The running
  count and the counter are unbounded naturals, so a C-width wrap of
  `count` is not modelled.
- `bus_init`'s `malloc` is a fresh array whose contents the model leaves
  unconstrained. `bus_free`, the console output of `cpu_step` and
  `cpu_update_timers`, `main.c`, the JSON test harness and the PPU are
  not modelled.
- Conditional branches add the `op_tcycles` entry only, which is the
  not-taken time; the emulator charges no extra cycles for a taken branch.
- Step.UpdateTimers: uses the corrected periods, counted in M-cycles
  (`TimerPeriod` and `DivPeriod`). As written, TAC modes 1 and 2 divide
  by zero, which is undefined in C, and the other periods are T-cycle
  periods applied to an M-cycle count; both are exhibited by
  `Step.AsWrittenTimersUpdated` instead.
- Step.TimersUpdated: uses the corrected M-cycle periods for the same
  reasons. After a CB instruction the count still grows by a T-cycle
  figure (see Step.RunCycles), so the timers run fast across CB opcodes.
- Step.Stepped: follows the code, so interrupt dispatch does not clear
  IME. A served interrupt stays enabled, and `cpu_step` can dispatch again
  on the next step.
- Step.RunCycles: follows the code, so for 0xCB the counter is set from
  the CB table, in T-cycles rather than M-cycles.
- STOP (0x10) is an empty case, as in the code.
- EI takes effect immediately, with no one-instruction delay, as in the
  code.
- Interpreter.AccumulateValue and the other ALU methods: results are
  computed in unbounded integers and masked, where the code adds in
  wider C integers and truncates on assignment; the two agree for all
  byte inputs.

## Findings

| source | as written | input that shows it | evidently intended | confidence | as-written member | corrected member |
|---|---|---|---|---|---|---|
| src/cpu.c:181-206 | the TIMA frequency is held in a `uint16_t`, so 262144 and 65536 become 0 and `4194304 / freq` divides by zero | TAC = 0x05 or 0x06 (timer enabled, mode 1 or 2) | TIMA ticks at 262144 or 65536 Hz in modes 1 and 2, that is every 4 or 16 M-cycles | not executed | Step.AsWrittenTimerPeriod, with Step.AsWrittenTimerDividesByZero | Step.TimerPeriod, with Step.TimerPeriods |
| src/cpu.c:168-206 | `count` counts M-cycles (src/cpu.c:292 and 312 add `op_tcycles / 4`, the halted path adds 1), but DIV ticks when `count % 256 == 0` and TIMA when `count % (4194304 / freq) == 0`, both T-cycle periods | TAC = 0x04, TIMA = 0: at count 256 TIMA should tick and does not; at count 64 DIV should tick and does not | DIV every 64 M-cycles (16384 Hz) and TIMA every 256, 4, 16 or 64 M-cycles, as the comments at src/cpu.c:184-199 say | not executed | Step.AsWrittenTimersUpdated, with Step.AsWrittenTimersLag | Step.TimersUpdated, with Step.TimerUpdate |
