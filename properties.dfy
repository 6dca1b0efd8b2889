/**
  Laws of the unprefixed instruction set as `instruction_execute` implements
  it: what an instruction may change besides registers and memory, and the
  instruction pairs that undo each other.
*/
module Properties {
  import opened Registers
  import opened Bus
  import opened Cpu
  import opened Alu
  import opened Instruction

  /** Opcodes 0x00..0x3F touch neither the cycle counts, IME nor `halted`. */
  lemma Block0Frame(s: CpuState, y: nat, z: nat)
    requires y < 8 && z < 8
    ensures var r := Block0(s, y, z);
      r.count == s.count && r.counter == s.counter && r.ime == s.ime && r.halted == s.halted
  {
    if z < 4 {
      Block0FramePairs(s, y, z);
    } else {
      Block0FrameBytes(s, y, z);
    }
  }

  /** Block0Frame for z = 0..3: relative jumps, the pair loads, indirect
      loads and pair steps. */
  lemma Block0FramePairs(s: CpuState, y: nat, z: nat)
    requires y < 8 && z < 4
    ensures var r := Block0(s, y, z);
      r.count == s.count && r.counter == s.counter && r.ime == s.ime && r.halted == s.halted
  {
  }

  /** Block0Frame for z = 4..7: INC, DEC, LD r,n8 and the accumulator
      rotations and flag operations. */
  lemma Block0FrameBytes(s: CpuState, y: nat, z: nat)
    requires y < 8 && 4 <= z < 8
    ensures var r := Block0(s, y, z);
      r.count == s.count && r.counter == s.counter && r.ime == s.ime && r.halted == s.halted
  {
  }

  /** Opcodes 0xC0..0xFF keep the running count and `halted`; the CB prefix
      (y = 1, z = 3) sets the counter, DI and EI (z = 3, y = 6 and 7) and
      RETI (z = 1, y = 3) set IME. */
  lemma Block3Frame(s: CpuState, y: nat, z: nat)
    requires y < 8 && z < 8
    ensures var r := Block3(s, y, z);
      r.count == s.count && r.halted == s.halted
      && r.counter == (if y == 1 && z == 3 then CbOpTcycles(Immediate8(s)) else s.counter)
      && r.ime == (if z == 3 && y == 6 then false else if (z == 3 && y == 7) || (z == 1 && y == 3) then true else s.ime)
  {
    if z < 2 {
      Block3FrameLoads(s, y, z);
    } else if z < 4 {
      Block3FrameJumps(s, y, z);
    } else {
      Block3FrameCalls(s, y, z);
    }
  }

  /** Block3Frame for z = 0 and 1: conditional returns, the high-page and
      SP-offset loads, POP, RET, RETI and the HL jumps. */
  lemma Block3FrameLoads(s: CpuState, y: nat, z: nat)
    requires y < 8 && z < 2
    ensures var r := Block3(s, y, z);
      r.count == s.count && r.halted == s.halted && r.counter == s.counter
      && r.ime == (if z == 1 && y == 3 then true else s.ime)
  {
  }

  /** Block3Frame for z = 2 and 3: absolute jumps, the remaining loads, the
      CB prefix, DI and EI. */
  lemma Block3FrameJumps(s: CpuState, y: nat, z: nat)
    requires y < 8 && 2 <= z < 4
    ensures var r := Block3(s, y, z);
      r.count == s.count && r.halted == s.halted
      && r.counter == (if y == 1 && z == 3 then CbOpTcycles(Immediate8(s)) else s.counter)
      && r.ime == (if z == 3 && y == 6 then false else if z == 3 && y == 7 then true else s.ime)
  {
  }

  /** Block3Frame for z = 4..7: calls, PUSH, the immediate accumulator
      operations and RST. */
  lemma Block3FrameCalls(s: CpuState, y: nat, z: nat)
    requires y < 8 && 4 <= z < 8
    ensures var r := Block3(s, y, z);
      r.count == s.count && r.halted == s.halted && r.counter == s.counter && r.ime == s.ime
  {
  }

  /** What an instruction does to the state besides registers and memory:
      the running count never changes; only CB sets the cycle counter (to
      the CB table's entry for the second byte); only DI clears IME and only
      EI and RETI set it; only HALT sets `halted`, and nothing clears it. */
  lemma ExecuteFrame(s: CpuState, opcode: Byte)
    ensures var r := Execute(s, opcode);
      && r.count == s.count
      && r.counter == (if opcode == 0xCB then CbOpTcycles(Immediate8(s)) else s.counter)
      && r.ime == (if opcode == 0xF3 then false else if opcode == 0xFB || opcode == 0xD9 then true else s.ime)
      && r.halted == (s.halted || opcode == 0x76)
  {
    var y, z := (opcode / 8) % 8, opcode % 8;
    if opcode < 0x40 {
      Block0Frame(s, y, z);
    } else if opcode < 0xC0 {
    } else {
      assert opcode == 0xC0 + 8 * y + z;
      Block3Frame(s, y, z);
    }
  }

  /** Writing back what a pair reads leaves the registers as they were; for
      AF this holds because the flag byte decodes to the same flags. */
  lemma WriteBackPair(r: Registers, name: RegisterName)
    requires name in {AF, BC, DE, HL}
    ensures Write16(r, name, Read16(r, name)) == r
  {
    Read16Halves(r, name);
    if name == AF {
      FlagsRoundTrip(r.f);
    }
  }

  /** Popping into a pair what was pushed from it restores the registers. */
  lemma PopAfterPush(s: CpuState, p: nat)
    requires p < 4
    ensures var pushed := Push(s, Read16(s.regs, StackPairName(p)));
      Pop(pushed, p).regs == s.regs && Load16(pushed.mem, pushed.regs.sp) == Read16(s.regs, StackPairName(p))
  {
    var name := StackPairName(p);
    var value := Read16(s.regs, name);
    var pushed := Push(s, value);
    Load16AfterStore16(s.mem, pushed.regs.sp, value);
    DownTwoUpTwo(s.regs.sp);
    assert pushed.regs.(sp := (pushed.regs.sp as int + 2) % MemorySize) == s.regs;
    WriteBackPair(s.regs, name);
  }

  /** PUSH rr then POP rr (rr one of BC, DE, HL, AF) restores every
      register, SP included, and leaves the pushed word in memory. */
  lemma PushThenPop(s: CpuState, push: Byte)
    requires push in {0xC5, 0xD5, 0xE5, 0xF5}
    ensures var pushed := Execute(s, push);
      var popped := Execute(pushed, push - 4);
      popped.regs == s.regs && popped.mem == pushed.mem
      && Load16(pushed.mem, pushed.regs.sp) == Read16(s.regs, StackPairName(push / 0x10 - 0xC))
  {
    var p := push / 0x10 - 0xC;
    DecodePush(s, push);
    var pushed := Push(s, Read16(s.regs, StackPairName(p)));
    DecodePop(pushed, push - 4);
    PopAfterPush(s, p);
  }

  /** RET after a call returns to the pushed address: every register is
      as before the call, SP included. */
  lemma ReturnAfterCall(s: CpuState, target: Word)
    ensures Return(Call(s, target)).regs == s.regs
  {
    var called := Call(s, target);
    Load16AfterStore16(s.mem, called.regs.sp, s.regs.pc);
    DownTwoUpTwo(s.regs.sp);
  }

  /** CALL a16 jumps to the immediate word, and RET in the callee returns to
      the byte after the call with SP and every other register restored.
      (PC is already past the opcode byte, at the immediate.) */
  lemma CallThenReturn(s: CpuState)
    ensures var called := Execute(s, 0xCD);
      var back := Execute(called, 0xC9);
      called.regs.pc == Immediate16(s)
      && back.regs == s.regs.(pc := (s.regs.pc + 2) % MemorySize)
      && back.mem == called.mem
  {
    DecodeCall(s, 0xCD);
    var called := Call(Advanced(s, 2), Immediate16(s));
    DecodeReturn(called, 0xC9);
    ReturnAfterCall(Advanced(s, 2), Immediate16(s));
  }

  /** RST n pushes the return address and jumps to n (0x00, 0x08, ...,
      0x38); a RET there comes back with every register restored. */
  lemma RestartThenReturn(s: CpuState, opcode: Byte)
    requires opcode >= 0xC0 && opcode % 8 == 7
    ensures var called := Execute(s, opcode);
      called.regs.pc == 8 * ((opcode / 8) % 8)
      && Load16(called.mem, called.regs.sp) == s.regs.pc
      && Execute(called, 0xC9).regs == s.regs
  {
    DecodeRestart(s, opcode);
    var called := Call(s, opcode - 0xC7);
    DecodeReturn(called, 0xC9);
    Load16AfterStore16(s.mem, called.regs.sp, s.regs.pc);
    ReturnAfterCall(s, opcode - 0xC7);
  }

  /** LD r,r' (0x40..0x7F but HALT) copies the source operand into the
      destination and leaves every other operand alone (a write to H or L
      moves the byte at HL, so that one is excepted), the flags too. */
  lemma LoadCopies(s: CpuState, opcode: Byte)
    requires 0x40 <= opcode < 0x80 && opcode != 0x76
    ensures var r, destination, source := Execute(s, opcode), (opcode / 8) % 8, opcode % 8;
      && Operand(r, destination) == Operand(s, source)
      && r.regs.f == s.regs.f && r.regs.pc == s.regs.pc && r.regs.sp == s.regs.sp
      && forall other :: 0 <= other < 8 && other != destination && (other == 6 ==> destination != 4 && destination != 5) ==>
           Operand(r, other) == Operand(s, other)
  {
    var destination, source := (opcode / 8) % 8, opcode % 8;
    DecodeLoad(s, opcode);
    forall other | 0 <= other < 8 && other != destination && (other == 6 ==> destination != 4 && destination != 5)
      ensures Operand(WithOperand(s, destination, Operand(s, source)), other) == Operand(s, other)
    {
      WithOperandFrame(s, destination, other, Operand(s, source));
    }
  }

  /** The state after INC and then DEC on one operand is the state before
      but for the flags. */
  lemma DecrementAfterIncrement(s: CpuState, y: nat)
    requires y < 8
    ensures var up := Increment(Operand(s, y), s.regs.f);
      var s1 := WithOperand(s.(regs := s.regs.(f := up.flags)), y, up.value);
      var down := Decrement(Operand(s1, y), s1.regs.f);
      var back := WithOperand(s1.(regs := s1.regs.(f := down.flags)), y, down.value);
      back.(regs := back.regs.(f := s.regs.f)) == s && back.regs.f.carry == s.regs.f.carry
  {
    DecrementUndoesIncrement(Operand(s, y), s.regs.f);
    if y == 6 {
      var address := Read16(s.regs, HL);
      var up := Increment(Operand(s, y), s.regs.f);
      assert Store(Store(s.mem, address, up.value), address, s.mem[address]) == s.mem;
    }
  }

  /** INC r followed by DEC r restores the operand, and with it the whole
      state but for Z, N and H. */
  lemma IncrementThenDecrement(s: CpuState, increment: Byte)
    requires increment < 0x40 && increment % 8 == 4
    ensures var back := Execute(Execute(s, increment), increment + 1);
      back.(regs := back.regs.(f := s.regs.f)) == s && back.regs.f.carry == s.regs.f.carry
  {
    var y := (increment / 8) % 8;
    var up := Increment(Operand(s, y), s.regs.f);
    DecodeIncrement(s, increment);
    var s1 := WithOperand(s.(regs := s.regs.(f := up.flags)), y, up.value);
    DecodeDecrement(s1, increment + 1);
    DecrementAfterIncrement(s, y);
  }

  /** `r` is `s` after adding `v` and the carry-in `c` to A: A is the sum
      modulo 256, C and H are the carries out of bits 7 and 3, Z says
      whether A is 0, N is cleared, and nothing else changes. */
  ghost predicate AddedToAccumulator(s: CpuState, r: CpuState, v: Byte, c: nat)
  {
    var sum := s.regs.a + v + c;
    && r.regs.a == sum % 0x100
    && (r.regs.f.carry <==> sum > 0xFF)
    && (r.regs.f.halfCarry <==> s.regs.a % 0x10 + v % 0x10 + c > 0xF)
    && (r.regs.f.zero <==> r.regs.a == 0) && !r.regs.f.subtract
    && r == s.(regs := s.regs.(a := r.regs.a, f := r.regs.f))
  }

  /** `r` is `s` after taking `v` and the borrow-in `c` from A: A is the
      difference modulo 256, C and H are the borrows of the whole byte and
      of the low nibble, Z says whether A is 0, N is set, and nothing else
      changes. */
  ghost predicate SubtractedFromAccumulator(s: CpuState, r: CpuState, v: Byte, c: nat)
  {
    && r.regs.a == (s.regs.a - v - c) % 0x100
    && (r.regs.f.carry <==> s.regs.a < v + c)
    && (r.regs.f.halfCarry <==> s.regs.a % 0x10 < v % 0x10 + c)
    && (r.regs.f.zero <==> r.regs.a == 0) && r.regs.f.subtract
    && r == s.(regs := s.regs.(a := r.regs.a, f := r.regs.f))
  }

  /** ADD and ADC on the accumulator, for any operand byte. */
  lemma AccumulateAdd(s: CpuState, operation: nat, v: Byte)
    requires operation < 2
    ensures AddedToAccumulator(s, Accumulate(s, operation, v), v, BoolBit(operation == 1 && s.regs.f.carry))
  {
    var carryIn := operation == 1 && s.regs.f.carry;
    var c, result := BoolBit(carryIn), Add(s.regs.a, v, carryIn);
    assert result.value == (s.regs.a + v + c) % 0x100
      && (result.flags.carry <==> s.regs.a + v + c > 0xFF)
      && (result.flags.halfCarry <==> s.regs.a % 0x10 + v % 0x10 + c > 0xF)
    by {
      AddCarries(s.regs.a, v, carryIn);
    }
    assert Arithmetic(operation, s.regs.a, v, s.regs.f) == result;
  }

  /** SUB and SBC on the accumulator, for any operand byte. */
  lemma AccumulateSub(s: CpuState, operation: nat, v: Byte)
    requires 2 <= operation < 4
    ensures SubtractedFromAccumulator(s, Accumulate(s, operation, v), v, BoolBit(operation == 3 && s.regs.f.carry))
  {
    var carryIn := operation == 3 && s.regs.f.carry;
    var c, result := BoolBit(carryIn), Sub(s.regs.a, v, carryIn);
    assert result.value == (s.regs.a - v - c) % 0x100
      && (result.flags.carry <==> s.regs.a < v + c)
      && (result.flags.halfCarry <==> s.regs.a % 0x10 < v % 0x10 + c)
    by {
      SubBorrows(s.regs.a, v, carryIn);
    }
    assert Arithmetic(operation, s.regs.a, v, s.regs.f) == result;
  }

  /** ADD A,r (0x80-0x87) and ADC A,r (0x88-0x8F), the operand chosen by
      the low three bits of the opcode, the carry added for ADC only. */
  lemma AddToAccumulator(s: CpuState, opcode: Byte)
    requires 0x80 <= opcode < 0x90
    ensures AddedToAccumulator(s, Execute(s, opcode), Operand(s, opcode % 8), BoolBit(opcode >= 0x88 && s.regs.f.carry))
  {
    if opcode < 0x88 {
      assert opcode / 8 == 16;
    } else {
      assert opcode / 8 == 17;
    }
    DecodeArithmetic(s, opcode);
    AccumulateAdd(s, (opcode / 8) % 8, Operand(s, opcode % 8));
  }

  /** SUB r (0x90-0x97) and SBC A,r (0x98-0x9F), the operand chosen by the
      low three bits of the opcode, the carry taken for SBC only. */
  lemma SubtractFromAccumulator(s: CpuState, opcode: Byte)
    requires 0x90 <= opcode < 0xA0
    ensures SubtractedFromAccumulator(s, Execute(s, opcode), Operand(s, opcode % 8), BoolBit(opcode >= 0x98 && s.regs.f.carry))
  {
    if opcode < 0x98 {
      assert opcode / 8 == 18;
    } else {
      assert opcode / 8 == 19;
    }
    DecodeArithmetic(s, opcode);
    AccumulateSub(s, (opcode / 8) % 8, Operand(s, opcode % 8));
  }

  /** CP r: A is kept; Z when A equals the operand, C when A is below it,
      H when A's low nibble is below the operand's; N is set; only F
      changes. */
  lemma CompareWithAccumulator(s: CpuState, opcode: Byte)
    requires 0xB8 <= opcode < 0xC0
    ensures var r, v := Execute(s, opcode), Operand(s, opcode % 8);
      && (r.regs.f.zero <==> s.regs.a == v)
      && (r.regs.f.carry <==> s.regs.a < v)
      && (r.regs.f.halfCarry <==> s.regs.a % 0x10 < v % 0x10)
      && r.regs.f.subtract
      && r == s.(regs := s.regs.(f := r.regs.f))
  {
    assert opcode / 8 == 23;
    DecodeArithmetic(s, opcode);
    assert Execute(s, opcode) == s.(regs := s.regs.(f := Compare(s.regs.a, Operand(s, opcode % 8))));
  }

  /** JR e and JR cc,e: PC moves past the offset byte and, when the jump
      is taken (always for JR e, when the condition holds for JR cc), by
      the signed offset as well; nothing else changes. */
  lemma RelativeJumpTarget(s: CpuState, opcode: Byte)
    requires opcode in {0x18, 0x20, 0x28, 0x30, 0x38}
    ensures var r, next := Execute(s, opcode), Next(s.regs.pc);
      var taken := opcode == 0x18 || Condition(s.regs.f, (opcode / 8) % 4);
      && r.regs.pc == (if taken then (next + Signed(Immediate8(s))) % 0x1_0000 else next)
      && r == s.(regs := s.regs.(pc := r.regs.pc))
  {
    DecodeRelativeJump(s, opcode);
  }

  /** JP cc,nn: PC becomes nn when the condition holds and otherwise
      moves past the two operand bytes; nothing else changes. */
  lemma AbsoluteJumpTarget(s: CpuState, opcode: Byte)
    requires opcode in {0xC2, 0xCA, 0xD2, 0xDA}
    ensures var r := Execute(s, opcode);
      && r.regs.pc == (if Condition(s.regs.f, (opcode / 8) % 4) then Immediate16(s) else (s.regs.pc + 2) % 0x1_0000)
      && r == s.(regs := s.regs.(pc := r.regs.pc))
  {
    DecodeJumpIf(s, opcode);
  }
}
