/**
  `instruction_execute` as the emulator runs it: a switch on the high nibble
  of the opcode, then on the low nibble, whose cases update the registers
  and the bus in place.

  The source spells out one case per opcode, repeating the same code for
  each register, pair or condition. Here each such family is one method,
  with the register, pair or condition chosen from the opcode bits the
  source's copies differ in; cases the source writes differently (LD SP,n16,
  ADD HL,HL, INC SP, RET, POP AF, PUSH AF) keep their own method. Every
  method is proved to leave the CPU in the state `Instruction.Execute`
  describes, and `InstructionExecute` dispatches to them as the source's
  switch does.
*/
module Interpreter {
  import opened Registers
  import opened Bus
  import opened Cpu
  import opened Alu
  import opened Instruction
  import Bits
  import Prefix

  /** The high and low registers of BC, DE or HL (index 0, 1, 2). */
  function Halves(p: nat): (Register8, Register8)
    requires p < 3
  {
    if p == 0 then (B, C) else if p == 1 then (D, E) else (H, L)
  }

  /** Writing a pair is writing its two halves. */
  lemma WritePairHalves(r: Registers, p: nat, hi: Byte, lo: Byte)
    requires p < 3
    ensures Write16(r, PairName(p), Pair(hi, lo)) == Set(Set(r, Halves(p).1, lo), Halves(p).0, hi)
    ensures Write16(r, StackPairName(p), Pair(hi, lo)) == Set(Set(r, Halves(p).1, lo), Halves(p).0, hi)
  {
    PairHalves(hi, lo);
  }

  /** Two `sp++` in a row move SP by two, wrapping at 0x10000. */
  lemma NextTwice(address: Word)
    ensures Next(Next(address)) == (address + 2) % MemorySize
  {
  }

  /** The operand selection of LD r,r' and of the accumulator operations:
      B, C, D, E, H, L, the byte at HL, A. */
  method ReadOperand(cpu: Cpu, index: nat) returns (value: Byte)
    requires cpu.Valid() && index < 8
    ensures value == Operand(cpu.State(), index)
  {
    if index == 0 {
      value := cpu.registers.b;
    } else if index == 1 {
      value := cpu.registers.c;
    } else if index == 2 {
      value := cpu.registers.d;
    } else if index == 3 {
      value := cpu.registers.e;
    } else if index == 4 {
      value := cpu.registers.h;
    } else if index == 5 {
      value := cpu.registers.l;
    } else if index == 6 {
      value := cpu.bus.Read8(Read16(cpu.registers, HL));
    } else {
      value := cpu.registers.a;
    }
  }

  /** The destination selection of LD r,r': a register, or the byte at HL
      for index 6. */
  method WriteOperand(cpu: Cpu, index: nat, value: Byte)
    requires cpu.Valid() && index < 8
    modifies cpu, cpu.bus.memory
    ensures cpu.Valid() && cpu.State() == WithOperand(old(cpu.State()), index, value)
  {
    if index == 0 {
      cpu.registers := cpu.registers.(b := value);
    } else if index == 1 {
      cpu.registers := cpu.registers.(c := value);
    } else if index == 2 {
      cpu.registers := cpu.registers.(d := value);
    } else if index == 3 {
      cpu.registers := cpu.registers.(e := value);
    } else if index == 4 {
      cpu.registers := cpu.registers.(h := value);
    } else if index == 5 {
      cpu.registers := cpu.registers.(l := value);
    } else if index == 6 {
      cpu.bus.Write8(Read16(cpu.registers, HL), value);
    } else {
      cpu.registers := cpu.registers.(a := value);
    }
  }

  /** `sp -= 2; bus_write16(sp, value)` */
  method PushWord(cpu: Cpu, value: Word)
    requires cpu.Valid()
    modifies cpu, cpu.bus.memory
    ensures cpu.Valid() && cpu.State() == Push(old(cpu.State()), value)
  {
    cpu.registers := cpu.registers.(sp := (cpu.registers.sp as int - 2) % MemorySize);
    cpu.bus.Write16(cpu.registers.sp, value);
  }

  /** `pc = bus_read16(sp); sp += 2` */
  method ReturnFromStack(cpu: Cpu)
    requires cpu.Valid()
    modifies cpu
    ensures cpu.Valid() && cpu.State() == Return(old(cpu.State()))
  {
    var nn := cpu.bus.Read16(cpu.registers.sp);
    cpu.registers := cpu.registers.(pc := nn);
    cpu.registers := cpu.registers.(sp := (cpu.registers.sp as int + 2) % MemorySize);
  }

  /** The branch conditions as the emulator tests them, selected by bits
      4..3 of the opcode: NZ, Z, NC, C. */
  method TestCondition(cpu: Cpu, opcode: Byte) returns (taken: bool)
    requires cpu.Valid()
    ensures taken == Condition(cpu.registers.f, (opcode / 8) % 4)
  {
    var cc := (opcode / 8) % 4;
    if cc == 0 {
      taken := !cpu.registers.f.zero;
    } else if cc == 1 {
      taken := cpu.registers.f.zero;
    } else if cc == 2 {
      taken := !cpu.registers.f.carry;
    } else {
      taken := cpu.registers.f.carry;
    }
  }

  /** The accumulator operations as the emulator writes them: ADD and ADC
      with the sum in a wider unsigned integer, SUB, SBC and CP with the
      difference wrapped in sixteen bits (CP keeps A), AND, XOR and OR on
      the bits. */
  method AccumulateValue(cpu: Cpu, operation: nat, value: Byte)
    requires cpu.Valid() && operation < 8
    modifies cpu
    ensures cpu.Valid() && cpu.State() == Accumulate(old(cpu.State()), operation, value)
  {
    if operation == 0 || operation == 1 {
      AddToA(cpu, operation, value);
    } else if operation == 2 || operation == 3 || operation == 7 {
      SubtractFromA(cpu, operation, value);
    } else {
      LogicWithA(cpu, operation, value);
    }
  }

  /** ADD and ADC: the sum with the carry-in, flags from the full sum. */
  method AddToA(cpu: Cpu, operation: nat, value: Byte)
    requires cpu.Valid() && operation < 2
    modifies cpu
    ensures cpu.Valid() && cpu.State() == Accumulate(old(cpu.State()), operation, value)
  {
    var a := cpu.registers.a;
    var carry := if operation == 1 then BoolBit(cpu.registers.f.carry) else 0;
    var result := a as int + value + carry;
    cpu.registers := cpu.registers.(f := Flags(result % 0x100 == 0, false, a % 0x10 + value % 0x10 + carry > 0xF, result > 0xFF));
    cpu.registers := cpu.registers.(a := result % 0x100);
  }

  /** SUB, SBC and CP: the difference held in sixteen bits; CP keeps A. */
  method SubtractFromA(cpu: Cpu, operation: nat, value: Byte)
    requires cpu.Valid() && (operation == 2 || operation == 3 || operation == 7)
    modifies cpu
    ensures cpu.Valid() && cpu.State() == Accumulate(old(cpu.State()), operation, value)
  {
    var a := cpu.registers.a;
    var carry := if operation == 3 then BoolBit(cpu.registers.f.carry) else 0;
    var result := (a as int - value - carry) % 0x1_0000;
    cpu.registers := cpu.registers.(f := Flags(result % 0x100 == 0, true, a % 0x10 < value % 0x10 + carry, result > 0xFF));
    if operation != 7 {
      cpu.registers := cpu.registers.(a := result % 0x100);
    }
  }

  /** AND, XOR and OR: the bitwise result, Z from it, H set only by AND. */
  method LogicWithA(cpu: Cpu, operation: nat, value: Byte)
    requires cpu.Valid() && 4 <= operation < 7
    modifies cpu
    ensures cpu.Valid() && cpu.State() == Accumulate(old(cpu.State()), operation, value)
  {
    var a := cpu.registers.a;
    if operation == 4 {
      cpu.registers := cpu.registers.(a := Bits.And8(a, value));
      cpu.registers := cpu.registers.(f := Flags(cpu.registers.a == 0, false, true, false));
    } else if operation == 5 {
      cpu.registers := cpu.registers.(a := Bits.Xor8(a, value));
      cpu.registers := cpu.registers.(f := Flags(cpu.registers.a == 0, false, false, false));
    } else {
      cpu.registers := cpu.registers.(a := Bits.Or8(a, value));
      cpu.registers := cpu.registers.(f := Flags(cpu.registers.a == 0, false, false, false));
    }
  }

  // ---------------------------------------------------------------------
  // Opcodes 0x00..0x3F

  /** NOP (0x00) and STOP (0x10), which the emulator leaves empty. */
  method NoOperation(cpu: Cpu, opcode: Byte)
    requires cpu.Valid() && (opcode == 0x00 || opcode == 0x10)
    ensures cpu.State() == Execute(cpu.State(), opcode)
  {
    DecodeNoOperation(cpu.State(), opcode);
  }

  /** LD BC,n16 / LD DE,n16 / LD HL,n16: low byte, then high byte, from the
      instruction stream. */
  method LoadPairImmediate(cpu: Cpu, opcode: Byte)
    requires cpu.Valid() && opcode in {0x01, 0x11, 0x21}
    modifies cpu
    ensures cpu.Valid() && cpu.State() == Execute(old(cpu.State()), opcode)
  {
    LoadPairBytes(cpu.State(), opcode);
    var (high, low) := Halves(opcode / 0x10);
    var lo := cpu.FetchByte();
    cpu.registers := Set(cpu.registers, low, lo);
    var hi := cpu.FetchByte();
    cpu.registers := Set(cpu.registers, high, hi);
  }

  /** LD rr,n16 for BC, DE and HL, byte by byte: the low register takes the
      byte at PC, the high register the byte after it. */
  lemma LoadPairBytes(s: CpuState, opcode: Byte)
    requires opcode in {0x01, 0x11, 0x21}
    ensures var (high, low) := Halves(opcode / 0x10);
      var once := Advanced(s, 1);
      var first := once.(regs := Set(once.regs, low, Immediate8(s)));
      var twice := Advanced(first, 1);
      Execute(s, opcode) == twice.(regs := Set(twice.regs, high, Immediate8(once)))
  {
    DecodeLoadPairImmediate(s, opcode);
    var p := opcode / 0x10;
    var (high, low) := Halves(p);
    var moved := Advanced(s, 2);
    WritePairHalves(moved.regs, p, Immediate8(Advanced(s, 1)), Immediate8(s));
  }

  /** LD SP,n16: SP takes the low byte, then the high byte is ORed in. */
  method LoadSpImmediate(cpu: Cpu, opcode: Byte)
    requires cpu.Valid() && opcode == 0x31
    modifies cpu
    ensures cpu.Valid() && cpu.State() == Execute(old(cpu.State()), opcode)
  {
    DecodeLoadPairImmediate(cpu.State(), opcode);
    var lo := cpu.FetchByte();
    cpu.registers := cpu.registers.(sp := lo);
    var hi := cpu.FetchByte();
    cpu.registers := cpu.registers.(sp := Pair(hi, cpu.registers.sp));
  }

  /** LD (BC),A / LD (DE),A / LD (HL+),A / LD (HL-),A: store A at the
      address the pair holds; the HL forms then step HL. */
  method StoreAIndirect(cpu: Cpu, opcode: Byte)
    requires cpu.Valid() && opcode in {0x02, 0x12, 0x22, 0x32}
    modifies cpu, cpu.bus.memory
    ensures cpu.Valid() && cpu.State() == Execute(old(cpu.State()), opcode)
  {
    DecodeStoreAIndirect(cpu.State(), opcode);
    var name := if opcode == 0x02 then BC else if opcode == 0x12 then DE else HL;
    cpu.bus.Write8(Read16(cpu.registers, name), cpu.registers.a);
    if opcode == 0x22 {
      cpu.IncrementRegister16(HL);
    } else if opcode == 0x32 {
      cpu.DecrementRegister16(HL);
    }
  }

  /** LD A,(BC) / LD A,(DE) / LD A,(HL+) / LD A,(HL-): load A from the
      address the pair holds; the HL forms then step HL. */
  method LoadAIndirect(cpu: Cpu, opcode: Byte)
    requires cpu.Valid() && opcode in {0x0A, 0x1A, 0x2A, 0x3A}
    modifies cpu
    ensures cpu.Valid() && cpu.State() == Execute(old(cpu.State()), opcode)
  {
    DecodeLoadAIndirect(cpu.State(), opcode);
    var name := if opcode == 0x0A then BC else if opcode == 0x1A then DE else HL;
    var a := cpu.bus.Read8(Read16(cpu.registers, name));
    cpu.registers := cpu.registers.(a := a);
    if opcode == 0x2A {
      cpu.IncrementRegister16(HL);
    } else if opcode == 0x3A {
      cpu.DecrementRegister16(HL);
    }
  }

  /** INC BC / INC DE / INC HL, through the sixteen-bit register helper. */
  method IncrementPair(cpu: Cpu, opcode: Byte)
    requires cpu.Valid() && opcode in {0x03, 0x13, 0x23}
    modifies cpu
    ensures cpu.Valid() && cpu.State() == Execute(old(cpu.State()), opcode)
  {
    DecodeIncrementPair(cpu.State(), opcode);
    cpu.IncrementRegister16(PairName(opcode / 0x10));
  }

  /** DEC BC / DEC DE / DEC HL, through the sixteen-bit register helper. */
  method DecrementPair(cpu: Cpu, opcode: Byte)
    requires cpu.Valid() && opcode in {0x0B, 0x1B, 0x2B}
    modifies cpu
    ensures cpu.Valid() && cpu.State() == Execute(old(cpu.State()), opcode)
  {
    DecodeDecrementPair(cpu.State(), opcode);
    cpu.DecrementRegister16(PairName(opcode / 0x10));
  }

  /** INC SP / DEC SP: `sp++` and `sp--` on the sixteen-bit field. */
  method StepSp(cpu: Cpu, opcode: Byte)
    requires cpu.Valid() && opcode in {0x33, 0x3B}
    modifies cpu
    ensures cpu.Valid() && cpu.State() == Execute(old(cpu.State()), opcode)
  {
    if opcode == 0x33 {
      DecodeIncrementPair(cpu.State(), opcode);
      cpu.registers := cpu.registers.(sp := (cpu.registers.sp as int + 1) % 0x1_0000);
    } else {
      DecodeDecrementPair(cpu.State(), opcode);
      cpu.registers := cpu.registers.(sp := (cpu.registers.sp as int - 1) % 0x1_0000);
    }
  }

  /** INC and DEC on a register operand, written as the emulator does:
      the register through its pointer, then the flags. */
  lemma StepNamedRegister(s: CpuState, y: nat, r: Result8)
    requires y < 8 && y != 6
    ensures Prefix.RegisterPointer(y).Some? && Get(s.regs, Prefix.RegisterPointer(y).value) == Operand(s, y)
    ensures var name := Prefix.RegisterPointer(y).value;
      WithOperand(s.(regs := s.regs.(f := r.flags)), y, r.value) == s.(regs := Set(s.regs, name, r.value).(f := r.flags))
  {
    Prefix.RegisterPointerNamesOperand(s, y, r.value);
    Prefix.RegisterPointerNamesOperand(s.(regs := s.regs.(f := r.flags)), y, r.value);
  }

  /** INC r8 for B, C, D, E, H, L, A: the register grows by one modulo 256,
      Z and H are taken from the new value, N is cleared, C is kept. */
  method IncrementRegister(cpu: Cpu, opcode: Byte)
    requires cpu.Valid() && opcode < 0x40 && opcode % 8 == 4 && opcode != 0x34
    modifies cpu
    ensures cpu.Valid() && cpu.State() == Execute(old(cpu.State()), opcode)
  {
    DecodeIncrement(cpu.State(), opcode);
    var y := (opcode / 8) % 8;
    var name := Prefix.RegisterPointer(y).value;
    var value := (Get(cpu.registers, name) as int + 1) % 0x100;
    cpu.registers := Set(cpu.registers, name, value);
    cpu.registers := cpu.registers.(f := cpu.registers.f.(zero := value == 0, subtract := false));
    cpu.registers := cpu.registers.(f := cpu.registers.f.(halfCarry := value % 0x10 == 0));
    StepNamedRegister(old(cpu.State()), y, Increment(Operand(old(cpu.State()), y), old(cpu.registers).f));
  }

  /** DEC r8 for B, C, D, E, H, L, A: the register shrinks by one modulo 256,
      Z and H are taken from the new value, N is set, C is kept. */
  method DecrementRegister(cpu: Cpu, opcode: Byte)
    requires cpu.Valid() && opcode < 0x40 && opcode % 8 == 5 && opcode != 0x35
    modifies cpu
    ensures cpu.Valid() && cpu.State() == Execute(old(cpu.State()), opcode)
  {
    DecodeDecrement(cpu.State(), opcode);
    var y := (opcode / 8) % 8;
    var name := Prefix.RegisterPointer(y).value;
    var value := (Get(cpu.registers, name) as int - 1) % 0x100;
    cpu.registers := Set(cpu.registers, name, value);
    cpu.registers := cpu.registers.(f := cpu.registers.f.(zero := value == 0, subtract := true));
    cpu.registers := cpu.registers.(f := cpu.registers.f.(halfCarry := value % 0x10 == 0xF));
    StepNamedRegister(old(cpu.State()), y, Decrement(Operand(old(cpu.State()), y), old(cpu.registers).f));
  }

  /** INC (HL): read, increment, write back, then set the flags. */
  method IncrementIndirect(cpu: Cpu, opcode: Byte)
    requires cpu.Valid() && opcode == 0x34
    modifies cpu, cpu.bus.memory
    ensures cpu.Valid() && cpu.State() == Execute(old(cpu.State()), opcode)
  {
    DecodeIncrement(cpu.State(), opcode);
    var n := cpu.bus.Read8(Read16(cpu.registers, HL));
    n := (n as int + 1) % 0x100;
    cpu.bus.Write8(Read16(cpu.registers, HL), n);
    cpu.registers := cpu.registers.(f := cpu.registers.f.(zero := n == 0, subtract := false, halfCarry := n % 0x10 == 0));
  }

  /** DEC (HL): read, decrement, write back, then set the flags. */
  method DecrementIndirect(cpu: Cpu, opcode: Byte)
    requires cpu.Valid() && opcode == 0x35
    modifies cpu, cpu.bus.memory
    ensures cpu.Valid() && cpu.State() == Execute(old(cpu.State()), opcode)
  {
    DecodeDecrement(cpu.State(), opcode);
    var n := cpu.bus.Read8(Read16(cpu.registers, HL));
    n := (n as int - 1) % 0x100;
    cpu.bus.Write8(Read16(cpu.registers, HL), n);
    cpu.registers := cpu.registers.(f := cpu.registers.f.(zero := n == 0, subtract := true, halfCarry := n % 0x10 == 0xF));
  }

  /** LD r8,n8 for B, C, D, E, H, L, A. */
  method LoadRegisterImmediate(cpu: Cpu, opcode: Byte)
    requires cpu.Valid() && opcode < 0x40 && opcode % 8 == 6 && opcode != 0x36
    modifies cpu
    ensures cpu.Valid() && cpu.State() == Execute(old(cpu.State()), opcode)
  {
    DecodeLoadImmediate(cpu.State(), opcode);
    var y := (opcode / 8) % 8;
    var name := Prefix.RegisterPointer(y).value;
    var n := cpu.FetchByte();
    cpu.registers := Set(cpu.registers, name, n);
    Prefix.RegisterPointerNamesOperand(Advanced(old(cpu.State()), 1), y, n);
  }

  /** LD (HL),n8 */
  method LoadIndirectImmediate(cpu: Cpu, opcode: Byte)
    requires cpu.Valid() && opcode == 0x36
    modifies cpu, cpu.bus.memory
    ensures cpu.Valid() && cpu.State() == Execute(old(cpu.State()), opcode)
  {
    DecodeLoadImmediate(cpu.State(), opcode);
    var n := cpu.FetchByte();
    cpu.bus.Write8(Read16(cpu.registers, HL), n);
  }

  /** RLCA: A rotated left; C from the new bit 0; Z, N, H cleared. */
  method RotateLeftCircularA(cpu: Cpu, opcode: Byte)
    requires cpu.Valid() && opcode == 0x07
    modifies cpu
    ensures cpu.Valid() && cpu.State() == Execute(old(cpu.State()), opcode)
  {
    var a := cpu.registers.a;
    cpu.registers := cpu.registers.(a := (2 * a as int) % 0x100 + a / 0x80);
    cpu.registers := cpu.registers.(f := cpu.registers.f.(zero := false, subtract := false, halfCarry := false));
    cpu.registers := cpu.registers.(f := cpu.registers.f.(carry := cpu.registers.a % 2 == 1));
  }

  /** RRCA: C from bit 0, then A rotated right; Z, N, H cleared. */
  method RotateRightCircularA(cpu: Cpu, opcode: Byte)
    requires cpu.Valid() && opcode == 0x0F
    modifies cpu
    ensures cpu.Valid() && cpu.State() == Execute(old(cpu.State()), opcode)
  {
    var a := cpu.registers.a;
    cpu.registers := cpu.registers.(f := cpu.registers.f.(carry := a % 2 == 1));
    cpu.registers := cpu.registers.(a := a / 2 + (a % 2) * 0x80);
    cpu.registers := cpu.registers.(f := cpu.registers.f.(zero := false, subtract := false, halfCarry := false));
  }

  /** RLA: A shifted left with the old C entering bit 0; C from old bit 7. */
  method RotateLeftA(cpu: Cpu, opcode: Byte)
    requires cpu.Valid() && opcode == 0x17
    modifies cpu
    ensures cpu.Valid() && cpu.State() == Execute(old(cpu.State()), opcode)
  {
    var n := cpu.registers.a / 0x80;
    cpu.registers := cpu.registers.(a := (2 * cpu.registers.a as int) % 0x100 + BoolBit(cpu.registers.f.carry));
    cpu.registers := cpu.registers.(f := cpu.registers.f.(zero := false, subtract := false, halfCarry := false));
    cpu.registers := cpu.registers.(f := cpu.registers.f.(carry := n == 1));
  }

  /** RRA: A shifted right with the old C entering bit 7; C from old bit 0. */
  method RotateRightA(cpu: Cpu, opcode: Byte)
    requires cpu.Valid() && opcode == 0x1F
    modifies cpu
    ensures cpu.Valid() && cpu.State() == Execute(old(cpu.State()), opcode)
  {
    var n := cpu.registers.a % 2;
    cpu.registers := cpu.registers.(a := cpu.registers.a / 2 + BoolBit(cpu.registers.f.carry) * 0x80);
    cpu.registers := cpu.registers.(f := cpu.registers.f.(zero := false, subtract := false, halfCarry := false));
    cpu.registers := cpu.registers.(f := cpu.registers.f.(carry := n == 1));
  }

  /** DAA, step by step as the emulator writes it. */
  method DecimalAdjustA(cpu: Cpu, opcode: Byte)
    requires cpu.Valid() && opcode == 0x27
    modifies cpu
    ensures cpu.Valid() && cpu.State() == Execute(old(cpu.State()), opcode)
  {
    if !cpu.registers.f.subtract {
      if cpu.registers.f.carry || cpu.registers.a > 0x99 {
        cpu.registers := cpu.registers.(a := Wrap8(cpu.registers.a as int + 0x60));
        cpu.registers := cpu.registers.(f := cpu.registers.f.(carry := true));
      }
      if cpu.registers.f.halfCarry || cpu.registers.a % 0x10 > 0x09 {
        cpu.registers := cpu.registers.(a := Wrap8(cpu.registers.a as int + 0x06));
      }
    } else if cpu.registers.f.carry {
      cpu.registers := cpu.registers.(a := Wrap8(cpu.registers.a as int - 0x60));
      if cpu.registers.f.halfCarry {
        cpu.registers := cpu.registers.(a := Wrap8(cpu.registers.a as int - 0x06));
      }
    } else if cpu.registers.f.halfCarry {
      cpu.registers := cpu.registers.(a := Wrap8(cpu.registers.a as int - 0x06));
    }
    cpu.registers := cpu.registers.(f := cpu.registers.f.(zero := cpu.registers.a == 0, halfCarry := false));
  }

  /** CPL: A complemented; N and H set. */
  method ComplementA(cpu: Cpu, opcode: Byte)
    requires cpu.Valid() && opcode == 0x2F
    modifies cpu
    ensures cpu.Valid() && cpu.State() == Execute(old(cpu.State()), opcode)
  {
    cpu.registers := cpu.registers.(a := Bits.Not8(cpu.registers.a));
    cpu.registers := cpu.registers.(f := cpu.registers.f.(subtract := true, halfCarry := true));
  }

  /** SCF: N and H cleared, C set. */
  method SetCarryFlag(cpu: Cpu, opcode: Byte)
    requires cpu.Valid() && opcode == 0x37
    modifies cpu
    ensures cpu.Valid() && cpu.State() == Execute(old(cpu.State()), opcode)
  {
    cpu.registers := cpu.registers.(f := cpu.registers.f.(subtract := false, halfCarry := false, carry := true));
  }

  /** CCF: N and H cleared, C inverted. */
  method ComplementCarryFlag(cpu: Cpu, opcode: Byte)
    requires cpu.Valid() && opcode == 0x3F
    modifies cpu
    ensures cpu.Valid() && cpu.State() == Execute(old(cpu.State()), opcode)
  {
    cpu.registers := cpu.registers.(f := cpu.registers.f.(subtract := false, halfCarry := false, carry := !cpu.registers.f.carry));
  }

  /** LD (a16),SP: SP stored little-endian at the immediate address. */
  method StoreSp(cpu: Cpu, opcode: Byte)
    requires cpu.Valid() && opcode == 0x08
    modifies cpu, cpu.bus.memory
    ensures cpu.Valid() && cpu.State() == Execute(old(cpu.State()), opcode)
  {
    var nn := cpu.FetchWord();
    cpu.bus.Write16(nn, cpu.registers.sp);
  }

  /** ADD HL,BC / ADD HL,DE / ADD HL,SP: the sum in 32 bits; N cleared, H
      from bit 11, C from bit 15; Z kept. */
  method AddHlPair(cpu: Cpu, opcode: Byte)
    requires cpu.Valid() && opcode in {0x09, 0x19, 0x39}
    modifies cpu
    ensures cpu.Valid() && cpu.State() == Execute(old(cpu.State()), opcode)
  {
    DecodeAddHl(cpu.State(), opcode);
    var hl := Read16(cpu.registers, HL);
    var v := if opcode == 0x09 then Read16(cpu.registers, BC)
             else if opcode == 0x19 then Read16(cpu.registers, DE)
             else cpu.registers.sp;
    var result := hl as int + v;
    cpu.registers := cpu.registers.(f := cpu.registers.f.(subtract := false));
    cpu.registers := cpu.registers.(f := cpu.registers.f.(halfCarry := hl % 0x1000 + v % 0x1000 > 0xFFF));
    cpu.registers := cpu.registers.(f := cpu.registers.f.(carry := result > 0xFFFF));
    cpu.WriteRegister16(HL, result % 0x1_0000);
  }

  /** ADD HL,HL, which the emulator computes as a doubling. */
  method AddHlHl(cpu: Cpu, opcode: Byte)
    requires cpu.Valid() && opcode == 0x29
    modifies cpu
    ensures cpu.Valid() && cpu.State() == Execute(old(cpu.State()), opcode)
  {
    DecodeAddHl(cpu.State(), opcode);
    var result := Read16(cpu.registers, HL) as int * 2;
    cpu.registers := cpu.registers.(f := cpu.registers.f.(subtract := false));
    cpu.registers := cpu.registers.(f := cpu.registers.f.(halfCarry := (Read16(cpu.registers, HL) % 0x1000) * 2 > 0xFFF));
    cpu.registers := cpu.registers.(f := cpu.registers.f.(carry := result > 0xFFFF));
    cpu.WriteRegister16(HL, result % 0x1_0000);
  }

  /** JR e8: the signed offset is added to PC in sixteen bits. */
  method JumpRelative(cpu: Cpu, opcode: Byte)
    requires cpu.Valid() && opcode == 0x18
    modifies cpu
    ensures cpu.Valid() && cpu.State() == Execute(old(cpu.State()), opcode)
  {
    DecodeRelativeJump(cpu.State(), opcode);
    var n := cpu.FetchByte();
    var sn := Signed(n);
    cpu.registers := cpu.registers.(pc := (cpu.registers.pc + sn) % 0x1_0000);
  }

  /** JR NZ / JR Z / JR NC / JR C: the offset is always consumed, and added
      only when the condition holds. */
  method JumpRelativeIf(cpu: Cpu, opcode: Byte)
    requires cpu.Valid() && opcode in {0x20, 0x28, 0x30, 0x38}
    modifies cpu
    ensures cpu.Valid() && cpu.State() == Execute(old(cpu.State()), opcode)
  {
    DecodeRelativeJump(cpu.State(), opcode);
    var taken := TestCondition(cpu, opcode);
    JumpRelativeWhen(cpu, taken);
  }

  /** The body of a JR cc case: consume the offset, and add it to PC when
      the condition held. */
  method JumpRelativeWhen(cpu: Cpu, taken: bool)
    requires cpu.Valid()
    modifies cpu
    ensures cpu.Valid() && cpu.State() == RelativeJump(old(cpu.State()), taken)
  {
    var n := cpu.FetchByte();
    var sn := Signed(n);
    if taken {
      cpu.registers := cpu.registers.(pc := (cpu.registers.pc + sn) % 0x1_0000);
    }
  }

  // ---------------------------------------------------------------------
  // Opcodes 0x40..0xBF

  /** LD r,r' (0x40..0x7F): the source operand from bits 2..0, the
      destination from bits 5..3. HALT (0x76), in the place LD (HL),(HL)
      would take, only latches `halted`. */
  method Load(cpu: Cpu, opcode: Byte)
    requires cpu.Valid() && 0x40 <= opcode < 0x80
    modifies cpu, cpu.bus.memory
    ensures cpu.Valid() && cpu.State() == Execute(old(cpu.State()), opcode)
  {
    DecodeLoad(cpu.State(), opcode);
    if opcode == 0x76 {
      cpu.halted := true;
      return;
    }
    var value := ReadOperand(cpu, opcode % 8);
    WriteOperand(cpu, (opcode / 8) % 8, value);
  }

  /** ADD, ADC, SUB, SBC, AND, XOR, OR, CP with an operand (0x80..0xBF). */
  method AccumulateOperand(cpu: Cpu, opcode: Byte)
    requires cpu.Valid() && 0x80 <= opcode < 0xC0
    modifies cpu
    ensures cpu.Valid() && cpu.State() == Execute(old(cpu.State()), opcode)
  {
    DecodeArithmetic(cpu.State(), opcode);
    var value := ReadOperand(cpu, opcode % 8);
    AccumulateValue(cpu, (opcode / 8) % 8, value);
  }

  // ---------------------------------------------------------------------
  // Opcodes 0xC0..0xFF

  /** RET NZ / RET Z / RET NC / RET C */
  method ReturnIf(cpu: Cpu, opcode: Byte)
    requires cpu.Valid() && opcode in {0xC0, 0xC8, 0xD0, 0xD8}
    modifies cpu
    ensures cpu.Valid() && cpu.State() == Execute(old(cpu.State()), opcode)
  {
    DecodeReturnIf(cpu.State(), opcode);
    var taken := TestCondition(cpu, opcode);
    if taken {
      ReturnFromStack(cpu);
    }
  }

  /** POP BC / POP DE / POP HL: low register first, then high, each with
      `sp++`. */
  method PopPair(cpu: Cpu, opcode: Byte)
    requires cpu.Valid() && opcode in {0xC1, 0xD1, 0xE1}
    modifies cpu
    ensures cpu.Valid() && cpu.State() == Execute(old(cpu.State()), opcode)
  {
    PopPairBytes(cpu.State(), opcode);
    var p := (opcode - 0xC0) / 0x10;
    var (high, low) := Halves(p);
    var lo := cpu.PopByte();
    cpu.registers := Set(cpu.registers, low, lo);
    var hi := cpu.PopByte();
    cpu.registers := Set(cpu.registers, high, hi);
  }

  /** POP BC, DE or HL byte by byte: the low register takes the byte at SP,
      the high register the byte after it, SP moving past each. */
  lemma PopPairBytes(s: CpuState, opcode: Byte)
    requires opcode in {0xC1, 0xD1, 0xE1}
    ensures var (high, low) := Halves((opcode - 0xC0) / 0x10);
      var once := s.regs.(sp := Next(s.regs.sp));
      var first := Set(once, low, s.mem[s.regs.sp]);
      var twice := first.(sp := Next(first.sp));
      Execute(s, opcode) == s.(regs := Set(twice, high, s.mem[Next(s.regs.sp)]))
  {
    DecodePop(s, opcode);
    var p := (opcode - 0xC0) / 0x10;
    NextTwice(s.regs.sp);
    WritePairHalves(s.regs.(sp := Next(Next(s.regs.sp))), p, s.mem[Next(s.regs.sp)], s.mem[s.regs.sp]);
  }

  /** POP AF: the flags byte first, then A; each flag from its bit of the
      flags byte. */
  method PopAf(cpu: Cpu, opcode: Byte)
    requires cpu.Valid() && opcode == 0xF1
    modifies cpu
    ensures cpu.Valid() && cpu.State() == Execute(old(cpu.State()), opcode)
  {
    DecodePop(cpu.State(), opcode);
    var flags := cpu.PopByte();
    var a := cpu.PopByte();
    cpu.registers := cpu.registers.(a := a);
    cpu.registers := cpu.registers.(f := Flags((flags / 0x80) % 2 == 1, (flags / 0x40) % 2 == 1,
                                               (flags / 0x20) % 2 == 1, (flags / 0x10) % 2 == 1));
    NextTwice(old(cpu.registers).sp);
    PairHalves(a, flags);
  }

  /** JP NZ,a16 / JP Z,a16 / JP NC,a16 / JP C,a16: the address is always
      consumed, and jumped to only when the condition holds. */
  method JumpIf(cpu: Cpu, opcode: Byte)
    requires cpu.Valid() && opcode in {0xC2, 0xCA, 0xD2, 0xDA}
    modifies cpu
    ensures cpu.Valid() && cpu.State() == Execute(old(cpu.State()), opcode)
  {
    DecodeJumpIf(cpu.State(), opcode);
    var nn := cpu.FetchWord();
    var taken := TestCondition(cpu, opcode);
    if taken {
      cpu.registers := cpu.registers.(pc := nn);
    }
  }

  /** JP a16: PC replaced by the word at PC. */
  method JumpAbsolute(cpu: Cpu, opcode: Byte)
    requires cpu.Valid() && opcode == 0xC3
    modifies cpu
    ensures cpu.Valid() && cpu.State() == Execute(old(cpu.State()), opcode)
  {
    var nn := cpu.bus.Read16(cpu.registers.pc);
    cpu.registers := cpu.registers.(pc := nn);
  }

  /** CALL NZ,a16 / CALL Z,a16 / CALL NC,a16 / CALL C,a16: the address is
      always consumed; when the condition holds, the address after the
      instruction is pushed and PC takes the target. */
  method CallIf(cpu: Cpu, opcode: Byte)
    requires cpu.Valid() && opcode in {0xC4, 0xCC, 0xD4, 0xDC}
    modifies cpu, cpu.bus.memory
    ensures cpu.Valid() && cpu.State() == Execute(old(cpu.State()), opcode)
  {
    DecodeCallIf(cpu.State(), opcode);
    var nn := cpu.FetchWord();
    var taken := TestCondition(cpu, opcode);
    if taken {
      PushWord(cpu, cpu.registers.pc);
      cpu.registers := cpu.registers.(pc := nn);
    }
  }

  /** PUSH BC / PUSH DE / PUSH HL: SP down by two, the pair stored there. */
  method PushPair(cpu: Cpu, opcode: Byte)
    requires cpu.Valid() && opcode in {0xC5, 0xD5, 0xE5}
    modifies cpu, cpu.bus.memory
    ensures cpu.Valid() && cpu.State() == Execute(old(cpu.State()), opcode)
  {
    DecodePush(cpu.State(), opcode);
    var name := if opcode == 0xC5 then BC else if opcode == 0xD5 then DE else HL;
    PushWord(cpu, Read16(cpu.registers, name));
  }

  /** PUSH AF: SP down by two; the flags packed into a byte go to SP and A
      to SP + 1. */
  method PushAf(cpu: Cpu, opcode: Byte)
    requires cpu.Valid() && opcode == 0xF5
    modifies cpu, cpu.bus.memory
    ensures cpu.Valid() && cpu.State() == Execute(old(cpu.State()), opcode)
  {
    DecodePush(cpu.State(), opcode);
    cpu.registers := cpu.registers.(sp := (cpu.registers.sp as int - 2) % MemorySize);
    var f := cpu.registers.f;
    var flags := BoolBit(f.zero) * 0x80 + BoolBit(f.subtract) * 0x40 + BoolBit(f.halfCarry) * 0x20 + BoolBit(f.carry) * 0x10;
    cpu.bus.Write8(cpu.registers.sp, flags);
    cpu.bus.Write8(Next(cpu.registers.sp), cpu.registers.a);
    PairHalves(cpu.registers.a, flags);
  }

  /** ADD, ADC, SUB, SBC, AND, XOR, OR, CP with an immediate byte (0xC6,
      0xCE, ..., 0xFE). */
  method AccumulateImmediate(cpu: Cpu, opcode: Byte)
    requires cpu.Valid() && opcode >= 0xC0 && opcode % 8 == 6
    modifies cpu
    ensures cpu.Valid() && cpu.State() == Execute(old(cpu.State()), opcode)
  {
    DecodeArithmeticImmediate(cpu.State(), opcode);
    var n := cpu.FetchByte();
    AccumulateValue(cpu, (opcode / 8) % 8, n);
  }

  /** RST 00H ... RST 38H: PC pushed, then replaced by the vector. */
  method Restart(cpu: Cpu, opcode: Byte)
    requires cpu.Valid() && opcode >= 0xC0 && opcode % 8 == 7
    modifies cpu, cpu.bus.memory
    ensures cpu.Valid() && cpu.State() == Execute(old(cpu.State()), opcode)
  {
    DecodeRestart(cpu.State(), opcode);
    PushWord(cpu, cpu.registers.pc);
    cpu.registers := cpu.registers.(pc := opcode - 0xC7);
  }

  /** RET: PC popped a byte at a time, low byte first. */
  method ReturnAlways(cpu: Cpu, opcode: Byte)
    requires cpu.Valid() && opcode == 0xC9
    modifies cpu
    ensures cpu.Valid() && cpu.State() == Execute(old(cpu.State()), opcode)
  {
    var lo := cpu.PopByte();
    var hi := cpu.PopByte();
    cpu.registers := cpu.registers.(pc := Pair(hi, lo));
    NextTwice(old(cpu.registers).sp);
  }

  /** RETI: RET, then IME set. */
  method ReturnEnable(cpu: Cpu, opcode: Byte)
    requires cpu.Valid() && opcode == 0xD9
    modifies cpu
    ensures cpu.Valid() && cpu.State() == Execute(old(cpu.State()), opcode)
  {
    ReturnFromStack(cpu);
    cpu.ime := true;
  }

  /** PREFIX CB: the next byte is fetched and run as a CB-prefixed opcode,
      and the cycle count of the instruction becomes its entry in the CB
      cycle table. */
  method PrefixCb(cpu: Cpu, opcode: Byte)
    requires cpu.Valid() && opcode == 0xCB
    modifies cpu, cpu.bus.memory
    ensures cpu.Valid() && cpu.State() == Execute(old(cpu.State()), opcode)
  {
    var n := cpu.FetchByte();
    Prefix.PrefixInstructionExecute(cpu, n);
    cpu.counter := CbOpTcycles(n);
  }

  /** CALL a16: the address after the instruction pushed, PC the target. */
  method CallAbsolute(cpu: Cpu, opcode: Byte)
    requires cpu.Valid() && opcode == 0xCD
    modifies cpu, cpu.bus.memory
    ensures cpu.Valid() && cpu.State() == Execute(old(cpu.State()), opcode)
  {
    var nn := cpu.FetchWord();
    PushWord(cpu, cpu.registers.pc);
    cpu.registers := cpu.registers.(pc := nn);
  }

  /** LDH (a8),A: A stored at 0xFF00 plus the immediate byte. */
  method StoreHigh(cpu: Cpu, opcode: Byte)
    requires cpu.Valid() && opcode == 0xE0
    modifies cpu, cpu.bus.memory
    ensures cpu.Valid() && cpu.State() == Execute(old(cpu.State()), opcode)
  {
    var n := cpu.FetchByte();
    cpu.bus.Write8(0xFF00 + n as int, cpu.registers.a);
  }

  /** LDH A,(a8): A loaded from 0xFF00 plus the immediate byte. */
  method LoadHigh(cpu: Cpu, opcode: Byte)
    requires cpu.Valid() && opcode == 0xF0
    modifies cpu
    ensures cpu.Valid() && cpu.State() == Execute(old(cpu.State()), opcode)
  {
    var n := cpu.FetchByte();
    var a := cpu.bus.Read8(0xFF00 + n as int);
    cpu.registers := cpu.registers.(a := a);
  }

  /** LD (C),A: A stored at 0xFF00 plus C. */
  method StoreHighC(cpu: Cpu, opcode: Byte)
    requires cpu.Valid() && opcode == 0xE2
    modifies cpu.bus.memory
    ensures cpu.Valid() && cpu.State() == Execute(old(cpu.State()), opcode)
  {
    cpu.bus.Write8(0xFF00 + cpu.registers.c, cpu.registers.a);
  }

  /** LD A,(C): A loaded from 0xFF00 plus C. */
  method LoadHighC(cpu: Cpu, opcode: Byte)
    requires cpu.Valid() && opcode == 0xF2
    modifies cpu
    ensures cpu.Valid() && cpu.State() == Execute(old(cpu.State()), opcode)
  {
    var a := cpu.bus.Read8(0xFF00 + cpu.registers.c);
    cpu.registers := cpu.registers.(a := a);
  }

  /** ADD SP,e8: SP plus the signed offset; Z and N cleared, H and C from
      the low nibble and the low byte. */
  method AddSpOffset(cpu: Cpu, opcode: Byte)
    requires cpu.Valid() && opcode == 0xE8
    modifies cpu
    ensures cpu.Valid() && cpu.State() == Execute(old(cpu.State()), opcode)
  {
    DecodeAddOffset(cpu.State(), opcode);
    var n := cpu.FetchByte();
    var sn := Signed(n);
    SignedLowBits(n);
    var sp := cpu.registers.sp;
    var result := sp + sn;
    cpu.registers := cpu.registers.(f := cpu.registers.f.(zero := false, subtract := false));
    cpu.registers := cpu.registers.(f := cpu.registers.f.(halfCarry := sp % 0x10 + sn % 0x10 > 0xF));
    cpu.registers := cpu.registers.(f := cpu.registers.f.(carry := sp % 0x100 + sn % 0x100 > 0xFF));
    cpu.registers := cpu.registers.(sp := result % 0x1_0000);
  }

  /** LD HL,SP+e8: the same sum and flags as ADD SP,e8, written to HL. */
  method LoadHlSpOffset(cpu: Cpu, opcode: Byte)
    requires cpu.Valid() && opcode == 0xF8
    modifies cpu
    ensures cpu.Valid() && cpu.State() == Execute(old(cpu.State()), opcode)
  {
    DecodeAddOffset(cpu.State(), opcode);
    var n := cpu.FetchByte();
    var sn := Signed(n);
    SignedLowBits(n);
    var sp := cpu.registers.sp;
    var result := sp + sn;
    cpu.registers := cpu.registers.(f := cpu.registers.f.(zero := false, subtract := false));
    cpu.registers := cpu.registers.(f := cpu.registers.f.(halfCarry := sp % 0x10 + sn % 0x10 > 0xF));
    cpu.registers := cpu.registers.(f := cpu.registers.f.(carry := sp % 0x100 + sn % 0x100 > 0xFF));
    cpu.WriteRegister16(HL, result % 0x1_0000);
  }

  /** JP (HL): PC takes HL. */
  method JumpHl(cpu: Cpu, opcode: Byte)
    requires cpu.Valid() && opcode == 0xE9
    modifies cpu
    ensures cpu.Valid() && cpu.State() == Execute(old(cpu.State()), opcode)
  {
    DecodeJumpHl(cpu.State());
    cpu.registers := cpu.registers.(pc := Read16(cpu.registers, HL));
  }

  /** LD SP,HL */
  method LoadSpHl(cpu: Cpu, opcode: Byte)
    requires cpu.Valid() && opcode == 0xF9
    modifies cpu
    ensures cpu.Valid() && cpu.State() == Execute(old(cpu.State()), opcode)
  {
    cpu.registers := cpu.registers.(sp := Read16(cpu.registers, HL));
  }

  /** LD (a16),A */
  method StoreAbsolute(cpu: Cpu, opcode: Byte)
    requires cpu.Valid() && opcode == 0xEA
    modifies cpu, cpu.bus.memory
    ensures cpu.Valid() && cpu.State() == Execute(old(cpu.State()), opcode)
  {
    var nn := cpu.FetchWord();
    cpu.bus.Write8(nn, cpu.registers.a);
  }

  /** LD A,(a16) */
  method LoadAbsolute(cpu: Cpu, opcode: Byte)
    requires cpu.Valid() && opcode == 0xFA
    modifies cpu
    ensures cpu.Valid() && cpu.State() == Execute(old(cpu.State()), opcode)
  {
    var nn := cpu.FetchWord();
    var a := cpu.bus.Read8(nn);
    cpu.registers := cpu.registers.(a := a);
  }

  /** DI (0xF3) clears IME; EI (0xFB) sets it, with no delay. */
  method SetInterruptsEnabled(cpu: Cpu, opcode: Byte)
    requires cpu.Valid() && opcode in {0xF3, 0xFB}
    modifies cpu
    ensures cpu.Valid() && cpu.State() == Execute(old(cpu.State()), opcode)
  {
    cpu.ime := opcode == 0xFB;
  }

  /** The opcodes the switch has no case for fall out of it untouched. */
  method Unassigned(cpu: Cpu, opcode: Byte)
    requires cpu.Valid() && Unused(opcode)
    ensures cpu.State() == Execute(cpu.State(), opcode)
  {
    DecodeUnused(cpu.State(), opcode);
  }

  // ---------------------------------------------------------------------
  // The dispatch

  /** The cases for 0x00..0x3F, selected by the low nibble the way the four
      inner switches of the emulator do. */
  method ExecuteBlock0(cpu: Cpu, opcode: Byte)
    requires cpu.Valid() && opcode < 0x40
    modifies cpu, cpu.bus.memory
    ensures cpu.Valid() && cpu.State() == Execute(old(cpu.State()), opcode)
  {
    var low := opcode % 0x10;
    if low == 0x0 {
      if opcode < 0x20 {
        NoOperation(cpu, opcode);
      } else {
        JumpRelativeIf(cpu, opcode);
      }
    } else if low == 0x1 {
      if opcode == 0x31 {
        LoadSpImmediate(cpu, opcode);
      } else {
        LoadPairImmediate(cpu, opcode);
      }
    } else if low == 0x2 {
      StoreAIndirect(cpu, opcode);
    } else if low == 0x3 {
      if opcode == 0x33 {
        StepSp(cpu, opcode);
      } else {
        IncrementPair(cpu, opcode);
      }
    } else if low == 0x4 || low == 0xC {
      if opcode == 0x34 {
        IncrementIndirect(cpu, opcode);
      } else {
        IncrementRegister(cpu, opcode);
      }
    } else if low == 0x5 || low == 0xD {
      if opcode == 0x35 {
        DecrementIndirect(cpu, opcode);
      } else {
        DecrementRegister(cpu, opcode);
      }
    } else if low == 0x6 || low == 0xE {
      if opcode == 0x36 {
        LoadIndirectImmediate(cpu, opcode);
      } else {
        LoadRegisterImmediate(cpu, opcode);
      }
    } else if low == 0x7 {
      if opcode == 0x07 {
        RotateLeftCircularA(cpu, opcode);
      } else if opcode == 0x17 {
        RotateLeftA(cpu, opcode);
      } else if opcode == 0x27 {
        DecimalAdjustA(cpu, opcode);
      } else {
        SetCarryFlag(cpu, opcode);
      }
    } else if low == 0x8 {
      if opcode == 0x08 {
        StoreSp(cpu, opcode);
      } else if opcode == 0x18 {
        JumpRelative(cpu, opcode);
      } else {
        JumpRelativeIf(cpu, opcode);
      }
    } else if low == 0x9 {
      if opcode == 0x29 {
        AddHlHl(cpu, opcode);
      } else {
        AddHlPair(cpu, opcode);
      }
    } else if low == 0xA {
      LoadAIndirect(cpu, opcode);
    } else if low == 0xB {
      if opcode == 0x3B {
        StepSp(cpu, opcode);
      } else {
        DecrementPair(cpu, opcode);
      }
    } else {
      if opcode == 0x0F {
        RotateRightCircularA(cpu, opcode);
      } else if opcode == 0x1F {
        RotateRightA(cpu, opcode);
      } else if opcode == 0x2F {
        ComplementA(cpu, opcode);
      } else {
        ComplementCarryFlag(cpu, opcode);
      }
    }
  }

  /** The cases for 0xC0..0xFF, selected by the low nibble; the eleven
      opcodes without a case fall through. */
  method ExecuteBlock3(cpu: Cpu, opcode: Byte)
    requires cpu.Valid() && opcode >= 0xC0
    modifies cpu, cpu.bus.memory
    ensures cpu.Valid() && cpu.State() == Execute(old(cpu.State()), opcode)
  {
    var low := opcode % 0x10;
    if Unused(opcode) {
      Unassigned(cpu, opcode);
    } else if low == 0x6 || low == 0xE {
      AccumulateImmediate(cpu, opcode);
    } else if low == 0x7 || low == 0xF {
      Restart(cpu, opcode);
    } else if low == 0x0 || low == 0x8 {
      if opcode < 0xE0 {
        ReturnIf(cpu, opcode);
      } else if opcode == 0xE0 {
        StoreHigh(cpu, opcode);
      } else if opcode == 0xF0 {
        LoadHigh(cpu, opcode);
      } else if opcode == 0xE8 {
        AddSpOffset(cpu, opcode);
      } else {
        LoadHlSpOffset(cpu, opcode);
      }
    } else if low == 0x1 {
      if opcode == 0xF1 {
        PopAf(cpu, opcode);
      } else {
        PopPair(cpu, opcode);
      }
    } else if low == 0x2 || low == 0xA {
      if opcode < 0xE0 {
        JumpIf(cpu, opcode);
      } else if opcode == 0xE2 {
        StoreHighC(cpu, opcode);
      } else if opcode == 0xF2 {
        LoadHighC(cpu, opcode);
      } else if opcode == 0xEA {
        StoreAbsolute(cpu, opcode);
      } else {
        LoadAbsolute(cpu, opcode);
      }
    } else if low == 0x3 || low == 0xB {
      if opcode == 0xC3 {
        JumpAbsolute(cpu, opcode);
      } else if opcode == 0xCB {
        PrefixCb(cpu, opcode);
      } else {
        SetInterruptsEnabled(cpu, opcode);
      }
    } else if low == 0x4 || low == 0xC {
      CallIf(cpu, opcode);
    } else if low == 0x5 {
      if opcode == 0xF5 {
        PushAf(cpu, opcode);
      } else {
        PushPair(cpu, opcode);
      }
    } else if low == 0x9 {
      if opcode == 0xC9 {
        ReturnAlways(cpu, opcode);
      } else if opcode == 0xD9 {
        ReturnEnable(cpu, opcode);
      } else if opcode == 0xE9 {
        JumpHl(cpu, opcode);
      } else {
        LoadSpHl(cpu, opcode);
      }
    } else {
      CallAbsolute(cpu, opcode);
    }
  }

  /** `instruction_execute`: the switch on the high nibble of the opcode. */
  method InstructionExecute(cpu: Cpu, opcode: Byte)
    requires cpu.Valid()
    modifies cpu, cpu.bus.memory
    ensures cpu.Valid() && cpu.State() == Execute(old(cpu.State()), opcode)
  {
    if opcode < 0x40 {
      ExecuteBlock0(cpu, opcode);
    } else if opcode < 0x80 {
      Load(cpu, opcode);
    } else if opcode < 0xC0 {
      AccumulateOperand(cpu, opcode);
    } else {
      ExecuteBlock3(cpu, opcode);
    }
  }
}
