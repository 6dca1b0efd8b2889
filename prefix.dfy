/**
  The CB-prefixed instructions (`prefix_instruction_execute`). Bits 2..0 of
  the opcode name the operand (B, C, D, E, H, L, the byte at HL, A), bits
  5..3 a bit position or a shift kind, and bits 7..6 the group: shifts and
  rotates, BIT, RES, SET.
*/
module Prefix {
  import opened Registers
  import opened Bus
  import opened Cpu
  import opened Alu
  import Bits

  datatype Option<T> = None | Some(value: T)

  /** `get_register_pointer`: indices 0..5 and 7 point at B, C, D, E, H, L,
      A; index 6 (the byte at HL) and anything above 7 give NULL. */
  function RegisterPointer(index: nat): (p: Option<Register8>)
    ensures p.None? <==> index == 6 || index > 7
  {
    match index
    case 0 => Some(B)
    case 1 => Some(C)
    case 2 => Some(D)
    case 3 => Some(E)
    case 4 => Some(H)
    case 5 => Some(L)
    case 7 => Some(A)
    case _ => None
  }

  /** The register a non-NULL pointer designates is the operand the opcode
      field names. */
  lemma RegisterPointerNamesOperand(s: CpuState, index: nat, value: Byte)
    requires index < 8 && index != 6
    ensures RegisterPointer(index).Some?
    ensures Get(s.regs, RegisterPointer(index).value) == Operand(s, index)
    ensures WithOperand(s, index, value) == s.(regs := Set(s.regs, RegisterPointer(index).value, value))
  {
  }

  /** The effect of one CB-prefixed opcode on the machine state. */
  function PrefixExecute(s: CpuState, opcode: Byte): CpuState
  {
    var index := opcode % 8;
    var bit := (opcode / 8) % 8;
    var value := Operand(s, index);
    var f := s.regs.f;
    match opcode / 0x40
    case 0 =>
      var r := ShiftOperation(opcode / 8, value, f.carry);
      WithOperand(s.(regs := s.regs.(f := Flags(r.value == 0, false, false, r.out))), index, r.value)
    case 1 =>
      s.(regs := s.regs.(f := f.(zero := Bits.And8(value, Bits.Mask(bit)) == 0, subtract := false, halfCarry := true)))
    case 2 =>
      WithOperand(s, index, Bits.And8(value, Bits.Not8(Bits.Mask(bit))))
    case 3 =>
      WithOperand(s, index, Bits.Or8(value, Bits.Mask(bit)))
  }

  /** The inner switch on bits 5..3 of opcodes 0x00..0x3F: the rotated or
      shifted byte and the bit that goes to C. */
  method Shift(kind: nat, value: Byte, carry: bool) returns (shifted: Shifted)
    requires kind < 8
    ensures shifted == ShiftOperation(kind, value, carry)
  {
    if kind == 0 {
      shifted := RotateLeftCircular(value);
    } else if kind == 1 {
      shifted := RotateRightCircular(value);
    } else if kind == 2 {
      shifted := RotateLeft(value, carry);
    } else if kind == 3 {
      shifted := RotateRight(value, carry);
    } else if kind == 4 {
      shifted := ShiftLeft(value);
    } else if kind == 5 {
      shifted := ShiftRightArithmetic(value);
    } else if kind == 6 {
      shifted := Swap(value);
    } else {
      shifted := ShiftRightLogical(value);
    }
  }

  /** The operand load of `prefix_instruction_execute`: the byte at HL for
      index 6, otherwise the register the pointer designates. */
  method LoadOperand(cpu: Cpu, regIndex: nat) returns (value: Byte)
    requires cpu.Valid() && regIndex < 8
    ensures value == Operand(cpu.State(), regIndex)
  {
    if regIndex == 6 {
      value := cpu.bus.Read8(Read16(cpu.registers, HL));
    } else {
      var regPtr := RegisterPointer(regIndex);
      RegisterPointerNamesOperand(cpu.State(), regIndex, 0);
      value := Get(cpu.registers, regPtr.value);
    }
  }

  /** The write-back of `prefix_instruction_execute`: to the byte at HL for
      index 6, otherwise through the register pointer. */
  method StoreOperand(cpu: Cpu, regIndex: nat, value: Byte)
    requires cpu.Valid() && regIndex < 8
    modifies cpu, cpu.bus.memory
    ensures cpu.Valid() && cpu.State() == WithOperand(old(cpu.State()), regIndex, value)
  {
    if regIndex == 6 {
      cpu.bus.Write8(Read16(cpu.registers, HL), value);
    } else {
      var regPtr := RegisterPointer(regIndex);
      RegisterPointerNamesOperand(cpu.State(), regIndex, value);
      cpu.registers := Set(cpu.registers, regPtr.value, value);
    }
  }

  /** `prefix_instruction_execute`: load the operand through the register
      pointer or from the byte at HL, compute, set the flags, and write the
      result back the same way (BIT writes nothing back). */
  method PrefixInstructionExecute(cpu: Cpu, opcode: Byte)
    requires cpu.Valid()
    modifies cpu, cpu.bus.memory
    ensures cpu.Valid() && cpu.State() == PrefixExecute(old(cpu.State()), opcode)
  {
    var regIndex := opcode % 8;
    var bitIndex := (opcode / 8) % 8;
    var value := LoadOperand(cpu, regIndex);

    var group := opcode / 0x40;
    if group == 0 {
      var shifted := Shift(opcode / 8, value, cpu.registers.f.carry);
      value := shifted.value;
      cpu.registers := cpu.registers.(f := cpu.registers.f.(carry := shifted.out));
      cpu.registers := cpu.registers.(f := cpu.registers.f.(zero := value == 0, subtract := false, halfCarry := false));
    } else if group == 1 {
      cpu.registers := cpu.registers.(f := cpu.registers.f.(zero := Bits.And8(value, Bits.Mask(bitIndex)) == 0));
      cpu.registers := cpu.registers.(f := cpu.registers.f.(subtract := false, halfCarry := true));
      return;
    } else if group == 2 {
      value := Bits.And8(value, Bits.Not8(Bits.Mask(bitIndex)));
    } else {
      value := Bits.Or8(value, Bits.Mask(bitIndex));
    }

    StoreOperand(cpu, regIndex, value);
  }

  /** RES b clears bit b of the operand and SET b sets it; every other bit
      of the operand, the flags, and every other register keep their
      values. */
  lemma ResetAndSetBit(s: CpuState, opcode: Byte)
    requires opcode >= 0x80
    ensures var index, b := opcode % 8, (opcode / 8) % 8;
      var s' := PrefixExecute(s, opcode);
      var before, after := Operand(s, index), Operand(s', index);
      (Bits.Bit(after, b) <==> opcode >= 0xC0)
      && (forall i :: i != b ==> (Bits.Bit(after, i) <==> Bits.Bit(before, i)))
      && s'.regs.f == s.regs.f && s'.regs.pc == s.regs.pc && s'.regs.sp == s.regs.sp
  {
    var index, b := opcode % 8, (opcode / 8) % 8;
    var v := Operand(s, index);
    var after := Operand(PrefixExecute(s, opcode), index);
    forall i
      ensures Bits.Bit(after, i) <==> (if i == b then opcode >= 0xC0 else Bits.Bit(v, i))
    {
      Bits.Pow2Bit(b, i);
      if opcode < 0xC0 {
        if i < 8 {
          Bits.NotBit(Bits.Pow2(b), i);
        } else {
          Bits.Pow2Of8();
          Bits.BitAbove(v, 8, i);
        }
      }
    }
  }

  /** BIT b sets Z exactly when bit b of the operand is 0, clears N, sets H,
      keeps C, and writes nothing: registers other than F and all of memory
      are unchanged. */
  lemma TestBit(s: CpuState, opcode: Byte)
    requires 0x40 <= opcode < 0x80
    ensures var b := (opcode / 8) % 8;
      var s' := PrefixExecute(s, opcode);
      (s'.regs.f.zero <==> !Bits.Bit(Operand(s, opcode % 8), b))
      && !s'.regs.f.subtract && s'.regs.f.halfCarry && s'.regs.f.carry == s.regs.f.carry
      && s' == s.(regs := s.regs.(f := s'.regs.f))
  {
    var b := (opcode / 8) % 8;
    var v := Operand(s, opcode % 8);
    var m := Bits.And8(v, Bits.Mask(b));
    if Bits.Bit(v, b) {
      Bits.Pow2Bit(b, b);
      Bits.ZeroHasNoBits(b);
      assert Bits.Bit(m, b);
    } else {
      Bits.Pow2Of8();
      forall i | 0 <= i < 8
        ensures Bits.Bit(m, i) <==> Bits.Bit(0, i)
      {
        Bits.Pow2Bit(b, i);
        Bits.ZeroHasNoBits(i);
      }
      Bits.BitsDetermine(m, 0, 8);
    }
  }

  /** The shifts, rotates and SWAP (opcodes 0x00..0x3F) set Z exactly when
      the result is 0, clear N and H, put the bit shifted out into C (0 for
      SWAP), and store the result back into the operand. */
  lemma ShiftFlags(s: CpuState, opcode: Byte)
    requires opcode < 0x40
    ensures var index := opcode % 8;
      var s' := PrefixExecute(s, opcode);
      var r := ShiftOperation(opcode / 8, Operand(s, index), s.regs.f.carry);
      Operand(s', index) == r.value
      && s'.regs.f == Flags(r.value == 0, false, false, r.out)
      && s'.regs.pc == s.regs.pc && s'.regs.sp == s.regs.sp
      && (opcode / 8 == 6 ==> !s'.regs.f.carry)
  {
  }

  /** RLC followed by RRC on the same operand gives the operand back. */
  lemma RotateLeftThenRightCircular(s: CpuState, index: nat)
    requires index < 8
    ensures var s1 := PrefixExecute(s, index as Byte);
      Operand(PrefixExecute(s1, (0x08 + index) as Byte), index) == Operand(s, index)
  {
    var s1 := PrefixExecute(s, index as Byte);
    var v := Operand(s, index);
    assert Operand(s1, index) == RotateLeftCircular(v).value;
    RotateCircularInverse(v);
  }
}
