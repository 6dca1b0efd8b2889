/**
  The unprefixed instruction set (`instruction_execute`).

  `Execute` states what one opcode does, organised by the usual SM83
  decoding of the opcode into the fields x = bits 7..6, y = bits 5..3,
  z = bits 2..0 (with p = y / 2 and q = y % 2). The methods below follow
  the emulator's own layout instead, a switch on the high nibble and then
  on the low nibble with every register spelled out, and each is proved to
  do what `Execute` says. The state `Execute` starts from is the one
  `cpu_step` hands over: PC already points past the opcode.
*/
module Instruction {
  import opened Registers
  import opened Bus
  import opened Cpu
  import opened Alu
  import Bits
  import Prefix

  /** The cycle counts of the CB-prefixed opcodes (in T-cycles), one row of
      sixteen per high nibble. */
  const CbOpTcyclesTable: seq<seq<nat>> := [
    [8, 8, 8, 8, 8, 8, 16, 8, 8, 8, 8, 8, 8, 8, 16, 8],
    [8, 8, 8, 8, 8, 8, 16, 8, 8, 8, 8, 8, 8, 8, 16, 8],
    [8, 8, 8, 8, 8, 8, 16, 8, 8, 8, 8, 8, 8, 8, 16, 8],
    [8, 8, 8, 8, 8, 8, 16, 8, 8, 8, 8, 8, 8, 8, 16, 8],
    [8, 8, 8, 8, 8, 8, 12, 8, 8, 8, 8, 8, 8, 8, 12, 8],
    [8, 8, 8, 8, 8, 8, 12, 8, 8, 8, 8, 8, 8, 8, 12, 8],
    [8, 8, 8, 8, 8, 8, 12, 8, 8, 8, 8, 8, 8, 8, 12, 8],
    [8, 8, 8, 8, 8, 8, 12, 8, 8, 8, 8, 8, 8, 8, 12, 8],
    [8, 8, 8, 8, 8, 8, 16, 8, 8, 8, 8, 8, 8, 8, 16, 8],
    [8, 8, 8, 8, 8, 8, 16, 8, 8, 8, 8, 8, 8, 8, 16, 8],
    [8, 8, 8, 8, 8, 8, 16, 8, 8, 8, 8, 8, 8, 8, 16, 8],
    [8, 8, 8, 8, 8, 8, 16, 8, 8, 8, 8, 8, 8, 8, 16, 8],
    [8, 8, 8, 8, 8, 8, 16, 8, 8, 8, 8, 8, 8, 8, 16, 8],
    [8, 8, 8, 8, 8, 8, 16, 8, 8, 8, 8, 8, 8, 8, 16, 8],
    [8, 8, 8, 8, 8, 8, 16, 8, 8, 8, 8, 8, 8, 8, 16, 8],
    [8, 8, 8, 8, 8, 8, 16, 8, 8, 8, 8, 8, 8, 8, 16, 8]
  ]

  /** `cb_op_tcycles[opcode]` */
  function CbOpTcycles(opcode: Byte): nat
  {
    CbOpTcyclesTable[opcode / 0x10][opcode % 0x10]
  }

  /** A CB-prefixed opcode takes 8 T-cycles on a register, 12 for BIT b,(HL)
      and 16 for the other operations on (HL). */
  lemma CbOpTcyclesByOperand(opcode: Byte)
    ensures CbOpTcycles(opcode) ==
      if opcode % 8 != 6 then 8 else if 0x40 <= opcode < 0x80 then 12 else 16
  {
  }

  /** The branch conditions cc[0..3]: NZ, Z, NC, C. */
  function Condition(f: Flags, cc: nat): bool
    requires cc < 4
  {
    match cc
    case 0 => !f.zero
    case 1 => f.zero
    case 2 => !f.carry
    case 3 => f.carry
  }

  /** The register pairs rp[0..3] of the sixteen-bit loads and arithmetic:
      BC, DE, HL, SP. */
  function PairName(p: nat): RegisterName
    requires p < 4
  {
    match p
    case 0 => BC
    case 1 => DE
    case 2 => HL
    case 3 => SP
  }

  /** The value of rp[p]. SP is read directly: the sixteen-bit read helper
      of the emulator only knows AF, BC, DE and HL. */
  function PairValue(r: Registers, p: nat): Word
    requires p < 4
  {
    if p == 3 then r.sp else Read16(r, PairName(p))
  }

  /** The register pairs rp2[0..3] of PUSH and POP: BC, DE, HL, AF. */
  function StackPairName(p: nat): RegisterName
    requires p < 4
  {
    match p
    case 0 => BC
    case 1 => DE
    case 2 => HL
    case 3 => AF
  }

  /** SP moved down by two and `value` stored there, low byte first. */
  function Push(s: CpuState, value: Word): CpuState
  {
    var sp := (s.regs.sp as int - 2) % MemorySize;
    s.(regs := s.regs.(sp := sp), mem := Store16(s.mem, sp, value))
  }

  /** POP rp2[p]: the word at SP goes into the pair and SP moves up by two. */
  function Pop(s: CpuState, p: nat): CpuState
    requires p < 4
  {
    var value := Load16(s.mem, s.regs.sp);
    var regs := s.regs.(sp := (s.regs.sp as int + 2) % MemorySize);
    s.(regs := Write16(regs, StackPairName(p), value))
  }

  /** CALL and RST: PC is pushed and replaced by `target`. */
  function Call(s: CpuState, target: Word): CpuState
  {
    var pushed := Push(s, s.regs.pc);
    pushed.(regs := pushed.regs.(pc := target))
  }

  /** RET: PC is popped from the stack. */
  function Return(s: CpuState): CpuState
  {
    s.(regs := s.regs.(pc := Load16(s.mem, s.regs.sp), sp := (s.regs.sp as int + 2) % MemorySize))
  }

  /** JR: the offset byte is consumed, and when `taken` PC moves by it. */
  function RelativeJump(s: CpuState, taken: bool): CpuState
  {
    var moved := Advanced(s, 1);
    if taken then moved.(regs := moved.regs.(pc := Jump(moved.regs.pc, Immediate8(s)))) else moved
  }

  /** alu[y] A,v: A and the flags replaced by the result of the operation. */
  function Accumulate(s: CpuState, operation: nat, v: Byte): CpuState
    requires operation < 8
  {
    var r := Arithmetic(operation, s.regs.a, v, s.regs.f);
    s.(regs := s.regs.(a := r.value, f := r.flags))
  }

  /** The effect of one unprefixed opcode, PC already past it. */
  function Execute(s: CpuState, opcode: Byte): CpuState
  {
    var y, z := (opcode / 8) % 8, opcode % 8;
    match opcode / 0x40
    case 0 => Block0(s, y, z)
    case 1 => if opcode == 0x76 then s.(halted := true) else WithOperand(s, y, Operand(s, z))
    case 2 => Accumulate(s, y, Operand(s, z))
    case 3 => Block3(s, y, z)
  }

  /** Opcodes 0x00..0x3F: loads of immediates and through register pairs,
      sixteen-bit arithmetic, INC and DEC, relative jumps, and the
      accumulator rotates and flag operations. */
  function Block0(s: CpuState, y: nat, z: nat): CpuState
    requires y < 8 && z < 8
  {
    var p, q := y / 2, y % 2;
    var f := s.regs.f;
    match z
    case 0 =>
      if y == 0 then s
      else if y == 1 then Advanced(s, 2).(mem := Store16(s.mem, Immediate16(s), s.regs.sp))
      else if y == 2 then s
      else if y == 3 then RelativeJump(s, true)
      else RelativeJump(s, Condition(f, y - 4))
    case 1 =>
      if q == 0 then
        var moved := Advanced(s, 2);
        moved.(regs := Write16(moved.regs, PairName(p), Immediate16(s)))
      else
        var r := AddWord(Read16(s.regs, HL), PairValue(s.regs, p), f);
        s.(regs := Write16(s.regs.(f := r.flags), HL, r.value))
    case 2 =>
      var address := if p == 0 then Read16(s.regs, BC) else if p == 1 then Read16(s.regs, DE) else Read16(s.regs, HL);
      var moved := if q == 0 then s.(mem := Store(s.mem, address, s.regs.a)) else s.(regs := s.regs.(a := s.mem[address]));
      if p == 2 then moved.(regs := Incremented16(moved.regs, HL))
      else if p == 3 then moved.(regs := Decremented16(moved.regs, HL))
      else moved
    case 3 =>
      var v := PairValue(s.regs, p) as int;
      s.(regs := Write16(s.regs, PairName(p), if q == 0 then (v + 1) % 0x1_0000 else (v - 1) % 0x1_0000))
    case 4 =>
      var r := Increment(Operand(s, y), f);
      WithOperand(s.(regs := s.regs.(f := r.flags)), y, r.value)
    case 5 =>
      var r := Decrement(Operand(s, y), f);
      WithOperand(s.(regs := s.regs.(f := r.flags)), y, r.value)
    case 6 =>
      WithOperand(Advanced(s, 1), y, Immediate8(s))
    case 7 =>
      if y < 4 then
        var r := ShiftOperation(y, s.regs.a, f.carry);
        s.(regs := s.regs.(a := r.value, f := Flags(false, false, false, r.out)))
      else if y == 4 then
        var r := DecimalAdjust(s.regs.a, f);
        s.(regs := s.regs.(a := r.value, f := r.flags))
      else if y == 5 then s.(regs := s.regs.(a := Bits.Not8(s.regs.a), f := f.(subtract := true, halfCarry := true)))
      else if y == 6 then s.(regs := s.regs.(f := f.(subtract := false, halfCarry := false, carry := true)))
      else s.(regs := s.regs.(f := f.(subtract := false, halfCarry := false, carry := !f.carry)))
  }

  /** Opcodes 0xC0..0xFF: returns, jumps and calls, the stack, the high-page
      loads, SP arithmetic, the CB prefix, DI and EI, the accumulator
      operations on an immediate, and RST. The eleven opcodes the emulator
      has no case for change nothing. */
  function Block3(s: CpuState, y: nat, z: nat): CpuState
    requires y < 8 && z < 8
  {
    var p, q := y / 2, y % 2;
    var f := s.regs.f;
    match z
    case 0 =>
      if y < 4 then (if Condition(f, y) then Return(s) else s)
      else
        var moved := Advanced(s, 1);
        var n := Immediate8(s);
        if y == 4 then moved.(mem := Store(s.mem, 0xFF00 + n, s.regs.a))
        else if y == 5 then
          var r := AddOffset(s.regs.sp, n);
          moved.(regs := moved.regs.(sp := r.value, f := r.flags))
        else if y == 6 then moved.(regs := moved.regs.(a := s.mem[0xFF00 + n]))
        else
          var r := AddOffset(s.regs.sp, n);
          moved.(regs := Write16(moved.regs.(f := r.flags), HL, r.value))
    case 1 =>
      if q == 0 then Pop(s, p)
      else if p == 0 then Return(s)
      else if p == 1 then Return(s).(ime := true)
      else if p == 2 then s.(regs := s.regs.(pc := Read16(s.regs, HL)))
      else s.(regs := s.regs.(sp := Read16(s.regs, HL)))
    case 2 =>
      if y < 4 then
        var moved := Advanced(s, 2);
        if Condition(f, y) then moved.(regs := moved.regs.(pc := Immediate16(s))) else moved
      else if y == 4 then s.(mem := Store(s.mem, 0xFF00 + s.regs.c, s.regs.a))
      else if y == 5 then Advanced(s, 2).(mem := Store(s.mem, Immediate16(s), s.regs.a))
      else if y == 6 then s.(regs := s.regs.(a := s.mem[0xFF00 + s.regs.c]))
      else
        var moved := Advanced(s, 2);
        moved.(regs := moved.regs.(a := s.mem[Immediate16(s)]))
    case 3 =>
      if y == 0 then s.(regs := s.regs.(pc := Immediate16(s)))
      else if y == 1 then
        var n := Immediate8(s);
        Prefix.PrefixExecute(Advanced(s, 1), n).(counter := CbOpTcycles(n))
      else if y == 6 then s.(ime := false)
      else if y == 7 then s.(ime := true)
      else s
    case 4 =>
      if y < 4 then
        var moved := Advanced(s, 2);
        if Condition(f, y) then Call(moved, Immediate16(s)) else moved
      else s
    case 5 =>
      if q == 0 then Push(s, Read16(s.regs, StackPairName(p)))
      else if p == 0 then Call(Advanced(s, 2), Immediate16(s))
      else s
    case 6 =>
      Accumulate(Advanced(s, 1), y, Immediate8(s))
    case 7 =>
      Call(s, 8 * y)
  }

  // ---------------------------------------------------------------------
  // Decoding: what `Execute` does for each family of opcodes that share
  // one form.

  /** Opcodes 0x00..0x3F, by their y and z fields. */
  lemma Block0Of(s: CpuState, opcode: Byte)
    requires opcode < 0x40
    ensures Execute(s, opcode) == Block0(s, (opcode / 8) % 8, opcode % 8)
  {
  }

  /** Opcodes 0xC0..0xFF, by their y and z fields. */
  lemma Block3Of(s: CpuState, opcode: Byte)
    requires opcode >= 0xC0
    ensures Execute(s, opcode) == Block3(s, (opcode / 8) % 8, opcode % 8)
  {
  }

  /** LD rr,n16 (0x01, 0x11, 0x21, 0x31): the pair takes the immediate word
      and PC moves past it. */
  lemma DecodeLoadPairImmediate(s: CpuState, opcode: Byte)
    requires opcode in {0x01, 0x11, 0x21, 0x31}
    ensures var moved := Advanced(s, 2);
      Execute(s, opcode) == moved.(regs := Write16(moved.regs, PairName(opcode / 0x10), Immediate16(s)))
  {
    assert opcode % 8 == 1 && (opcode / 8) % 8 / 2 == opcode / 0x10 && (opcode / 8) % 8 % 2 == 0;
    Block0Of(s, opcode);
  }

  /** The address LD (rr),A and LD A,(rr) use: BC, DE, or HL for the HL+ and
      HL- forms. */
  function IndirectAddress(r: Registers, opcode: Byte): Word
  {
    if opcode / 0x10 == 0 then Read16(r, BC) else if opcode / 0x10 == 1 then Read16(r, DE) else Read16(r, HL)
  }

  /** The step LD (HL+),A, LD (HL-),A, LD A,(HL+) and LD A,(HL-) apply to HL
      after the access; the other indirect loads leave HL alone. */
  function StepHl(r: Registers, opcode: Byte): Registers
  {
    if opcode / 0x10 == 2 then Incremented16(r, HL) else if opcode / 0x10 == 3 then Decremented16(r, HL) else r
  }

  /** LD (BC),A / LD (DE),A / LD (HL+),A / LD (HL-),A */
  lemma DecodeStoreAIndirect(s: CpuState, opcode: Byte)
    requires opcode in {0x02, 0x12, 0x22, 0x32}
    ensures Execute(s, opcode) ==
      s.(regs := StepHl(s.regs, opcode), mem := Store(s.mem, IndirectAddress(s.regs, opcode), s.regs.a))
  {
    assert opcode % 8 == 2 && (opcode / 8) % 8 / 2 == opcode / 0x10 && (opcode / 8) % 8 % 2 == 0;
    Block0Of(s, opcode);
  }

  /** LD A,(BC) / LD A,(DE) / LD A,(HL+) / LD A,(HL-) */
  lemma DecodeLoadAIndirect(s: CpuState, opcode: Byte)
    requires opcode in {0x0A, 0x1A, 0x2A, 0x3A}
    ensures Execute(s, opcode) ==
      s.(regs := StepHl(s.regs.(a := s.mem[IndirectAddress(s.regs, opcode)]), opcode))
  {
    assert opcode % 8 == 2 && (opcode / 8) % 8 / 2 == opcode / 0x10 && (opcode / 8) % 8 % 2 == 1;
    Block0Of(s, opcode);
  }

  /** INC rr (0x03, 0x13, 0x23, 0x33): the pair moves up by one, wrapping
      at 0x10000; no flag changes. */
  lemma DecodeIncrementPair(s: CpuState, opcode: Byte)
    requires opcode in {0x03, 0x13, 0x23, 0x33}
    ensures Execute(s, opcode) ==
      s.(regs := Write16(s.regs, PairName(opcode / 0x10), (PairValue(s.regs, opcode / 0x10) as int + 1) % 0x1_0000))
  {
    assert opcode % 8 == 3 && (opcode / 8) % 8 / 2 == opcode / 0x10 && (opcode / 8) % 8 % 2 == 0;
    Block0Of(s, opcode);
  }

  /** DEC rr (0x0B, 0x1B, 0x2B, 0x3B): the pair moves down by one, wrapping
      at 0x10000; no flag changes. */
  lemma DecodeDecrementPair(s: CpuState, opcode: Byte)
    requires opcode in {0x0B, 0x1B, 0x2B, 0x3B}
    ensures Execute(s, opcode) ==
      s.(regs := Write16(s.regs, PairName(opcode / 0x10), (PairValue(s.regs, opcode / 0x10) as int - 1) % 0x1_0000))
  {
    assert opcode % 8 == 3 && (opcode / 8) % 8 / 2 == opcode / 0x10 && (opcode / 8) % 8 % 2 == 1;
    Block0Of(s, opcode);
  }

  /** INC r (0x04, 0x0C, ..., 0x3C), operand y. */
  lemma DecodeIncrement(s: CpuState, opcode: Byte)
    requires opcode < 0x40 && opcode % 8 == 4
    ensures var y := (opcode / 8) % 8;
      var r := Increment(Operand(s, y), s.regs.f);
      Execute(s, opcode) == WithOperand(s.(regs := s.regs.(f := r.flags)), y, r.value)
  {
    Block0Of(s, opcode);
  }

  /** DEC r (0x05, 0x0D, ..., 0x3D), operand y. */
  lemma DecodeDecrement(s: CpuState, opcode: Byte)
    requires opcode < 0x40 && opcode % 8 == 5
    ensures var y := (opcode / 8) % 8;
      var r := Decrement(Operand(s, y), s.regs.f);
      Execute(s, opcode) == WithOperand(s.(regs := s.regs.(f := r.flags)), y, r.value)
  {
    Block0Of(s, opcode);
  }

  /** LD r,n8 (0x06, 0x0E, ..., 0x3E), operand y. */
  lemma DecodeLoadImmediate(s: CpuState, opcode: Byte)
    requires opcode < 0x40 && opcode % 8 == 6
    ensures Execute(s, opcode) == WithOperand(Advanced(s, 1), (opcode / 8) % 8, Immediate8(s))
  {
    Block0Of(s, opcode);
  }

  /** ADD HL,rr (0x09, 0x19, 0x29, 0x39). */
  lemma DecodeAddHl(s: CpuState, opcode: Byte)
    requires opcode in {0x09, 0x19, 0x29, 0x39}
    ensures var r := AddWord(Read16(s.regs, HL), PairValue(s.regs, opcode / 0x10), s.regs.f);
      Execute(s, opcode) == s.(regs := Write16(s.regs.(f := r.flags), HL, r.value))
  {
    assert opcode % 8 == 1 && (opcode / 8) % 8 / 2 == opcode / 0x10 && (opcode / 8) % 8 % 2 == 1;
    Block0Of(s, opcode);
  }

  /** JR e8 (0x18) and JR cc,e8 (0x20, 0x28, 0x30, 0x38). */
  lemma DecodeRelativeJump(s: CpuState, opcode: Byte)
    requires opcode in {0x18, 0x20, 0x28, 0x30, 0x38}
    ensures Execute(s, opcode) ==
      RelativeJump(s, opcode == 0x18 || Condition(s.regs.f, (opcode / 8) % 4))
  {
    assert opcode % 8 == 0 && ((opcode / 8) % 8 == 3 || (opcode / 8) % 8 - 4 == (opcode / 8) % 4);
    Block0Of(s, opcode);
  }

  /** LD r,r' (0x40..0x7F but 0x76), HALT (0x76). */
  lemma DecodeLoad(s: CpuState, opcode: Byte)
    requires 0x40 <= opcode < 0x80
    ensures Execute(s, opcode) ==
      if opcode == 0x76 then s.(halted := true) else WithOperand(s, (opcode / 8) % 8, Operand(s, opcode % 8))
  {
  }

  /** ADD, ADC, SUB, SBC, AND, XOR, OR, CP with an operand (0x80..0xBF). */
  lemma DecodeArithmetic(s: CpuState, opcode: Byte)
    requires 0x80 <= opcode < 0xC0
    ensures Execute(s, opcode) == Accumulate(s, (opcode / 8) % 8, Operand(s, opcode % 8))
  {
  }

  /** The same eight operations with an immediate byte (0xC6, 0xCE, ...,
      0xFE). */
  lemma DecodeArithmeticImmediate(s: CpuState, opcode: Byte)
    requires opcode >= 0xC0 && opcode % 8 == 6
    ensures Execute(s, opcode) == Accumulate(Advanced(s, 1), (opcode / 8) % 8, Immediate8(s))
  {
    Block3Of(s, opcode);
  }

  /** RET cc (0xC0, 0xC8, 0xD0, 0xD8). */
  lemma DecodeReturnIf(s: CpuState, opcode: Byte)
    requires opcode in {0xC0, 0xC8, 0xD0, 0xD8}
    ensures Execute(s, opcode) == if Condition(s.regs.f, (opcode / 8) % 4) then Return(s) else s
  {
    assert opcode % 8 == 0 && (opcode / 8) % 8 == (opcode / 8) % 4;
    Block3Of(s, opcode);
  }

  /** POP BC / POP DE / POP HL / POP AF */
  lemma DecodePop(s: CpuState, opcode: Byte)
    requires opcode in {0xC1, 0xD1, 0xE1, 0xF1}
    ensures Execute(s, opcode) == Pop(s, (opcode - 0xC0) / 0x10)
  {
    assert opcode % 8 == 1 && (opcode / 8) % 8 / 2 == (opcode - 0xC0) / 0x10 && (opcode / 8) % 8 % 2 == 0;
    Block3Of(s, opcode);
  }

  /** JP cc,a16 (0xC2, 0xCA, 0xD2, 0xDA). */
  lemma DecodeJumpIf(s: CpuState, opcode: Byte)
    requires opcode in {0xC2, 0xCA, 0xD2, 0xDA}
    ensures var moved := Advanced(s, 2);
      Execute(s, opcode) ==
        if Condition(s.regs.f, (opcode / 8) % 4) then moved.(regs := moved.regs.(pc := Immediate16(s))) else moved
  {
    assert opcode % 8 == 2 && (opcode / 8) % 8 == (opcode / 8) % 4;
    Block3Of(s, opcode);
  }

  /** CALL cc,a16 (0xC4, 0xCC, 0xD4, 0xDC). */
  lemma DecodeCallIf(s: CpuState, opcode: Byte)
    requires opcode in {0xC4, 0xCC, 0xD4, 0xDC}
    ensures var moved := Advanced(s, 2);
      Execute(s, opcode) == if Condition(s.regs.f, (opcode / 8) % 4) then Call(moved, Immediate16(s)) else moved
  {
    assert opcode % 8 == 4 && (opcode / 8) % 8 == (opcode / 8) % 4;
    Block3Of(s, opcode);
  }

  /** PUSH BC / PUSH DE / PUSH HL / PUSH AF */
  lemma DecodePush(s: CpuState, opcode: Byte)
    requires opcode in {0xC5, 0xD5, 0xE5, 0xF5}
    ensures Execute(s, opcode) == Push(s, Read16(s.regs, StackPairName((opcode - 0xC0) / 0x10)))
  {
    assert opcode % 8 == 5 && (opcode / 8) % 8 / 2 == (opcode - 0xC0) / 0x10 && (opcode / 8) % 8 % 2 == 0;
    Block3Of(s, opcode);
  }

  /** RST (0xC7, 0xCF, ..., 0xFF): a call to 0x00, 0x08, ..., 0x38. */
  lemma DecodeRestart(s: CpuState, opcode: Byte)
    requires opcode >= 0xC0 && opcode % 8 == 7
    ensures Execute(s, opcode) == Call(s, opcode - 0xC7)
  {
    assert 8 * ((opcode / 8) % 8) == opcode - 0xC7;
    Block3Of(s, opcode);
  }

  /** The eleven opcodes the emulator has no case for. */
  predicate Unused(opcode: Byte)
  {
    opcode in {0xD3, 0xDB, 0xDD, 0xE3, 0xE4, 0xEB, 0xEC, 0xED, 0xF4, 0xFC, 0xFD}
  }

  /** NOP and STOP change nothing at all. */
  lemma DecodeNoOperation(s: CpuState, opcode: Byte)
    requires opcode == 0x00 || opcode == 0x10
    ensures Execute(s, opcode) == s
  {
    assert opcode % 8 == 0 && (opcode / 8) % 8 in {0, 2};
    Block0Of(s, opcode);
  }

  /** The unused opcodes change nothing at all. */
  lemma DecodeUnused(s: CpuState, opcode: Byte)
    requires Unused(opcode)
    ensures Execute(s, opcode) == s
  {
    if opcode % 8 == 3 {
      DecodeUnusedColumn3(s, opcode);
    } else if opcode % 8 == 4 {
      DecodeUnusedColumn4(s, opcode);
    } else {
      DecodeUnusedColumn5(s, opcode);
    }
  }

  lemma DecodeUnusedColumn3(s: CpuState, opcode: Byte)
    requires opcode in {0xD3, 0xDB, 0xE3, 0xEB}
    ensures Execute(s, opcode) == s
  {
    assert opcode % 8 == 3 && 2 <= (opcode / 8) % 8 <= 5;
    Block3Of(s, opcode);
  }

  lemma DecodeUnusedColumn4(s: CpuState, opcode: Byte)
    requires opcode in {0xE4, 0xEC, 0xF4, 0xFC}
    ensures Execute(s, opcode) == s
  {
    assert opcode % 8 == 4 && (opcode / 8) % 8 >= 4;
    Block3Of(s, opcode);
  }

  lemma DecodeUnusedColumn5(s: CpuState, opcode: Byte)
    requires opcode in {0xDD, 0xED, 0xFD}
    ensures Execute(s, opcode) == s
  {
    assert opcode % 8 == 5 && (opcode / 8) % 8 in {3, 5, 7};
    Block3Of(s, opcode);
  }

  /** RET (0xC9). */
  lemma DecodeReturn(s: CpuState, opcode: Byte)
    requires opcode == 0xC9
    ensures Execute(s, opcode) == Return(s)
  {
    assert opcode % 8 == 1 && (opcode / 8) % 8 == 1;
    Block3Of(s, opcode);
  }

  /** RETI (0xD9): RET that also sets IME. */
  lemma DecodeReturnEnable(s: CpuState, opcode: Byte)
    requires opcode == 0xD9
    ensures Execute(s, opcode) == Return(s).(ime := true)
  {
    assert opcode % 8 == 1 && (opcode / 8) % 8 == 3;
    Block3Of(s, opcode);
  }

  /** CALL a16 (0xCD). */
  lemma DecodeCall(s: CpuState, opcode: Byte)
    requires opcode == 0xCD
    ensures Execute(s, opcode) == Call(Advanced(s, 2), Immediate16(s))
  {
    assert opcode % 8 == 5 && (opcode / 8) % 8 == 1;
    Block3Of(s, opcode);
  }

  /** JP (HL): PC takes HL and nothing else changes. */
  lemma DecodeJumpHl(s: CpuState)
    ensures Execute(s, 0xE9) == s.(regs := s.regs.(pc := Read16(s.regs, HL)))
  {
    Block3Of(s, 0xE9);
  }

  /** ADD SP,e8 (0xE8) and LD HL,SP+e8 (0xF8): the offset is consumed and
      the sum goes to SP or to HL. */
  lemma DecodeAddOffset(s: CpuState, opcode: Byte)
    requires opcode in {0xE8, 0xF8}
    ensures var moved := Advanced(s, 1);
      var r := AddOffset(s.regs.sp, Immediate8(s));
      Execute(s, opcode) ==
        if opcode == 0xE8 then moved.(regs := moved.regs.(sp := r.value, f := r.flags))
        else moved.(regs := Write16(moved.regs.(f := r.flags), HL, r.value))
  {
    assert opcode % 8 == 0 && (opcode / 8) % 8 in {5, 7} && (opcode == 0xE8 <==> (opcode / 8) % 8 == 5);
    Block3Of(s, opcode);
  }
}
