/**
  The CPU aggregate the emulator passes around as `cpu *`: the register
  file, the interrupt master enable `ime`, the `halted` latch, the running
  cycle count `count`, the cycles of the instruction in flight `counter`,
  and the bus.

  `CpuState` is a snapshot of all of it as a value; the instruction, step,
  interrupt and timer specifications are functions on snapshots, and the
  methods that update a `Cpu` in place are proved to produce exactly what
  those functions say.
*/
module Cpu {
  import opened Registers
  import opened Bus

  datatype CpuState = CpuState(
    regs: Registers, ime: bool, halted: bool, count: nat, counter: nat, mem: Memory)

  /** The operand named by a three-bit field of an opcode: B, C, D, E, H,
      L, the byte at HL, A. */
  function Operand(s: CpuState, index: nat): Byte
    requires index < 8
  {
    match index
    case 0 => s.regs.b
    case 1 => s.regs.c
    case 2 => s.regs.d
    case 3 => s.regs.e
    case 4 => s.regs.h
    case 5 => s.regs.l
    case 6 => s.mem[Read16(s.regs, HL)]
    case 7 => s.regs.a
  }

  /** The state with the operand named by `index` replaced: index 6 stores
      to the byte at HL, the others replace a register. */
  function WithOperand(s: CpuState, index: nat, value: Byte): (s': CpuState)
    requires index < 8
    ensures Operand(s', index) == value
    ensures s'.regs.f == s.regs.f && s'.regs.pc == s.regs.pc && s'.regs.sp == s.regs.sp
    ensures s'.ime == s.ime && s'.halted == s.halted && s'.count == s.count && s'.counter == s.counter
  {
    match index
    case 0 => s.(regs := s.regs.(b := value))
    case 1 => s.(regs := s.regs.(c := value))
    case 2 => s.(regs := s.regs.(d := value))
    case 3 => s.(regs := s.regs.(e := value))
    case 4 => s.(regs := s.regs.(h := value))
    case 5 => s.(regs := s.regs.(l := value))
    case 6 => s.(mem := Store(s.mem, Read16(s.regs, HL), value))
    case 7 => s.(regs := s.regs.(a := value))
  }

  /** Replacing an operand changes no other operand, except that a register
      write to H or L moves the byte index 6 refers to. */
  lemma WithOperandFrame(s: CpuState, index: nat, other: nat, value: Byte)
    requires index < 8 && other < 8 && index != other
    requires other == 6 ==> index != 4 && index != 5
    ensures Operand(WithOperand(s, index, value), other) == Operand(s, other)
  {
  }

  /** The state with PC moved `n` bytes forward, wrapping at 0x10000. */
  function Advanced(s: CpuState, n: nat): CpuState
  {
    s.(regs := s.regs.(pc := (s.regs.pc + n) % MemorySize))
  }

  /** The byte at PC: the next opcode or immediate operand. */
  function Immediate8(s: CpuState): Byte
  {
    s.mem[s.regs.pc]
  }

  /** The little-endian word at PC. */
  function Immediate16(s: CpuState): Word
  {
    Load16(s.mem, s.regs.pc)
  }

  /** The registers `cpu_init_test` loads: the state the boot ROM leaves
      behind, with execution starting at 0x0100. */
  function InitTestRegisters(): Registers
  {
    Registers(0x01, 0x00, 0x13, 0x00, 0xD8, Flags(true, false, true, true), 0x01, 0x4D, 0x0100, 0xFFFE)
  }

  /** Read as pairs, the registers `cpu_init_test` loads are AF = 0x01B0,
      BC = 0x0013, DE = 0x00D8, HL = 0x014D, with SP = 0xFFFE and
      PC = 0x0100. */
  lemma InitTestPairs()
    ensures var r := InitTestRegisters();
      Read16(r, AF) == 0x01B0 && Read16(r, BC) == 0x0013 && Read16(r, DE) == 0x00D8
      && Read16(r, HL) == 0x014D && r.sp == 0xFFFE && r.pc == 0x0100
  {
  }

  class Cpu {
    var registers: Registers
    var ime: bool
    var halted: bool
    var count: nat
    var counter: nat
    const bus: Bus

    ghost predicate Valid()
      reads this, bus
    {
      bus.Valid()
    }

    /** Everything the CPU and its bus hold, as a value. */
    function State(): CpuState
      requires Valid()
      reads this, bus, bus.memory
    {
      CpuState(registers, ime, halted, count, counter, bus.Contents())
    }

    /** `cpu_init`: every register cleared; the CPU is attached to `bus`. */
    constructor (bus: Bus)
      requires bus.Valid()
      ensures Valid() && this.bus == bus
      ensures registers == Registers(0, 0, 0, 0, 0, Flags(false, false, false, false), 0, 0, 0, 0)
      ensures !ime && !halted && count == 0 && counter == 0
    {
      registers := Registers(0, 0, 0, 0, 0, Flags(false, false, false, false), 0, 0, 0, 0);
      ime := false;
      halted := false;
      count := 0;
      counter := 0;
      this.bus := bus;
    }

    /** `cpu_init_test`: sets every register, field by field. */
    method InitTest()
      requires Valid()
      modifies this
      ensures Valid() && State() == old(State()).(regs := InitTestRegisters())
    {
      registers := registers.(a := 0x01);
      registers := registers.(f := registers.f.(zero := true));
      registers := registers.(f := registers.f.(subtract := false));
      registers := registers.(f := registers.f.(halfCarry := true));
      registers := registers.(f := registers.f.(carry := true));
      registers := registers.(b := 0x00);
      registers := registers.(c := 0x13);
      registers := registers.(d := 0x00);
      registers := registers.(e := 0xD8);
      registers := registers.(h := 0x01);
      registers := registers.(l := 0x4D);
      registers := registers.(sp := 0xFFFE);
      registers := registers.(pc := 0x0100);
    }

    /** `cpu_write_register_16bit` on this CPU's registers. */
    method WriteRegister16(name: RegisterName, value: Word)
      requires Valid()
      modifies this
      ensures Valid() && State() == old(State()).(regs := Write16(old(registers), name, value))
    {
      match name
      case AF =>
        registers := registers.(a := value / 0x100);
        registers := registers.(f := ByteToFlags(value % 0x100));
      case BC =>
        registers := registers.(b := value / 0x100);
        registers := registers.(c := value % 0x100);
      case DE =>
        registers := registers.(d := value / 0x100);
        registers := registers.(e := value % 0x100);
      case HL =>
        registers := registers.(h := value / 0x100);
        registers := registers.(l := value % 0x100);
      case PC =>
        registers := registers.(pc := value);
      case SP =>
        registers := registers.(sp := value);
      case Other =>
    }

    /** `cpu_increment_register_16bit`: read, add one in sixteen bits, write. */
    method IncrementRegister16(name: RegisterName)
      requires Valid()
      modifies this
      ensures Valid() && State() == old(State()).(regs := Incremented16(old(registers), name))
    {
      var value: int := Read16(registers, name);
      value := (value + 1) % 0x1_0000;
      WriteRegister16(name, value);
    }

    /** `cpu_decrement_register_16bit`: read, subtract one in sixteen bits,
        write. */
    method DecrementRegister16(name: RegisterName)
      requires Valid()
      modifies this
      ensures Valid() && State() == old(State()).(regs := Decremented16(old(registers), name))
    {
      var value: int := Read16(registers, name);
      value := (value - 1) % 0x1_0000;
      WriteRegister16(name, value);
    }

    /** `bus_read8(&cpu->bus, cpu->registers.pc++)`: the byte at PC, and PC
        moved past it. */
    method FetchByte() returns (n: Byte)
      requires Valid()
      modifies this
      ensures Valid() && n == Immediate8(old(State())) && State() == Advanced(old(State()), 1)
    {
      n := bus.Read8(registers.pc);
      registers := registers.(pc := (registers.pc + 1) % MemorySize);
    }

    /** `bus_read8(&cpu->bus, cpu->registers.sp++)`: the byte at SP, and SP
        moved past it. */
    method PopByte() returns (n: Byte)
      requires Valid()
      modifies this
      ensures Valid() && n == old(bus.Contents())[old(registers).sp]
      ensures State() == old(State()).(regs := old(registers).(sp := Next(old(registers).sp)))
    {
      n := bus.Read8(registers.sp);
      registers := registers.(sp := Next(registers.sp));
    }

    /** `nn = bus_read16(&cpu->bus, cpu->registers.pc); cpu->registers.pc += 2`. */
    method FetchWord() returns (nn: Word)
      requires Valid()
      modifies this
      ensures Valid() && nn == Immediate16(old(State())) && State() == Advanced(old(State()), 2)
    {
      nn := bus.Read16(registers.pc);
      registers := registers.(pc := (registers.pc + 2) % MemorySize);
    }
  }
}
