/**
  The memory bus: a flat 64 KiB byte array addressed by sixteen-bit
  addresses, with helpers for the interrupt registers (IF at 0xFF0F, IE at
  0xFFFF) and the timer registers (DIV, TIMA, TMA, TAC at 0xFF04..0xFF07).

  `Memory` is the value the array holds; the functions on it specify the
  methods of class `Bus`, which update the array in place.
*/
module Bus {
  import opened Registers

  const MemorySize := 0x1_0000

  /** The 65536 bytes the bus can address. */
  type Memory = m: seq<Byte> | |m| == MemorySize witness seq(MemorySize, _ => 0)

  const InterruptFlagAddress: Word := 0xFF0F
  const InterruptEnableAddress: Word := 0xFFFF
  const DivAddress: Word := 0xFF04
  const TimaAddress: Word := 0xFF05
  const TmaAddress: Word := 0xFF06
  const TacAddress: Word := 0xFF07

  /** `address + 1` in sixteen-bit arithmetic. */
  function Next(address: Word): (r: Word)
    ensures r != address
    ensures address < 0xFFFF ==> r == address + 1
  {
    (address + 1) % MemorySize
  }

  /** `bus_write8` on the memory as a value. */
  function Store(mem: Memory, address: Word, value: Byte): (r: Memory)
    ensures r[address] == value
    ensures forall i :: 0 <= i < MemorySize && i != address ==> r[i] == mem[i]
  {
    mem[address := value]
  }

  /** A stack pointer moved down by two and back up by two, wrapping at
      0x10000 both ways, is where it was. */
  lemma DownTwoUpTwo(sp: Word)
    ensures (((sp as int - 2) % MemorySize) as int + 2) % MemorySize == sp
    ensures Next((sp as int - 2) % MemorySize) == (sp as int - 1) % MemorySize
  {
    if sp < 2 {
      assert (sp as int - 2) % MemorySize == sp + 0xFFFE;
    } else {
      assert (sp as int - 2) % MemorySize == sp - 2;
    }
  }

  /** A little-endian sixteen-bit read: low byte at `address`, high byte at
      the next address (wrapping from 0xFFFF to 0x0000). */
  function Load16(mem: Memory, address: Word): Word
  {
    Pair(mem[Next(address)], mem[address])
  }

  /** A little-endian sixteen-bit write: low byte first, then high byte. */
  function Store16(mem: Memory, address: Word, value: Word): (r: Memory)
    ensures r[address] == value % 0x100 && r[Next(address)] == value / 0x100
    ensures forall i :: 0 <= i < MemorySize && i != address && i != Next(address) ==> r[i] == mem[i]
  {
    Store(Store(mem, address, value % 0x100), Next(address), value / 0x100)
  }

  /** A sixteen-bit value read back after it was written at the same address
      is the value written. */
  lemma Load16AfterStore16(mem: Memory, address: Word, value: Word)
    ensures Load16(Store16(mem, address, value), address) == value
  {
    SplitPair(value);
  }

  /** Writing back the word just read leaves memory as it was. */
  lemma Store16OfLoad16(mem: Memory, address: Word)
    ensures Store16(mem, address, Load16(mem, address)) == mem
  {
    var r := Store16(mem, address, Load16(mem, address));
    PairHalves(mem[Next(address)], mem[address]);
    assert forall i :: 0 <= i < MemorySize ==> r[i] == mem[i];
  }

  /** `bus_read_interrupt_register`: IF and IE read from memory; any other
      address reads as 0. */
  function InterruptRegister(mem: Memory, address: Word): Byte
  {
    if address == InterruptFlagAddress || address == InterruptEnableAddress then mem[address] else 0
  }

  /** `bus_write_interrupt_register`: stores to IF or IE; ignores any other
      address. */
  function WithInterruptRegister(mem: Memory, address: Word, value: Byte): Memory
  {
    if address == InterruptFlagAddress || address == InterruptEnableAddress then Store(mem, address, value) else mem
  }

  predicate IsTimerRegister(address: Word)
  {
    DivAddress <= address <= TacAddress
  }

  /** `bus_read_timer_register`: DIV, TIMA, TMA and TAC read from memory; any
      other address reads as 0. */
  function TimerRegister(mem: Memory, address: Word): Byte
  {
    if IsTimerRegister(address) then mem[address] else 0
  }

  /** `bus_write_timer_register`: a write to DIV resets it to 0 whatever the
      value; TIMA, TMA and TAC store the value; other addresses are ignored. */
  function WithTimerRegister(mem: Memory, address: Word, value: Byte): Memory
  {
    if address == DivAddress then Store(mem, DivAddress, 0)
    else if IsTimerRegister(address) then Store(mem, address, value)
    else mem
  }

  /** `bus_increment_div`: DIV advances by one, wrapping at 256. */
  function WithDivIncremented(mem: Memory): (r: Memory)
    ensures r[DivAddress] == (mem[DivAddress] as int + 1) % 0x100
    ensures forall i :: 0 <= i < MemorySize && i != DivAddress ==> r[i] == mem[i]
  {
    Store(mem, DivAddress, (mem[DivAddress] as int + 1) % 0x100)
  }

  /** Interrupt registers: what is written to IF or IE reads back; other
      addresses read 0 and writing them changes nothing. */
  lemma InterruptRegisterRoundTrip(mem: Memory, address: Word, value: Byte)
    ensures address in {InterruptFlagAddress, InterruptEnableAddress} ==>
      InterruptRegister(WithInterruptRegister(mem, address, value), address) == value
    ensures address !in {InterruptFlagAddress, InterruptEnableAddress} ==>
      InterruptRegister(mem, address) == 0 && WithInterruptRegister(mem, address, value) == mem
    ensures forall i :: 0 <= i < MemorySize && i != address ==>
      WithInterruptRegister(mem, address, value)[i] == mem[i]
  {
  }

  /** Timer registers: TIMA, TMA and TAC read back what was written; DIV
      reads 0 after any write; other addresses read 0 and writing them
      changes nothing. */
  lemma TimerRegisterRoundTrip(mem: Memory, address: Word, value: Byte)
    ensures address in {TimaAddress, TmaAddress, TacAddress} ==>
      TimerRegister(WithTimerRegister(mem, address, value), address) == value
    ensures TimerRegister(WithTimerRegister(mem, DivAddress, value), DivAddress) == 0
    ensures !(DivAddress <= address <= TacAddress) ==>
      TimerRegister(mem, address) == 0 && WithTimerRegister(mem, address, value) == mem
    ensures forall i :: 0 <= i < MemorySize && i != address ==>
      WithTimerRegister(mem, address, value)[i] == mem[i]
  {
  }

  /** The bus of the emulator: a pointer to a 64 KiB buffer. */
  class Bus {
    const memory: array<Byte>

    ghost predicate Valid()
      reads this
    {
      memory.Length == MemorySize
    }

    /** The bytes the buffer holds. */
    function Contents(): Memory
      requires Valid()
      reads this, memory
    {
      memory[..]
    }

    /** `bus_init`: allocates the 64 KiB buffer; `malloc` leaves its
        contents unspecified, so the constructor promises nothing about
        them. */
    constructor ()
      ensures Valid() && fresh(memory)
    {
      memory := new Byte[MemorySize];
    }

    /** `bus_read8` */
    method Read8(address: Word) returns (value: Byte)
      requires Valid()
      ensures value == Contents()[address]
    {
      value := memory[address];
    }

    /** `bus_write8` */
    method Write8(address: Word, value: Byte)
      requires Valid()
      modifies memory
      ensures Contents() == Store(old(Contents()), address, value)
    {
      memory[address] := value;
    }

    /** `bus_read16`, low byte first. */
    method Read16(address: Word) returns (value: Word)
      requires Valid()
      ensures value == Load16(Contents(), address)
    {
      var lo: int := memory[address];
      var hi := memory[Next(address)];
      value := hi * 0x100 + lo;
    }

    /** `bus_write16`, low byte first. */
    method Write16(address: Word, value: Word)
      requires Valid()
      modifies memory
      ensures Contents() == Store16(old(Contents()), address, value)
    {
      memory[address] := value % 0x100;
      memory[Next(address)] := value / 0x100;
    }

    /** `bus_read_interrupt_register` */
    method ReadInterruptRegister(address: Word) returns (value: Byte)
      requires Valid()
      ensures value == InterruptRegister(Contents(), address)
    {
      if address == InterruptFlagAddress {
        value := memory[InterruptFlagAddress];
      } else if address == InterruptEnableAddress {
        value := memory[InterruptEnableAddress];
      } else {
        value := 0;
      }
    }

    /** `bus_write_interrupt_register` */
    method WriteInterruptRegister(address: Word, value: Byte)
      requires Valid()
      modifies memory
      ensures Contents() == WithInterruptRegister(old(Contents()), address, value)
    {
      if address == InterruptFlagAddress {
        memory[InterruptFlagAddress] := value;
      } else if address == InterruptEnableAddress {
        memory[InterruptEnableAddress] := value;
      }
    }

    /** `bus_read_timer_register` */
    method ReadTimerRegister(address: Word) returns (value: Byte)
      requires Valid()
      ensures value == TimerRegister(Contents(), address)
    {
      if address == DivAddress {
        value := memory[DivAddress];
      } else if address == TimaAddress {
        value := memory[TimaAddress];
      } else if address == TmaAddress {
        value := memory[TmaAddress];
      } else if address == TacAddress {
        value := memory[TacAddress];
      } else {
        value := 0;
      }
    }

    /** `bus_write_timer_register` */
    method WriteTimerRegister(address: Word, value: Byte)
      requires Valid()
      modifies memory
      ensures Contents() == WithTimerRegister(old(Contents()), address, value)
    {
      if address == DivAddress {
        memory[DivAddress] := 0;
      } else if address == TimaAddress {
        memory[TimaAddress] := value;
      } else if address == TmaAddress {
        memory[TmaAddress] := value;
      } else if address == TacAddress {
        memory[TacAddress] := value;
      }
    }

    /** `bus_increment_div` */
    method IncrementDiv()
      requires Valid()
      modifies memory
      ensures Contents() == WithDivIncremented(old(Contents()))
    {
      memory[DivAddress] := (memory[DivAddress] as int + 1) % 0x100;
    }
  }
}
