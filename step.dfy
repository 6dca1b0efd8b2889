/**
  One call of `cpu_step` and the parts it is made of: interrupt dispatch
  (`cpu_handle_interrupts`), the timer unit (`cpu_update_timers`) and the
  cycle table `op_tcycles`.

  As everywhere in this model, a function on `CpuState` says what a call
  does and a method on `Cpu` does it the way the emulator does, proved to
  agree with the function.
*/
module Step {
  import opened Registers
  import opened Bus
  import opened Cpu
  import opened Instruction
  import Interpreter
  import Bits
  import Prefix
  import Properties

  // ---------------------------------------------------------------------
  // Interrupts

  /** The interrupt served for the pending set `requested` (IE & IF): the
      lowest of bits 0..4 that is set (V-blank, LCD status, timer, serial,
      joypad), or none. */
  function ServedInterrupt(requested: Byte): (i: Prefix.Option<nat>)
    ensures i.Some? ==> i.value < 5 && Bits.Bit(requested, i.value)
    ensures i.Some? ==> forall j: nat :: j < i.value ==> !Bits.Bit(requested, j)
    ensures i.None? ==> forall j: nat :: j < 5 ==> !Bits.Bit(requested, j)
  {
    if Bits.Bit(requested, 0) then Prefix.Some(0)
    else if Bits.Bit(requested, 1) then Prefix.Some(1)
    else if Bits.Bit(requested, 2) then Prefix.Some(2)
    else if Bits.Bit(requested, 3) then Prefix.Some(3)
    else if Bits.Bit(requested, 4) then Prefix.Some(4)
    else Prefix.None
  }

  /** The handler address of interrupt i: 0x40, 0x48, 0x50, 0x58, 0x60. */
  function InterruptVector(i: nat): Word
    requires i < 5
  {
    0x40 + 8 * i
  }

  /** Serving interrupt i: IF loses bit i; then the high byte of PC is
      written at `--sp` and the low byte at `--sp` again; PC takes the
      vector. IME is left as it is. */
  function Serve(s: CpuState, i: nat): CpuState
    requires i < 5
  {
    var iflag := s.mem[InterruptFlagAddress];
    var cleared := Store(s.mem, InterruptFlagAddress, Bits.And8(iflag, Bits.Not8(Bits.Mask(i))));
    var high := (s.regs.sp as int - 1) % MemorySize;
    var low := (s.regs.sp as int - 2) % MemorySize;
    var pushed := Store(Store(cleared, high, s.regs.pc / 0x100), low, s.regs.pc % 0x100);
    s.(regs := s.regs.(sp := low, pc := InterruptVector(i)), mem := pushed)
  }

  /** `cpu_handle_interrupts`: serve the lowest interrupt that is both
      enabled and requested, if any. */
  function InterruptsHandled(s: CpuState): CpuState
  {
    var requested := Bits.And8(s.mem[InterruptEnableAddress], s.mem[InterruptFlagAddress]);
    match ServedInterrupt(requested)
    case None => s
    case Some(i) => Serve(s, i)
  }

  /** The interrupts pending in a state: enabled in IE and requested in IF. */
  function Pending(s: CpuState): Byte
  {
    Bits.And8(s.mem[InterruptEnableAddress], s.mem[InterruptFlagAddress])
  }

  /** With nothing among bits 0..4 both enabled and requested, dispatch
      changes nothing; otherwise the lowest such interrupt is served: PC
      takes its vector, SP moves down by two, the old PC is the word on top
      of the stack, and the registers other than PC and SP, IME, `halted`
      and the cycle counts are unchanged. */
  lemma InterruptDispatch(s: CpuState)
    ensures var s' := InterruptsHandled(s);
      match ServedInterrupt(Pending(s))
      case None => s' == s
      case Some(i) =>
        Bits.Bit(s.mem[InterruptEnableAddress], i) && Bits.Bit(s.mem[InterruptFlagAddress], i)
        && s'.regs.pc == InterruptVector(i)
        && s'.regs.sp == (s.regs.sp as int - 2) % MemorySize
        && Load16(s'.mem, s'.regs.sp) == s.regs.pc
        && s'.regs.(pc := s.regs.pc, sp := s.regs.sp) == s.regs
        && s'.ime == s.ime && s'.halted == s.halted && s'.count == s.count && s'.counter == s.counter
  {
    match ServedInterrupt(Pending(s))
    case None =>
    case Some(i) =>
      DownTwoUpTwo(s.regs.sp);
      SplitPair(s.regs.pc);
  }

  /** Serving interrupt i clears bit i of IF and keeps its other bits, as
      long as the two stack bytes do not land on IF itself. */
  lemma InterruptClearsItsRequest(s: CpuState)
    requires ServedInterrupt(Pending(s)).Some?
    requires (s.regs.sp as int - 1) % MemorySize != InterruptFlagAddress
    requires (s.regs.sp as int - 2) % MemorySize != InterruptFlagAddress
    ensures var i := ServedInterrupt(Pending(s)).value;
      var before, after := s.mem[InterruptFlagAddress], InterruptsHandled(s).mem[InterruptFlagAddress];
      !Bits.Bit(after, i) && forall j: nat :: j < 8 && j != i ==> (Bits.Bit(after, j) <==> Bits.Bit(before, j))
  {
    var i := ServedInterrupt(Pending(s)).value;
    forall j: nat | j < 8
      ensures Bits.Bit(Bits.Not8(Bits.Mask(i)), j) <==> j != i
    {
      Bits.NotBit(Bits.Mask(i), j);
      Bits.Pow2Bit(i, j);
    }
  }

  /** RETI in the handler returns to where the interrupt struck: PC and SP
      are restored and IME is set. */
  lemma InterruptThenReturn(s: CpuState)
    requires ServedInterrupt(Pending(s)).Some?
    ensures var back := Execute(InterruptsHandled(s), 0xD9);
      back.regs.pc == s.regs.pc && back.regs.sp == s.regs.sp && back.ime
  {
    InterruptDispatch(s);
    DecodeReturnEnable(InterruptsHandled(s), 0xD9);
    DownTwoUpTwo(s.regs.sp);
  }

  /** The five copies of the dispatch code, one per interrupt. */
  method ServeInterrupt(cpu: Cpu, iflag: Byte, i: nat)
    requires cpu.Valid() && i < 5 && iflag == cpu.bus.Contents()[InterruptFlagAddress]
    modifies cpu, cpu.bus.memory
    ensures cpu.Valid() && cpu.State() == Serve(old(cpu.State()), i)
  {
    cpu.bus.Write8(InterruptFlagAddress, Bits.And8(iflag, Bits.Not8(Bits.Mask(i))));
    cpu.registers := cpu.registers.(sp := (cpu.registers.sp as int - 1) % MemorySize);
    cpu.bus.Write8(cpu.registers.sp, cpu.registers.pc / 0x100);
    cpu.registers := cpu.registers.(sp := (cpu.registers.sp as int - 1) % MemorySize);
    cpu.bus.Write8(cpu.registers.sp, cpu.registers.pc % 0x100);
    cpu.registers := cpu.registers.(pc := InterruptVector(i));
  }

  /** `cpu_handle_interrupts`: read IE and IF, and test the bits of their
      conjunction from 0 upwards. */
  method HandleInterrupts(cpu: Cpu)
    requires cpu.Valid()
    modifies cpu, cpu.bus.memory
    ensures cpu.Valid() && cpu.State() == InterruptsHandled(old(cpu.State()))
  {
    var ie := cpu.bus.Read8(InterruptEnableAddress);
    var iflag := cpu.bus.Read8(InterruptFlagAddress);
    var requested := Bits.And8(ie, iflag);
    Bits.MaskTest(requested, 0);
    Bits.MaskTest(requested, 1);
    Bits.MaskTest(requested, 2);
    Bits.MaskTest(requested, 3);
    Bits.MaskTest(requested, 4);
    if Bits.And8(requested, Bits.Mask(0)) != 0 {
      ServeInterrupt(cpu, iflag, 0);
    } else if Bits.And8(requested, Bits.Mask(1)) != 0 {
      ServeInterrupt(cpu, iflag, 1);
    } else if Bits.And8(requested, Bits.Mask(2)) != 0 {
      ServeInterrupt(cpu, iflag, 2);
    } else if Bits.And8(requested, Bits.Mask(3)) != 0 {
      ServeInterrupt(cpu, iflag, 3);
    } else if Bits.And8(requested, Bits.Mask(4)) != 0 {
      ServeInterrupt(cpu, iflag, 4);
    }
  }

  // ---------------------------------------------------------------------
  // Timers

  /** The TIMA frequency TAC bits 1..0 select, in Hz, as the emulator holds
      it: in a sixteen-bit variable, where 262144 and 65536 wrap to 0. */
  function AsWrittenTimerFrequency(tac: Byte): nat
  {
    var select := tac % 4;
    var freq := if select == 0 then 4096 else if select == 1 then 262144 else if select == 2 then 65536 else 16384;
    freq % 0x1_0000
  }

  /** The divisor the emulator applies to the cycle count between TIMA
      increments, `4194304 / freq`: a period in T-cycles. `None` where
      `freq` is 0 and the division is undefined. */
  function AsWrittenTimerPeriod(tac: Byte): Prefix.Option<nat>
  {
    var freq := AsWrittenTimerFrequency(tac);
    if freq == 0 then Prefix.None else Prefix.Some(4194304 / freq)
  }

  /** As written, the two fast timer modes divide by zero. */
  lemma AsWrittenTimerDividesByZero(tac: Byte)
    ensures AsWrittenTimerPeriod(tac).None? <==> tac % 4 == 1 || tac % 4 == 2
  {
  }

  /** `cpu_update_timers` exactly as written, on the M-cycle count `count`:
      DIV ticks when 256 divides the count and TIMA when the T-cycle period
      `4194304 / freq` does; `None` where that division is by zero. */
  function AsWrittenTimersUpdated(mem: Memory, count: nat): Prefix.Option<Memory>
  {
    var divided: Memory := if count % 256 == 0 then WithDivIncremented(mem) else mem;
    var tac := divided[TacAddress];
    if !Bits.Bit(tac, 2) then Prefix.Some(divided)
    else match AsWrittenTimerPeriod(tac)
      case None => Prefix.None
      case Some(period) =>
        var ticked: Memory := if count % period == 0 then TimaIncremented(divided) else divided;
        Prefix.Some(ticked)
  }

  /** The TIMA frequency TAC bits 1..0 select, in Hz. */
  function TimerFrequency(tac: Byte): nat
  {
    var select := tac % 4;
    if select == 0 then 4096 else if select == 1 then 262144 else if select == 2 then 65536 else 16384
  }

  /** The M-cycles between TIMA increments: the M-cycle clock, 4194304 / 4
      Hz, divided by the selected frequency. */
  function TimerPeriod(tac: Byte): nat
  {
    1048576 / TimerFrequency(tac)
  }

  /** The M-cycles between DIV increments: DIV runs at 16384 Hz. */
  const DivPeriod: nat := 64

  /** TIMA counts every 256, 4, 16 or 64 M-cycles for TAC modes 0, 1, 2
      and 3, and DIV every 64: at the selected frequency, and at 16384 Hz,
      of a 4194304 Hz clock with four T-cycles to the M-cycle. */
  lemma TimerPeriods(tac: Byte)
    ensures TimerPeriod(tac) == [256, 4, 16, 64][tac % 4]
    ensures 4 * TimerPeriod(tac) * TimerFrequency(tac) == 4194304
    ensures 4 * DivPeriod * 16384 == 4194304
  {
  }

  /** Where the emulator's division is defined, its divisor is four times
      the M-cycle period: a T-cycle period applied to an M-cycle count. */
  lemma AsWrittenTimerPeriodInTCycles(tac: Byte)
    requires tac % 4 == 0 || tac % 4 == 3
    ensures AsWrittenTimerPeriod(tac) == Prefix.Some(4 * TimerPeriod(tac))
  {
  }

  /** As written, the timers lag: after 256 M-cycles in mode 0, TIMA should
      tick and does not, and after 64 M-cycles DIV should tick and does
      not. */
  lemma AsWrittenTimersLag(mem: Memory)
    requires mem[TacAddress] == 0x04 && mem[TimaAddress] == 0
    ensures TimersUpdated(mem, 256)[TimaAddress] == 1
    ensures AsWrittenTimersUpdated(mem, 256) == Prefix.Some(WithDivIncremented(mem))
    ensures TimersUpdated(mem, 64)[DivAddress] == (mem[DivAddress] as int + 1) % 0x100
    ensures AsWrittenTimersUpdated(mem, 64) == Prefix.Some(mem)
  {
    Bits.Pow2Bit(2, 2);
    TimerPeriods(0x04);
    AsWrittenTimerPeriodInTCycles(0x04);
  }

  /** In the modes where it is defined, the emulator's update at a count
      that is a multiple of four is the intended update at a quarter of that
      count: its timers run four times too slowly. */
  lemma AsWrittenTimersQuarterSpeed(mem: Memory, count: nat)
    requires count % 4 == 0
    requires !Bits.Bit(mem[TacAddress], 2) || mem[TacAddress] % 4 == 0 || mem[TacAddress] % 4 == 3
    ensures AsWrittenTimersUpdated(mem, count) == Prefix.Some(TimersUpdated(mem, count / 4))
  {
    var quarter := count / 4;
    assert count == 4 * quarter;
    assert count % 256 == 0 <==> quarter % DivPeriod == 0;
    var divided := DivTicked(mem, quarter);
    assert divided[TacAddress] == mem[TacAddress];
    var tac := mem[TacAddress];
    if Bits.Bit(tac, 2) {
      AsWrittenTimerPeriodInTCycles(tac);
      TimerPeriods(tac);
      var period := TimerPeriod(tac);
      assert count % (4 * period) == 0 <==> quarter % period == 0;
    }
  }

  /** `cpu_update_timers` on memory, for the running cycle count `count`
      in M-cycles: DIV ticks every `DivPeriod` M-cycles; when TAC enables
      the timer and its period divides `count`, TIMA ticks, and on wrapping
      to 0 it is reloaded from TMA and the timer interrupt (IF bit 2) is
      requested. */
  function TimersUpdated(mem: Memory, count: nat): Memory
  {
    TimaTicked(DivTicked(mem, count), count)
  }

  /** The DIV half of a timer update. */
  function DivTicked(mem: Memory, count: nat): Memory
  {
    if count % DivPeriod == 0 then WithDivIncremented(mem) else mem
  }

  /** The TIMA half of a timer update, after DIV has ticked. */
  function TimaTicked(mem: Memory, count: nat): Memory
  {
    var tac := mem[TacAddress];
    if Bits.Bit(tac, 2) && count % TimerPeriod(tac) == 0 then TimaIncremented(mem) else mem
  }

  /** One TIMA tick: TIMA grows by one, and on wrapping to 0 it is reloaded
      from TMA and IF bit 2 is set. */
  function TimaIncremented(mem: Memory): Memory
  {
    var tima := (mem[TimaAddress] as int + 1) % 0x100;
    if tima == 0 then
      var flagged := Store(mem, InterruptFlagAddress, Bits.Or8(mem[InterruptFlagAddress], Bits.Mask(2)));
      Store(flagged, TimaAddress, flagged[TmaAddress])
    else
      Store(mem, TimaAddress, tima)
  }

  /** Whether TIMA ticks on this update: TAC bit 2 set and the period of
      the selected mode dividing the cycle count. */
  predicate TimaDue(mem: Memory, count: nat)
  {
    Bits.Bit(mem[TacAddress], 2) && count % TimerPeriod(mem[TacAddress]) == 0
  }

  /** What one timer update does: DIV grows by one (modulo 256) exactly
      when the count is a multiple of 256; TIMA grows by one when due, or
      is reloaded from TMA when it overflows; IF gains bit 2 exactly on
      that overflow and keeps its other bits; nothing else in memory
      changes. */
  lemma TimerUpdate(mem: Memory, count: nat)
    ensures var after := TimersUpdated(mem, count);
      var due := TimaDue(mem, count);
      var overflow := due && mem[TimaAddress] == 0xFF;
      && after[DivAddress] == (if count % DivPeriod == 0 then (mem[DivAddress] as int + 1) % 0x100 else mem[DivAddress])
      && after[TimaAddress] == (if !due then mem[TimaAddress] else if overflow then mem[TmaAddress] else mem[TimaAddress] as int + 1)
      && (Bits.Bit(after[InterruptFlagAddress], 2) <==> Bits.Bit(mem[InterruptFlagAddress], 2) || overflow)
      && (forall j: nat :: j != 2 ==> (Bits.Bit(after[InterruptFlagAddress], j) <==> Bits.Bit(mem[InterruptFlagAddress], j)))
      && forall a :: 0 <= a < MemorySize && a != DivAddress && a != TimaAddress && a != InterruptFlagAddress ==> after[a] == mem[a]
  {
    var due := TimaDue(mem, count);
    var overflow := due && mem[TimaAddress] == 0xFF;
    var iflag := mem[InterruptFlagAddress];
    var after := TimersUpdated(mem, count);
    if overflow {
      forall j: nat
        ensures Bits.Bit(after[InterruptFlagAddress], j) <==> Bits.Bit(iflag, j) || j == 2
      {
        Bits.Pow2Bit(2, j);
      }
    } else {
      assert after[InterruptFlagAddress] == iflag;
    }
  }

  /** `cpu_update_timers`, with the frequency held wide enough and the
      periods counted in M-cycles. */
  method UpdateTimers(cpu: Cpu)
    requires cpu.Valid()
    modifies cpu.bus.memory
    ensures cpu.Valid() && cpu.State() == old(cpu.State()).(mem := TimersUpdated(old(cpu.bus.Contents()), cpu.count))
  {
    if cpu.count % DivPeriod == 0 {
      cpu.bus.IncrementDiv();
    }
    TickTima(cpu);
  }

  /** The TAC test and TIMA tick of `cpu_update_timers`. */
  method TickTima(cpu: Cpu)
    requires cpu.Valid()
    modifies cpu.bus.memory
    ensures cpu.Valid() && cpu.bus.Contents() == TimaTicked(old(cpu.bus.Contents()), cpu.count)
  {
    var tac := cpu.bus.Read8(TacAddress);
    Bits.MaskTest(tac, 2);
    if Bits.And8(tac, Bits.Mask(2)) != 0 {
      var freq := 4096;
      var select := tac % 4;
      if select == 0 {
        freq := 4096;
      } else if select == 1 {
        freq := 262144;
      } else if select == 2 {
        freq := 65536;
      } else {
        freq := 16384;
      }
      if cpu.count % (1048576 / freq) == 0 {
        var tima := cpu.bus.Read8(TimaAddress);
        tima := (tima as int + 1) % 0x100;
        if tima == 0 {
          var iflag := cpu.bus.Read8(InterruptFlagAddress);
          cpu.bus.Write8(InterruptFlagAddress, Bits.Or8(iflag, Bits.Mask(2)));
          tima := cpu.bus.Read8(TmaAddress);
        }
        cpu.bus.Write8(TimaAddress, tima);
      }
    }
  }

  // ---------------------------------------------------------------------
  // Cycles

  /** `op_tcycles`, one row of sixteen per high nibble: the T-cycles of
      each unprefixed opcode (the not-taken time for conditional
      branches). */
  const OpTcyclesTable: seq<seq<nat>> := [
    [4, 12, 8, 8, 4, 4, 8, 4, 20, 8, 8, 8, 4, 4, 8, 4],
    [4, 12, 8, 8, 4, 4, 8, 4, 8, 8, 8, 8, 4, 4, 8, 4],
    [8, 12, 8, 8, 4, 4, 8, 4, 8, 8, 8, 8, 4, 4, 8, 4],
    [8, 12, 8, 8, 12, 12, 12, 4, 8, 8, 8, 8, 4, 4, 8, 4],
    [4, 4, 4, 4, 4, 4, 8, 4, 4, 4, 4, 4, 4, 4, 8, 4],
    [4, 4, 4, 4, 4, 4, 8, 4, 4, 4, 4, 4, 4, 4, 8, 4],
    [4, 4, 4, 4, 4, 4, 8, 4, 4, 4, 4, 4, 4, 4, 8, 4],
    [8, 8, 8, 8, 8, 8, 4, 8, 4, 4, 4, 4, 4, 4, 8, 4],
    [4, 4, 4, 4, 4, 4, 8, 4, 4, 4, 4, 4, 4, 4, 8, 4],
    [4, 4, 4, 4, 4, 4, 8, 4, 4, 4, 4, 4, 4, 4, 8, 4],
    [4, 4, 4, 4, 4, 4, 8, 4, 4, 4, 4, 4, 4, 4, 8, 4],
    [4, 4, 4, 4, 4, 4, 8, 4, 4, 4, 4, 4, 4, 4, 8, 4],
    [8, 12, 12, 12, 12, 16, 8, 32, 8, 8, 12, 8, 12, 12, 8, 32],
    [8, 12, 12, 0, 12, 16, 8, 32, 8, 8, 12, 0, 12, 0, 8, 32],
    [12, 12, 8, 0, 0, 16, 8, 32, 16, 4, 16, 0, 0, 0, 8, 32],
    [12, 12, 8, 4, 0, 16, 8, 32, 12, 8, 16, 4, 0, 0, 8, 32]
  ]

  /** `op_tcycles[opcode]` */
  function OpTcycles(opcode: Byte): nat
  {
    OpTcyclesTable[opcode / 0x10][opcode % 0x10]
  }

  /** Every entry is a whole number of M-cycles from the set the table
      uses (0, 4, 8, 12, 16, 20 or 32), and the entry is 0 exactly for the
      opcodes the emulator has no case for. */
  lemma OpTcyclesShape(opcode: Byte)
    ensures OpTcycles(opcode) in {0, 4, 8, 12, 16, 20, 32}
    ensures OpTcycles(opcode) == 0 <==> Unused(opcode)
  {
    var high, low := opcode / 0x10, opcode % 0x10;
    assert opcode == 0x10 * high + low;
    if high < 0xD {
      RowNonZero(high);
      assert !Unused(opcode);
    } else {
      RowWithZeros(high);
    }
  }

  /** Rows 0x0..0xC of `op_tcycles` hold only non-zero entries from the
      table's set. */
  lemma RowNonZero(high: nat)
    requires high < 0xD
    ensures |OpTcyclesTable[high]| == 0x10
    ensures forall low :: 0 <= low < 0x10 ==> OpTcyclesTable[high][low] in {4, 8, 12, 16, 20, 32}
  {
  }

  /** Rows 0xD..0xF of `op_tcycles` hold entries from the table's set,
      with zeros exactly at the unused opcodes. */
  lemma RowWithZeros(high: nat)
    requires 0xD <= high < 0x10
    ensures |OpTcyclesTable[high]| == 0x10
    ensures forall low :: 0 <= low < 0x10 ==> OpTcyclesTable[high][low] in {0, 4, 8, 12, 16, 32}
    ensures forall low :: 0 <= low < 0x10 ==> (OpTcyclesTable[high][low] == 0 <==> Unused(0x10 * high + low))
  {
    if high == 0xD {
      assert OpTcyclesTable[high] == [8, 12, 12, 0, 12, 16, 8, 32, 8, 8, 12, 0, 12, 0, 8, 32];
    } else if high == 0xE {
      assert OpTcyclesTable[high] == [12, 12, 8, 0, 0, 16, 8, 32, 16, 4, 16, 0, 0, 0, 8, 32];
    } else {
      assert OpTcyclesTable[high] == [12, 12, 8, 4, 0, 16, 8, 32, 12, 8, 16, 4, 0, 0, 8, 32];
    }
  }

  // ---------------------------------------------------------------------
  // The step

  /** The part of `cpu_step` that runs an instruction: fetch the opcode at
      PC, set the cycle counter from `op_tcycles` (in M-cycles), execute,
      update the timers, add the counter to the running count and clear
      it. */
  function Run(s: CpuState): CpuState
  {
    var opcode := Immediate8(s);
    var executed := Execute(Advanced(s, 1).(counter := OpTcycles(opcode) / 4), opcode);
    var timed := executed.(mem := TimersUpdated(executed.mem, executed.count));
    timed.(count := timed.count + timed.counter, counter := 0)
  }

  /** `cpu_step`: interrupts first when IME is set; a halted CPU updates
      the timers and, with an enabled interrupt requested, leaves HALT and
      runs an instruction, otherwise only counts one cycle. */
  function Stepped(s: CpuState): CpuState
  {
    var s1 := if s.ime then InterruptsHandled(s) else s;
    if !s1.halted then Run(s1)
    else
      var timed := s1.(mem := TimersUpdated(s1.mem, s1.count));
      if Pending(timed) != 0 then Run(timed.(halted := false))
      else timed.(count := timed.count + 1)
  }

  /** Running an instruction adds its cycles to the count and clears the
      counter: `op_tcycles[opcode] / 4` M-cycles, but for CB-prefixed
      opcodes the CB table's entry in T-cycles. */
  lemma RunCycles(s: CpuState)
    ensures var opcode := Immediate8(s);
      Run(s).count == s.count + (if opcode == 0xCB then CbOpTcycles(s.mem[Next(s.regs.pc)]) else OpTcycles(opcode) / 4)
    ensures Run(s).counter == 0
  {
    var opcode := Immediate8(s);
    var before := Advanced(s, 1).(counter := OpTcycles(opcode) / 4);
    Properties.ExecuteFrame(before, opcode);
  }

  /** A halted CPU with no interrupt to dispatch (IME clear, or none of
      bits 0..4 both enabled and requested) and nothing pending after the
      timer update stays halted: only the timers change, the registers (PC
      included) do not, and the count grows by one. */
  lemma HaltedWaits(s: CpuState)
    requires s.halted && (s.ime ==> ServedInterrupt(Pending(s)).None?)
    requires Pending(s.(mem := TimersUpdated(s.mem, s.count))) == 0
    ensures var s' := Stepped(s);
      s'.halted && s'.regs == s.regs && s'.count == s.count + 1 && s'.mem == TimersUpdated(s.mem, s.count)
  {
  }

  /** Executing HALT (0x76) with IME clear latches `halted`, moves PC just
      past the opcode, leaves the other registers alone and adds one
      M-cycle to the count. */
  lemma HaltStops(s: CpuState)
    requires !s.ime && !s.halted && Immediate8(s) == 0x76
    ensures var s' := Stepped(s);
      s'.halted && s'.regs == s.regs.(pc := Next(s.regs.pc)) && s'.count == s.count + 1
  {
  }

  /** The part of `cpu_step` after the HALT check. */
  method RunInstruction(cpu: Cpu)
    requires cpu.Valid()
    modifies cpu, cpu.bus.memory
    ensures cpu.Valid() && cpu.State() == Run(old(cpu.State()))
  {
    var opcode := cpu.FetchByte();
    cpu.counter := OpTcycles(opcode) / 4;
    Interpreter.InstructionExecute(cpu, opcode);
    UpdateTimers(cpu);
    cpu.count := cpu.count + cpu.counter;
    cpu.counter := 0;
  }

  /** `cpu_step` */
  method CpuStep(cpu: Cpu)
    requires cpu.Valid()
    modifies cpu, cpu.bus.memory
    ensures cpu.Valid() && cpu.State() == Stepped(old(cpu.State()))
  {
    if cpu.ime {
      HandleInterrupts(cpu);
    }
    if cpu.halted {
      UpdateTimers(cpu);
      var ie := cpu.bus.Read8(InterruptEnableAddress);
      var iflag := cpu.bus.Read8(InterruptFlagAddress);
      if Bits.And8(ie, iflag) != 0 {
        cpu.halted := false;
      } else {
        cpu.count := cpu.count + 1;
        return;
      }
    }
    RunInstruction(cpu);
  }
}
