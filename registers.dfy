/**
  The SM83 register file: eight-bit registers A, B, C, D, E, H, L, the flag
  register F kept as four booleans, and the sixteen-bit PC and SP; the packing
  of the flags into the byte F, and the sixteen-bit register pairs read by name.
*/
module Registers {

  /** `uint8_t` */
  type Byte = x: int | 0 <= x < 0x100
  /** `uint16_t` */
  type Word = x: int | 0 <= x < 0x1_0000

  /** The four flags; in the byte F they sit at bits 7, 6, 5 and 4. */
  datatype Flags = Flags(zero: bool, subtract: bool, halfCarry: bool, carry: bool)

  datatype Registers = Registers(
    a: Byte, b: Byte, c: Byte, d: Byte, e: Byte, f: Flags, h: Byte, l: Byte,
    pc: Word, sp: Word)

  /** A register pair made of a high and a low byte: `(hi << 8) | lo`. */
  function Pair(hi: Byte, lo: Byte): Word
  {
    hi * 0x100 + lo
  }

  lemma PairHalves(hi: Byte, lo: Byte)
    ensures Pair(hi, lo) / 0x100 == hi && Pair(hi, lo) % 0x100 == lo
  {
  }

  lemma SplitPair(v: Word)
    ensures Pair(v / 0x100, v % 0x100) == v
  {
  }

  function BoolBit(b: bool): (r: Byte)
    ensures r < 2 && (r == 1 <==> b)
  {
    if b then 1 else 0
  }

  /** `flags_register_to_byte`: zero, subtract, half-carry and carry go to
      bits 7, 6, 5 and 4; the low nibble is always clear. */
  function FlagsToByte(flags: Flags): (r: Byte)
    ensures r % 0x10 == 0
    ensures (r / 0x80) % 2 == 1 <==> flags.zero
    ensures (r / 0x40) % 2 == 1 <==> flags.subtract
    ensures (r / 0x20) % 2 == 1 <==> flags.halfCarry
    ensures (r / 0x10) % 2 == 1 <==> flags.carry
  {
    BoolBit(flags.zero) * 0x80 + BoolBit(flags.subtract) * 0x40
      + BoolBit(flags.halfCarry) * 0x20 + BoolBit(flags.carry) * 0x10
  }

  /** `byte_to_flags_register`: each flag is `(byte >> position) & 1`; the low
      nibble of the byte is ignored. */
  function ByteToFlags(byte: Byte): (flags: Flags)
    ensures flags.zero <==> byte >= 0x80
    ensures flags.carry <==> (byte / 0x10) % 2 == 1
    ensures FlagsToByte(flags) == byte - byte % 0x10
  {
    FlagsKeepHighNibble(byte);
    Flags((byte / 0x80) % 2 == 1, (byte / 0x40) % 2 == 1,
          (byte / 0x20) % 2 == 1, (byte / 0x10) % 2 == 1)
  }

  /** Decoding the packed byte gives back the four flags. */
  lemma FlagsRoundTrip(flags: Flags)
    ensures ByteToFlags(FlagsToByte(flags)) == flags
  {
  }

  /** Packing decoded flags keeps exactly the high nibble: `byte & 0xF0`. */
  lemma FlagsKeepHighNibble(byte: Byte)
    ensures var flags := Flags((byte / 0x80) % 2 == 1, (byte / 0x40) % 2 == 1,
                               (byte / 0x20) % 2 == 1, (byte / 0x10) % 2 == 1);
            FlagsToByte(flags) == byte - byte % 0x10
  {
    var hi := byte / 0x10;
    assert 0 <= hi < 0x10;
    if hi < 8 {
      if hi < 4 { if hi < 2 { if hi == 0 {} else {} } else { if hi == 2 {} else {} } }
      else { if hi < 6 { if hi == 4 {} else {} } else { if hi == 6 {} else {} } }
    } else {
      if hi < 12 { if hi < 10 { if hi == 8 {} else {} } else { if hi == 10 {} else {} } }
      else { if hi < 14 { if hi == 12 {} else {} } else { if hi == 14 {} else {} } }
    }
  }

  /** The names `cpu_read_register_16bit` and `cpu_write_register_16bit`
      compare their string argument against: "af", "bc", "de", "hl", "pc" and
      "sp"; `Other` stands for any other string. */
  datatype RegisterName = AF | BC | DE | HL | PC | SP | Other

  /** `cpu_read_register_16bit`: AF, BC, DE and HL are composed from their
      halves, the first register being the high byte; any other name, PC and
      SP included, reads as 0. */
  function Read16(r: Registers, name: RegisterName): Word
  {
    match name
    case AF => Pair(r.a, FlagsToByte(r.f))
    case BC => Pair(r.b, r.c)
    case DE => Pair(r.d, r.e)
    case HL => Pair(r.h, r.l)
    case _ => 0
  }

  /** The high byte of a pair read is its first register, the low byte its
      second; the AF low byte is the packed flags. */
  lemma Read16Halves(r: Registers, name: RegisterName)
    ensures name == AF ==> Read16(r, name) / 0x100 == r.a && Read16(r, name) % 0x100 == FlagsToByte(r.f)
    ensures name == BC ==> Read16(r, name) / 0x100 == r.b && Read16(r, name) % 0x100 == r.c
    ensures name == DE ==> Read16(r, name) / 0x100 == r.d && Read16(r, name) % 0x100 == r.e
    ensures name == HL ==> Read16(r, name) / 0x100 == r.h && Read16(r, name) % 0x100 == r.l
    ensures name in {PC, SP, Other} ==> Read16(r, name) == 0
  {
    match name
    case AF => PairHalves(r.a, FlagsToByte(r.f));
    case BC => PairHalves(r.b, r.c);
    case DE => PairHalves(r.d, r.e);
    case HL => PairHalves(r.h, r.l);
    case _ =>
  }

  /** `cpu_write_register_16bit` on the register file as a value. The high
      byte goes to the first register of the pair and the low byte to the
      second; for AF the low byte is decoded into the flags; PC and SP take the
      whole word; any other name changes nothing. */
  function Write16(r: Registers, name: RegisterName, value: Word): Registers
  {
    match name
    case AF => r.(a := value / 0x100, f := ByteToFlags(value % 0x100))
    case BC => r.(b := value / 0x100, c := value % 0x100)
    case DE => r.(d := value / 0x100, e := value % 0x100)
    case HL => r.(h := value / 0x100, l := value % 0x100)
    case PC => r.(pc := value)
    case SP => r.(sp := value)
    case Other => r
  }

  /** Reading a pair back after writing it: the value itself for BC, DE and
      HL, `value & 0xFFF0` for AF (the flag byte has no low nibble), and 0 for
      PC, SP and unknown names, which the reader does not know. */
  lemma WriteThenRead16(r: Registers, name: RegisterName, value: Word)
    ensures name in {BC, DE, HL} ==> Read16(Write16(r, name, value), name) == value
    ensures name == AF ==> Read16(Write16(r, name, value), name) == value - value % 0x10
    ensures name in {PC, SP, Other} ==> Read16(Write16(r, name, value), name) == 0
  {
    if name == AF {
      WriteThenReadAf(r, value);
    } else {
      SplitPair(value);
    }
  }

  /** The AF case of WriteThenRead16: the low nibble of the flag byte reads
      back as zero. */
  lemma WriteThenReadAf(r: Registers, value: Word)
    ensures Read16(Write16(r, AF, value), AF) == value - value % 0x10
  {
    SplitPair(value);
    var lo: Byte := value % 0x100;
    assert FlagsToByte(ByteToFlags(lo)) == lo - lo % 0x10;
    assert value % 0x10 == lo % 0x10;
  }

  /** Writing a pair changes its two halves and nothing else (for PC and SP,
      that register and nothing else; for an unknown name, nothing). */
  lemma WriteChangesOnlyItsHalves(r: Registers, name: RegisterName, value: Word)
    ensures var w := Write16(r, name, value);
      match name
      case AF => w.(a := r.a, f := r.f) == r
      case BC => w.(b := r.b, c := r.c) == r
      case DE => w.(d := r.d, e := r.e) == r
      case HL => w.(h := r.h, l := r.l) == r
      case PC => w.(pc := r.pc) == r
      case SP => w.(sp := r.sp) == r
      case Other => w == r
  {
  }

  /** Writing one pair leaves the other pairs reading the same. */
  lemma WriteLeavesOtherPairs(r: Registers, name: RegisterName, other: RegisterName, value: Word)
    requires name != other
    ensures Read16(Write16(r, name, value), other) == Read16(r, other)
  {
  }

  /** The register file with pair `name` incremented, as
      `cpu_increment_register_16bit` leaves it: read, add one with 16-bit
      wrap-around, write back. */
  function Incremented16(r: Registers, name: RegisterName): Registers
  {
    Write16(r, name, (Read16(r, name) + 1) % 0x1_0000)
  }

  /** `cpu_decrement_register_16bit`: read, subtract one with 16-bit
      wrap-around, write back. */
  function Decremented16(r: Registers, name: RegisterName): Registers
  {
    Write16(r, name, (Read16(r, name) - 1) % 0x1_0000)
  }

  /** Increment of BC, DE and HL wraps from 0xFFFF to 0x0000. */
  lemma IncrementWrap(r: Registers, name: RegisterName)
    requires name in {BC, DE, HL}
    ensures Read16(Incremented16(r, name), name) == (Read16(r, name) + 1) % 0x1_0000
    ensures Read16(r, name) == 0xFFFF ==> Read16(Incremented16(r, name), name) == 0
  {
    var v: int := Read16(r, name);
    var up: Word := if v == 0xFFFF then 0 else v + 1;
    assert (v + 1) % 0x1_0000 == up;
    WriteThenRead16(r, name, up);
  }

  /** Decrement of BC, DE and HL wraps from 0x0000 to 0xFFFF. */
  lemma DecrementWrap(r: Registers, name: RegisterName)
    requires name in {BC, DE, HL}
    ensures Read16(Decremented16(r, name), name) == (Read16(r, name) - 1) % 0x1_0000
    ensures Read16(r, name) == 0 ==> Read16(Decremented16(r, name), name) == 0xFFFF
  {
    var v: int := Read16(r, name);
    var down: Word := if v == 0 then 0xFFFF else v - 1;
    assert (v - 1) % 0x1_0000 == down;
    WriteThenRead16(r, name, down);
  }

  /** On BC, DE and HL increment and decrement undo each other, including
      across the wrap between 0xFFFF and 0x0000. */
  lemma IncrementDecrementInverse(r: Registers, name: RegisterName)
    requires name in {BC, DE, HL}
    ensures Decremented16(Incremented16(r, name), name) == r
    ensures Incremented16(Decremented16(r, name), name) == r
  {
    var v: int := Read16(r, name);
    var up: Word := if v == 0xFFFF then 0 else v + 1;
    var down: Word := if v == 0 then 0xFFFF else v - 1;
    assert (v + 1) % 0x1_0000 == up && (up - 1) % 0x1_0000 == v;
    assert (v - 1) % 0x1_0000 == down && (down + 1) % 0x1_0000 == v;
    var inc := Write16(r, name, up);
    assert Incremented16(r, name) == inc;
    StepBack(r, name, up, v, -1);
    assert Decremented16(inc, name) == r;
    var dec := Write16(r, name, down);
    assert Decremented16(r, name) == dec;
    StepBack(r, name, down, v, 1);
    assert Incremented16(dec, name) == r;
  }

  /** Writing `w` and then adding `delta` to what reads back lands on `v`,
      the pair's old value, so the register file is as before. */
  lemma StepBack(r: Registers, name: RegisterName, w: Word, v: Word, delta: int)
    requires name in {BC, DE, HL} && v == Read16(r, name)
    requires (w + delta) % 0x1_0000 == v
    ensures Write16(Write16(r, name, w), name, (Read16(Write16(r, name, w), name) + delta) % 0x1_0000) == r
  {
    WriteThenRead16(r, name, w);
    Read16Halves(r, name);
  }

  /** `cpu_increment_register_16bit(regs, "pc")` reads "pc" as 0, so it sets PC
      to 1 whatever PC held (the emulator never calls it so). */
  lemma IncrementPcSetsOne(r: Registers)
    ensures Incremented16(r, PC).pc == 1
  {
  }

  /** The eight-bit registers an instruction can name (F is reached only
      through the flags). */
  datatype Register8 = B | C | D | E | H | L | A

  function Get(r: Registers, name: Register8): Byte
  {
    match name
    case B => r.b
    case C => r.c
    case D => r.d
    case E => r.e
    case H => r.h
    case L => r.l
    case A => r.a
  }

  /** The register file with one eight-bit register replaced. */
  function Set(r: Registers, name: Register8, value: Byte): (r': Registers)
    ensures Get(r', name) == value
    ensures forall other :: other != name ==> Get(r', other) == Get(r, other)
    ensures r'.f == r.f && r'.pc == r.pc && r'.sp == r.sp
  {
    match name
    case B => r.(b := value)
    case C => r.(c := value)
    case D => r.(d := value)
    case E => r.(e := value)
    case H => r.(h := value)
    case L => r.(l := value)
    case A => r.(a := value)
  }
}
