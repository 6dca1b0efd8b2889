/**
  The value computations of the SM83 instructions, as `instruction_execute`
  and `prefix_instruction_execute` perform them on the accumulator, on
  single registers and on register pairs.

  Each function computes its result the way the emulator does (sums held in
  a wider unsigned integer and then masked, flags from comparisons of
  nibbles); its contract states what that result means: the carry flag is
  the bit carried out of (or borrowed into) the byte, the half-carry flag
  the one carried out of bit 3, and so on.
*/
module Alu {
  import opened Registers
  import Bits

  /** An eight-bit result together with the new flags. */
  datatype Result8 = Result8(value: Byte, flags: Flags)

  /** A sixteen-bit result together with the new flags. */
  datatype Result16 = Result16(value: Word, flags: Flags)

  /** A byte shifted or rotated, and the bit that fell out of it. */
  datatype Shifted = Shifted(value: Byte, out: bool)

  /** `(int8_t)e`: the byte read as a two's complement number. */
  function Signed(e: Byte): (s: int)
    ensures -0x80 <= s < 0x80
    ensures s % 0x100 == e
  {
    if e < 0x80 then e else e - 0x100
  }

  /** ADD and ADC: `result = a + v + cin` in sixteen bits; A gets its low
      byte, Z whether that byte is 0, H whether the nibbles overflow, C
      whether the sum exceeds 0xFF. */
  function Add(a: Byte, v: Byte, carryIn: bool): (r: Result8)
    ensures r.value + 0x100 * BoolBit(r.flags.carry) == a + v + BoolBit(carryIn)
    ensures a % 0x10 + v % 0x10 + BoolBit(carryIn) == r.value % 0x10 + 0x10 * BoolBit(r.flags.halfCarry)
    ensures r.flags.zero <==> r.value == 0
    ensures !r.flags.subtract
  {
    var result := a as int + v + BoolBit(carryIn);
    Result8(result % 0x100,
            Flags(result % 0x100 == 0, false, a % 0x10 + v % 0x10 + BoolBit(carryIn) > 0xF, result > 0xFF))
  }

  /** SUB and SBC: `result = a - v - cin` in sixteen-bit unsigned arithmetic;
      C is set when that wrapped result exceeds 0xFF, H when the low nibble of
      A is smaller than that of the subtrahend plus the carry. */
  function Sub(a: Byte, v: Byte, carryIn: bool): (r: Result8)
    ensures r.value == a - v - BoolBit(carryIn) + 0x100 * BoolBit(r.flags.carry)
    ensures r.value % 0x10 == a % 0x10 - v % 0x10 - BoolBit(carryIn) + 0x10 * BoolBit(r.flags.halfCarry)
    ensures r.flags.zero <==> r.value == 0
    ensures r.flags.subtract
  {
    var result := (a as int - v - BoolBit(carryIn)) % 0x1_0000;
    Borrows(a, v, BoolBit(carryIn));
    Result8(result % 0x100,
            Flags(result % 0x100 == 0, true, a % 0x10 < v % 0x10 + BoolBit(carryIn), result > 0xFF))
  }

  /** How the wrapped sixteen-bit difference relates to the borrows out of
      the byte and out of the low nibble. */
  lemma Borrows(a: Byte, v: Byte, c: nat)
    requires c < 2
    ensures var result := (a - v - c) % 0x1_0000;
      (result > 0xFF <==> a < v + c) &&
      result % 0x100 == a - v - c + (if a < v + c then 0x100 else 0) &&
      (result % 0x100) % 0x10 == a % 0x10 - v % 0x10 - c + (if a % 0x10 < v % 0x10 + c then 0x10 else 0)
  {
    var d := a - v - c;
    var result := d % 0x1_0000;
    var low := result % 0x100;
    if d < 0 {
      assert result == d + 0x1_0000;
      assert low == d + 0x100;
    } else {
      assert result == d && low == d;
    }
    var nibble := a % 0x10 - v % 0x10 - c;
    assert d == 0x10 * (a / 0x10 - v / 0x10) + nibble;
    assert low % 0x10 == nibble % 0x10;
  }

  /** CP: the flags of SUB without storing the difference. */
  function Compare(a: Byte, v: Byte): (flags: Flags)
    ensures flags.zero <==> a == v
    ensures flags.carry <==> a < v
    ensures flags.halfCarry <==> a % 0x10 < v % 0x10
    ensures flags.subtract
  {
    Sub(a, v, false).flags
  }

  /** SUB with the same operand and carry undoes ADD, and their carries
      agree: the addition carried out exactly when the subtraction borrows. */
  lemma SubUndoesAdd(a: Byte, v: Byte, carryIn: bool)
    ensures Sub(Add(a, v, carryIn).value, v, carryIn).value == a
    ensures Sub(Add(a, v, carryIn).value, v, carryIn).flags.carry == Add(a, v, carryIn).flags.carry
  {
  }

  /** AND: Z iff the result is 0, N = 0, H = 1, C = 0. */
  function And(a: Byte, v: Byte): (r: Result8)
    ensures forall i :: Bits.Bit(r.value, i) <==> Bits.Bit(a, i) && Bits.Bit(v, i)
    ensures r.flags == Flags(r.value == 0, false, true, false)
  {
    var value := Bits.And8(a, v);
    Result8(value, Flags(value == 0, false, true, false))
  }

  /** XOR: Z iff the result is 0, N = H = C = 0. */
  function Xor(a: Byte, v: Byte): (r: Result8)
    ensures forall i :: Bits.Bit(r.value, i) <==> Bits.Bit(a, i) != Bits.Bit(v, i)
    ensures r.flags == Flags(r.value == 0, false, false, false)
  {
    var value := Bits.Xor8(a, v);
    Result8(value, Flags(value == 0, false, false, false))
  }

  /** OR: Z iff the result is 0, N = H = C = 0. */
  function Or(a: Byte, v: Byte): (r: Result8)
    ensures forall i :: Bits.Bit(r.value, i) <==> Bits.Bit(a, i) || Bits.Bit(v, i)
    ensures r.flags == Flags(r.value == 0, false, false, false)
  {
    var value := Bits.Or8(a, v);
    Result8(value, Flags(value == 0, false, false, false))
  }

  /** ADD and ADC as the byte arithmetic they stand for: the result is the
      sum modulo 256, C is the carry out of bit 7 and H the carry out of
      bit 3. */
  lemma AddCarries(a: Byte, v: Byte, carryIn: bool)
    ensures var r, sum := Add(a, v, carryIn), a + v + BoolBit(carryIn);
      && r.value == sum % 0x100
      && (r.flags.carry <==> sum > 0xFF)
      && (r.flags.halfCarry <==> a % 0x10 + v % 0x10 + BoolBit(carryIn) > 0xF)
  {
    var r, sum := Add(a, v, carryIn), a + v + BoolBit(carryIn);
    assert r.value == sum - 0x100 * BoolBit(r.flags.carry);
  }

  /** SUB and SBC as the byte arithmetic they stand for: the result is the
      difference modulo 256, C is the borrow of the whole byte and H that of
      the low nibble. */
  lemma SubBorrows(a: Byte, v: Byte, carryIn: bool)
    ensures var r, difference := Sub(a, v, carryIn), a - v - BoolBit(carryIn);
      && r.value == difference % 0x100
      && (r.flags.carry <==> a < v + BoolBit(carryIn))
      && (r.flags.halfCarry <==> a % 0x10 < v % 0x10 + BoolBit(carryIn))
  {
    var r, difference := Sub(a, v, carryIn), a - v - BoolBit(carryIn);
    assert r.value == difference + 0x100 * BoolBit(r.flags.carry);
  }

  /** XOR of A with itself clears A and sets Z. */
  lemma XorSelfIsZero(a: Byte)
    ensures Xor(a, a) == Result8(0, Flags(true, false, false, false))
  {
    var r := Xor(a, a).value;
    Bits.Pow2Of8();
    Bits.BitsDetermine(r, 0, 8);
  }

  /** The eight accumulator operations selected by bits 5..3 of the opcodes
      0x80..0xBF and 0xC6..0xFE: ADD, ADC, SUB, SBC, AND, XOR, OR, CP. CP
      leaves A as it was. */
  function Arithmetic(operation: nat, a: Byte, v: Byte, flags: Flags): (r: Result8)
    requires operation < 8
    ensures operation == 7 ==> r.value == a
  {
    match operation
    case 0 => Add(a, v, false)
    case 1 => Add(a, v, flags.carry)
    case 2 => Sub(a, v, false)
    case 3 => Sub(a, v, flags.carry)
    case 4 => And(a, v)
    case 5 => Xor(a, v)
    case 6 => Or(a, v)
    case 7 => Result8(a, Compare(a, v))
  }

  /** INC r8: the operand grows by one modulo 256; N = 0, H when the low
      nibble carries (the new low nibble is 0); C is untouched. */
  function Increment(v: Byte, flags: Flags): (r: Result8)
    ensures r.value == if v == 0xFF then 0 else v + 1
    ensures r.flags.zero <==> r.value == 0
    ensures !r.flags.subtract
    ensures r.flags.halfCarry <==> v % 0x10 == 0xF
    ensures r.flags.carry == flags.carry
  {
    var value := (v as int + 1) % 0x100;
    Result8(value, flags.(zero := value == 0, subtract := false, halfCarry := value % 0x10 == 0))
  }

  /** DEC r8: the operand shrinks by one modulo 256; N = 1, H when the low
      nibble borrows (the new low nibble is 0xF); C is untouched. */
  function Decrement(v: Byte, flags: Flags): (r: Result8)
    ensures r.value == if v == 0 then 0xFF else v - 1
    ensures r.flags.zero <==> r.value == 0
    ensures r.flags.subtract
    ensures r.flags.halfCarry <==> v % 0x10 == 0
    ensures r.flags.carry == flags.carry
  {
    var value := (v as int - 1) % 0x100;
    Result8(value, flags.(zero := value == 0, subtract := true, halfCarry := value % 0x10 == 0xF))
  }

  /** DEC undoes INC on the operand. */
  lemma DecrementUndoesIncrement(v: Byte, flags: Flags)
    ensures Decrement(Increment(v, flags).value, flags).value == v
    ensures Increment(Decrement(v, flags).value, flags).value == v
  {
  }

  /** ADD HL,rr: `result = hl + v` in 32 bits; HL gets the low sixteen bits,
      H is the carry out of bit 11, C the carry out of bit 15, N = 0 and Z is
      untouched. */
  function AddWord(hl: Word, v: Word, flags: Flags): (r: Result16)
    ensures r.value + 0x1_0000 * BoolBit(r.flags.carry) == hl + v
    ensures hl % 0x1000 + v % 0x1000 == r.value % 0x1000 + 0x1000 * BoolBit(r.flags.halfCarry)
    ensures r.flags.zero == flags.zero && !r.flags.subtract
  {
    var result := hl as int + v;
    Result16(result % 0x1_0000,
             flags.(subtract := false, halfCarry := hl % 0x1000 + v % 0x1000 > 0xFFF, carry := result > 0xFFFF))
  }

  /** ADD SP,e8 and LD HL,SP+e8: SP plus the signed offset, wrapping at
      0x10000; Z = N = 0; H and C are the carries out of bits 3 and 7 of the
      unsigned addition of the offset byte to the low byte of SP. */
  function AddOffset(sp: Word, e: Byte): (r: Result16)
    ensures r.value == (sp + Signed(e)) % 0x1_0000
    ensures sp % 0x100 + e == r.value % 0x100 + 0x100 * BoolBit(r.flags.carry)
    ensures sp % 0x10 + e % 0x10 == r.value % 0x10 + 0x10 * BoolBit(r.flags.halfCarry)
    ensures !r.flags.zero && !r.flags.subtract
  {
    OffsetLowByte(sp, e);
    OffsetLowNibble(sp, e);
    var result := (sp + Signed(e)) % 0x1_0000;
    Result16(result, Flags(false, false, sp % 0x10 + e % 0x10 > 0xF, sp % 0x100 + e > 0xFF))
  }

  /** The low byte of SP plus a signed offset is that of the unsigned sum
      of the low byte of SP and the offset byte. */
  lemma OffsetLowByte(sp: Word, e: Byte)
    ensures ((sp + Signed(e)) % 0x1_0000) % 0x100 == (sp % 0x100 + e) % 0x100
  {
    var lo := sp % 0x100;
    var sum := lo + e;
    var carry := if sum >= 0x100 then 1 else 0;
    var t := sum - 0x100 * carry;
    var k := sp / 0x100 + carry - (if e < 0x80 then 0 else 1);
    assert sp + Signed(e) == 0x100 * k + t;
    var wrapped := if k < 0 then k + 0x100 else if k >= 0x100 then k - 0x100 else k;
    assert (sp + Signed(e)) % 0x1_0000 == 0x100 * wrapped + t;
    LowBits((sp + Signed(e)) % 0x1_0000, wrapped, t);
    LowBits(sum, carry, t);
  }

  /** The low nibble of SP plus a signed offset is that of the sum of the
      low nibbles of SP and of the offset byte. */
  lemma OffsetLowNibble(sp: Word, e: Byte)
    ensures ((sp + Signed(e)) % 0x1_0000) % 0x10 == (sp % 0x10 + e % 0x10) % 0x10
  {
    OffsetLowByte(sp, e);
    var r := (sp + Signed(e)) % 0x1_0000;
    LowBits(r, r / 0x100, r % 0x100);
    var lo := sp % 0x100;
    LowBits(lo + e, (lo + e) / 0x100, (lo + e) % 0x100);
    LowBits(sp, sp / 0x100, lo);
    NibbleOfSum(lo, e);
  }

  /** The low byte and low nibble of `0x100 * k + t` for a byte t. */
  lemma LowBits(x: int, k: int, t: int)
    requires 0 <= t < 0x100 && x == 0x100 * k + t
    ensures x % 0x100 == t && x % 0x10 == t % 0x10
  {
    assert x == 0x10 * (0x10 * k + t / 0x10) + t % 0x10;
  }

  /** The low nibble of a sum is that of the sum of the low nibbles. */
  lemma NibbleOfSum(a: nat, b: nat)
    ensures (a + b) % 0x10 == (a % 0x10 + b % 0x10) % 0x10
  {
    var low := a % 0x10 + b % 0x10;
    assert a + b == 0x10 * (a / 0x10 + b / 0x10) + low;
    if low >= 0x10 {
      assert a + b == 0x10 * (a / 0x10 + b / 0x10 + 1) + (low - 0x10);
    }
  }

  /** The low bits of the sign-extended offset are those of the byte: in the
      emulator `sn & 0xF` and `sn & 0xFF` on the widened offset. */
  lemma SignedLowBits(e: Byte)
    ensures Signed(e) % 0x10 == e % 0x10 && Signed(e) % 0x100 == e
  {
  }

  /** `pc += (int8_t)e` in sixteen bits, as JR does it: an offset below 0x80
      jumps forward by that many bytes, any other back by `0x100 - e`. */
  function Jump(pc: Word, e: Byte): (target: Word)
    ensures e < 0x80 ==> target == (pc + e) % 0x1_0000
    ensures e >= 0x80 ==> target == (pc + 0x1_0000 - (0x100 - e)) % 0x1_0000
  {
    (pc + Signed(e)) % 0x1_0000
  }

  /** DAA as the emulator writes it. After an addition (N = 0): add 0x60
      and set C when C is set or A > 0x99, then add 0x06 when H is set or
      the low nibble exceeds 9. After a subtraction (N = 1): subtract 0x60
      when C is set and 0x06 when H is set; C is kept. In both cases Z
      reflects the new A and H is cleared. */
  function DecimalAdjust(a: Byte, flags: Flags): (r: Result8)
    ensures r.flags.zero <==> r.value == 0
    ensures !r.flags.halfCarry && r.flags.subtract == flags.subtract
    ensures flags.carry ==> r.flags.carry
    ensures flags.subtract ==> r.flags.carry == flags.carry
  {
    if !flags.subtract then
      var high := flags.carry || a > 0x99;
      var a1 := if high then Wrap8(a as int + 0x60) else a;
      var a2 := if flags.halfCarry || a1 % 0x10 > 9 then Wrap8(a1 as int + 0x06) else a1;
      Result8(a2, flags.(zero := a2 == 0, halfCarry := false, carry := flags.carry || high))
    else
      var a1 := if flags.carry then Wrap8(a as int - 0x60) else a;
      var a2 := if flags.halfCarry then Wrap8(a1 as int - 0x06) else a1;
      Result8(a2, flags.(zero := a2 == 0, halfCarry := false))
  }

  /** A `uint8_t` assignment of a value at most one wrap away from a byte:
      `x` modulo 0x100. */
  function Wrap8(x: int): Byte
    requires -0x100 <= x < 0x200
  {
    if x < 0 then x + 0x100 else if x > 0xFF then x - 0x100 else x
  }

  /** A byte holding two decimal digits. */
  predicate IsDecimal(x: Byte)
  {
    x / 0x10 <= 9 && x % 0x10 <= 9
  }

  /** The number two decimal digits stand for. */
  function DecimalValue(x: Byte): nat
  {
    10 * (x / 0x10) + x % 0x10
  }

  /** DAA after ADD or ADC of two decimal bytes gives the decimal sum: its
      two digits are the sum modulo 100 and C says whether it reached 100. */
  lemma DecimalAdjustAfterAdd(a: Byte, b: Byte, carryIn: bool)
    requires IsDecimal(a) && IsDecimal(b)
    ensures var sum := Add(a, b, carryIn);
      var r := DecimalAdjust(sum.value, sum.flags);
      IsDecimal(r.value) &&
      DecimalValue(r.value) + 100 * BoolBit(r.flags.carry) == DecimalValue(a) + DecimalValue(b) + BoolBit(carryIn)
  {
    var high := a / 0x10 + b / 0x10;
    var low := a % 0x10 + b % 0x10 + BoolBit(carryIn);
    var sum := Add(a, b, carryIn);
    assert sum.value == (0x10 * high + low) % 0x100;
    assert sum.flags == Flags(sum.value == 0, false, low > 0xF, 0x10 * high + low > 0xFF);
    DecimalAdjustOfDigitSum(high, low, sum);
  }

  /** DAA on the binary sum `0x10 * high + low` of two decimal bytes and a
      carry, where `high` is the sum of the high digits and `low` the sum of
      the low digits and the carry. */
  lemma DecimalAdjustOfDigitSum(high: int, low: int, sum: Result8)
    requires 0 <= high <= 18 && 0 <= low <= 19
    requires sum.value == (0x10 * high + low) % 0x100
    requires sum.flags == Flags(sum.value == 0, false, low > 0xF, 0x10 * high + low > 0xFF)
    ensures var r := DecimalAdjust(sum.value, sum.flags);
      IsDecimal(r.value) && DecimalValue(r.value) + 100 * BoolBit(r.flags.carry) == 10 * high + low
  {
    assert sum.value == if 0x10 * high + low > 0xFF then 0x10 * high + low - 0x100 else 0x10 * high + low;
    if low < 10 && high <= 9 {
      AdjustNoCorrection(high, low, sum);
    } else if low < 10 && 10 <= high <= 15 {
      AdjustHighCorrection(high, low, sum);
    } else if low < 10 && 16 <= high {
      AdjustHighCorrectionAfterCarry(high, low, sum);
    } else if 10 <= low < 16 && high <= 8 {
      AdjustLowCorrection(high, low, sum);
    } else if 10 <= low < 16 && high == 9 {
      AdjustLowCorrectionOverflows(high, low, sum);
    } else if 10 <= low < 16 && 10 <= high <= 15 {
      AdjustBothCorrections(high, low, sum);
    } else if 10 <= low < 16 && 16 <= high {
      AdjustBothCorrectionsAfterCarry(high, low, sum);
    } else if 16 <= low && high <= 8 {
      AdjustHalfCarryCorrection(high, low, sum);
    } else if 16 <= low && high == 9 {
      AdjustHalfCarryOverflows(high, low, sum);
    } else if 16 <= low && high <= 14 {
      AdjustHalfCarryAndHighCorrection(high, low, sum);
    } else {
      AdjustHalfCarryAndHighCorrectionAfterCarry(high, low, sum);
    }
  }

  /** DAA after an addition where neither digit needs correcting. */
  lemma AdjustNoCorrection(high: int, low: int, sum: Result8)
    requires 0 <= high <= 18 && 0 <= low <= 19
    requires sum.value == if 0x10 * high + low > 0xFF then 0x10 * high + low - 0x100 else 0x10 * high + low
    requires sum.flags == Flags(sum.value == 0, false, low > 0xF, 0x10 * high + low > 0xFF)
    requires low < 10 && high <= 9
    ensures var r := DecimalAdjust(sum.value, sum.flags);
      IsDecimal(r.value) && DecimalValue(r.value) + 100 * BoolBit(r.flags.carry) == 10 * high + low
  {
    assert sum.value == 0x10 * high + low;
    Digits(sum.value, high, low);
    var r := DecimalAdjust(sum.value, sum.flags);
    assert r.value == 0x10 * high + low && !r.flags.carry;
    Digits(r.value, high, low);
  }

  /** DAA after an addition where only the high digit is corrected by 0x60. */
  lemma AdjustHighCorrection(high: int, low: int, sum: Result8)
    requires 0 <= high <= 18 && 0 <= low <= 19
    requires sum.value == if 0x10 * high + low > 0xFF then 0x10 * high + low - 0x100 else 0x10 * high + low
    requires sum.flags == Flags(sum.value == 0, false, low > 0xF, 0x10 * high + low > 0xFF)
    requires low < 10 && 10 <= high <= 15
    ensures var r := DecimalAdjust(sum.value, sum.flags);
      IsDecimal(r.value) && DecimalValue(r.value) + 100 * BoolBit(r.flags.carry) == 10 * high + low
  {
    assert sum.value == 0x10 * high + low;
    Digits(sum.value, high, low);
    var a1 := 0x10 * (high - 10) + low;
    assert Wrap8(sum.value + 0x60) == a1;
    Digits(a1, high - 10, low);
    var r := DecimalAdjust(sum.value, sum.flags);
    assert r.value == a1 && r.flags.carry;
    Digits(r.value, high - 10, low);
  }

  /** DAA after an addition where only the high digit is corrected by 0x60 after a binary carry. */
  lemma AdjustHighCorrectionAfterCarry(high: int, low: int, sum: Result8)
    requires 0 <= high <= 18 && 0 <= low <= 19
    requires sum.value == if 0x10 * high + low > 0xFF then 0x10 * high + low - 0x100 else 0x10 * high + low
    requires sum.flags == Flags(sum.value == 0, false, low > 0xF, 0x10 * high + low > 0xFF)
    requires low < 10 && 16 <= high
    ensures var r := DecimalAdjust(sum.value, sum.flags);
      IsDecimal(r.value) && DecimalValue(r.value) + 100 * BoolBit(r.flags.carry) == 10 * high + low
  {
    assert sum.value == 0x10 * (high - 16) + low;
    Digits(sum.value, high - 16, low);
    var a1 := 0x10 * (high - 10) + low;
    assert Wrap8(sum.value + 0x60) == a1;
    Digits(a1, high - 10, low);
    var r := DecimalAdjust(sum.value, sum.flags);
    assert r.value == a1 && r.flags.carry;
    Digits(r.value, high - 10, low);
  }

  /** DAA after an addition where only the low digit is corrected by 0x06. */
  lemma AdjustLowCorrection(high: int, low: int, sum: Result8)
    requires 0 <= high <= 18 && 0 <= low <= 19
    requires sum.value == if 0x10 * high + low > 0xFF then 0x10 * high + low - 0x100 else 0x10 * high + low
    requires sum.flags == Flags(sum.value == 0, false, low > 0xF, 0x10 * high + low > 0xFF)
    requires 10 <= low < 16 && high <= 8
    ensures var r := DecimalAdjust(sum.value, sum.flags);
      IsDecimal(r.value) && DecimalValue(r.value) + 100 * BoolBit(r.flags.carry) == 10 * high + low
  {
    assert sum.value == 0x10 * high + low;
    Digits(sum.value, high, low);
    var r := DecimalAdjust(sum.value, sum.flags);
    assert r.value == 0x10 * (high + 1) + (low - 10) && !r.flags.carry;
    Digits(r.value, high + 1, low - 10);
  }

  /** DAA after an addition where the high digit is 9, so the sum is above 0x99 and both corrections apply. */
  lemma AdjustLowCorrectionOverflows(high: int, low: int, sum: Result8)
    requires 0 <= high <= 18 && 0 <= low <= 19
    requires sum.value == if 0x10 * high + low > 0xFF then 0x10 * high + low - 0x100 else 0x10 * high + low
    requires sum.flags == Flags(sum.value == 0, false, low > 0xF, 0x10 * high + low > 0xFF)
    requires 10 <= low < 16 && high == 9
    ensures var r := DecimalAdjust(sum.value, sum.flags);
      IsDecimal(r.value) && DecimalValue(r.value) + 100 * BoolBit(r.flags.carry) == 10 * high + low
  {
    assert sum.value == 0x90 + low;
    Digits(sum.value, 9, low);
    var a1 := 0xF0 + low;
    assert Wrap8(sum.value + 0x60) == a1;
    Digits(a1, 15, low);
    var r := DecimalAdjust(sum.value, sum.flags);
    assert r.value == low - 10 && r.flags.carry;
    Digits(r.value, 0, low - 10);
  }

  /** DAA after an addition where both digits are corrected. */
  lemma AdjustBothCorrections(high: int, low: int, sum: Result8)
    requires 0 <= high <= 18 && 0 <= low <= 19
    requires sum.value == if 0x10 * high + low > 0xFF then 0x10 * high + low - 0x100 else 0x10 * high + low
    requires sum.flags == Flags(sum.value == 0, false, low > 0xF, 0x10 * high + low > 0xFF)
    requires 10 <= low < 16 && 10 <= high <= 15
    ensures var r := DecimalAdjust(sum.value, sum.flags);
      IsDecimal(r.value) && DecimalValue(r.value) + 100 * BoolBit(r.flags.carry) == 10 * high + low
  {
    assert sum.value == 0x10 * high + low;
    Digits(sum.value, high, low);
    var a1 := 0x10 * (high - 10) + low;
    assert Wrap8(sum.value + 0x60) == a1;
    Digits(a1, high - 10, low);
    var r := DecimalAdjust(sum.value, sum.flags);
    assert r.value == 0x10 * (high - 9) + (low - 10) && r.flags.carry;
    Digits(r.value, high - 9, low - 10);
  }

  /** DAA after an addition where both digits are corrected after a binary carry. */
  lemma AdjustBothCorrectionsAfterCarry(high: int, low: int, sum: Result8)
    requires 0 <= high <= 18 && 0 <= low <= 19
    requires sum.value == if 0x10 * high + low > 0xFF then 0x10 * high + low - 0x100 else 0x10 * high + low
    requires sum.flags == Flags(sum.value == 0, false, low > 0xF, 0x10 * high + low > 0xFF)
    requires 10 <= low < 16 && 16 <= high
    ensures var r := DecimalAdjust(sum.value, sum.flags);
      IsDecimal(r.value) && DecimalValue(r.value) + 100 * BoolBit(r.flags.carry) == 10 * high + low
  {
    assert sum.value == 0x10 * (high - 16) + low;
    Digits(sum.value, high - 16, low);
    var a1 := 0x10 * (high - 10) + low;
    assert Wrap8(sum.value + 0x60) == a1;
    Digits(a1, high - 10, low);
    var r := DecimalAdjust(sum.value, sum.flags);
    assert r.value == 0x10 * (high - 9) + (low - 10) && r.flags.carry;
    Digits(r.value, high - 9, low - 10);
  }

  /** DAA after an addition where H drives the low correction. */
  lemma AdjustHalfCarryCorrection(high: int, low: int, sum: Result8)
    requires 0 <= high <= 18 && 0 <= low <= 19
    requires sum.value == if 0x10 * high + low > 0xFF then 0x10 * high + low - 0x100 else 0x10 * high + low
    requires sum.flags == Flags(sum.value == 0, false, low > 0xF, 0x10 * high + low > 0xFF)
    requires 16 <= low && high <= 8
    ensures var r := DecimalAdjust(sum.value, sum.flags);
      IsDecimal(r.value) && DecimalValue(r.value) + 100 * BoolBit(r.flags.carry) == 10 * high + low
  {
    assert sum.value == 0x10 * (high + 1) + (low - 16);
    Digits(sum.value, high + 1, low - 16);
    var r := DecimalAdjust(sum.value, sum.flags);
    assert r.value == 0x10 * (high + 1) + (low - 10) && !r.flags.carry;
    Digits(r.value, high + 1, low - 10);
  }

  /** DAA after an addition where H drives the low correction and the high digit overflows. */
  lemma AdjustHalfCarryOverflows(high: int, low: int, sum: Result8)
    requires 0 <= high <= 18 && 0 <= low <= 19
    requires sum.value == if 0x10 * high + low > 0xFF then 0x10 * high + low - 0x100 else 0x10 * high + low
    requires sum.flags == Flags(sum.value == 0, false, low > 0xF, 0x10 * high + low > 0xFF)
    requires 16 <= low && high == 9
    ensures var r := DecimalAdjust(sum.value, sum.flags);
      IsDecimal(r.value) && DecimalValue(r.value) + 100 * BoolBit(r.flags.carry) == 10 * high + low
  {
    assert sum.value == 0x10 * 10 + (low - 16);
    Digits(sum.value, 10, low - 16);
    var a1 := low - 16;
    assert Wrap8(sum.value + 0x60) == a1;
    Digits(a1, 0, low - 16);
    var r := DecimalAdjust(sum.value, sum.flags);
    assert r.value == low - 10 && r.flags.carry;
    Digits(r.value, 0, low - 10);
  }

  /** DAA after an addition where H drives the low correction and the high
      digit is corrected, the binary sum staying below 0x100. */
  lemma AdjustHalfCarryAndHighCorrection(high: int, low: int, sum: Result8)
    requires 0 <= high <= 18 && 0 <= low <= 19
    requires sum.value == if 0x10 * high + low > 0xFF then 0x10 * high + low - 0x100 else 0x10 * high + low
    requires sum.flags == Flags(sum.value == 0, false, low > 0xF, 0x10 * high + low > 0xFF)
    requires 16 <= low && 10 <= high <= 14
    ensures var r := DecimalAdjust(sum.value, sum.flags);
      IsDecimal(r.value) && DecimalValue(r.value) + 100 * BoolBit(r.flags.carry) == 10 * high + low
  {
    assert sum.value == 0x10 * (high + 1) + (low - 16);
    Digits(sum.value, high + 1, low - 16);
    var a1 := 0x10 * (high - 9) + (low - 16);
    assert Wrap8(sum.value + 0x60) == a1;
    Digits(a1, high - 9, low - 16);
    var r := DecimalAdjust(sum.value, sum.flags);
    assert r.value == 0x10 * (high - 9) + (low - 10) && r.flags.carry;
    Digits(r.value, high - 9, low - 10);
  }

  /** DAA after an addition where H drives the low correction and the high
      digit is corrected after a binary carry. */
  lemma AdjustHalfCarryAndHighCorrectionAfterCarry(high: int, low: int, sum: Result8)
    requires 0 <= high <= 18 && 0 <= low <= 19
    requires sum.value == if 0x10 * high + low > 0xFF then 0x10 * high + low - 0x100 else 0x10 * high + low
    requires sum.flags == Flags(sum.value == 0, false, low > 0xF, 0x10 * high + low > 0xFF)
    requires 16 <= low && 15 <= high
    ensures var r := DecimalAdjust(sum.value, sum.flags);
      IsDecimal(r.value) && DecimalValue(r.value) + 100 * BoolBit(r.flags.carry) == 10 * high + low
  {
    assert sum.value == 0x10 * (high - 15) + (low - 16);
    Digits(sum.value, high - 15, low - 16);
    var a1 := 0x10 * (high - 9) + (low - 16);
    assert Wrap8(sum.value + 0x60) == a1;
    Digits(a1, high - 9, low - 16);
    var r := DecimalAdjust(sum.value, sum.flags);
    assert r.value == 0x10 * (high - 9) + (low - 10) && r.flags.carry;
    Digits(r.value, high - 9, low - 10);
  }

  /** DAA after SUB or SBC of two decimal bytes gives the decimal
      difference: its two digits are the difference modulo 100 and C says
      whether it went below zero. */
  lemma DecimalAdjustAfterSub(a: Byte, b: Byte, carryIn: bool)
    requires IsDecimal(a) && IsDecimal(b)
    ensures var difference := Sub(a, b, carryIn);
      var r := DecimalAdjust(difference.value, difference.flags);
      IsDecimal(r.value) &&
      DecimalValue(r.value) - 100 * BoolBit(r.flags.carry) == DecimalValue(a) - DecimalValue(b) - BoolBit(carryIn)
  {
    var high := a / 0x10 - b / 0x10;
    var low := a % 0x10 - b % 0x10 - BoolBit(carryIn);
    var difference := Sub(a, b, carryIn);
    assert a - b - BoolBit(carryIn) == 0x10 * high + low;
    assert difference.value == if 0x10 * high + low < 0 then 0x10 * high + low + 0x100 else 0x10 * high + low;
    assert difference.flags == Flags(difference.value == 0, true, low < 0, 0x10 * high + low < 0);
    DecimalAdjustOfDigitDifference(high, low, difference);
  }

  /** DAA on the binary difference `0x10 * high + low` of two decimal
      bytes and a carry, where `high` is the difference of the high digits
      and `low` that of the low digits less the carry. */
  lemma DecimalAdjustOfDigitDifference(high: int, low: int, difference: Result8)
    requires -9 <= high <= 9 && -10 <= low <= 9
    requires difference.value == if 0x10 * high + low < 0 then 0x10 * high + low + 0x100 else 0x10 * high + low
    requires difference.flags == Flags(difference.value == 0, true, low < 0, 0x10 * high + low < 0)
    ensures var r := DecimalAdjust(difference.value, difference.flags);
      IsDecimal(r.value) && DecimalValue(r.value) - 100 * BoolBit(r.flags.carry) == 10 * high + low
  {
    var r := DecimalAdjust(difference.value, difference.flags);
    if low >= 0 && 0x10 * high + low >= 0 {
      assert r.value == 0x10 * high + low && !r.flags.carry;
      Digits(r.value, high, low);
    } else if 0x10 * high + low >= 0 {
      assert difference.value == 0x10 * (high - 1) + (low + 0x10);
      assert r.value == 0x10 * (high - 1) + (low + 10) && !r.flags.carry;
      Digits(r.value, high - 1, low + 10);
    } else if low >= 0 {
      assert difference.value == 0x10 * (high + 16) + low;
      assert r.value == 0x10 * (high + 10) + low && r.flags.carry;
      Digits(r.value, high + 10, low);
    } else {
      assert difference.value == 0x10 * (high + 15) + (low + 0x10);
      var a1 := 0x10 * (high + 9) + (low + 0x10);
      assert Wrap8(difference.value - 0x60) == a1;
      assert r.value == 0x10 * (high + 9) + (low + 10) && r.flags.carry;
      Digits(r.value, high + 9, low + 10);
    }
  }

  /** The two nibbles of `0x10 * high + low`. */
  lemma Digits(x: int, high: int, low: int)
    requires 0 <= low < 0x10 && x == 0x10 * high + low
    ensures x / 0x10 == high && x % 0x10 == low
  {
  }

  /** RLCA and RLC: bit 7 moves to bit 0 and into C. */
  function RotateLeftCircular(v: Byte): (r: Shifted)
    ensures 2 * v == r.value + 0xFF * BoolBit(r.out)
    ensures r.out <==> v >= 0x80
  {
    Shifted((2 * v as int) % 0x100 + v / 0x80, v / 0x80 == 1)
  }

  /** RRCA and RRC: bit 0 moves to bit 7 and into C. */
  function RotateRightCircular(v: Byte): (r: Shifted)
    ensures v == 2 * r.value - 0xFF * BoolBit(r.out)
    ensures r.out <==> v % 2 == 1
  {
    Shifted(v / 2 + (v % 2) * 0x80, v % 2 == 1)
  }

  /** RLA and RL: the old carry enters at bit 0, bit 7 leaves into C. */
  function RotateLeft(v: Byte, carry: bool): (r: Shifted)
    ensures 2 * v + BoolBit(carry) == r.value + 0x100 * BoolBit(r.out)
  {
    Shifted((2 * v as int) % 0x100 + BoolBit(carry), v / 0x80 == 1)
  }

  /** RRA and RR: the old carry enters at bit 7, bit 0 leaves into C. */
  function RotateRight(v: Byte, carry: bool): (r: Shifted)
    ensures v + 0x100 * BoolBit(carry) == 2 * r.value + BoolBit(r.out)
  {
    Shifted(v / 2 + BoolBit(carry) * 0x80, v % 2 == 1)
  }

  /** SLA: shift left, bit 7 into C, bit 0 cleared. */
  function ShiftLeft(v: Byte): (r: Shifted)
    ensures 2 * v == r.value + 0x100 * BoolBit(r.out)
    ensures r.value % 2 == 0
  {
    Shifted((2 * v as int) % 0x100, v / 0x80 == 1)
  }

  /** SRA: shift right keeping bit 7, bit 0 into C; on the byte read as a
      signed number it is a division by two rounding down. */
  function ShiftRightArithmetic(v: Byte): (r: Shifted)
    ensures Signed(v) == 2 * Signed(r.value) + BoolBit(r.out)
    ensures r.value / 0x80 == v / 0x80
  {
    Shifted((v / 0x80) * 0x80 + v / 2, v % 2 == 1)
  }

  /** SRL: shift right, bit 7 cleared, bit 0 into C. */
  function ShiftRightLogical(v: Byte): (r: Shifted)
    ensures v == 2 * r.value + BoolBit(r.out)
    ensures r.value < 0x80
  {
    Shifted(v / 2, v % 2 == 1)
  }

  /** SWAP: the two nibbles change places; C is cleared. */
  function Swap(v: Byte): (r: Shifted)
    ensures r.value / 0x10 == v % 0x10 && r.value % 0x10 == v / 0x10
    ensures !r.out
  {
    Shifted((v / 0x10) + (v % 0x10) * 0x10, false)
  }

  /** RRC undoes RLC. */
  lemma RotateCircularInverse(v: Byte)
    ensures RotateRightCircular(RotateLeftCircular(v).value).value == v
    ensures RotateLeftCircular(RotateRightCircular(v).value).value == v
  {
  }

  /** RR with the carry RL produced undoes RL, giving back the operand and
      the carry it started with; and the other way round. */
  lemma RotateThroughCarryInverse(v: Byte, carry: bool)
    ensures var l := RotateLeft(v, carry); RotateRight(l.value, l.out) == Shifted(v, carry)
    ensures var r := RotateRight(v, carry); RotateLeft(r.value, r.out) == Shifted(v, carry)
  {
  }

  /** SWAP is its own inverse. */
  lemma SwapInvolution(v: Byte)
    ensures Swap(Swap(v).value).value == v
  {
  }

  /** The operation selected by bits 5..3 of the CB opcodes 0x00..0x3F:
      RLC, RRC, RL, RR, SLA, SRA, SWAP, SRL. */
  function ShiftOperation(operation: nat, v: Byte, carry: bool): Shifted
    requires operation < 8
  {
    match operation
    case 0 => RotateLeftCircular(v)
    case 1 => RotateRightCircular(v)
    case 2 => RotateLeft(v, carry)
    case 3 => RotateRight(v, carry)
    case 4 => ShiftLeft(v)
    case 5 => ShiftRightArithmetic(v)
    case 6 => Swap(v)
    case 7 => ShiftRightLogical(v)
  }
}
