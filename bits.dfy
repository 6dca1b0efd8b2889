/**
  Bitwise operators of C on unsigned integers, modelled on natural numbers.

  The emulator applies `&`, `|`, `^` and `~` to `uint8_t` values; here they
  are defined bit by bit, least significant bit first, and the lemmas below
  describe every bit of their results. `Bit(x, i)` is bit `i` of `x`, that is
  `(x >> i) & 1` in C.
*/
module Bits {

  /** 2 to the power n, i.e. `1 << n`. */
  function Pow2(n: nat): (r: nat)
    ensures r >= 1
  {
    if n == 0 then 1 else 2 * Pow2(n - 1)
  }

  /** Bit i of x is set. */
  predicate Bit(x: nat, i: nat)
  {
    if i == 0 then x % 2 == 1 else Bit(x / 2, i - 1)
  }

  /** `x & y` */
  function And(x: nat, y: nat): (r: nat)
    ensures r <= x && r <= y
    decreases x
  {
    if x == 0 || y == 0 then 0
    else 2 * And(x / 2, y / 2) + (if x % 2 == 1 && y % 2 == 1 then 1 else 0)
  }

  /** `x | y` */
  function Or(x: nat, y: nat): (r: nat)
    ensures x <= r <= x + y
    decreases x
  {
    if x == 0 then y
    else if y == 0 then x
    else 2 * Or(x / 2, y / 2) + (if x % 2 == 1 || y % 2 == 1 then 1 else 0)
  }

  /** `x ^ y` */
  function Xor(x: nat, y: nat): (r: nat)
    ensures r <= x + y
    decreases x
  {
    if x == 0 then y
    else if y == 0 then x
    else 2 * Xor(x / 2, y / 2) + (if (x % 2 == 1) != (y % 2 == 1) then 1 else 0)
  }

  /** `~x` truncated to 8 bits (what `uint8_t` keeps of it). */
  function Not8(x: nat): (r: nat)
    requires x < 0x100
    ensures r < 0x100 && r + x == 0xFF
  {
    0xFF - x
  }

  /** A number below 2^n has no bit at position n or above. */
  lemma {:induction false} BitAbove(x: nat, n: nat, i: nat)
    requires x < Pow2(n) && n <= i
    ensures !Bit(x, i)
    decreases i
  {
    if i == 0 {
    } else if n == 0 {
      BitAbove(x / 2, 0, i - 1);
    } else {
      BitAbove(x / 2, n - 1, i - 1);
    }
  }

  lemma {:induction false} AndBit(x: nat, y: nat, i: nat)
    ensures Bit(And(x, y), i) <==> Bit(x, i) && Bit(y, i)
    decreases i
  {
    if x == 0 || y == 0 {
      ZeroHasNoBits(i);
      if x == 0 { ZeroHasNoBits(i); }
    } else if i > 0 {
      AndBit(x / 2, y / 2, i - 1);
    }
  }

  lemma {:induction false} OrBit(x: nat, y: nat, i: nat)
    ensures Bit(Or(x, y), i) <==> Bit(x, i) || Bit(y, i)
    decreases i
  {
    if x == 0 || y == 0 {
      ZeroHasNoBits(i);
    } else if i > 0 {
      OrBit(x / 2, y / 2, i - 1);
    }
  }

  lemma {:induction false} XorBit(x: nat, y: nat, i: nat)
    ensures Bit(Xor(x, y), i) <==> Bit(x, i) != Bit(y, i)
    decreases i
  {
    if x == 0 || y == 0 {
      ZeroHasNoBits(i);
    } else if i > 0 {
      XorBit(x / 2, y / 2, i - 1);
    }
  }

  lemma {:induction false} ZeroHasNoBits(i: nat)
    ensures !Bit(0, i)
  {
    if i > 0 { ZeroHasNoBits(i - 1); }
  }

  /** The only bit of `1 << b` is bit b. */
  lemma {:induction false} Pow2Bit(b: nat, i: nat)
    ensures Bit(Pow2(b), i) <==> i == b
    decreases i
  {
    if i == 0 {
      if b > 0 { assert Pow2(b) == 2 * Pow2(b - 1); }
    } else if b == 0 {
      ZeroHasNoBits(i - 1);
    } else {
      Pow2Bit(b - 1, i - 1);
    }
  }

  /** Complementing a byte flips each of its eight bits. */
  lemma NotBit(x: nat, i: nat)
    requires x < 0x100 && i < 8
    ensures Bit(Not8(x), i) <==> !Bit(x, i)
  {
    ComplementBit(x, 8, i);
  }

  lemma {:induction false} ComplementBit(x: nat, n: nat, i: nat)
    requires x < Pow2(n) && i < n
    ensures Bit(Pow2(n) - 1 - x, i) <==> !Bit(x, i)
    decreases i
  {
    var p := Pow2(n - 1);
    assert Pow2(n) == 2 * p;
    if i > 0 {
      assert (Pow2(n) - 1 - x) / 2 == p - 1 - x / 2;
      ComplementBit(x / 2, n - 1, i - 1);
    }
  }

  /** Two bytes with the same eight bits are equal. */
  lemma {:induction false} BitsDetermine(x: nat, y: nat, n: nat)
    requires x < Pow2(n) && y < Pow2(n)
    requires forall i :: 0 <= i < n ==> (Bit(x, i) <==> Bit(y, i))
    ensures x == y
    decreases n
  {
    if n > 0 {
      assert Pow2(n) == 2 * Pow2(n - 1);
      assert Bit(x, 0) <==> Bit(y, 0);
      forall i | 0 <= i < n - 1
        ensures Bit(x / 2, i) <==> Bit(y / 2, i)
      {
        assert Bit(x, i + 1) <==> Bit(y, i + 1);
      }
      BitsDetermine(x / 2, y / 2, n - 1);
    }
  }

  /** The bitwise operators keep results within n bits. */
  lemma {:induction false} OrBelow(x: nat, y: nat, n: nat)
    requires x < Pow2(n) && y < Pow2(n)
    ensures Or(x, y) < Pow2(n)
    decreases n
  {
    if n > 0 && x != 0 && y != 0 {
      assert Pow2(n) == 2 * Pow2(n - 1);
      OrBelow(x / 2, y / 2, n - 1);
    }
  }

  lemma {:induction false} XorBelow(x: nat, y: nat, n: nat)
    requires x < Pow2(n) && y < Pow2(n)
    ensures Xor(x, y) < Pow2(n)
    decreases n
  {
    if n > 0 && x != 0 && y != 0 {
      assert Pow2(n) == 2 * Pow2(n - 1);
      XorBelow(x / 2, y / 2, n - 1);
    }
  }

  lemma Pow2Of8()
    ensures Pow2(8) == 0x100
  {
  }

  /** `x | y` on bytes is a byte. */
  function Or8(x: nat, y: nat): (r: nat)
    requires x < 0x100 && y < 0x100
    ensures r < 0x100
    ensures forall i :: Bit(r, i) <==> Bit(x, i) || Bit(y, i)
  {
    Pow2Of8();
    OrBelow(x, y, 8);
    forall i ensures Bit(Or(x, y), i) <==> Bit(x, i) || Bit(y, i) { OrBit(x, y, i); }
    Or(x, y)
  }

  /** `x ^ y` on bytes is a byte. */
  function Xor8(x: nat, y: nat): (r: nat)
    requires x < 0x100 && y < 0x100
    ensures r < 0x100
    ensures forall i :: Bit(r, i) <==> Bit(x, i) != Bit(y, i)
  {
    Pow2Of8();
    XorBelow(x, y, 8);
    forall i ensures Bit(Xor(x, y), i) <==> Bit(x, i) != Bit(y, i) { XorBit(x, y, i); }
    Xor(x, y)
  }

  /** `x & y` on bytes. */
  function And8(x: nat, y: nat): (r: nat)
    requires x < 0x100 && y < 0x100
    ensures r < 0x100
    ensures forall i :: Bit(r, i) <==> Bit(x, i) && Bit(y, i)
  {
    forall i ensures Bit(And(x, y), i) <==> Bit(x, i) && Bit(y, i) { AndBit(x, y, i); }
    And(x, y)
  }

  /** `1 << b` for a bit position of a byte. */
  function Mask(b: nat): (m: nat)
    requires b < 8
    ensures m == Pow2(b) && m < 0x100
  {
    Pow2Below(b, 8);
    Pow2(b)
  }

  lemma {:induction false} Pow2Below(b: nat, n: nat)
    requires b < n
    ensures Pow2(b) < Pow2(n)
    decreases n
  {
    if b < n - 1 {
      Pow2Below(b, n - 1);
    }
  }

  /** `x & (1 << b)` is nonzero exactly when bit b of x is set. */
  lemma MaskTest(x: nat, b: nat)
    requires x < 0x100 && b < 8
    ensures And8(x, Mask(b)) != 0 <==> Bit(x, b)
  {
    var m := And8(x, Mask(b));
    if Bit(x, b) {
      Pow2Bit(b, b);
      ZeroHasNoBits(b);
    } else {
      Pow2Of8();
      forall i | 0 <= i < 8
        ensures Bit(m, i) <==> Bit(0, i)
      {
        Pow2Bit(b, i);
        ZeroHasNoBits(i);
      }
      BitsDetermine(m, 0, 8);
    }
  }
}
