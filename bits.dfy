/** Bitwise operations on unsigned 32-bit values, stated arithmetically (one
    bit per halving step) so that such values can also be ordered as numbers. */
module Bits {

  function Pow2(n: nat): (r: nat)
    ensures r >= 1
  {
    if n == 0 then 1 else 2 * Pow2(n - 1)
  }

  /** An `unsigned int`. */
  type Word = x: int | 0 <= x < 0x1_0000_0000

  /** The all-ones word. */
  const Ones: Word := 0xFFFF_FFFF

  function BitAnd(a: nat, b: nat): nat
    decreases a
  {
    if a == 0 || b == 0 then 0
    else 2 * BitAnd(a / 2, b / 2) + (if a % 2 == 1 && b % 2 == 1 then 1 else 0)
  }

  function BitOr(a: nat, b: nat): nat
    decreases a + b
  {
    if a == 0 then b
    else if b == 0 then a
    else 2 * BitOr(a / 2, b / 2) + (if a % 2 == 1 || b % 2 == 1 then 1 else 0)
  }

  /** `~a` on a 32-bit word. */
  function BitNot(a: Word): Word { Ones - a }

  lemma {:induction false} BitOrBound(a: nat, b: nat, w: nat)
    requires a < Pow2(w) && b < Pow2(w)
    ensures BitOr(a, b) < Pow2(w)
    decreases w
  {
    if a != 0 && b != 0 {
      BitOrBound(a / 2, b / 2, w - 1);
    }
  }

  lemma {:induction false} BitAndBound(a: nat, b: nat)
    ensures BitAnd(a, b) <= a && BitAnd(a, b) <= b
    decreases a
  {
    if a != 0 && b != 0 {
      BitAndBound(a / 2, b / 2);
    }
  }

  function Or32(a: Word, b: Word): Word
  {
    Pow2Of32();
    BitOrBound(a, b, 32);
    BitOr(a, b)
  }

  function And32(a: Word, b: Word): Word
  {
    BitAndBound(a, b);
    BitAnd(a, b)
  }

  lemma {:induction false} BitOrComm(a: nat, b: nat)
    ensures BitOr(a, b) == BitOr(b, a)
    decreases a + b
  {
    if a != 0 && b != 0 {
      BitOrComm(a / 2, b / 2);
    }
  }

  lemma {:induction false} BitOrAssoc(a: nat, b: nat, c: nat)
    ensures BitOr(a, BitOr(b, c)) == BitOr(BitOr(a, b), c)
    decreases a + b + c
  {
    if a != 0 && b != 0 && c != 0 {
      BitOrAssoc(a / 2, b / 2, c / 2);
      BitOrHalves(b, c);
      BitOrHalves(a, b);
      BitOrHalves(a, BitOr(b, c));
      BitOrHalves(BitOr(a, b), c);
    } else if a != 0 && b != 0 {
      BitOrNonZero(a, b);
    } else if b != 0 && c != 0 {
      BitOrNonZero(b, c);
    }
  }

  lemma BitOrNonZero(a: nat, b: nat)
    requires a != 0 || b != 0
    ensures BitOr(a, b) != 0
  {
  }

  /** The low bit of an OR is the OR of the low bits; the rest is the OR of
      the rest. */
  lemma BitOrHalves(a: nat, b: nat)
    ensures BitOr(a, b) % 2 == (if a % 2 == 1 || b % 2 == 1 then 1 else 0)
    ensures BitOr(a, b) / 2 == BitOr(a / 2, b / 2)
  {
    if a == 0 {
      assert a / 2 == 0;
    } else if b == 0 {
      assert b / 2 == 0;
    }
  }

  lemma BitAndHalves(a: nat, b: nat)
    ensures BitAnd(a, b) % 2 == (if a % 2 == 1 && b % 2 == 1 then 1 else 0)
    ensures BitAnd(a, b) / 2 == BitAnd(a / 2, b / 2)
  {
    if a == 0 {
      assert a / 2 == 0;
    } else if b == 0 {
      assert b / 2 == 0;
    }
  }

  /** A number is determined by its low bit and the rest. */
  lemma Halves(x: nat, y: nat)
    requires x % 2 == y % 2 && x / 2 == y / 2
    ensures x == y
  {
  }

  /** `(a | b) & a == a`. */
  lemma {:induction false} AndOrAbsorb(a: nat, b: nat)
    ensures BitAnd(BitOr(a, b), a) == a
    decreases a
  {
    if a != 0 {
      AndOrAbsorb(a / 2, b / 2);
      BitOrHalves(a, b);
      BitAndHalves(BitOr(a, b), a);
      Halves(BitAnd(BitOr(a, b), a), a);
    }
  }

  /** `m & (a | b) == a | b` exactly when `m & a == a` and `m & b == b`. */
  lemma {:induction false} AndOfOr(m: nat, a: nat, b: nat)
    ensures BitAnd(m, BitOr(a, b)) == BitOr(a, b) <==> BitAnd(m, a) == a && BitAnd(m, b) == b
    decreases a + b
  {
    if a == 0 {
      assert BitAnd(m, 0) == 0;
    } else if b == 0 {
      assert BitAnd(m, 0) == 0;
    } else {
      AndOfOr(m / 2, a / 2, b / 2);
      BitOrHalves(a, b);
      BitAndHalves(m, BitOr(a, b));
      BitAndHalves(m, a);
      BitAndHalves(m, b);
      if BitAnd(m, a) == a && BitAnd(m, b) == b {
        Halves(BitAnd(m, BitOr(a, b)), BitOr(a, b));
      }
      if BitAnd(m, BitOr(a, b)) == BitOr(a, b) {
        Halves(BitAnd(m, a), a);
        Halves(BitAnd(m, b), b);
      }
    }
  }

  /** `x & (2^w - 1) == x` for every x below 2^w, and no larger x. */
  lemma {:induction false} AndLowOnes(x: nat, w: nat)
    ensures BitAnd(Pow2(w) - 1, x) == x <==> x < Pow2(w)
    decreases w
  {
    BitAndBound(Pow2(w) - 1, x);
    if w > 0 && x != 0 {
      AndLowOnes(x / 2, w - 1);
      BitAndHalves(Pow2(w) - 1, x);
      assert (Pow2(w) - 1) / 2 == Pow2(w - 1) - 1;
      assert (Pow2(w) - 1) % 2 == 1;
      if x < Pow2(w) {
        Halves(BitAnd(Pow2(w) - 1, x), x);
      }
    }
  }

  /** A word and its complement share no bit. */
  lemma {:induction false} AndComplement(a: nat, w: nat)
    requires a < Pow2(w)
    ensures BitAnd(a, Pow2(w) - 1 - a) == 0
    decreases w
  {
    if a != 0 && w > 0 {
      AndComplement(a / 2, w - 1);
      assert (Pow2(w) - 1 - a) / 2 == Pow2(w - 1) - 1 - a / 2;
      BitAndHalves(a, Pow2(w) - 1 - a);
    }
  }

  lemma ComplementLaws(a: Word)
    ensures BitNot(BitNot(a)) == a
    ensures And32(a, BitNot(a)) == 0
  {
    Pow2Of32();
    AndComplement(a, 32);
  }

  /** Bit k of x. */
  function BitAt(x: nat, k: nat): (b: nat)
    ensures b < 2
  {
    if k == 0 then x % 2 else BitAt(x / 2, k - 1)
  }

  /** `x & 2^k` is `2^k` exactly when bit k of x is set. */
  lemma {:induction false} SingleBit(x: nat, k: nat)
    ensures BitAnd(x, Pow2(k)) == Pow2(k) <==> BitAt(x, k) == 1
    decreases k
  {
    if k == 0 {
      BitAndHalves(x, 1);
      assert BitAnd(x / 2, 0) == 0;
      if BitAt(x, 0) == 1 {
        Halves(BitAnd(x, 1), 1);
      }
    } else {
      SingleBit(x / 2, k - 1);
      BitAndHalves(x, Pow2(k));
      assert Pow2(k) / 2 == Pow2(k - 1) && Pow2(k) % 2 == 0;
      if BitAt(x, k) == 1 {
        Halves(BitAnd(x, Pow2(k)), Pow2(k));
      }
    }
  }

  /** The value of the low `w` bits of x, summed bit by bit. */
  function LowBits(x: nat, w: nat): nat
  {
    if w == 0 then 0 else x % 2 + 2 * LowBits(x / 2, w - 1)
  }

  /** A number below 2^w is the sum of its low w bits. */
  lemma {:induction false} LowBitsValue(x: nat, w: nat)
    requires x < Pow2(w)
    ensures LowBits(x, w) == x
    decreases w
  {
    if w > 0 {
      LowBitsValue(x / 2, w - 1);
    }
  }

  lemma {:induction false} Pow2Add(a: nat, b: nat)
    ensures Pow2(a + b) == Pow2(a) * Pow2(b)
    decreases a
  {
    if a > 0 {
      Pow2Add(a - 1, b);
    }
  }

  lemma Pow2Of32()
    ensures Pow2(32) == 0x1_0000_0000
  {
    assert Pow2(4) == 16;
    Pow2Add(4, 4);
    Pow2Add(8, 8);
    Pow2Add(16, 16);
  }
}
