/** The `u64` bit operations the replay bitmap uses, on integers: a word is a number below
    2^64, its bits are found by halving, and each operation is defined on that number.
    Every operation is tied to the bits it moves, so a bitmap can be read bit by bit. */
module Word64 {
  import opened Base

  const WORD_BITS := 64

  function Pow2(n: nat): (p: nat)
    ensures p > 0
  {
    if n == 0 then 1 else 2 * Pow2(n - 1)
  }

  /** Bit `i` of a number. */
  predicate Bit(word: nat, i: nat)
    decreases i
  {
    if i == 0 then word % 2 == 1 else Bit(word / 2, i - 1)
  }

  function Or(a: nat, b: nat): nat {
    if a == 0 && b == 0 then 0
    else 2 * Or(a / 2, b / 2) + (if a % 2 == 1 || b % 2 == 1 then 1 else 0)
  }

  function And(a: nat, b: nat): nat {
    if a == 0 || b == 0 then 0
    else 2 * And(a / 2, b / 2) + (if a % 2 == 1 && b % 2 == 1 then 1 else 0)
  }

  /** `word << k`: the bits that leave the word at the top are lost. */
  function Shl(word: U64, k: nat): U64
    decreases k
  {
    if k == 0 then word else Shl((2 * word) % TWO_64, k - 1)
  }

  /** `word >> k`. */
  function Shr(word: U64, k: nat): U64
    decreases k
  {
    if k == 0 then word else Shr(word / 2, k - 1)
  }

  lemma {:induction false} BitZero(i: nat)
    ensures !Bit(0, i)
  {
    if i > 0 {
      BitZero(i - 1);
    }
  }

  lemma {:induction false} BitOne(i: nat)
    ensures Bit(1, i) <==> i == 0
  {
    if i > 0 {
      BitZero(i - 1);
    }
  }

  lemma {:induction false} BitOr(a: nat, b: nat, i: nat)
    ensures Bit(Or(a, b), i) <==> Bit(a, i) || Bit(b, i)
    decreases i
  {
    if a == 0 && b == 0 {
      BitZero(i);
    } else if i > 0 {
      BitOr(a / 2, b / 2, i - 1);
    }
  }

  lemma {:induction false} BitAnd(a: nat, b: nat, i: nat)
    ensures Bit(And(a, b), i) <==> Bit(a, i) && Bit(b, i)
    decreases i
  {
    if a == 0 || b == 0 {
      BitZero(i);
    } else if i > 0 {
      BitAnd(a / 2, b / 2, i - 1);
    }
  }

  lemma {:induction false} OrBound(a: nat, b: nat, n: nat)
    requires a < Pow2(n) && b < Pow2(n)
    ensures Or(a, b) < Pow2(n)
  {
    if n > 0 && (a != 0 || b != 0) {
      OrBound(a / 2, b / 2, n - 1);
    }
  }

  lemma {:induction false} BitAbove(word: nat, n: nat, i: nat)
    requires word < Pow2(n) && n <= i
    ensures !Bit(word, i)
    decreases n
  {
    if n == 0 {
      BitZero(i);
    } else {
      BitAbove(word / 2, n - 1, i - 1);
    }
  }

  /** Taking 2^j off a number changes no bit below `j`. */
  lemma {:induction false} BitBelow(word: nat, j: nat, i: nat)
    requires i < j && word >= Pow2(j)
    ensures Bit(word - Pow2(j), i) == Bit(word, i)
    decreases i
  {
    if i > 0 {
      assert (word - Pow2(j)) / 2 == word / 2 - Pow2(j - 1);
      BitBelow(word / 2, j - 1, i - 1);
    }
  }

  lemma {:induction false} Pow2At32()
    ensures Pow2(16) == 0x1_0000 && Pow2(32) == 0x1_0000_0000
  {
    Pow2Plus8(0);
    Pow2Plus8(8);
    Pow2Plus8(16);
    Pow2Plus8(24);
  }

  lemma {:induction false} Pow2Plus32(n: nat)
    ensures Pow2(n + 32) == 0x1_0000_0000 * Pow2(n)
  {
    Pow2Plus8(n);
    Pow2Plus8(n + 8);
    Pow2Plus8(n + 16);
    Pow2Plus8(n + 24);
  }

  lemma {:induction false} WordIsPow2()
    ensures Pow2(63) == TWO_64 / 2 && Pow2(64) == TWO_64
  {
    Pow2At32();
    Pow2Plus32(32);
  }

  lemma {:induction false} Pow2Plus4(n: nat)
    ensures Pow2(n + 4) == 16 * Pow2(n)
  {
    assert Pow2(n + 2) == 4 * Pow2(n);
  }

  lemma {:induction false} Pow2Plus8(n: nat)
    ensures Pow2(n + 8) == 256 * Pow2(n)
  {
    Pow2Plus4(n);
    Pow2Plus4(n + 4);
  }

  lemma {:induction false} BitEven(word: nat, i: nat)
    ensures Bit(2 * word, i) <==> i > 0 && Bit(word, i - 1)
  {
  }

  lemma {:induction false} BitDouble(word: U64, i: nat)
    requires i < WORD_BITS
    ensures Bit((2 * word) % TWO_64, i) <==> i > 0 && Bit(word, i - 1)
  {
    var half := TWO_64 / 2;
    if word >= half {
      assert (2 * word) % TWO_64 == 2 * (word - half);
      BitEven(word - half, i);
      WordIsPow2();
      if i > 0 {
        BitBelow(word, 63, i - 1);
      }
    } else {
      BitEven(word, i);
    }
  }

  lemma {:induction false} BitShl(word: U64, k: nat, i: nat)
    requires i < WORD_BITS
    ensures Bit(Shl(word, k), i) <==> k <= i && Bit(word, i - k)
    decreases k
  {
    if k > 0 {
      var doubled := (2 * word) % TWO_64;
      BitShl(doubled, k - 1, i);
      if k - 1 <= i {
        BitDouble(word, i - (k - 1));
      }
    }
  }

  lemma {:induction false} BitShr(word: U64, k: nat, i: nat)
    ensures Bit(Shr(word, k), i) <==> Bit(word, i + k)
    decreases k
  {
    if k > 0 {
      BitShr(word / 2, k - 1, i);
    }
  }

  lemma {:induction false} SomeBit(word: nat) returns (i: nat)
    requires word != 0
    ensures Bit(word, i)
  {
    if word % 2 == 1 {
      i := 0;
    } else {
      i := SomeBit(word / 2);
      i := i + 1;
    }
  }

  /** `word & (1 << j) != 0` tests bit `j`. */
  lemma {:induction false} TestBit(word: U64, j: nat)
    requires j < WORD_BITS
    ensures And(word, Shl(1, j)) != 0 <==> Bit(word, j)
  {
    BitAnd(word, Shl(1, j), j);
    BitShl(1, j, j);
    BitZero(j);
    if And(word, Shl(1, j)) != 0 {
      var i := SomeBit(And(word, Shl(1, j)));
      BitAnd(word, Shl(1, j), i);
      if i >= WORD_BITS {
        WordIsPow2();
        BitAbove(word, 64, i);
      } else {
        BitShl(1, j, i);
        if j <= i {
          BitOne(i - j);
        }
      }
    }
  }

  lemma {:induction false} OrWord(a: U64, b: U64)
    ensures Or(a, b) < TWO_64
  {
    WordIsPow2();
    OrBound(a, b, 64);
  }
}
