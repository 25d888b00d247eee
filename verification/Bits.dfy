/** Exclusive or and shifts on natural numbers, bit by bit. */
module Bits {

  function Xor(a: nat, b: nat): nat {
    if a == 0 then b
    else if b == 0 then a
    else (if a % 2 == b % 2 then 0 else 1) + 2 * Xor(a / 2, b / 2)
  }

  /** a >> k */
  function Shr(a: nat, k: nat): nat {
    if k == 0 then a else Shr(a / 2, k - 1)
  }

  /** The low k bits of a. */
  function Low(a: nat, k: nat): nat {
    if k == 0 then 0 else a % 2 + 2 * Low(a / 2, k - 1)
  }

  /** a << k */
  function Shl(a: nat, k: nat): nat {
    if k == 0 then a else 2 * Shl(a, k - 1)
  }

  predicate Fits(a: nat, bits: nat) {
    Shr(a, bits) == 0
  }

  lemma Halved(x: nat, a: nat)
    requires x < 2
    ensures (x + 2 * a) % 2 == x && (x + 2 * a) / 2 == a
  {
  }

  lemma {:induction false} XorBits(a: nat, b: nat)
    ensures Xor(a, b) % 2 == if a % 2 == b % 2 then 0 else 1
    ensures Xor(a, b) / 2 == Xor(a / 2, b / 2)
  {
    if a > 0 && b > 0 {
      Halved(if a % 2 == b % 2 then 0 else 1, Xor(a / 2, b / 2));
    }
  }

  lemma XorOfBits(x: nat, a: nat, y: nat, b: nat)
    requires x < 2 && y < 2
    ensures Xor(x + 2 * a, y + 2 * b) == (if x == y then 0 else 1) + 2 * Xor(a, b)
  {
    Halved(x, a); Halved(y, b);
    XorBits(x + 2 * a, y + 2 * b);
  }

  lemma XorCommutes(a: nat, b: nat)
    ensures Xor(a, b) == Xor(b, a)
  {
  }

  lemma {:induction false} XorAssociates(a: nat, b: nat, c: nat)
    ensures Xor(Xor(a, b), c) == Xor(a, Xor(b, c))
    decreases a + b + c
  {
    if a > 0 && b > 0 && c > 0 {
      XorAssociates(a / 2, b / 2, c / 2);
      XorBits(a, b); XorBits(b, c);
      XorBits(Xor(a, b), c); XorBits(a, Xor(b, c));
    }
  }

  lemma {:induction false} XorDistinguishes(a: nat, b: nat)
    ensures Xor(a, b) == 0 <==> a == b
  {
    if a > 0 && b > 0 {
      XorDistinguishes(a / 2, b / 2);
    }
  }

  lemma XorPairs(a: nat, b: nat, c: nat, d: nat)
    ensures Xor(Xor(a, b), Xor(c, d)) == Xor(Xor(a, c), Xor(b, d))
  {
    XorAssociates(a, b, Xor(c, d));
    XorAssociates(b, c, d);
    XorCommutes(b, c);
    XorAssociates(c, b, d);
    XorAssociates(a, c, Xor(b, d));
  }

  lemma {:induction false} XorShr(a: nat, b: nat, k: nat)
    ensures Shr(Xor(a, b), k) == Xor(Shr(a, k), Shr(b, k))
  {
    if k > 0 {
      XorBits(a, b);
      XorShr(a / 2, b / 2, k - 1);
    }
  }

  lemma {:induction false} XorLow(a: nat, b: nat, k: nat)
    ensures Low(Xor(a, b), k) == Xor(Low(a, k), Low(b, k))
  {
    if k > 0 {
      XorBits(a, b);
      XorLow(a / 2, b / 2, k - 1);
      XorOfBits(a % 2, Low(a / 2, k - 1), b % 2, Low(b / 2, k - 1));
    }
  }

  lemma {:induction false} XorShl(a: nat, b: nat, k: nat)
    ensures Shl(Xor(a, b), k) == Xor(Shl(a, k), Shl(b, k))
  {
    if k > 0 {
      XorShl(a, b, k - 1);
      XorOfBits(0, Shl(a, k - 1), 0, Shl(b, k - 1));
    }
  }

  lemma XorFits(a: nat, b: nat, k: nat)
    requires Fits(a, k) && Fits(b, k)
    ensures Fits(Xor(a, b), k)
  {
    XorShr(a, b, k);
  }

  lemma {:induction false} ShrShr(a: nat, j: nat, k: nat)
    ensures Shr(Shr(a, j), k) == Shr(a, j + k)
  {
    if j > 0 {
      ShrShr(a / 2, j - 1, k);
    }
  }

  lemma {:induction false} FitsMore(a: nat, j: nat, k: nat)
    requires Fits(a, j) && j <= k
    ensures Fits(a, k)
  {
    if k > 0 {
      if j == 0 { FitsMore(0, 0, k - 1); } else { FitsMore(a / 2, j - 1, k - 1); }
    }
  }

  lemma {:induction false} LowOfFitting(a: nat, k: nat)
    requires Fits(a, k)
    ensures Low(a, k) == a
  {
    if k > 0 {
      LowOfFitting(a / 2, k - 1);
    }
  }

  /** The two parts determine the number. */
  lemma {:induction false} SplitDetermines(a: nat, b: nat, k: nat)
    requires Low(a, k) == Low(b, k) && Shr(a, k) == Shr(b, k)
    ensures a == b
  {
    if k > 0 {
      SplitDetermines(a / 2, b / 2, k - 1);
    }
  }

  /** Shifted left by k, a number has k zero bits below. */
  lemma {:induction false} ShlThenSplit(a: nat, k: nat)
    ensures Low(Shl(a, k), k) == 0
    ensures Shr(Shl(a, k), k) == a
  {
    if k > 0 {
      ShlThenSplit(a, k - 1);
    }
  }

  lemma {:induction false} LowFits(a: nat, k: nat)
    ensures Fits(Low(a, k), k)
  {
    if k > 0 {
      LowFits(a / 2, k - 1);
    }
  }

  /** Shifting is division and remainder by a power of two. */
  lemma ShiftByFive(a: nat)
    ensures Shl(a, 5) == 32 * a
    ensures Shr(a, 5) == a / 32
    ensures Low(a, 5) == a % 32
    ensures Fits(a, 5) <==> a < 32
  {
    assert Shl(a, 1) == 2 * a;
    assert Shl(a, 2) == 4 * a;
    assert Shl(a, 3) == 8 * a;
    assert Shl(a, 4) == 16 * a;
    var a1 := a / 2; var a2 := a1 / 2; var a3 := a2 / 2; var a4 := a3 / 2;
    assert Shr(a4, 1) == a4 / 2 && Low(a4, 1) == a4 % 2;
    assert Shr(a3, 2) == a3 / 4 && Low(a3, 2) == a3 % 4;
    assert Shr(a2, 3) == a2 / 8 && Low(a2, 3) == a2 % 8;
    assert Shr(a1, 4) == a1 / 16 && Low(a1, 4) == a1 % 16;
  }
}
