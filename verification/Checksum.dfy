/**
 The descriptor checksum: a polynomial code over five-bit symbols (BIP 380,
 section "Checksum"). Words are naturals with bitwise operations; the state
 never exceeds 40 bits, so the 64-bit words of the program never overflow.
 */
module Checksum {
  import opened Bits

  // ------------------------------------------------------------------- step

  /** The word added for each set bit of the symbol shifted out, lowest bit first. */
  const FEEDBACK_TERMS: seq<nat> := [0xf5dee51989, 0xa9fdca3312, 0x1bab10e32d, 0x3706b1677a, 0x644d626ffd]

  function Term(upper: nat, k: nat): nat
    requires k < 5
  {
    if Shr(upper, k) % 2 == 1 then FEEDBACK_TERMS[k] else 0
  }

  /** The feedback of the first k bits. */
  function Feedback(upper: nat, k: nat): nat
    requires k <= 5
  {
    if k == 0 then 0 else Xor(Feedback(upper, k - 1), Term(upper, k - 1))
  }

  function PolyMod(checksum: nat, value: nat): nat {
    Xor(Xor(Shl(Low(checksum, 35), 5), value), Feedback(Shr(checksum, 35), 5))
  }

  method PolynomialModulus(checksum: nat, value: nat) returns (r: nat)
    ensures r == PolyMod(checksum, value)
  {
    var upper := Shr(checksum, 35);
    r := Xor(Shl(Low(checksum, 35), 5), value);
    ghost var start := r;
    for k := 0 to 5
      invariant r == Xor(start, Feedback(upper, k))
    {
      XorAssociates(start, Feedback(upper, k), Term(upper, k));
      if Shr(upper, k) % 2 == 1 {
        r := Xor(r, FEEDBACK_TERMS[k]);
      }
    }
  }

  // ------------------------------------------------------- laws of the step

  lemma {:induction false} FeedbackIsLinear(a: nat, b: nat, k: nat)
    requires k <= 5
    ensures Xor(Feedback(a, k), Feedback(b, k)) == Feedback(Xor(a, b), k)
  {
    if k > 0 {
      FeedbackIsLinear(a, b, k - 1);
      XorShr(a, b, k - 1);
      XorBits(Shr(a, k - 1), Shr(b, k - 1));
      XorDistinguishes(FEEDBACK_TERMS[k - 1], FEEDBACK_TERMS[k - 1]);
      assert Xor(Term(a, k - 1), Term(b, k - 1)) == Term(Xor(a, b), k - 1);
      XorPairs(Feedback(a, k - 1), Term(a, k - 1), Feedback(b, k - 1), Term(b, k - 1));
    }
  }

  /** The step is linear over GF(2). */
  lemma StepIsLinear(c: nat, d: nat, v: nat, w: nat)
    ensures Xor(PolyMod(c, v), PolyMod(d, w)) == PolyMod(Xor(c, d), Xor(v, w))
  {
    var x, y := Shl(Low(c, 35), 5), Shl(Low(d, 35), 5);
    XorPairs(Xor(x, v), Feedback(Shr(c, 35), 5), Xor(y, w), Feedback(Shr(d, 35), 5));
    XorPairs(x, v, y, w);
    XorShl(Low(c, 35), Low(d, 35), 5);
    XorLow(c, d, 35);
    XorShr(c, d, 35);
    FeedbackIsLinear(Shr(c, 35), Shr(d, 35), 5);
  }

  lemma NoFeedbackOfZero(k: nat)
    requires k <= 5
    ensures Feedback(0, k) == 0
  {
    if k > 0 {
      NoFeedbackOfZero(k - 1);
      FitsMore(0, 0, k - 1);
    }
  }

  /** While nothing is shifted out, the step appends a base-32 digit. */
  lemma StepAppendsDigit(c: nat, v: nat)
    requires Fits(c, 35) && v < 32
    ensures PolyMod(c, v) == 32 * c + v
  {
    NoFeedbackOfZero(5);
    LowOfFitting(c, 35);
    ShiftByFive(c);
    ShiftByFive(v);
    var s := Shl(c, 5);
    ShlThenSplit(c, 5);
    XorLow(s, v, 5);
    XorShr(s, v, 5);
    ShiftByFive(Xor(s, v));
  }

  lemma {:induction false} FeedbackFits(upper: nat, k: nat)
    requires k <= 5
    ensures Fits(Feedback(upper, k), 40)
  {
    if k == 0 {
      FitsMore(0, 0, 40);
    } else {
      FeedbackFits(upper, k - 1);
      TermFits(upper, k - 1);
      XorFits(Feedback(upper, k - 1), Term(upper, k - 1), 40);
    }
  }

  /** Eight shifts by five. */
  lemma FortyBits(a: nat)
    ensures Shr(a, 40) == a / 0x100_0000_0000
    ensures Shr(a, 35) == a / 0x8_0000_0000
  {
    var b := a / 32; var c := b / 32; var d := c / 32; var e := d / 32; var f := e / 32; var g := f / 32;
    ShiftByFive(a); ShiftByFive(b); ShiftByFive(c); ShiftByFive(d);
    ShiftByFive(e); ShiftByFive(f); ShiftByFive(g); ShiftByFive(g / 32);
    ShrShr(a, 5, 35); ShrShr(b, 5, 30); ShrShr(c, 5, 25); ShrShr(d, 5, 20);
    ShrShr(e, 5, 15); ShrShr(f, 5, 10); ShrShr(g, 5, 5);
    ShrShr(a, 5, 30); ShrShr(b, 5, 25); ShrShr(c, 5, 20); ShrShr(d, 5, 15);
    ShrShr(e, 5, 10); ShrShr(f, 5, 5);
  }

  lemma TermFits(upper: nat, k: nat)
    requires k < 5
    ensures Fits(Term(upper, k), 40)
  {
    FortyBits(Term(upper, k));
  }

  /** The state stays within 40 bits. */
  lemma StateStaysBelow(c: nat, v: nat)
    requires v < 32
    ensures Fits(PolyMod(c, v), 40)
  {
    var s := Low(c, 35);
    LowFits(c, 35);
    ShrShr(Shl(s, 5), 5, 35);
    ShlThenSplit(s, 5);
    ShiftByFive(v);
    FitsMore(v, 5, 40);
    XorFits(Shl(s, 5), v, 40);
    FeedbackFits(Shr(c, 35), 5);
    XorFits(Xor(Shl(s, 5), v), Feedback(Shr(c, 35), 5), 40);
  }

  /** The low symbols of the feedback terms. */
  const LOW_TERMS: seq<nat> := [9, 18, 13, 26, 29]

  lemma LowTerm(u: nat, k: nat)
    requires k < 5
    ensures Low(Term(u, k), 5) == if Shr(u, k) % 2 == 1 then LOW_TERMS[k] else 0
  {
    ShiftByFive(Term(u, k));
    assert 0xf5dee51989 % 32 == 9 && 0xa9fdca3312 % 32 == 18 && 0x1bab10e32d % 32 == 13;
    assert 0x3706b1677a % 32 == 26 && 0x644d626ffd % 32 == 29;
  }

  lemma XorOf9()
    ensures Xor(9, 18) == 27 && Xor(9, 13) == 4
  {
    assert Xor(2, 4) == 6 && Xor(4, 9) == 13;
    assert Xor(2, 3) == 1 && Xor(4, 6) == 2;
  }

  lemma XorOf13()
    ensures Xor(18, 13) == 31 && Xor(27, 13) == 22
  {
    assert Xor(4, 3) == 7 && Xor(9, 6) == 15;
    assert Xor(6, 3) == 5 && Xor(13, 6) == 11;
  }

  lemma XorOf26()
    ensures Xor(26, 29) == 7
  {
    assert Xor(6, 7) == 1 && Xor(13, 14) == 3;
  }

  /** The five low symbols are independent: only the empty combination is zero. */
  lemma Independent(t: seq<nat>)
    requires |t| == 5 && forall k | 0 <= k < 5 :: t[k] == 0 || t[k] == LOW_TERMS[k]
    requires Xor(Xor(Xor(Xor(t[0], t[1]), t[2]), t[3]), t[4]) == 0
    ensures forall k | 0 <= k < 5 :: t[k] == 0
  {
    var a, b := Xor(Xor(t[0], t[1]), t[2]), Xor(t[3], t[4]);
    XorAssociates(a, t[3], t[4]);
    XorDistinguishes(a, b);
    XorOf9(); XorOf13(); XorOf26();
    assert Xor(t[0], t[1]) in {0, 9, 18, 27};
    assert b in {0, 26, 29, 7} && (b == 0 ==> t[3] == 0 && t[4] == 0);
  }

  lemma LowFeedbackStep(u: nat, k: nat)
    requires k < 5
    ensures Low(Feedback(u, k + 1), 5) == Xor(Low(Feedback(u, k), 5), Low(Term(u, k), 5))
  {
    XorLow(Feedback(u, k), Term(u, k), 5);
  }

  lemma LowFeedback(u: nat)
    requires Low(Feedback(u, 5), 5) == 0
    ensures forall k | 0 <= k < 5 :: Shr(u, k) % 2 == 0
  {
    var t := seq(5, k requires 0 <= k < 5 => Low(Term(u, k), 5));
    forall k | 0 <= k < 5
      ensures t[k] == if Shr(u, k) % 2 == 1 then LOW_TERMS[k] else 0
    {
      LowTerm(u, k);
    }
    LowZero(5);
    LowFeedbackStep(u, 0); LowFeedbackStep(u, 1); LowFeedbackStep(u, 2);
    LowFeedbackStep(u, 3); LowFeedbackStep(u, 4);
    Independent(t);
  }

  /** Only the zero state steps to zero. */
  lemma ZeroComesFromZero(d: nat)
    requires Fits(d, 40) && PolyMod(d, 0) == 0
    ensures d == 0
  {
    var u, x := Shr(d, 35), Shl(Low(d, 35), 5);
    XorDistinguishes(x, Feedback(u, 5));
    ShlThenSplit(Low(d, 35), 5);
    LowFeedback(u);
    ShrShr(d, 35, 5);
    ZeroBits(u);
    NoFeedbackOfZero(5);
    LowZero(35);
    SplitDetermines(d, 0, 35);
  }

  lemma HalfOf(a: nat)
    ensures Shr(a, 1) == a / 2 && a == 2 * (a / 2) + a % 2
  {
    assert Shr(a / 2, 0) == a / 2;
  }

  lemma ZeroBits(u: nat)
    requires Fits(u, 5)
    requires Shr(u, 0) % 2 == 0 && Shr(u, 1) % 2 == 0 && Shr(u, 2) % 2 == 0 && Shr(u, 3) % 2 == 0 && Shr(u, 4) % 2 == 0
    ensures u == 0
  {
    ShrShr(u, 1, 1); ShrShr(u, 2, 1); ShrShr(u, 3, 1); ShrShr(u, 4, 1);
    HalfOf(u); HalfOf(Shr(u, 1)); HalfOf(Shr(u, 2)); HalfOf(Shr(u, 3)); HalfOf(Shr(u, 4));
    assert Shr(u, 4) == 0 && Shr(u, 3) == 0 && Shr(u, 2) == 0 && Shr(u, 1) == 0;
  }

  lemma {:induction false} LowZero(k: nat)
    ensures Low(0, k) == 0 && Shr(0, k) == 0
  {
    if k > 0 {
      LowZero(k - 1);
    }
  }

  /** The step is injective in the state. */
  lemma StepIsInjective(c: nat, d: nat, v: nat)
    requires Fits(c, 40) && Fits(d, 40)
    ensures PolyMod(c, v) == PolyMod(d, v) <==> c == d
  {
    if PolyMod(c, v) == PolyMod(d, v) {
      StepIsLinear(c, d, v, v);
      XorDistinguishes(v, v);
      XorDistinguishes(PolyMod(c, v), PolyMod(d, v));
      XorFits(c, d, 40);
      ZeroComesFromZero(Xor(c, d));
      XorDistinguishes(c, d);
    }
  }

  // ------------------------------------------------------ symbol sequences

  predicate AreSymbols(s: seq<nat>) {
    forall i | 0 <= i < |s| :: s[i] < 32
  }

  function Fold(c: nat, s: seq<nat>): nat {
    if s == [] then c else PolyMod(Fold(c, s[..|s| - 1]), s[|s| - 1])
  }

  lemma {:induction false} FoldAppend(c: nat, a: seq<nat>, b: seq<nat>)
    ensures Fold(c, a + b) == Fold(Fold(c, a), b)
  {
    if b == [] {
      assert a + b == a;
    } else {
      assert (a + b)[..|a + b| - 1] == a + b[..|b| - 1];
      FoldAppend(c, a, b[..|b| - 1]);
    }
  }

  lemma {:induction false} FoldFits(c: nat, s: seq<nat>)
    requires Fits(c, 40) && AreSymbols(s)
    ensures Fits(Fold(c, s), 40)
  {
    if s != [] {
      StateStaysBelow(Fold(c, s[..|s| - 1]), s[|s| - 1]);
    }
  }

  lemma {:induction false} FoldIsInjective(c: nat, d: nat, s: seq<nat>)
    requires Fits(c, 40) && Fits(d, 40) && AreSymbols(s)
    ensures Fold(c, s) == Fold(d, s) <==> c == d
  {
    if s != [] {
      var init := s[..|s| - 1];
      FoldIsInjective(c, d, init);
      FoldFits(c, init);
      FoldFits(d, init);
      StepIsInjective(Fold(c, init), Fold(d, init), s[|s| - 1]);
    }
  }

  function XorSeq(x: seq<nat>, y: seq<nat>): seq<nat>
    requires |x| == |y|
  {
    seq(|x|, i requires 0 <= i < |x| => Xor(x[i], y[i]))
  }

  lemma {:induction false} FoldIsLinear(c: nat, d: nat, x: seq<nat>, y: seq<nat>)
    requires |x| == |y|
    ensures Xor(Fold(c, x), Fold(d, y)) == Fold(Xor(c, d), XorSeq(x, y))
  {
    if x != [] {
      var n := |x| - 1;
      FoldIsLinear(c, d, x[..n], y[..n]);
      StepIsLinear(Fold(c, x[..n]), Fold(d, y[..n]), x[n], y[n]);
      assert XorSeq(x, y)[..n] == XorSeq(x[..n], y[..n]);
    }
  }

  lemma DigitFits(c: nat, v: nat, k: nat)
    requires Fits(c, k) && v < 32
    ensures Fits(32 * c + v, k + 5)
  {
    ShiftByFive(32 * c + v);
    assert (32 * c + v) / 32 == c;
    ShrShr(32 * c + v, 5, k);
  }

  /** The number with the given base-32 digits. */
  function Number(w: seq<nat>): nat {
    if w == [] then 0 else 32 * Number(w[..|w| - 1]) + w[|w| - 1]
  }

  lemma {:induction false} NumberFits(w: seq<nat>)
    requires AreSymbols(w)
    ensures Fits(Number(w), 5 * |w|)
  {
    if w != [] {
      var n := |w| - 1;
      NumberFits(w[..n]);
      DigitFits(Number(w[..n]), w[n], 5 * n);
    }
  }

  lemma {:induction false} ZeroNumber(w: seq<nat>)
    requires Number(w) == 0
    ensures forall i | 0 <= i < |w| :: w[i] == 0
  {
    if w != [] {
      var n := |w| - 1;
      ZeroNumber(w[..n]);
      assert forall i | 0 <= i < n :: w[i] == w[..n][i];
    }
  }

  /** From the zero state, up to eight symbols are just their base-32 number. */
  lemma {:induction false} ShortFold(w: seq<nat>)
    requires |w| <= 8 && AreSymbols(w)
    ensures Fold(0, w) == Number(w)
  {
    if w != [] {
      var n := |w| - 1;
      var s := w[..n];
      ShortFold(s);
      NumberFits(s);
      FitsMore(Number(s), 5 * n, 35);
      StepAppendsDigit(Number(s), w[n]);
    }
  }

  lemma XorOfSymbols(x: seq<nat>, y: seq<nat>)
    requires |x| == |y| && AreSymbols(x) && AreSymbols(y)
    ensures AreSymbols(XorSeq(x, y))
    ensures (forall i | 0 <= i < |x| :: XorSeq(x, y)[i] == 0) ==> x == y
  {
    forall i | 0 <= i < |x|
      ensures Xor(x[i], y[i]) < 32 && (Xor(x[i], y[i]) == 0 ==> x[i] == y[i])
    {
      ShiftByFive(x[i]); ShiftByFive(y[i]); ShiftByFive(Xor(x[i], y[i]));
      XorFits(x[i], y[i], 5);
      XorDistinguishes(x[i], y[i]);
    }
    assert forall i | 0 <= i < |x| :: XorSeq(x, y)[i] == Xor(x[i], y[i]);
  }

  /** Any change within eight consecutive symbols changes the final state. */
  lemma BurstIsDetected(c: nat, p: seq<nat>, x: seq<nat>, y: seq<nat>, q: seq<nat>)
    requires Fits(c, 40) && |x| == |y| <= 8 && x != y
    requires AreSymbols(p) && AreSymbols(x) && AreSymbols(y) && AreSymbols(q)
    ensures Fold(c, p + x + q) != Fold(c, p + y + q)
  {
    var s := Fold(c, p);
    FoldFits(c, p);
    FoldAppend(c, p, x); FoldAppend(c, p, y);
    FoldAppend(c, p + x, q); FoldAppend(c, p + y, q);
    FoldIsLinear(s, s, x, y);
    XorDistinguishes(s, s);
    XorOfSymbols(x, y);
    ShortFold(XorSeq(x, y));
    if Number(XorSeq(x, y)) == 0 {
      ZeroNumber(XorSeq(x, y));
    }
    XorDistinguishes(Fold(s, x), Fold(s, y));
    FoldFits(s, x); FoldFits(s, y);
    FoldIsInjective(Fold(s, x), Fold(s, y), q);
  }
}
