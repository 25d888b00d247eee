/** Descriptor strings and their eight-character checksums. */
module Descriptor {
  import opened Bytes
  import opened Bits
  import opened Checksum

  const INPUT_CHARSET: string :=
    "0123456789()[],'/*abcdefgh@:$%{}IJKLMNOPQRSTUVWXYZ&+-.;<=>?!^_|~ijklmnopqrstuvwxyzABCDEFGH`#\"\\ "
  const CHECKSUM_CHARSET: string := "qpzry9x8gf2tvdw0s3jn54khce6mua7l"

  /** The first position of a character, from k on. */
  function Find(s: string, c: char, k: nat): Option<nat>
    requires k <= |s|
    decreases |s| - k
  {
    if k == |s| then None else if s[k] == c then Some(k) else Find(s, c, k + 1)
  }

  lemma {:induction false} FindFinds(s: string, c: char, k: nat)
    requires k <= |s|
    ensures var r := Find(s, c, k); r.Some? ==> r.value < |s| && s[r.value] == c
    decreases |s| - k
  {
    if k < |s| && s[k] != c {
      FindFinds(s, c, k + 1);
    }
  }

  function Position(c: char): Option<nat> {
    Find(INPUT_CHARSET, c, 0)
  }

  predicate ValidDescriptor(d: string) {
    forall i | 0 <= i < |d| :: Position(d[i]).Some?
  }

  function Positions(d: string): seq<nat>
    requires ValidDescriptor(d)
  {
    seq(|d|, i requires 0 <= i < |d| => Position(d[i]).value)
  }

  predicate ArePositions(p: seq<nat>) {
    forall i | 0 <= i < |p| :: p[i] < 96
  }

  /** Characters and their positions determine each other. */
  lemma PositionsDetermine(d: string, e: string)
    requires ValidDescriptor(d) && ValidDescriptor(e)
    ensures ArePositions(Positions(d))
    ensures Positions(d) == Positions(e) <==> d == e
  {
    assert |INPUT_CHARSET| <= 96;
    forall i | 0 <= i < |d| {
      FindFinds(INPUT_CHARSET, d[i], 0);
    }
    forall i | 0 <= i < |e| {
      FindFinds(INPUT_CHARSET, e[i], 0);
    }
    if Positions(d) == Positions(e) {
      assert |d| == |Positions(d)| == |e|;
      forall i | 0 <= i < |d|
        ensures d[i] == e[i]
      {
        assert Positions(d)[i] == Positions(e)[i];
      }
    }
  }

  // ---------------------------------------------------------------- symbols

  /** The symbol of a group: the high parts of its positions in base 3. */
  function Group(p: seq<nat>): nat {
    if p == [] then 0 else 3 * Group(p[..|p| - 1]) + p[|p| - 1] / 32
  }

  /** The symbols fed in so far and the positions of the group not yet complete. */
  datatype Encoder = Encoder(out: seq<nat>, group: seq<nat>)
  {
    function Feed(x: nat): Encoder {
      var low, g := out + [x % 32], group + [x];
      if |g| == 3 then Encoder(low + [Group(g)], []) else Encoder(low, g)
    }

    function FeedAll(p: seq<nat>): Encoder {
      if p == [] then this else FeedAll(p[..|p| - 1]).Feed(p[|p| - 1])
    }

    function Symbols(): seq<nat> {
      if group == [] then out else out + [Group(group)]
    }
  }

  const START: Encoder := Encoder([], [])

  function Symbols(p: seq<nat>): seq<nat> {
    START.FeedAll(p).Symbols()
  }

  /** The checksum of a descriptor, as a state and as text. */
  function Finish(state: nat): nat {
    Xor(Fold(state, seq(8, _ => 0)), 1)
  }

  function Digit(state: nat, i: nat): nat
    requires i < 8
  {
    Low(Shr(state, 5 * (7 - i)), 5)
  }

  lemma DigitIsSymbol(state: nat, i: nat)
    requires i < 8
    ensures Digit(state, i) < 32
  {
    var x := Shr(state, 5 * (7 - i));
    ShiftByFive(x);
  }

  function Render(state: nat): string {
    seq(8, i requires 0 <= i < 8 => DigitIsSymbol(state, i); CHECKSUM_CHARSET[Digit(state, i)])
  }

  function ChecksumOf(d: string): Option<string> {
    if ValidDescriptor(d) then Some(Render(Finish(Fold(1, Symbols(Positions(d)))))) else None
  }

  lemma FeedLast(e: Encoder, p: seq<nat>, x: nat)
    ensures e.FeedAll(p + [x]) == e.FeedAll(p).Feed(x)
  {
    assert (p + [x])[..|p|] == p;
  }

  lemma GroupStep(g: seq<nat>, x: nat)
    ensures Group(g + [x]) == 3 * Group(g) + x / 32
  {
    assert (g + [x])[..|g|] == g;
  }

  lemma FoldLast(c: nat, s: seq<nat>, v: nat)
    ensures Fold(c, s + [v]) == PolyMod(Fold(c, s), v)
  {
    assert (s + [v])[..|s|] == s;
  }

  lemma PositionsLast(d: string, i: nat)
    requires i < |d| && ValidDescriptor(d[..i]) && Position(d[i]).Some?
    ensures ValidDescriptor(d[..i + 1])
    ensures Positions(d[..i + 1]) == Positions(d[..i]) + [Position(d[i]).value]
  {
    assert d[..i + 1] == d[..i] + [d[i]];
  }

  /** The loop's variables describe an encoder. */
  ghost predicate Tracks(e: Encoder, checksum: nat, accumulated: nat, groupCount: nat) {
    checksum == Fold(1, e.out) && accumulated == Group(e.group) && groupCount == |e.group| < 3
  }

  method FeedCharacter(position: nat, checksum: nat, accumulated: nat, groupCount: nat, ghost e: Encoder)
    returns (checksum': nat, accumulated': nat, groupCount': nat)
    requires Tracks(e, checksum, accumulated, groupCount)
    ensures Tracks(e.Feed(position), checksum', accumulated', groupCount')
  {
    GroupStep(e.group, position);
    FoldLast(1, e.out, position % 32);
    checksum' := PolynomialModulus(checksum, position % 32);
    accumulated' := accumulated * 3 + position / 32;
    groupCount' := groupCount + 1;
    if groupCount' == 3 {
      FoldLast(1, e.out + [position % 32], accumulated');
      checksum' := PolynomialModulus(checksum', accumulated');
      accumulated', groupCount' := 0, 0;
    }
  }

  method FeedCharacters(d: string) returns (valid: bool, checksum: nat, accumulated: nat, groupCount: nat)
    ensures valid <==> ValidDescriptor(d)
    ensures valid ==> Tracks(START.FeedAll(Positions(d)), checksum, accumulated, groupCount)
  {
    valid, checksum, accumulated, groupCount := true, 1, 0, 0;
    ghost var p := [];
    for i := 0 to |d|
      invariant ValidDescriptor(d[..i]) && p == Positions(d[..i])
      invariant Tracks(START.FeedAll(p), checksum, accumulated, groupCount)
    {
      var found := Position(d[i]);
      if found.None? {
        return false, 0, 0, 0;
      }
      PositionsLast(d, i);
      FeedLast(START, p, found.value);
      checksum, accumulated, groupCount := FeedCharacter(found.value, checksum, accumulated, groupCount, START.FeedAll(p));
      p := p + [found.value];
    }
    assert d[..|d|] == d;
  }

  method ComputeChecksum(d: string) returns (r: Option<string>)
    ensures r == ChecksumOf(d)
  {
    var valid, checksum, accumulated, groupCount := FeedCharacters(d);
    if !valid {
      return None;
    }
    ghost var e := START.FeedAll(Positions(d));
    if groupCount > 0 {
      FoldLast(1, e.out, accumulated);
      checksum := PolynomialModulus(checksum, accumulated);
    }
    ghost var fed := checksum;
    for i := 0 to 8
      invariant checksum == Fold(fed, seq(i, _ => 0))
    {
      assert seq(i + 1, _ => 0) == seq(i, _ => 0) + [0];
      FoldLast(fed, seq(i, _ => 0), 0);
      checksum := PolynomialModulus(checksum, 0);
    }
    checksum := Xor(checksum, 1);
    r := Some(Render(checksum));
  }

  // ------------------------------------------------------- error detection

  lemma {:induction false} FeedAppend(e: Encoder, a: seq<nat>, b: seq<nat>)
    ensures e.FeedAll(a + b) == e.FeedAll(a).FeedAll(b)
  {
    if b == [] {
      assert a + b == a;
    } else {
      var n := |b| - 1;
      assert a + b == (a + b[..n]) + [b[n]];
      FeedAppend(e, a, b[..n]);
      FeedLast(e, a + b[..n], b[n]);
    }
  }

  /** What was fed in earlier stays in front. */
  lemma {:induction false} FeedKeepsFront(out: seq<nat>, g: seq<nat>, p: seq<nat>)
    ensures var e := Encoder([], g).FeedAll(p);
            Encoder(out, g).FeedAll(p) == Encoder(out + e.out, e.group)
  {
    if p != [] {
      FeedKeepsFront(out, g, p[..|p| - 1]);
    }
  }

  lemma {:induction false} FeedGroups(e: Encoder, p: seq<nat>)
    requires |e.group| < 3
    ensures |e.FeedAll(p).group| < 3
    ensures (|e.group| + |p|) % 3 == |e.FeedAll(p).group|
  {
    if p != [] {
      FeedGroups(e, p[..|p| - 1]);
    }
  }

  /** After whole groups the encoding starts afresh. */
  lemma SymbolsAppend(a: seq<nat>, b: seq<nat>)
    requires |a| % 3 == 0
    ensures Symbols(a + b) == Symbols(a) + Symbols(b)
  {
    var ea, eb := START.FeedAll(a), START.FeedAll(b);
    FeedGroups(START, a);
    assert ea == Encoder(ea.out, []);
    FeedKeepsFront(ea.out, [], b);
    FeedAppend(START, a, b);
    assert START.FeedAll(a + b) == Encoder(ea.out + eb.out, eb.group);
  }

  /** The symbols of up to one group. */
  function Short(p: seq<nat>): seq<nat>
    requires |p| <= 3
  {
    if p == [] then []
    else if |p| == 1 then [p[0] % 32, p[0] / 32]
    else if |p| == 2 then [p[0] % 32, p[1] % 32, 3 * (p[0] / 32) + p[1] / 32]
    else [p[0] % 32, p[1] % 32, p[2] % 32, 9 * (p[0] / 32) + 3 * (p[1] / 32) + p[2] / 32]
  }

  /** The symbols, group by group. */
  function Blocks(p: seq<nat>): seq<nat> {
    if |p| <= 3 then Short(p) else Short(p[..3]) + Blocks(p[3..])
  }

  lemma FeedOne(x: nat)
    ensures START.FeedAll([x]) == Encoder([x % 32], [x])
  {
    FeedLast(START, [], x);
    assert [] + [x] == [x];
  }

  lemma FeedTwo(x: nat, y: nat)
    ensures START.FeedAll([x, y]) == Encoder([x % 32, y % 32], [x, y])
  {
    FeedOne(x);
    FeedLast(START, [x], y);
    assert [x] + [y] == [x, y];
  }

  lemma FeedThree(x: nat, y: nat, z: nat)
    ensures START.FeedAll([x, y, z]) == Encoder([x % 32, y % 32, z % 32, 9 * (x / 32) + 3 * (y / 32) + z / 32], [])
  {
    FeedTwo(x, y);
    FeedLast(START, [x, y], z);
    assert [x, y] + [z] == [x, y, z];
    GroupStep([x, y], z); GroupStep([x], y); GroupStep([], x);
    assert [] + [x] == [x] && [x] + [y] == [x, y];
  }

  lemma ShortSymbols(p: seq<nat>)
    requires |p| <= 3
    ensures Symbols(p) == Short(p)
  {
    if |p| == 1 {
      FeedOne(p[0]);
      assert p == [p[0]];
      GroupStep([], p[0]);
      assert [] + p == p;
    } else if |p| == 2 {
      FeedTwo(p[0], p[1]);
      assert p == [p[0], p[1]];
      GroupStep([p[0]], p[1]); GroupStep([], p[0]);
      assert [] + [p[0]] == [p[0]] && [p[0]] + [p[1]] == p;
    } else if |p| == 3 {
      FeedThree(p[0], p[1], p[2]);
      assert p == [p[0], p[1], p[2]];
    }
  }

  lemma {:induction false} SymbolsAreBlocks(p: seq<nat>)
    ensures Symbols(p) == Blocks(p)
  {
    if |p| <= 3 {
      ShortSymbols(p);
    } else {
      assert p == p[..3] + p[3..];
      SymbolsAppend(p[..3], p[3..]);
      ShortSymbols(p[..3]);
      SymbolsAreBlocks(p[3..]);
    }
  }

  lemma BlocksAppend(a: seq<nat>, b: seq<nat>)
    requires |a| % 3 == 0
    ensures Blocks(a + b) == Blocks(a) + Blocks(b)
  {
    SymbolsAppend(a, b);
    SymbolsAreBlocks(a);
    SymbolsAreBlocks(b);
    SymbolsAreBlocks(a + b);
  }

  lemma Base3(a: nat, b: nat, c: nat, x: nat, y: nat, z: nat)
    requires a < 96 && b < 96 && c < 96 && x < 96 && y < 96 && z < 96
    requires a % 32 == x % 32 && b % 32 == y % 32 && c % 32 == z % 32
    requires 9 * (a / 32) + 3 * (b / 32) + c / 32 == 9 * (x / 32) + 3 * (y / 32) + z / 32
    ensures a == x && b == y && c == z
  {
    Ternary(a / 32, b / 32, c / 32, x / 32, y / 32, z / 32);
  }

  lemma Ternary(a: nat, b: nat, c: nat, x: nat, y: nat, z: nat)
    requires a < 3 && b < 3 && c < 3 && x < 3 && y < 3 && z < 3
    requires 9 * a + 3 * b + c == 9 * x + 3 * y + z
    ensures a == x && b == y && c == z
  {
  }

  lemma ShortDetermine(p: seq<nat>, q: seq<nat>)
    requires |p| == |q| <= 3 && ArePositions(p) && ArePositions(q)
    requires Short(p) == Short(q)
    ensures p == q
  {
    var s := Short(p);
    if |p| == 1 {
      assert s[0] == q[0] % 32 && s[1] == q[0] / 32;
      Base3(0, 0, p[0], 0, 0, q[0]);
    } else if |p| == 2 {
      assert s[0] == q[0] % 32 && s[1] == q[1] % 32 && s[2] == 3 * (q[0] / 32) + q[1] / 32;
      Base3(0, p[0], p[1], 0, q[0], q[1]);
    } else if |p| == 3 {
      assert s[0] == q[0] % 32 && s[1] == q[1] % 32 && s[2] == q[2] % 32;
      assert s[3] == 9 * (q[0] / 32) + 3 * (q[1] / 32) + q[2] / 32;
      Base3(p[0], p[1], p[2], q[0], q[1], q[2]);
    }
  }

  lemma {:induction false} BlocksAreSymbols(p: seq<nat>)
    requires ArePositions(p)
    ensures AreSymbols(Blocks(p))
    ensures |Blocks(p)| == |p| + (|p| + 2) / 3
  {
    if |p| > 3 {
      BlocksAreSymbols(p[3..]);
      ShortAreSymbols(p[..3]);
    } else {
      ShortAreSymbols(p);
    }
  }

  lemma ShortAreSymbols(p: seq<nat>)
    requires |p| <= 3 && ArePositions(p)
    ensures AreSymbols(Short(p))
  {
  }

  lemma SplitEqual(a: seq<nat>, b: seq<nat>, c: seq<nat>, d: seq<nat>)
    requires |a| == |c| && a + b == c + d
    ensures a == c && b == d
  {
    assert (a + b)[..|a|] == a && (c + d)[..|a|] == c;
    assert (a + b)[|a|..] == b && (c + d)[|a|..] == d;
  }

  /** Positions of equal number are determined by their symbols. */
  lemma {:induction false} BlocksDetermine(p: seq<nat>, q: seq<nat>)
    requires |p| == |q| && ArePositions(p) && ArePositions(q)
    requires Blocks(p) == Blocks(q)
    ensures p == q
  {
    if |p| <= 3 {
      ShortDetermine(p, q);
    } else {
      SplitEqual(Short(p[..3]), Blocks(p[3..]), Short(q[..3]), Blocks(q[3..]));
      ShortDetermine(p[..3], q[..3]);
      BlocksDetermine(p[3..], q[3..]);
      assert p == p[..3] + p[3..] && q == q[..3] + q[3..];
    }
  }

  /** Positions that differ only within two consecutive groups lead to different states. */
  lemma StateDetectsBurst(a: seq<nat>, x: seq<nat>, y: seq<nat>, b: seq<nat>)
    requires |a| % 3 == 0 && |x| == |y| <= 6 && x != y && (b != [] ==> |x| == 6)
    requires ArePositions(a) && ArePositions(x) && ArePositions(y) && ArePositions(b)
    ensures Fold(1, Blocks(a + x + b)) != Fold(1, Blocks(a + y + b))
  {
    BurstBlocks(a, x, b);
    BurstBlocks(a, y, b);
    BlocksAreSymbols(a); BlocksAreSymbols(x); BlocksAreSymbols(y); BlocksAreSymbols(b);
    if Blocks(x) == Blocks(y) {
      BlocksDetermine(x, y);
    }
    FitsMore(1, 1, 40);
    BurstIsDetected(1, Blocks(a), Blocks(x), Blocks(y), Blocks(b));
  }

  lemma BurstBlocks(a: seq<nat>, x: seq<nat>, b: seq<nat>)
    requires |a| % 3 == 0 && (b != [] ==> |x| == 6)
    ensures Blocks(a + x + b) == Blocks(a) + Blocks(x) + Blocks(b)
  {
    BlocksAppend(a, x);
    if b == [] {
      assert a + x + b == a + x;
    } else {
      BlocksAppend(a + x, b);
    }
  }

  // ---------------------------------------------------------------- as text

  /** The digit a checksum character stands for. */
  function DigitOf(c: char): nat {
    match c
    case 'q' => 0 case 'p' => 1 case 'z' => 2 case 'r' => 3 case 'y' => 4 case '9' => 5 case 'x' => 6 case '8' => 7
    case 'g' => 8 case 'f' => 9 case '2' => 10 case 't' => 11 case 'v' => 12 case 'd' => 13 case 'w' => 14 case '0' => 15
    case 's' => 16 case '3' => 17 case 'j' => 18 case 'n' => 19 case '5' => 20 case '4' => 21 case 'k' => 22 case 'h' => 23
    case 'c' => 24 case 'e' => 25 case '6' => 26 case 'm' => 27 case 'u' => 28 case 'a' => 29 case '7' => 30 case 'l' => 31
    case _ => 32
  }

  lemma DigitReadsBack(i: nat)
    requires i < 32
    ensures DigitOf(CHECKSUM_CHARSET[i]) == i
  {
  }

  /** Eight base-32 digits determine a 40-bit state. */
  lemma {:induction false} DigitsDetermine(a: nat, b: nat, k: nat)
    requires k <= 8
    requires Shr(a, 5 * k) == Shr(b, 5 * k)
    requires forall i | 0 <= i < k :: Low(Shr(a, 5 * i), 5) == Low(Shr(b, 5 * i), 5)
    ensures a == b
  {
    if k > 0 {
      var x, y := Shr(a, 5 * (k - 1)), Shr(b, 5 * (k - 1));
      ShrShr(a, 5 * (k - 1), 5);
      ShrShr(b, 5 * (k - 1), 5);
      SplitDetermines(x, y, 5);
      DigitsDetermine(a, b, k - 1);
    }
  }

  lemma RenderIsInjective(a: nat, b: nat)
    requires Fits(a, 40) && Fits(b, 40) && Render(a) == Render(b)
    ensures a == b
  {
    forall i | 0 <= i < 8
      ensures Low(Shr(a, 5 * i), 5) == Low(Shr(b, 5 * i), 5)
    {
      var j := 7 - i;
      DigitIsSymbol(a, j); DigitIsSymbol(b, j);
      assert Render(a)[j] == Render(b)[j];
      DigitReadsBack(Digit(a, j)); DigitReadsBack(Digit(b, j));
    }
    DigitsDetermine(a, b, 8);
  }

  lemma FinishIsInjective(a: nat, b: nat)
    requires Fits(a, 40) && Fits(b, 40)
    ensures Fits(Finish(a), 40)
    ensures Finish(a) == Finish(b) ==> a == b
  {
    var zeros := seq(8, _ => 0);
    FoldFits(a, zeros); FoldFits(b, zeros);
    FoldIsInjective(a, b, zeros);
    FitsMore(1, 1, 40);
    XorFits(Fold(a, zeros), 1, 40);
    if Finish(a) == Finish(b) {
      XorAssociates(Fold(a, zeros), 1, 1);
      XorAssociates(Fold(b, zeros), 1, 1);
      XorDistinguishes(1, 1);
      XorCommutes(Fold(a, zeros), 0); XorCommutes(Fold(b, zeros), 0);
    }
  }

  /** Different states of valid descriptors give different texts. */
  lemma StateDecidesText(d: string, e: string)
    requires ValidDescriptor(d) && ValidDescriptor(e)
    requires Fold(1, Blocks(Positions(d))) != Fold(1, Blocks(Positions(e)))
    ensures ChecksumOf(d) != ChecksumOf(e)
  {
    var p, q := Positions(d), Positions(e);
    PositionsDetermine(d, e); PositionsDetermine(e, d);
    SymbolsAreBlocks(p); SymbolsAreBlocks(q);
    BlocksAreSymbols(p); BlocksAreSymbols(q);
    FitsMore(1, 1, 40);
    FoldFits(1, Blocks(p)); FoldFits(1, Blocks(q));
    var s, t := Fold(1, Blocks(p)), Fold(1, Blocks(q));
    FinishIsInjective(s, t); FinishIsInjective(t, s);
    if ChecksumOf(d) == ChecksumOf(e) {
      RenderIsInjective(Finish(s), Finish(t));
    }
  }

  lemma BurstSplits(p: seq<nat>, q: seq<nat>, g: nat) returns (a: seq<nat>, x: seq<nat>, y: seq<nat>, b: seq<nat>)
    requires |p| == |q| && p != q
    requires forall i | 0 <= i < |p| && !(3 * g <= i < 3 * g + 6) :: p[i] == q[i]
    ensures p == a + x + b && q == a + y + b
    ensures |a| % 3 == 0 && |x| == |y| <= 6 && x != y && (b != [] ==> |x| == 6)
  {
    var lo := 3 * g;
    assert !(forall i | 0 <= i < |p| :: p[i] == q[i]);
    var hi := if |p| <= lo + 6 then |p| else lo + 6;
    a, x, y, b := p[..lo], p[lo..hi], q[lo..hi], p[hi..];
    assert q[..lo] == a && q[hi..] == b;
  }

  /**
   Any change to a descriptor that keeps its length and stays within two
   consecutive groups of three characters changes its checksum.
   */
  lemma BurstChangesChecksum(d: string, e: string, g: nat)
    requires ValidDescriptor(d) && ValidDescriptor(e)
    requires |d| == |e| && d != e
    requires forall i | 0 <= i < |d| && !(3 * g <= i < 3 * g + 6) :: d[i] == e[i]
    ensures ChecksumOf(d) != ChecksumOf(e)
  {
    PositionsDetermine(d, e);
    PositionsDetermine(e, d);
    var p, q := Positions(d), Positions(e);
    assert forall i | 0 <= i < |p| && !(3 * g <= i < 3 * g + 6) :: p[i] == q[i];
    var a, x, y, b := BurstSplits(p, q, g);
    assert ArePositions(a + x + b) && ArePositions(a + y + b);
    PartsArePositions(a, x, b); PartsArePositions(a, y, b);
    StateDetectsBurst(a, x, y, b);
    StateDecidesText(d, e);
  }

  lemma PartsArePositions(a: seq<nat>, x: seq<nat>, b: seq<nat>)
    requires ArePositions(a + x + b)
    ensures ArePositions(a) && ArePositions(x) && ArePositions(b)
  {
    var p := a + x + b;
    assert forall i | 0 <= i < |a| :: a[i] == p[i];
    assert forall i | 0 <= i < |x| :: x[i] == p[|a| + i];
    assert forall i | 0 <= i < |b| :: b[i] == p[|a| + |x| + i];
  }

  /** In particular every single-character substitution is detected. */
  lemma SubstitutionChangesChecksum(d: string, i: nat, c: char)
    requires i < |d| && c != d[i]
    requires ValidDescriptor(d) && ValidDescriptor(d[i := c])
    ensures ChecksumOf(d) != ChecksumOf(d[i := c])
  {
    BurstChangesChecksum(d, d[i := c], i / 3);
  }
}
