/**
 A Legacy hop whose contracts are mined: its locks are relative, counted in blocks from each contract's own. What the
 heights that a march records are worth to the makers on it.
 */
module LegacyHop {
  import opened Bytes
  import opened Script
  import opened Heights
  import opened HopAtomicity
  import opened LegacyLadder
  import Legacy = LegacyContract
  import Recovery = PreimageRecovery

  /** A contract as the code builds it, and the block it was mined in. */
  datatype Placed = Placed(terms: Legacy.Terms, height: nat)
  {
    predicate Valid() {
      terms.Valid() && height > 0
    }

    /** The height above which it can be refunded. */
    function Lock(): nat
      requires Valid()
    {
      height + terms.locktime - 1
    }

    function Script(): Data {
      Legacy.CreateContractScript(terms)
    }
  }

  /** BIP 68, section "Specification": an input that spends an output of the given block may be in a block at the height. */
  predicate Minable(tx: Spend, mined: nat, height: nat) {
    tx.version >= 2 && !Bit(tx.sequence, 0x8000_0000) && SequenceMasked(tx.sequence) < SEQUENCE_TYPE_FLAG ==>
      height >= mined + SequenceMasked(tx.sequence)
  }

  /** Some spend by the timelock branch is valid in a block at the height. */
  ghost predicate CanRefund(c: Placed, height: nat) {
    exists tx: Spend, wit: seq<Data> ::
      Accepts(tx, c.Script(), wit) && Legacy.TimelockSpend(tx, c.terms, wit) && Minable(tx, c.height, height)
  }

  /** A refund with the contract's own locktime as its sequence. */
  function RefundOf(t: Legacy.Terms): Spend {
    Spend(2, 0, t.locktime, x => t.hash + [0], x => x, (s, k) => s != [])
  }

  lemma SmallSequence(n: nat)
    requires n < 0x1_0000
    ensures SequenceMasked(n) == n && !Bit(n, 0x8000_0000)
  {
  }

  /** A contract's refund can be mined exactly above its lock. */
  lemma RefundWaits(c: Placed, height: nat)
    requires c.Valid()
    ensures CanRefund(c, height) <==> height > c.Lock()
  {
    SmallSequence(c.terms.locktime);
    var tx, wit := RefundOf(c.terms), [[1], []];
    assert tx.hash160([]) != c.terms.hash by { assert |tx.hash160([])| == 21; }
    Legacy.ContractMeaning(tx, c.terms, wit);
    assert Accepts(tx, c.Script(), wit) && Legacy.TimelockSpend(tx, c.terms, wit);
    if height > c.Lock() {
      assert Minable(tx, c.height, height);
    }
  }

  // ------------------------------------------------------------------------ the hop

  /**
   sweep: the incoming contracts that the first sweep which takes any takes in; refundOrder, sweepOrder: how many
   transactions of its pass come before each refund and each sweep; delay: how long one of them takes at most.
   */
  datatype RelativeHop = RelativeHop(
    outgoing: seq<Placed>, incoming: seq<Placed>, sweep: set<nat>, refundOrder: seq<nat>, sweepOrder: seq<nat>,
    delay: nat, latest: nat)
  {
    /** One hash for all contracts. */
    predicate Valid() {
      && delay >= 1 && outgoing != [] && incoming != [] && |refundOrder| == |outgoing| && |sweepOrder| == |incoming|
      && (forall k | 0 <= k < |outgoing| :: outgoing[k].Valid() && outgoing[k].terms.hash == incoming[0].terms.hash)
      && (forall i | 0 <= i < |incoming| :: incoming[i].Valid() && incoming[i].terms.hash == incoming[0].terms.hash)
    }

    function Expiries(): seq<nat>
      requires Valid()
    {
      seq(|outgoing|, k requires 0 <= k < |outgoing| => outgoing[k].Lock())
    }

    function Locks(): seq<Option<nat>>
      requires Valid()
    {
      seq(|incoming|, i requires 0 <= i < |incoming| => Some(incoming[i].Lock()))
    }

    /** Every accepted claim of an outgoing contract makes a pass store what opens every incoming one. */
    ghost predicate Learnt() {
      forall k, i, tx, sig, x, prev | 0 <= k < |outgoing| && 0 <= i < |incoming| && Claims(outgoing[k], tx, sig, x) ::
        Teaches(outgoing[k], incoming[i], tx, sig, x, prev)
    }

    ghost function Chain(): Terms
      requires Valid()
    {
      Terms(Expiries(), Turns(refundOrder, delay), |incoming|,
            (k: nat, height: nat) => k < |outgoing| && CanRefund(outgoing[k], height),
            (i: nat, height: nat) => i < |incoming| && CanRefund(incoming[i], height),
            Learnt(), (i: nat) => i in sweep, (i: nat) => if i < |sweepOrder| then Turn(sweepOrder[i], delay) else 1, latest)
    }

    /** When the maker's refunds have confirmed at the latest, each and all. */
    function RefundBlocks(): seq<nat>
      requires Valid()
    {
      seq(|outgoing|, k requires 0 <= k < |outgoing| => Max(latest, outgoing[k].Lock()) + Turn(refundOrder[k], delay))
    }

    function RefundsDone(): nat
      requires Valid()
    {
      Highest(RefundBlocks())
    }
  }

  ghost predicate Claims(c: Placed, tx: Spend, sig: Data, x: Data) {
    Accepts(tx, c.Script(), [sig, x]) && Legacy.HashlockSpend(tx, c.terms, [sig, x])
  }

  /** A pass over this claim stores, on a coin with the incoming contract, a preimage that opens it. */
  ghost predicate Teaches(out: Placed, inc: Placed, tx: Spend, sig: Data, x: Data, prev: Recovery.OutPoint) {
    var h := Recovery.Hashes(tx.hash160, tx.sha256);
    var coin := Recovery.Coin(Recovery.LegacyRedeem(inc.Script()), None);
    var after := Recovery.Stamp(h, coin, Recovery.Extracted([Recovery.TxInput(prev, [sig, x, out.Script()])]));
    after.preimage.Some? && Recovery.Opens(h, after.script, after.preimage.value)
  }

  lemma ClaimTeaches(out: Placed, inc: Placed, tx: Spend, sig: Data, x: Data, prev: Recovery.OutPoint)
    requires out.Valid() && inc.Valid() && inc.terms.hash == out.terms.hash && Claims(out, tx, sig, x)
    ensures Teaches(out, inc, tx, sig, x, prev)
  {
    var coin := Recovery.Coin(Recovery.LegacyRedeem(inc.Script()), None);
    Recovery.LegacyClaimIsStored(tx, out.terms, sig, x, inc.terms, [Recovery.TxInput(prev, [sig, x, out.Script()])], 0,
                                 map[0 := coin], {0}, 0);
  }

  lemma AlwaysLearnt(s: RelativeHop)
    requires s.Valid()
    ensures s.Learnt()
  {
    forall k, i, tx, sig, x, prev |
      0 <= k < |s.outgoing| && 0 <= i < |s.incoming| && Claims(s.outgoing[k], tx, sig, x)
      ensures Teaches(s.outgoing[k], s.incoming[i], tx, sig, x, prev)
    {
      ClaimTeaches(s.outgoing[k], s.incoming[i], tx, sig, x, prev);
    }
  }

  lemma HopIsLocked(s: RelativeHop)
    requires s.Valid()
    ensures Locked(s.Chain(), s.Locks())
  {
    var t := s.Chain();
    forall k, height | 0 <= k < |t.expiry|
      ensures t.ownRefund(k, height) <==> height > t.expiry[k]
    {
      RefundWaits(s.outgoing[k], height);
    }
    forall i, height | 0 <= i < t.incoming
      ensures t.senderRefund(i, height) <==> s.Locks()[i].Some? && height > s.Locks()[i].value
    {
      RefundWaits(s.incoming[i], height);
    }
  }

  lemma ChainIsValid(s: RelativeHop)
    requires s.Valid()
    ensures s.Chain().Valid() && s.Chain().RefundsDone() == s.RefundsDone()
  {
    forall n: nat
      ensures Turn(n, s.delay) >= 1
    {
      TurnTakesTime(n, s.delay);
    }
    assert s.Chain().RefundBlocks() == s.RefundBlocks();
  }

  /** The sweep misses contract i, or the sweeps up to it, after all refunds, do not fit before its lock. */
  predicate Loses(s: RelativeHop, i: nat)
    requires s.Valid() && i < |s.incoming|
  {
    i !in s.sweep || s.RefundsDone() + Turn(s.sweepOrder[i], s.delay) > s.incoming[i].Lock()
  }

  /**
   A maker on a Legacy hop can lose exactly if its sweep misses an incoming contract, or the sweeps up to it, sent one
   after another when all refunds have had their time, go past its lock.
   */
  lemma LegacyHopIsAtomic(s: RelativeHop)
    requires s.Valid()
    ensures CanLose(s.Chain()) <==> exists i | 0 <= i < |s.incoming| :: Loses(s, i)
  {
    HopIsLocked(s);
    ChainIsValid(s);
    HopIsAtomic(s.Chain(), s.Locks());
    forall i | 0 <= i < |s.incoming|
      ensures Exposed(s.Chain(), i, s.Locks()[i]) <==> Loses(s, i)
    {
      ExposedExactly(s, i);
    }
  }

  lemma ExposedExactly(s: RelativeHop, i: nat)
    requires s.Valid() && i < |s.incoming|
    ensures s.Chain().Valid()
    ensures Exposed(s.Chain(), i, s.Locks()[i]) <==> Loses(s, i)
  {
    AlwaysLearnt(s);
    ChainIsValid(s);
  }

  // ------------------------------------------------------------------- on a whole route

  function AllPlaced(t: Legacy.Terms, locktime: nat, heights: seq<nat>): seq<Placed> {
    seq(|heights|, i requires 0 <= i < |heights| => Placed(t.(locktime := locktime), heights[i]))
  }

  /** The orders in which a maker on the route sends its refunds and its sweeps; other refunds may come between. */
  datatype Orders = Orders(refunds: seq<nat>, sweeps: seq<nat>)
  {
    predicate Suit(hops: seq<seq<nat>>, hop: nat, others: nat)
      requires hop + 1 < |hops|
    {
      InTurn(refunds, |hops[hop + 1]|, others) && InTurn(sweeps, |hops[hop]|, 0)
    }
  }

  function Between(t: Legacy.Terms, makers: nat, hops: seq<seq<nat>>, hop: nat, o: Orders, delay: nat, latest: nat): RelativeHop
    requires hop < makers < |hops|
  {
    RelativeHop(AllPlaced(t, HopLocktime(makers, hop + 1), hops[hop + 1]), AllPlaced(t, HopLocktime(makers, hop), hops[hop]),
                Below(|hops[hop]|), o.refunds, o.sweeps, delay, latest)
  }

  predicate Plausible(t: Legacy.Terms, makers: nat, hops: seq<seq<nat>>, hop: nat, o: Orders, delay: nat) {
    && t.Valid() && hop < makers < |hops| && delay >= 1 && Funded(hops)
    && |o.refunds| == |hops[hop + 1]| && |o.sweeps| == |hops[hop]|
  }

  lemma BetweenIsValid(t: Legacy.Terms, makers: nat, hops: seq<seq<nat>>, hop: nat, o: Orders, delay: nat, latest: nat)
    requires Plausible(t, makers, hops, hop, o, delay)
    ensures Between(t, makers, hops, hop, o, delay, latest).Valid()
  {
  }

  /** The hop of a maker on a route, its contracts mined at the recorded heights, in recovery by its own last lock. */
  function OnRoute(t: Legacy.Terms, makers: nat, hops: seq<seq<nat>>, hop: nat, o: Orders, delay: nat): (s: RelativeHop)
    requires Plausible(t, makers, hops, hop, o, delay)
    ensures s.Valid() && s.latest == Highest(s.Expiries())
  {
    BetweenIsValid(t, makers, hops, hop, o, delay, 0);
    var s := Between(t, makers, hops, hop, o, delay, 0);
    s.(latest := Highest(s.Expiries()))
  }

  predicate Few(hops: seq<seq<nat>>, n: nat) {
    forall i | 0 <= i < |hops| :: |hops[i]| <= n
  }

  /**
   A maker of a completed march of at most n contracts a hop, each hop mined within the spread, with some other refunds in
   its wallet.
   */
  predicate Marched(makers: nat, confirms: nat, spread: nat, n: nat, others: nat, own: seq<nat>, events: seq<Event>, hop: nat,
                    o: Orders)
  {
    && Complete(makers, confirms, own, events, spread) && hop < makers < |Hops(own, events)|
    && Few(Hops(own, events), n) && o.Suit(Hops(own, events), hop, others)
  }

  /** Every such maker is safe. */
  ghost predicate RouteIsSafe(t: Legacy.Terms, makers: nat, confirms: nat, spread: nat, n: nat, others: nat, delay: nat)
    requires t.Valid() && delay >= 1
  {
    forall own: seq<nat>, events: seq<Event>, hop: nat, o: Orders ::
      Marched(makers, confirms, spread, n, others, own, events, hop, o) ==>
        MakerIsSafe(t, makers, Hops(own, events), hop, o, delay)
  }

  ghost predicate MakerIsSafe(t: Legacy.Terms, makers: nat, hops: seq<seq<nat>>, hop: nat, o: Orders, delay: nat)
    requires Plausible(t, makers, hops, hop, o, delay)
  {
    !CanLose(OnRoute(t, makers, hops, hop, o, delay).Chain())
  }

  /** n refunds, the others, and n sweeps. */
  function AllTurns(n: nat, others: nat, delay: nat): nat {
    (2 * n + others) * delay
  }

  lemma TwoPasses(a: nat, b: nat, n: nat, others: nat, delay: nat)
    requires a < n + others && b < n
    ensures Turn(a, delay) + Turn(b, delay) <= AllTurns(n, others, delay)
    ensures a == n + others - 1 && b == n - 1 ==> Turn(a, delay) + Turn(b, delay) == AllTurns(n, others, delay)
  {
    TurnGrows(a, n + others - 1, delay);
    TurnGrows(b, n - 1, delay);
    assert (n + others) * delay + n * delay == (2 * n + others) * delay;
  }

  lemma AloneIsTogether(heights: seq<nat>, n: nat, spread: nat)
    requires heights != [] && |heights| <= n && Together(heights, spread)
    ensures Together(heights, Apart(spread, n))
  {
  }

  /** The last refund of a hop comes within its turn of the last of its locks. */
  lemma LastRefund(s: RelativeHop) returns (k: nat)
    requires s.Valid() && s.latest == Highest(s.Expiries())
    ensures k < |s.outgoing| && s.RefundsDone() == s.latest + Turn(s.refundOrder[k], s.delay)
  {
    var blocks := s.RefundBlocks();
    k :| 0 <= k < |blocks| && blocks[k] == Highest(blocks);
    assert s.Expiries()[k] <= s.latest;
  }

  lemma LockDescends(t: Legacy.Terms, makers: nat, confirms: nat, own: seq<nat>, events: seq<Event>, hop: nat, o: Orders,
                     spread: nat, n: nat, delay: nat, i: nat)
    requires Plausible(t, makers, Hops(own, events), hop, o, delay) && makers <= 3275 && confirms > 0
    requires Complete(makers, confirms, own, events, spread) && Few(Hops(own, events), n) && i < |Hops(own, events)[hop]|
    ensures var s := OnRoute(t, makers, Hops(own, events), hop, o, delay);
            s.incoming[i].Lock() + Apart(spread, n) >= s.latest + 14
  {
    var hops := Hops(own, events);
    var s := OnRoute(t, makers, hops, hop, o, delay);
    var k :| 0 <= k < |s.Expiries()| && s.Expiries()[k] == Highest(s.Expiries());
    AloneIsTogether(hops[hop], n, spread);
    ContractsDescend(makers, confirms, own, events, hop, i, k, Apart(spread, n));
  }

  lemma MarchedMakerIsSafe(t: Legacy.Terms, makers: nat, confirms: nat, spread: nat, n: nat, others: nat, own: seq<nat>,
                           events: seq<Event>, hop: nat, o: Orders, delay: nat)
    requires t.Valid() && makers <= 3275 && confirms > 0 && delay >= 1
    requires Apart(spread, n) + AllTurns(n, others, delay) <= 14
    requires Marched(makers, confirms, spread, n, others, own, events, hop, o)
    ensures MakerIsSafe(t, makers, Hops(own, events), hop, o, delay)
  {
    var s := OnRoute(t, makers, Hops(own, events), hop, o, delay);
    LegacyHopIsAtomic(s);
    var k := LastRefund(s);
    forall i | 0 <= i < |s.incoming|
      ensures !Loses(s, i)
    {
      LockDescends(t, makers, confirms, own, events, hop, o, spread, n, delay, i);
      TwoPasses(s.refundOrder[k], s.sweepOrder[i], n, others, delay);
    }
  }

  /** The worst order: the other refunds first, and the first contract swept last. */
  function Worst(n: nat, others: nat): (o: Orders)
    ensures InTurn(o.refunds, n, others) && InTurn(o.sweeps, n, 0)
  {
    Orders(seq(n, k requires 0 <= k < n => k + others), seq(n, i requires 0 <= i < n => n - 1 - i))
  }

  lemma RefundTakesItsTurn(s: RelativeHop, k: nat)
    requires s.Valid() && k < |s.outgoing|
    ensures s.RefundsDone() >= s.latest + Turn(s.refundOrder[k], s.delay)
  {
    assert s.RefundBlocks()[k] <= s.RefundsDone();
  }

  lemma LateSweepLoses(s: RelativeHop, k: nat, i: nat)
    requires s.Valid() && k < |s.outgoing| && i < |s.incoming|
    requires s.latest + (Turn(s.refundOrder[k], s.delay) + Turn(s.sweepOrder[i], s.delay)) > s.incoming[i].Lock()
    ensures Loses(s, i)
  {
    RefundTakesItsTurn(s, k);
  }

  lemma SpreadLoses(t: Legacy.Terms, makers: nat, confirms: nat, spread: nat, n: nat, others: nat, delay: nat)
    requires t.Valid() && 1 <= makers <= 3275 && confirms > 0 && delay >= 1 && n >= 1
    requires Apart(spread, n) + AllTurns(n, others, delay) > 14
    ensures !RouteIsSafe(t, makers, confirms, spread, n, others, delay)
  {
    var own, events := WideMarch(confirms, makers, spread, n);
    var hops, o := Hops(own, events), Worst(n, others);
    assert Marched(makers, confirms, spread, n, others, own, events, 0, o);
    var s := OnRoute(t, makers, hops, 0, o, delay);
    LegacyHopIsAtomic(s);
    RungsAreStepsApart(makers);
    assert s.Expiries()[0] <= s.latest;
    TwoPasses(s.refundOrder[n - 1], s.sweepOrder[0], n, others, delay);
    LateSweepLoses(s, n - 1, 0);
    assert !MakerIsSafe(t, makers, hops, 0, o, delay);
  }

  /**
   Every maker of every completed march of at most n contracts a hop is safe exactly if the number of blocks within which
   a hop's contracts are mined, and the delays of n refunds, of the other refunds and of n sweeps, one after another, are
   together at most fourteen.
   */
  lemma RouteIsSafeExactly(t: Legacy.Terms, makers: nat, confirms: nat, spread: nat, n: nat, others: nat, delay: nat)
    requires t.Valid() && 1 <= makers <= 3275 && confirms > 0 && delay >= 1 && n >= 1
    ensures RouteIsSafe(t, makers, confirms, spread, n, others, delay) <==>
            Apart(spread, n) + AllTurns(n, others, delay) <= 14
  {
    if Apart(spread, n) + AllTurns(n, others, delay) <= 14 {
      forall own: seq<nat>, events: seq<Event>, hop: nat, o: Orders |
        Marched(makers, confirms, spread, n, others, own, events, hop, o)
        ensures MakerIsSafe(t, makers, Hops(own, events), hop, o, delay)
      {
        MarchedMakerIsSafe(t, makers, confirms, spread, n, others, own, events, hop, o, delay);
      }
    } else {
      SpreadLoses(t, makers, confirms, spread, n, others, delay);
    }
  }
}
