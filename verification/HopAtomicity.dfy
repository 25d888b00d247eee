/**
 One maker's hop on the chain, block by block, while it recovers a swap.

 The maker's outgoing contracts can be claimed with the preimage at any time and refunded to the maker late enough; its
 incoming contracts can be swept by the maker once a claim has taught it a preimage, and refunded to their sender late
 enough. When each refund can be mined, whether a claim teaches anything and which contracts the maker then sweeps is for
 the scripts and the recovery loop to say.
 */
module HopAtomicity {
  import opened Bytes
  import opened Heights

  datatype Fate = Live | Claimed | Refunded

  /**
   expiry: the tips at which the maker can broadcast its refund of each outgoing contract; refundTime: how long after that
   the refund has confirmed at the latest; incoming: how many incoming contracts there are; ownRefund, senderRefund: the
   blocks that can hold the refund of each contract, to the maker and to its sender; learns: a pass over a claim stores a
   preimage that opens the incoming contracts; sweeps, sweepTime: the incoming contracts that the maker's sweep takes in,
   and how long it takes at most; latest: recovery has begun when the tip is here.
   */
  datatype Terms = Terms(
    expiry: seq<nat>, refundTime: seq<nat>, incoming: nat, ownRefund: (nat, nat) -> bool, senderRefund: (nat, nat) -> bool,
    learns: bool, sweeps: nat -> bool, sweepTime: nat -> nat, latest: nat)
  {
    ghost predicate Valid() {
      && expiry != [] && |refundTime| == |expiry| && incoming >= 1
      && (forall k | 0 <= k < |refundTime| :: refundTime[k] >= 1)
      && forall i | 0 <= i < incoming :: sweepTime(i) >= 1
    }

    /** When the maker's refund of an outgoing contract has confirmed at the latest, and when all have. */
    function RefundBlock(k: nat): nat
      requires k < |expiry| == |refundTime|
    {
      Max(latest, expiry[k]) + refundTime[k]
    }

    function RefundBlocks(): seq<nat>
      requires |expiry| == |refundTime|
    {
      seq(|expiry|, k requires 0 <= k < |expiry| => RefundBlock(k))
    }

    function RefundsDone(): nat
      requires |expiry| == |refundTime|
    {
      Highest(RefundBlocks())
    }
  }

  /** started: the tip when recovery began; shown: the first block with a claim that taught the maker a preimage. */
  datatype Hop = Hop(tip: nat, outgoing: seq<Fate>, incoming: seq<Fate>, started: Option<nat>, shown: Option<nat>)

  function All(n: nat, f: Fate): seq<Fate> {
    seq(n, _ => f)
  }

  predicate Init(t: Terms, h: Hop) {
    && h.tip <= t.latest && h.started.None? && h.shown.None?
    && h.outgoing == All(|t.expiry|, Live) && h.incoming == All(t.incoming, Live)
  }

  predicate Begin(h: Hop, h': Hop) {
    h.started.None? && h' == h.(started := Some(h.tip))
  }

  /** A spent output stays spent; the maker's refund needs recovery under way and a block that can hold it. */
  predicate OutgoingMove(t: Terms, h: Hop, k: nat, was: Fate, now: Fate) {
    match was
    case Live => now.Refunded? ==> h.started.Some? && t.ownRefund(k, h.tip + 1)
    case _ => now == was
  }

  /** The maker's sweep needs a preimage learnt from an earlier block; the sender's refund a block that can hold it. */
  predicate IncomingMove(t: Terms, h: Hop, i: nat, was: Fate, now: Fate) {
    match was
    case Live =>
      && (now.Claimed? ==> h.started.Some? && h.shown.Some?)
      && (now.Refunded? ==> t.senderRefund(i, h.tip + 1))
    case _ => now == was
  }

  /** Until a preimage shows: an outgoing contract is spent once the maker's refund of it has had its time. */
  predicate RefundsConfirm(t: Terms, h: Hop) {
    |h.outgoing| == |t.expiry| == |t.refundTime| &&
    forall k | 0 <= k < |t.expiry| :: RefundConfirms(t, h, k)
  }

  predicate RefundConfirms(t: Terms, h: Hop, k: nat)
    requires k < |t.expiry| == |t.refundTime| && k < |h.outgoing|
  {
    h.started.Some? && h.shown.None? && h.tip >= Max(h.started.value, t.expiry[k]) + t.refundTime[k] ==> h.outgoing[k] != Live
  }

  /** An incoming contract that the maker sweeps is spent once the sweep has had its time, after refunds under way. */
  predicate SweepsConfirm(t: Terms, h: Hop) {
    |t.expiry| == |t.refundTime| &&
    forall i | 0 <= i < |h.incoming| && t.sweeps(i) :: SweepConfirms(t, h, i)
  }

  predicate SweepConfirms(t: Terms, h: Hop, i: nat)
    requires |t.expiry| == |t.refundTime| && i < |h.incoming|
  {
    h.started.Some? && h.shown.Some? && h.tip >= Max(h.shown.value, t.RefundsDone()) + t.sweepTime(i) ==> h.incoming[i] != Live
  }

  predicate Block(t: Terms, h: Hop, h': Hop) {
    && h'.tip == h.tip + 1 && h'.started == h.started
    && (h'.tip > t.latest ==> h.started.Some?)
    && |h'.outgoing| == |h.outgoing| && |h'.incoming| == |h.incoming|
    && (forall k | 0 <= k < |h.outgoing| :: OutgoingMove(t, h, k, h.outgoing[k], h'.outgoing[k]))
    && (forall i | 0 <= i < |h.incoming| :: IncomingMove(t, h, i, h.incoming[i], h'.incoming[i]))
    && h'.shown == (if h.shown.None? && t.learns && Claimed in h'.outgoing then Some(h'.tip) else h.shown)
    && RefundsConfirm(t, h') && SweepsConfirm(t, h')
  }

  predicate Next(t: Terms, h: Hop, h': Hop) {
    Begin(h, h') || Block(t, h, h')
  }

  predicate IsRun(t: Terms, run: seq<Hop>) {
    && run != [] && Init(t, run[0])
    && forall i | 0 <= i < |run| - 1 :: Next(t, run[i], run[i + 1])
  }

  /** The maker has lost: some outgoing contract went to the next hop and some incoming one back to the sender. */
  predicate Lost(h: Hop) {
    Claimed in h.outgoing && Refunded in h.incoming
  }

  /** Refunds can be mined exactly above a height: the maker's above the expiry, the sender's above a lock, or never. */
  ghost predicate Locked(t: Terms, locks: seq<Option<nat>>) {
    && |locks| == t.incoming
    && (forall k, height | 0 <= k < |t.expiry| :: t.ownRefund(k, height) <==> height > t.expiry[k])
    && forall i, height | 0 <= i < t.incoming ::
         t.senderRefund(i, height) <==> locks[i].Some? && height > locks[i].value
  }

  /** The sender can take this contract back before the maker is sure to have swept it. */
  predicate Exposed(t: Terms, i: nat, lock: Option<nat>)
    requires |t.expiry| == |t.refundTime|
  {
    lock.Some? && (t.learns && t.sweeps(i) ==> t.RefundsDone() + t.sweepTime(i) > lock.value)
  }

  // ------------------------------------------------------------------ safety

  ghost predicate Safe(t: Terms, h: Hop) {
    && |h.incoming| == t.incoming
    && (h.started.Some? ==> h.started.value <= t.latest)
    && (h.tip > t.latest ==> h.started.Some?)
    && RefundsConfirm(t, h) && SweepsConfirm(t, h)
    && (h.shown.Some? ==> t.learns)
    && (t.learns ==> (h.shown.Some? <==> Claimed in h.outgoing))
    && (h.shown.Some? ==> h.shown.value <= t.RefundsDone())
    && (Refunded in h.incoming ==> t.learns && h.shown.None? && h.tip > t.RefundsDone())
  }

  /** No incoming contract is exposed. */
  predicate Covered(t: Terms, locks: seq<Option<nat>>)
    requires |t.expiry| == |t.refundTime|
  {
    forall i | 0 <= i < |locks| :: !Exposed(t, i, locks[i])
  }

  /** A contract that is live in a safe hop before any preimage shows has not had its refund's time. */
  lemma LiveIsEarly(t: Terms, h: Hop, k: nat)
    requires t.Valid() && Safe(t, h) && h.shown.None? && k < |h.outgoing| && h.outgoing[k] == Live
    ensures h.tip < t.RefundsDone()
  {
    assert RefundConfirms(t, h, k);
    assert t.RefundBlocks()[k] <= t.RefundsDone();
  }

  /** A claim first learnt from in this block comes while the maker's refund still has time. */
  lemma ShownInTime(t: Terms, h: Hop, h': Hop)
    requires t.Valid() && Safe(t, h) && Block(t, h, h')
    ensures h'.shown.Some? ==> t.learns && h'.shown.value <= t.RefundsDone()
    ensures t.learns ==> (h'.shown.Some? <==> Claimed in h'.outgoing)
  {
    if h.shown.Some? {
      var k :| 0 <= k < |h.outgoing| && h.outgoing[k] == Claimed;
      assert OutgoingMove(t, h, k, h.outgoing[k], h'.outgoing[k]);
      assert h'.outgoing[k] == Claimed;
    } else if t.learns && Claimed in h'.outgoing {
      var k :| 0 <= k < |h'.outgoing| && h'.outgoing[k] == Claimed;
      assert OutgoingMove(t, h, k, h.outgoing[k], h'.outgoing[k]);
      assert h.outgoing[k] == Live;
      LiveIsEarly(t, h, k);
    }
  }

  /** No incoming contract goes back to its sender once the preimage is known. */
  lemma RefundedBlind(t: Terms, locks: seq<Option<nat>>, h: Hop, h': Hop)
    requires t.Valid() && Locked(t, locks) && Covered(t, locks) && Safe(t, h) && Block(t, h, h')
    ensures Refunded in h'.incoming ==> t.learns && h'.shown.None? && h'.tip > t.RefundsDone()
  {
    ShownInTime(t, h, h');
    if Refunded in h'.incoming {
      var i :| 0 <= i < |h'.incoming| && h'.incoming[i] == Refunded;
      assert IncomingMove(t, h, i, h.incoming[i], h'.incoming[i]);
      if h.incoming[i] == Live {
        assert t.senderRefund(i, h.tip + 1) && !Exposed(t, i, locks[i]);
        assert t.sweeps(i);
        assert SweepConfirms(t, h, i);
      } else {
        assert h.incoming[i] == Refunded;
      }
    }
  }

  lemma NextIsSafe(t: Terms, locks: seq<Option<nat>>, h: Hop, h': Hop)
    requires t.Valid() && Locked(t, locks) && Covered(t, locks) && Safe(t, h) && Next(t, h, h')
    ensures Safe(t, h')
  {
    if Begin(h, h') {
      forall k | 0 <= k < |t.expiry|
        ensures RefundConfirms(t, h', k)
      {
      }
      forall i | 0 <= i < |h'.incoming| && t.sweeps(i)
        ensures SweepConfirms(t, h', i)
      {
      }
    } else {
      ShownInTime(t, h, h');
      RefundedBlind(t, locks, h, h');
    }
  }

  lemma {:induction false} RunsAreSafe(t: Terms, locks: seq<Option<nat>>, run: seq<Hop>, i: nat)
    requires t.Valid() && Locked(t, locks) && Covered(t, locks) && IsRun(t, run) && i < |run|
    ensures Safe(t, run[i]) && !Lost(run[i])
  {
    if i > 0 {
      RunsAreSafe(t, locks, run, i - 1);
      NextIsSafe(t, locks, run[i - 1], run[i]);
    }
  }

  // ------------------------------------------------- the bound is the best one

  /** The block with the one outgoing claim is that of the last refund; then come the sweeps, and contract i goes back. */
  function SweepBlock(t: Terms, j: nat): nat
    requires t.Valid()
  {
    t.RefundsDone() + t.sweepTime(j)
  }

  function LossBlock(t: Terms, i: nat, lock: nat): nat
    requires t.Valid()
  {
    if t.learns && t.sweeps(i) then SweepBlock(t, i) else Max(SweepBlock(t, i), lock) + 1
  }

  /** Contract `last` is claimed as late as may be, the others are refunded. */
  function LateOutgoing(t: Terms, last: nat, tip: nat): seq<Fate>
    requires t.Valid()
  {
    seq(|t.expiry|, k requires 0 <= k < |t.expiry| =>
      if tip < t.RefundBlock(k) then Live else if k == last then Claimed else Refunded)
  }

  /** Contract i goes back to its sender, and the others are swept, if the maker knows how. */
  function LateIncoming(t: Terms, i: nat, lock: nat, tip: nat): seq<Fate>
    requires t.Valid()
  {
    seq(t.incoming, j requires 0 <= j < t.incoming =>
      if j == i then (if tip < LossBlock(t, i, lock) then Live else Refunded)
      else if t.learns && tip >= SweepBlock(t, j) then Claimed else Live)
  }

  /** A hop in which everything happens as late as it may, by the time the tip is at the given height. */
  function Late(t: Terms, last: nat, i: nat, lock: nat, tip: nat): Hop
    requires t.Valid()
  {
    Hop(tip, LateOutgoing(t, last, tip), LateIncoming(t, i, lock, tip), Some(t.latest),
        if t.learns && tip >= t.RefundsDone() then Some(t.RefundsDone()) else None)
  }

  /** The outgoing contract whose refund comes last. */
  predicate IsLast(t: Terms, last: nat)
    requires |t.expiry| == |t.refundTime|
  {
    last < |t.expiry| && t.RefundBlock(last) == t.RefundsDone()
  }

  lemma LateOutgoingMoves(t: Terms, locks: seq<Option<nat>>, last: nat, i: nat, lock: nat, tip: nat, k: nat)
    requires t.Valid() && Locked(t, locks) && IsLast(t, last) && k < |t.expiry| && t.latest <= tip
    ensures OutgoingMove(t, Late(t, last, i, lock, tip), k, LateOutgoing(t, last, tip)[k], LateOutgoing(t, last, tip + 1)[k])
    ensures RefundConfirms(t, Late(t, last, i, lock, tip + 1), k)
  {
    assert t.RefundBlocks()[k] <= t.RefundsDone();
  }

  lemma LateIncomingMoves(t: Terms, locks: seq<Option<nat>>, last: nat, i: nat, tip: nat, j: nat)
    requires t.Valid() && Locked(t, locks) && i < t.incoming && Exposed(t, i, locks[i]) && j < t.incoming
    requires t.latest <= tip < LossBlock(t, i, locks[i].value)
    ensures IncomingMove(t, Late(t, last, i, locks[i].value, tip), j, LateIncoming(t, i, locks[i].value, tip)[j],
                         LateIncoming(t, i, locks[i].value, tip + 1)[j])
    ensures t.sweeps(j) ==> SweepConfirms(t, Late(t, last, i, locks[i].value, tip + 1), j)
  {
  }

  lemma LateClaim(t: Terms, last: nat, tip: nat)
    requires t.Valid() && IsLast(t, last)
    ensures Claimed in LateOutgoing(t, last, tip) <==> tip >= t.RefundsDone()
  {
    if tip >= t.RefundsDone() {
      assert LateOutgoing(t, last, tip)[last] == Claimed;
    }
  }

  lemma LateBlock(t: Terms, locks: seq<Option<nat>>, last: nat, i: nat, tip: nat)
    requires t.Valid() && Locked(t, locks) && IsLast(t, last) && i < t.incoming && Exposed(t, i, locks[i])
    requires t.latest <= tip < LossBlock(t, i, locks[i].value)
    ensures Block(t, Late(t, last, i, locks[i].value, tip), Late(t, last, i, locks[i].value, tip + 1))
  {
    var lock := locks[i].value;
    var h, h' := Late(t, last, i, lock, tip), Late(t, last, i, lock, tip + 1);
    LateClaim(t, last, tip);
    LateClaim(t, last, tip + 1);
    forall k | 0 <= k < |t.expiry|
      ensures OutgoingMove(t, h, k, h.outgoing[k], h'.outgoing[k]) && RefundConfirms(t, h', k)
    {
      LateOutgoingMoves(t, locks, last, i, lock, tip, k);
    }
    forall j | 0 <= j < t.incoming
      ensures IncomingMove(t, h, j, h.incoming[j], h'.incoming[j]) && (t.sweeps(j) ==> SweepConfirms(t, h', j))
    {
      LateIncomingMoves(t, locks, last, i, tip, j);
    }
  }

  /** The hops from one tip on, after a start. */
  function RunOf(hops: nat -> Hop, first: nat, length: nat): seq<Hop> {
    [hops(first).(started := None)] + seq(length, n requires 0 <= n => hops(first + n))
  }

  ghost predicate AllBlocks(t: Terms, hops: nat -> Hop, first: nat, length: nat) {
    forall tip | first <= tip < first + length - 1 :: Block(t, hops(tip), hops(tip + 1))
  }

  lemma BlocksMakeRun(t: Terms, hops: nat -> Hop, first: nat, length: nat)
    requires length >= 1 && Init(t, hops(first).(started := None)) && hops(first).started == Some(hops(first).tip)
    requires AllBlocks(t, hops, first, length)
    ensures IsRun(t, RunOf(hops, first, length)) && RunOf(hops, first, length)[length] == hops(first + length - 1)
  {
    var run := RunOf(hops, first, length);
    forall n | 0 <= n < |run| - 1
      ensures Next(t, run[n], run[n + 1])
    {
      if n > 0 {
        assert run[n] == hops(first + n - 1) && run[n + 1] == hops(first + n - 1 + 1);
      }
    }
  }

  lemma LateRunBegins(t: Terms, last: nat, i: nat, lock: nat)
    requires t.Valid() && IsLast(t, last) && i < t.incoming
    ensures Init(t, Late(t, last, i, lock, t.latest).(started := None)) && t.latest < LossBlock(t, i, lock)
  {
    assert LateOutgoing(t, last, t.latest) == All(|t.expiry|, Live);
    assert t.latest < t.RefundBlock(last) <= SweepBlock(t, i) <= LossBlock(t, i, lock);
    var incoming := LateIncoming(t, i, lock, t.latest);
    assert forall j | 0 <= j < |incoming| :: incoming[j] == Live;
    assert incoming == All(t.incoming, Live);
  }

  lemma LateEnds(t: Terms, last: nat, i: nat, lock: nat)
    requires t.Valid() && IsLast(t, last) && i < t.incoming
    ensures Lost(Late(t, last, i, lock, LossBlock(t, i, lock)))
  {
    LateClaim(t, last, LossBlock(t, i, lock));
    assert LateIncoming(t, i, lock, LossBlock(t, i, lock))[i] == Refunded;
  }

  function LateHops(t: Terms, last: nat, i: nat, lock: nat): nat -> Hop
    requires t.Valid()
  {
    (tip: nat) => Late(t, last, i, lock, tip)
  }

  function LateRun(t: Terms, last: nat, i: nat, lock: nat): seq<Hop>
    requires t.Valid() && t.latest <= LossBlock(t, i, lock)
  {
    RunOf(LateHops(t, last, i, lock), t.latest, LossBlock(t, i, lock) + 1 - t.latest)
  }

  lemma LateRunLoses(t: Terms, locks: seq<Option<nat>>, last: nat, i: nat)
    requires t.Valid() && Locked(t, locks) && IsLast(t, last) && i < t.incoming && Exposed(t, i, locks[i])
    ensures t.latest <= LossBlock(t, i, locks[i].value)
    ensures var run := LateRun(t, last, i, locks[i].value); IsRun(t, run) && Lost(run[|run| - 1])
  {
    var lock := locks[i].value;
    LateRunBegins(t, last, i, lock);
    LateBlocks(t, locks, last, i);
    BlocksMakeRun(t, LateHops(t, last, i, lock), t.latest, LossBlock(t, i, lock) + 1 - t.latest);
    LateEnds(t, last, i, lock);
  }

  lemma LateBlocks(t: Terms, locks: seq<Option<nat>>, last: nat, i: nat)
    requires t.Valid() && Locked(t, locks) && IsLast(t, last) && i < t.incoming && Exposed(t, i, locks[i])
    requires t.latest <= LossBlock(t, i, locks[i].value)
    ensures AllBlocks(t, LateHops(t, last, i, locks[i].value), t.latest, LossBlock(t, i, locks[i].value) + 1 - t.latest)
  {
    forall tip | t.latest <= tip < LossBlock(t, i, locks[i].value)
      ensures Block(t, Late(t, last, i, locks[i].value, tip), Late(t, last, i, locks[i].value, tip + 1))
    {
      LateBlock(t, locks, last, i, tip);
    }
  }

  ghost predicate CanLose(t: Terms) {
    exists run :: IsRun(t, run) && Lost(run[|run| - 1])
  }

  /** A maker can lose exactly if some incoming contract is exposed. */
  lemma HopIsAtomic(t: Terms, locks: seq<Option<nat>>)
    requires t.Valid() && Locked(t, locks)
    ensures CanLose(t) <==> exists i | 0 <= i < t.incoming :: Exposed(t, i, locks[i])
  {
    if i :| 0 <= i < t.incoming && Exposed(t, i, locks[i]) {
      var last :| 0 <= last < |t.expiry| && t.RefundBlocks()[last] == t.RefundsDone();
      LateRunLoses(t, locks, last, i);
    } else {
      forall run | IsRun(t, run)
        ensures !Lost(run[|run| - 1])
      {
        RunsAreSafe(t, locks, run, |run| - 1);
      }
    }
  }
}
