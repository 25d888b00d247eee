/**
 A hop whose chain moves are decided by its scripts: when each refund can be mined, and whether a claim teaches the maker
 a preimage that opens its incoming contracts.
 */
module HopScripts {
  import opened Bytes
  import opened Script
  import opened TaprootContract
  import opened PreimageRecovery
  import opened Deadline
  import opened Heights
  import opened HopAtomicity
  import RecoveryLoop

  /** A one-input transaction locked to a height is valid only in later blocks, unless its input opts out. */
  predicate Minable(tx: Spend, height: nat) {
    tx.lockTime < LOCKTIME_THRESHOLD ==> tx.lockTime < height || tx.sequence == 0xffff_ffff
  }

  /** Some spend of the leaf is valid in a block at the height. */
  ghost predicate CanRefund(leaf: Data, height: nat) {
    exists tx: Spend, wit: seq<Data> :: Accepts(tx, leaf, wit) && Minable(tx, height)
  }

  function RefundAt(height: nat): Spend {
    AnySignature().(lockTime := height)
  }

  /** The maker's own refund can be mined exactly above its timelock. */
  lemma OwnRefundWaits(timelock: nat, key: Data, height: nat)
    requires |key| == 32 && timelock < LOCKTIME_THRESHOLD
    ensures CanRefund(CreateTimelockScript(timelock, key), height) <==> height > timelock
  {
    var leaf := CreateTimelockScript(timelock, key);
    forall tx: Spend, wit: seq<Data> | Accepts(tx, leaf, wit) && Minable(tx, height)
      ensures height > timelock
    {
      BuiltTimelockMeaning(tx, timelock, key, wit);
    }
    BuiltTimelockMeaning(RefundAt(timelock), timelock, key, [[1]]);
    if height > timelock {
      assert Accepts(RefundAt(timelock), leaf, [[1]]) && Minable(RefundAt(timelock), height);
    }
  }

  /** The height above which a checked leaf can be spent: its decoded one, none if its operand is negative. */
  function LockOf(leaf: Data, decoded: nat): Option<nat> {
    var first := FirstOf(leaf);
    if NegativeZero(first) then Some(0)
    else if Operand(first).Some? && ScriptInt(Operand(first).value) < 0 then None
    else Some(decoded)
  }

  /** What a leaf's lock comes to, for a leaf that decodes. */
  lemma LeafLock(leaf: Data, v: nat, key: Data, tx: Spend, wit: seq<Data>)
    requires DecodeTimelockScript(leaf) == Ok((v, key)) && v < LOCKTIME_THRESHOLD
    ensures Accepts(tx, leaf, wit)
       <==> && |wit| == 1 && tx.sigOk(wit[0], key) && |wit[0]| <= MAX_ELEMENT
            && LockOf(leaf, v).Some? && LockOf(leaf, v).value <= tx.lockTime < LOCKTIME_THRESHOLD && tx.sequence != 0xffff_ffff
  {
    var first := FirstOf(leaf);
    assert Parse(leaf) == Parsed(TimelockLeaf(first, key), true);
    DecodedOperand(first, v);
    TimelockMeaning(tx, first, key, wit);
  }

  /**
   The sender's refund of a checked contract can be mined exactly above its lock, which is ours plus one step unless the
   height is spelled as a negative zero or a negative number.
   */
  lemma SenderRefundWaits(leaf: Data, timelock: nat, key: Data, height: nat)
    requires VerifyTimelockScript(leaf, timelock) == Ok((timelock + REFUND_LOCKTIME_STEP, key))
    requires timelock + REFUND_LOCKTIME_STEP < LOCKTIME_THRESHOLD
    ensures var lock := LockOf(leaf, timelock + REFUND_LOCKTIME_STEP);
            CanRefund(leaf, height) <==> lock.Some? && height > lock.value
  {
    var v := timelock + REFUND_LOCKTIME_STEP;
    var lock := LockOf(leaf, v);
    forall tx: Spend, wit: seq<Data> | Accepts(tx, leaf, wit) && Minable(tx, height)
      ensures lock.Some? && height > lock.value
    {
      LeafLock(leaf, v, key, tx, wit);
    }
    if lock.Some? && height > lock.value {
      LeafLock(leaf, v, key, RefundAt(lock.value), [[1]]);
      assert Accepts(RefundAt(lock.value), leaf, [[1]]) && Minable(RefundAt(lock.value), height);
    }
  }

  // ------------------------------------------------------------------ the scripted hop

  /**
   timelock, key: the maker's own refund leaves, one per incoming contract; hashlock, refunds: the incoming contracts'
   leaves, as the maker accepted them; preimage: what opens the hash; sweep: the incoming contracts that the first sweep
   which takes any takes in; refundOrder, sweepOrder: how many transactions of its pass come before each refund and each
   sweep; delay: a transaction confirms within this many blocks of being sent, and the next is sent when it has; latest: as
   in the chain model.
   */
  datatype Scripted = Scripted(
    timelock: nat, key: Data, hashlock: Data, refunds: seq<Data>, hashes: Hashes, preimage: Data, sweep: set<nat>,
    refundOrder: seq<nat>, sweepOrder: seq<nat>, delay: nat, latest: nat)
  {
    predicate Valid() {
      && |key| == 32 && delay >= 1 && refunds != [] && timelock + REFUND_LOCKTIME_STEP < LOCKTIME_THRESHOLD
      && VerifyHashlockScript(hashlock).Ok? && hashes.sha256(preimage) == VerifyHashlockScript(hashlock).value.0
      && |preimage| <= MAX_ELEMENT && |refundOrder| == |sweepOrder| == |refunds|
      && forall i | 0 <= i < |refunds| :: VerifyTimelockScript(refunds[i], timelock).Ok?
    }

    /** Every claim that shows the preimage makes a pass store it. */
    ghost predicate Learnt() {
      forall claim: TxInput | |claim.wit| >= 2 && claim.wit[1] == preimage :: Learns(hashes, hashlock, preimage, claim)
    }

    /** The chain model this hop makes. */
    ghost function Chain(): Terms {
      Terms(seq(|refunds|, _ => timelock), Turns(refundOrder, delay), |refunds|,
            (k: nat, height: nat) => CanRefund(CreateTimelockScript(timelock, key), height),
            (i: nat, height: nat) => i < |refunds| && CanRefund(refunds[i], height),
            Learnt(), (i: nat) => i in sweep, (i: nat) => if i < |sweepOrder| then Turn(sweepOrder[i], delay) else 1, latest)
    }

    function Locks(): seq<Option<nat>> {
      seq(|refunds|, i requires 0 <= i < |refunds| => LockOf(refunds[i], timelock + REFUND_LOCKTIME_STEP))
    }

    /** All refunds and then the sweeps up to contract i fit before the height one step above the timelock. */
    predicate Fits(i: nat)
      requires i < |sweepOrder|
    {
      Max(latest, timelock) + Turn(Highest(refundOrder), delay) + Turn(sweepOrder[i], delay) <= timelock + REFUND_LOCKTIME_STEP
    }

    predicate Enough() {
      forall i | 0 <= i < |sweepOrder| :: Fits(i)
    }
  }

  lemma LearntExactly(s: Scripted)
    requires s.Valid()
    ensures s.Learnt() <==> |s.preimage| == 32 && HashInPlace(s.hashlock)
    ensures Opens(s.hashes, TaprootHashlock(Some(s.hashlock)), s.preimage)
  {
    var (hash, key) := VerifyHashlockScript(s.hashlock).value;
    TaprootOpens(s.hashes, s.hashlock, hash, key, s.preimage);
    LeafLength(s.hashlock);
    forall claim: TxInput | |claim.wit| >= 2 && claim.wit[1] == s.preimage
      ensures Learns(s.hashes, s.hashlock, s.preimage, claim) <==> |s.preimage| == 32 && HashInPlace(s.hashlock)
    {
      LearnsExactly(s.hashes, s.hashlock, s.preimage, claim);
    }
    var claim := TxInput((0, 0), [[1], s.preimage]);
    assert claim.wit[1] == s.preimage;
  }

  lemma ScriptedIsLocked(s: Scripted)
    requires s.Valid()
    ensures Locked(s.Chain(), s.Locks())
  {
    forall k: nat, height: nat | k < |s.refunds|
      ensures s.Chain().ownRefund(k, height) <==> height > s.Chain().expiry[k]
    {
      OwnRefundWaits(s.timelock, s.key, height);
    }
    forall i: nat, height: nat | i < |s.refunds|
      ensures s.Chain().senderRefund(i, height) <==> s.Locks()[i].Some? && height > s.Locks()[i].value
    {
      SenderRefundWaits(s.refunds[i], s.timelock, VerifyTimelockScript(s.refunds[i], s.timelock).value.1, height);
    }
  }

  /** The sender can refund contract i at all, and one of the five things that lose it is the case. */
  predicate Loses(s: Scripted, i: nat)
    requires i < |s.refunds| == |s.sweepOrder|
  {
    && LockOf(s.refunds[i], s.timelock + REFUND_LOCKTIME_STEP).Some?
    && (|s.preimage| != 32 || !HashInPlace(s.hashlock) || NegativeZero(FirstOf(s.refunds[i])) || i !in s.sweep || !s.Fits(i))
  }

  lemma ScriptedIsValid(s: Scripted)
    requires s.Valid()
    ensures s.Chain().Valid()
    ensures s.Chain().RefundsDone() == Max(s.latest, s.timelock) + Turn(Highest(s.refundOrder), s.delay)
  {
    forall i: nat
      ensures Turn(i, s.delay) >= 1
    {
      TurnTakesTime(i, s.delay);
    }
    var blocks, last := s.Chain().RefundBlocks(), Highest(s.refundOrder);
    forall k | 0 <= k < |blocks|
      ensures blocks[k] <= Max(s.latest, s.timelock) + Turn(last, s.delay)
    {
      TurnGrows(s.refundOrder[k], last, s.delay);
    }
    var k :| 0 <= k < |s.refundOrder| && s.refundOrder[k] == last;
    assert blocks[k] == Max(s.latest, s.timelock) + Turn(last, s.delay);
  }

  /**
   A maker on this hop can lose exactly if some incoming contract can be refunded at all and the preimage is not 32 bytes
   long, or the incoming hash is not where the matcher looks, or the refund height is spelled as a negative zero, or the
   sweep misses the contract, or all refunds and then the sweeps up to it, one after another, do not fit.
   */
  lemma ScriptedHopIsAtomic(s: Scripted)
    requires s.Valid()
    ensures CanLose(s.Chain()) <==> exists i | 0 <= i < |s.refunds| :: Loses(s, i)
  {
    ScriptedIsLocked(s);
    ScriptedIsValid(s);
    HopIsAtomic(s.Chain(), s.Locks());
    forall i | 0 <= i < |s.refunds|
      ensures Exposed(s.Chain(), i, s.Locks()[i]) <==> Loses(s, i)
    {
      ExposedExactly(s, i);
    }
  }

  lemma ExposedExactly(s: Scripted, i: nat)
    requires s.Valid() && i < |s.refunds|
    ensures s.Chain().Valid()
    ensures Exposed(s.Chain(), i, s.Locks()[i]) <==> Loses(s, i)
  {
    LearntExactly(s);
    ScriptedIsValid(s);
  }

  // ------------------------------------------------ with leaves as the code builds them

  /** An honest peer's hop: leaves built by the code, a preimage of 32 bytes, and a sweep that takes all contracts in. */
  function Plain(timelock: nat, key: Data, hash: Data, x: Data, refundOrder: seq<nat>, sweepOrder: seq<nat>, delay: nat, latest: nat)
    : Scripted
    requires |key| == 32 && |hash| == 32
  {
    Scripted(timelock, key, CreateHashlockScript(hash, key),
             seq(|sweepOrder|, _ => CreateTimelockScript(timelock + REFUND_LOCKTIME_STEP, key)),
             Hashes(d => d, d => hash), x, Below(|sweepOrder|), refundOrder, sweepOrder, delay, latest)
  }

  /** One contract, one block for each transaction, recovery by the expiry. */
  function Single(timelock: nat, key: Data, hash: Data, x: Data): Scripted
    requires |key| == 32 && |hash| == 32
  {
    Plain(timelock, key, hash, x, [0], [0], 1, timelock)
  }

  lemma BuiltInPlace(hash: Data, key: Data)
    requires |hash| == 32 && |key| == 32
    ensures HashInPlace(CreateHashlockScript(hash, key))
  {
    ChecksInvertBuilders(hash, 0, key);
    var p := HashlockLeaf(hash, key);
    assert Build(p.tail) == [32] + hash + Build(p.tail.tail);
    var s := CreateHashlockScript(hash, key);
    assert s == [0xa8] + Build(p.tail) && s[1] == 0x20;
    FixedOffsetExact(s, hash, key);
  }

  lemma BuiltLock(height: nat, key: Data)
    requires |key| == 32 && 0 < height < LOCKTIME_THRESHOLD
    ensures LockOf(CreateTimelockScript(height, key), height) == Some(height)
    ensures !NegativeZero(FirstOf(CreateTimelockScript(height, key)))
  {
    ParseLeaves(key, height, key);
    ScriptNumReadsBack(height);
  }

  lemma PlainIsValid(s: Scripted, timelock: nat, key: Data, hash: Data, x: Data, refundOrder: seq<nat>, sweepOrder: seq<nat>, delay: nat,
                     latest: nat)
    requires |key| == 32 && |hash| == 32 && |x| == 32 && delay >= 1 && |refundOrder| == |sweepOrder| >= 1
    requires timelock + REFUND_LOCKTIME_STEP < LOCKTIME_THRESHOLD
    requires s == Plain(timelock, key, hash, x, refundOrder, sweepOrder, delay, latest)
    ensures s.Valid()
  {
    ChecksInvertBuilders(hash, timelock + REFUND_LOCKTIME_STEP, key);
  }

  /** All refunds and all sweeps of a hop, one after another. */
  function BothPasses(refundOrder: seq<nat>, sweepOrder: seq<nat>, delay: nat): nat {
    Turn(Highest(refundOrder), delay) + Turn(Highest(sweepOrder), delay)
  }

  lemma EnoughExactly(s: Scripted)
    requires s.Valid()
    ensures s.Enough() <==>
            Max(s.latest, s.timelock) + BothPasses(s.refundOrder, s.sweepOrder, s.delay) <= s.timelock + REFUND_LOCKTIME_STEP
  {
    var last := Highest(s.sweepOrder);
    forall i | 0 <= i < |s.sweepOrder|
      ensures Turn(s.sweepOrder[i], s.delay) <= Turn(last, s.delay)
    {
      TurnGrows(s.sweepOrder[i], last, s.delay);
    }
    var i :| 0 <= i < |s.sweepOrder| && s.sweepOrder[i] == last;
    assert s.Enough() ==> s.Fits(i);
  }

  /** With such leaves a maker can lose exactly if all refunds and then all sweeps do not fit. */
  lemma PlainHopIsAtomic(timelock: nat, key: Data, hash: Data, x: Data, refundOrder: seq<nat>, sweepOrder: seq<nat>, delay: nat, latest: nat)
    requires |key| == 32 && |hash| == 32 && |x| == 32 && delay >= 1 && |refundOrder| == |sweepOrder| >= 1
    requires timelock + REFUND_LOCKTIME_STEP < LOCKTIME_THRESHOLD
    ensures var s := Plain(timelock, key, hash, x, refundOrder, sweepOrder, delay, latest);
            && s.Valid() && (CanLose(s.Chain()) <==> !s.Enough())
            && (s.Enough() <==>
                Max(latest, timelock) + BothPasses(refundOrder, sweepOrder, delay) <= timelock + REFUND_LOCKTIME_STEP)
  {
    var s := Plain(timelock, key, hash, x, refundOrder, sweepOrder, delay, latest);
    PlainIsValid(s, timelock, key, hash, x, refundOrder, sweepOrder, delay, latest);
    BuiltInPlace(hash, key);
    BuiltLock(timelock + REFUND_LOCKTIME_STEP, key);
    ScriptedHopIsAtomic(s);
    EnoughExactly(s);
    assert forall i | 0 <= i < |s.refunds| :: Loses(s, i) <==> !s.Fits(i);
  }

  /** In a pass of the hop's own n refunds, and its n sweeps, whatever their order. */
  lemma OwnPasses(refundOrder: seq<nat>, sweepOrder: seq<nat>, n: nat, delay: nat)
    requires n >= 1 && InTurn(refundOrder, n, 0) && InTurn(sweepOrder, n, 0)
    ensures BothPasses(refundOrder, sweepOrder, delay) == 2 * (n * delay)
  {
    LastInTurn(refundOrder, n);
    LastInTurn(sweepOrder, n);
  }

  /** A maker of n contracts in recovery by the expiry is safe while n delays take up to half the step between hops. */
  lemma WatchfulMaker(timelock: nat, key: Data, hash: Data, x: Data, refundOrder: seq<nat>, sweepOrder: seq<nat>, delay: nat, n: nat)
    requires |key| == 32 && |hash| == 32 && |x| == 32 && delay >= 1 && |refundOrder| == |sweepOrder| >= 1
    requires timelock + REFUND_LOCKTIME_STEP < LOCKTIME_THRESHOLD
    requires InTurn(refundOrder, n, 0) && InTurn(sweepOrder, n, 0)
    ensures CanLose(Plain(timelock, key, hash, x, refundOrder, sweepOrder, delay, timelock).Chain()) <==> n * delay > 10
  {
    PlainHopIsAtomic(timelock, key, hash, x, refundOrder, sweepOrder, delay, timelock);
    OwnPasses(refundOrder, sweepOrder, n, delay);
  }

  /** One whose recovery begins only at the first height past the refund deadline has four blocks for n delays. */
  lemma DrainedMaker(timelock: nat, key: Data, hash: Data, x: Data, refundOrder: seq<nat>, sweepOrder: seq<nat>, delay: nat, n: nat,
                     first: nat)
    requires |key| == 32 && |hash| == 32 && |x| == 32 && delay >= 1 && |refundOrder| == |sweepOrder| >= 1
    requires timelock + REFUND_LOCKTIME_STEP < LOCKTIME_THRESHOLD
    requires InTurn(refundOrder, n, 0) && InTurn(sweepOrder, n, 0)
    requires PastRefundDeadline(Taproot, timelock, None, first)
    requires forall h | 0 <= h < first :: !PastRefundDeadline(Taproot, timelock, None, h)
    ensures CanLose(Plain(timelock, key, hash, x, refundOrder, sweepOrder, delay, first).Chain()) <==> n * delay > 4
  {
    assert PastRefundDeadline(Taproot, timelock, None, timelock + 11);
    assert first == timelock + 11;
    PlainHopIsAtomic(timelock, key, hash, x, refundOrder, sweepOrder, delay, first);
    OwnPasses(refundOrder, sweepOrder, n, delay);
  }

  // ---------------------------------------------- four hops on which no delay is short enough

  /** With a preimage of another length the maker can lose, however short the delay. */
  lemma OddPreimageLoses(timelock: nat, key: Data, hash: Data, x: Data)
    requires |key| == 32 && |hash| == 32 && |x| != 32 && |x| <= MAX_ELEMENT
    requires timelock + REFUND_LOCKTIME_STEP < LOCKTIME_THRESHOLD
    ensures var s := Single(timelock, key, hash, x);
            s.Valid() && s.Enough() && CanLose(s.Chain())
  {
    var s := Single(timelock, key, hash, x);
    ChecksInvertBuilders(hash, timelock + REFUND_LOCKTIME_STEP, key);
    BuiltLock(timelock + REFUND_LOCKTIME_STEP, key);
    ScriptedHopIsAtomic(s);
    assert Loses(s, 0);
  }

  /** With an incoming leaf that pushes its hash the longer way as well. */
  lemma LongPushLoses(timelock: nat, key: Data, hash: Data, x: Data)
    requires |key| == 32 && |hash| == 32 && |x| == 32 && hash != Periodic(76)
    requires timelock + REFUND_LOCKTIME_STEP < LOCKTIME_THRESHOLD
    ensures var s := Single(timelock, key, hash, x).(hashlock := LongLeaf(hash, key));
            s.Valid() && s.Enough() && CanLose(s.Chain())
  {
    var s := Single(timelock, key, hash, x).(hashlock := LongLeaf(hash, key));
    ChecksInvertBuilders(hash, timelock + REFUND_LOCKTIME_STEP, key);
    BuiltLock(timelock + REFUND_LOCKTIME_STEP, key);
    LongPush(s.hashes, hash, key, x);
    LeafLength(s.hashlock);
    ScriptedHopIsAtomic(s);
    assert Loses(s, 0);
  }

  /** And with a refund height spelled as a negative zero. */
  lemma NegativeZeroLoses(key: Data, hash: Data, x: Data)
    requires |key| == 32 && |hash| == 32 && |x| == 32
    ensures var s := Single(108, key, hash, x).(refunds := [Build(TimelockLeaf(Push([0x80]), key))]);
            s.Valid() && s.Enough() && CanLose(s.Chain())
  {
    var s := Single(108, key, hash, x).(refunds := [Build(TimelockLeaf(Push([0x80]), key))]);
    ChecksInvertBuilders(hash, 1, key);
    NegativeZeroPasses(key);
    ScriptedHopIsAtomic(s);
    assert Loses(s, 0);
  }

  /** And with a sweep that misses one contract of any number, in whatever order the transactions are sent. */
  lemma MissedSweepLoses(timelock: nat, key: Data, hash: Data, x: Data, refundOrder: seq<nat>, sweepOrder: seq<nat>, delay: nat, latest: nat,
                         missed: nat)
    requires |key| == 32 && |hash| == 32 && |x| == 32 && delay >= 1 && |refundOrder| == |sweepOrder| >= 1
    requires timelock + REFUND_LOCKTIME_STEP < LOCKTIME_THRESHOLD
    requires missed < |sweepOrder|
    ensures var all := Plain(timelock, key, hash, x, refundOrder, sweepOrder, delay, latest);
            var s := all.(sweep := all.sweep - {missed});
            s.Valid() && CanLose(s.Chain())
  {
    var all := Plain(timelock, key, hash, x, refundOrder, sweepOrder, delay, latest);
    PlainIsValid(all, timelock, key, hash, x, refundOrder, sweepOrder, delay, latest);
    var s := all.(sweep := all.sweep - {missed});
    BuiltLock(timelock + REFUND_LOCKTIME_STEP, key);
    ScriptedHopIsAtomic(s);
    assert Loses(s, missed);
  }

  // ------------------------------------------------------------ what the recovery loop sweeps

  /** The places of the contracts that a sweep takes in. */
  function Places(ids: seq<nat>, taken: set<nat>): (r: set<nat>)
    ensures forall j: nat :: j in r <==> j < |ids| && ids[j] in taken
  {
    set j | 0 <= j < |ids| && ids[j] in taken
  }

  /**
   If recovery of a built hop ends by the hashlock path and its transactions fit, the maker can lose exactly if its wallet
   then still holds one of the swap's incoming contracts.
   */
  lemma SweptHopIsAtomic(timelock: nat, key: Data, hash: Data, x: Data, refundOrder: seq<nat>, sweepOrder: seq<nat>, delay: nat, latest: nat,
                         ids: seq<nat>, swap: RecoveryLoop.Swap, st: RecoveryLoop.Store, passes: seq<RecoveryLoop.Pass>)
    returns (s: Scripted, i: nat)
    requires |key| == 32 && |hash| == 32 && |x| == 32 && delay >= 1 && |refundOrder| == |sweepOrder| >= 1
    requires timelock + REFUND_LOCKTIME_STEP < LOCKTIME_THRESHOLD
    requires |ids| == |sweepOrder| && forall id :: id in swap.incoming <==> id in ids
    requires RecoveryLoop.Passes(swap, st, passes).1 == RecoveryLoop.ByHashlock
    ensures RecoveryLoop.EndsBySweep(swap, st, passes, i)
    ensures s == Plain(timelock, key, hash, x, refundOrder, sweepOrder, delay, latest)
                 .(sweep := Places(ids, passes[i].sweep.taken))
    ensures s.Valid()
    ensures s.Enough() ==>
              (CanLose(s.Chain()) <==> RecoveryLoop.Passes(swap, st, passes).0.incoming * swap.incoming != {})
  {
    i := RecoveryLoop.LeftUnswept(swap, st, passes);
    var taken := passes[i].sweep.taken;
    var all := Plain(timelock, key, hash, x, refundOrder, sweepOrder, delay, latest);
    PlainIsValid(all, timelock, key, hash, x, refundOrder, sweepOrder, delay, latest);
    s := all.(sweep := Places(ids, taken));
    MissedExactly(s, timelock, key, hash, ids, taken);
    assert swap.incoming <= taken <==> forall j | 0 <= j < |ids| :: ids[j] in taken;
  }

  lemma MissedExactly(s: Scripted, timelock: nat, key: Data, hash: Data, ids: seq<nat>, taken: set<nat>)
    requires |key| == 32 && |hash| == 32 && timelock == s.timelock && s.hashlock == CreateHashlockScript(hash, key)
    requires s.Valid() && |s.preimage| == 32 && |ids| == |s.refunds| && s.sweep == Places(ids, taken)
    requires forall j | 0 <= j < |ids| :: s.refunds[j] == CreateTimelockScript(timelock + REFUND_LOCKTIME_STEP, key)
    ensures s.Enough() ==> (CanLose(s.Chain()) <==> exists j | 0 <= j < |ids| :: ids[j] !in taken)
  {
    BuiltInPlace(hash, key);
    BuiltLock(timelock + REFUND_LOCKTIME_STEP, key);
    ScriptedHopIsAtomic(s);
    if s.Enough() {
      assert forall j | 0 <= j < |ids| :: Loses(s, j) <==> ids[j] !in taken;
    }
  }
}
