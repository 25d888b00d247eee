/**
 Runs that show where the maker's promises end, with contracts as the code builds them: a half-sent batch that recovery
 discards, two coins sent for one contract, a signature on a spend that is no contract, one coin that pays for two swaps,
 and a half-sent Taproot batch that is let go.
 */
module FailingRuns {
  import opened Bytes
  import opened Deadline
  import FeeSplit
  import LegacyContract
  import TaprootContract
  import opened MakerState
  import opened MakerHandlers
  import MakerRegistry
  import opened MakerRuns
  import opened FreshRuns
  import opened Deletion
  import opened Ledger
  import opened SignedSpends
  import opened ClaimedContracts

  /** A configuration, and the scripts of the incoming and of the outgoing contracts. */
  datatype Stage = Stage(c: Config, hash: Data, theirs: seq<Data>, ours: seq<Data>)

  /** No service fee, every signature valid, keys their own points, and locks as given. */
  ghost predicate Set(g: Stage, p: Protocol, theirDelay: nat, ourDelay: nat) {
    && g.c.decode(p, g.theirs) == Some(Lock(g.hash, theirDelay)) && g.c.decode(p, g.ours) == Some(Lock(g.hash, ourDelay))
    && (forall a, l :: g.c.fee(a, l) == 0) && (forall t, p, s :: g.c.valid(t, p, s)) && (forall k :: g.c.point(k) == k)
  }

  ghost function RealConfig(): Config {
    Config((k: Key) => k, (t: Txid, p: Point, s: Signature) => true, (p: Protocol, scripts: seq<Data>) => Decode(p, scripts),
           (a: nat, l: nat) => 0)
  }

  function OfLength(n: nat): Data {
    seq(n, _ => 0)
  }

  /** Taproot contracts as built, the sender's locked to height 1020 and the maker's to height 1000. */
  lemma TaprootStage() returns (g: Stage)
    ensures Real(g.c) && Set(g, Taproot, 1020, 1000)
  {
    g := BuiltLeaves(OfLength(32), 1020, 1000);
  }

  lemma BuiltLeaves(key: Data, late: nat, early: nat) returns (g: Stage)
    requires |key| == 32 && 0 < early < late < 0x8000_0000
    ensures Real(g.c) && Set(g, Taproot, late, early)
  {
    TaprootContract.ChecksInvertBuilders(key, late, key);
    TaprootContract.ChecksInvertBuilders(key, early, key);
    var hashlock := TaprootContract.CreateHashlockScript(key, key);
    g := Stage(RealConfig(), key, [hashlock, TaprootContract.CreateTimelockScript(late, key)],
               [hashlock, TaprootContract.CreateTimelockScript(early, key)]);
  }

  /** Legacy contracts as built, the sender's with a locktime of 50 blocks and the maker's with one of 30. */
  lemma LegacyStage() returns (g: Stage)
    ensures Real(g.c) && Set(g, Legacy, 50, 30)
  {
    var t := LegacyContract.Terms(OfLength(33), OfLength(33), OfLength(20), 50);
    var u := t.(locktime := 30);
    DecodeOfBuilt(t);
    DecodeOfBuilt(u);
    g := Stage(RealConfig(), t.hash, [LegacyContract.CreateContractScript(t)], [LegacyContract.CreateContractScript(u)]);
  }

  // --------------------------------------------------------------- one message, all of it

  function Working(coins: seq<Outgoing>, done: nat): Env {
    Env(true, 0, None, coins, true, 4000, 0, done, true, [])
  }

  lemma WholeStep(c: Config, w: World, m: Message, e: Env, p: Plan)
    requires Hears(w, m) && PlanFor(c, w.log, w.swaps[m.id].swap, m, e) == Some(p) && e.done >= |p.effects|
    requires m.ProofOfFunding? ==> e.confirmed.None?
    ensures Step(c, w, Message(m, e)).log == w.log + p.effects
    ensures p.ending == Ending.Store ==> Step(c, w, Message(m, e)).swaps == MakerRegistry.Store(w.swaps, m.id, p.next, e.now)
    ensures p.ending == Finish && e.swept ==> Step(c, w, Message(m, e)).swaps == w.swaps - {m.id}
  {
    assert p.effects[..|p.effects|] == p.effects;
  }

  /** The registry holds the swap in this state, stored at time zero. */
  predicate Has(w: World, id: SwapId, s: Swap) {
    id in w.swaps && w.swaps[id] == Entry(s, None, 0)
  }

  predicate Unreleasing(es: seq<Effect>) {
    forall i | 0 <= i < |es| :: !es[i].Release?
  }

  predicate Unbinding(es: seq<Effect>) {
    forall i | 0 <= i < |es| :: !es[i].Bind?
  }

  lemma {:induction false} ClosedAppend(log: Log, es: seq<Effect>)
    requires Unreleasing(es)
    ensures Closed(log + es) == Closed(log)
  {
    if es == [] {
      assert log + es == log;
    } else {
      var n := |es| - 1;
      ClosedAppend(log, es[..n]);
      assert (log + es)[..|log| + n] == log + es[..n];
    }
  }

  lemma {:induction false} CacheAppend(log: Log, es: seq<Effect>)
    requires Unbinding(es)
    ensures CacheOf(log + es) == CacheOf(log)
  {
    if es == [] {
      assert log + es == log;
    } else {
      var n := |es| - 1;
      CacheAppend(log, es[..n]);
      assert (log + es)[..|log| + n] == log + es[..n];
    }
  }

  /** All of a plan that stores its new state and releases no key. */
  lemma StoredStep(c: Config, w: World, m: Message, e: Env, p: Plan)
    requires Hears(w, m) && PlanFor(c, w.log, w.swaps[m.id].swap, m, e) == Some(p) && e.done >= |p.effects|
    requires m.ProofOfFunding? ==> e.confirmed.None?
    requires w.swaps[m.id].confirmed.None? && e.now == 0 && p.ending == Ending.Store && Unreleasing(p.effects)
    ensures var after := Step(c, w, Message(m, e));
            && after.swaps == w.swaps[m.id := Entry(p.next, None, 0)]
            && Closed(after.log) == Closed(w.log) && after.log == w.log + p.effects
  {
    WholeStep(c, w, m, e, p);
    ClosedAppend(w.log, p.effects);
  }

  /** And binds no contract. */
  lemma PlainStep(c: Config, w: World, m: Message, e: Env, p: Plan)
    requires Hears(w, m) && PlanFor(c, w.log, w.swaps[m.id].swap, m, e) == Some(p) && e.done >= |p.effects|
    requires m.ProofOfFunding? ==> e.confirmed.None?
    requires w.swaps[m.id].confirmed.None? && e.now == 0 && p.ending == Ending.Store
    requires Unreleasing(p.effects) && Unbinding(p.effects)
    ensures var after := Step(c, w, Message(m, e));
            && after.swaps == w.swaps[m.id := Entry(p.next, None, 0)]
            && Closed(after.log) == Closed(w.log) && CacheOf(after.log) == CacheOf(w.log)
  {
    StoredStep(c, w, m, e, p);
    CacheAppend(w.log, p.effects);
  }

  // ------------------------------------------------------------------- a Legacy swap

  const TERMS: Terms := Terms(Legacy, 2000, 1, 30, 30)

  const OFFER: Swap := NO_SWAP.(terms := TERMS, phase := AwaitingContractData)

  /** Every swap presents the same incoming coin. */
  function Claims(g: Stage): seq<Claim> {
    [Claim(1, g.theirs, 2, 2000, 3)]
  }

  function Coins(g: Stage, id: SwapId): seq<Outgoing> {
    [Outgoing(10 * id, 10 * id + 1, g.ours, 400, 0, 0, None), Outgoing(10 * id + 2, 10 * id + 3, g.ours, 500, 0, 0, None)]
  }

  function Proved(g: Stage, id: SwapId): Swap {
    OFFER.(incoming := Received(Claims(g)), outgoing := Coins(g, id), pending := Fundings(Coins(g, id)), phase := AwaitingSignatures)
  }

  function Sent(g: Stage, id: SwapId): Swap {
    Proved(g, id).(incoming := SignedIncoming(Received(Claims(g)), [0]), outgoing := SignedOutgoing(Coins(g, id), [0, 0]),
                   pending := [], broadcast := true, phase := AwaitingHandover)
  }

  function Opening(id: SwapId): Exchange {
    Negotiate(id, TERMS, Working([], 0))
  }

  function Ask(g: Stage, id: SwapId): Message {
    SenderSigsRequest(id, 30, g.hash, [Binding(1, g.theirs)])
  }

  function Proof(g: Stage, id: SwapId): Message {
    ProofOfFunding(id, 30, Claims(g), 2)
  }

  function Sigs(id: SwapId): Message {
    ContractSigs(id, [0], [0, 0])
  }

  lemma OneEntry(id: SwapId, e: Entry)
    requires e.swap.terms.amount <= 2000
    ensures MakerRegistry.ActiveSwaps(map[id := e]) <= 1 && MakerRegistry.Reserved(map[id := e]) <= 2000
    ensures MakerRegistry.ActiveSwaps(map[]) == 0 && MakerRegistry.Reserved(map[]) == 0
  {
    var none: MakerRegistry.Registry := map[];
    MakerRegistry.SumPut(none, MakerRegistry.Live, id, e);
    MakerRegistry.SumPut(none, MakerRegistry.Booked, id, e);
    assert none[id := e] == map[id := e] && none - {id} == none;
  }

  lemma HasRoom(r: MakerRegistry.Registry, id: SwapId)
    requires id !in r && MakerRegistry.ActiveSwaps(r) <= 1 && MakerRegistry.Reserved(r) <= 2000
    ensures MakerRegistry.Admitted(r, id, OFFER, 4000, 0) == Ok(r[id := Entry(OFFER, None, 0)])
  {
  }

  lemma OpeningStep(g: Stage, w: World, id: SwapId)
    requires Set(g, Legacy, 50, 30) && id !in w.swaps
    requires MakerRegistry.ActiveSwaps(w.swaps) <= 1 && MakerRegistry.Reserved(w.swaps) <= 2000
    ensures var after := Step(g.c, w, Opening(id));
            && after.swaps == w.swaps[id := Entry(OFFER, None, 0)]
            && Closed(after.log) == Closed(w.log) && CacheOf(after.log) == CacheOf(w.log)
  {
    assert FreshOffer(g.c, TERMS) == OFFER;
    HasRoom(w.swaps, id);
    ClosedAppend(w.log, [Admit(id, TERMS)]);
    CacheAppend(w.log, [Admit(id, TERMS)]);
  }

  /** The sender asks for a signature on its contract, which binds its outpoint; asking again changes nothing. */
  lemma Asking(g: Stage, log: Log, id: SwapId)
    requires Set(g, Legacy, 50, 30) && (CacheOf(log) == map[] || CacheOf(log) == map[1 := g.theirs])
    ensures PlanFor(g.c, log, OFFER, Ask(g, id), Working([], 1)) ==
            Some(Plan([Bind([Binding(1, g.theirs)])], OFFER, Ending.Store))
    ensures CacheOf(log + [Bind([Binding(1, g.theirs)])]) == map[1 := g.theirs]
  {
    var bs := [Binding(1, g.theirs)];
    assert (log + [Bind(bs)])[..|log|] == log;
    assert bs[..0] == [];
    assert Rebound(CacheOf(log), []) == CacheOf(log);
  }

  lemma AskStep(g: Stage, w: World, id: SwapId)
    requires Set(g, Legacy, 50, 30) && (CacheOf(w.log) == map[] || CacheOf(w.log) == map[1 := g.theirs])
    requires Has(w, id, OFFER)
    ensures var after := Step(g.c, w, Message(Ask(g, id), Working([], 1)));
            after.swaps == w.swaps && Closed(after.log) == Closed(w.log) && CacheOf(after.log) == map[1 := g.theirs]
  {
    var bind := [Bind([Binding(1, g.theirs)])];
    Asking(g, w.log, id);
    StoredStep(g.c, w, Ask(g, id), Working([], 1), Plan(bind, OFFER, Ending.Store));
    Unchanged(w.swaps, id, Entry(OFFER, None, 0));
  }

  lemma Unchanged(r: MakerRegistry.Registry, id: SwapId, e: Entry)
    requires id in r && r[id] == e
    ensures r[id := e] == r
  {
  }

  lemma Overwritten(r: MakerRegistry.Registry, id: SwapId, e: Entry, f: Entry)
    ensures r[id := e][id := f] == r[id := f]
    ensures r == map[id := e] ==> r[id := f] == map[id := f]
  {
  }

  lemma Totals(g: Stage, id: SwapId)
    ensures OutgoingTotal(Coins(g, id)) == 900 && IncomingTotal(Received(Claims(g))) == 2000
  {
    var coins := Coins(g, id);
    assert coins[..1] == [coins[0]] && OutgoingTotal([coins[0]]) == 400;
    assert Received(Claims(g))[..0] == [];
  }

  lemma ProofHoldsHere(g: Stage, log: Log, id: SwapId)
    requires Set(g, Legacy, 50, 30) && CacheOf(log) == map[1 := g.theirs]
    ensures ProofHolds(g.c, CacheOf(log), OFFER, 30, Claims(g), Working(Coins(g, id), 2))
    ensures HashOf(g.c, Legacy, Claims(g)) == g.hash
  {
    Totals(g, id);
  }

  lemma Proving(g: Stage, log: Log, id: SwapId)
    requires Set(g, Legacy, 50, 30) && CacheOf(log) == map[1 := g.theirs]
    ensures PlanFor(g.c, log, OFFER, Proof(g, id), Working(Coins(g, id), 2)) ==
            Some(Plan([Watch(2), Fund(DealOf(id, Proved(g, id)), 2)], Proved(g, id), Ending.Store))
  {
    Totals(g, id);
    ProofHoldsHere(g, log, id);
    var fund := Fund(DealOf(id, Proved(g, id)), 2);
    assert WatchesIncoming(Received(Claims(g))) + [fund] == [Watch(2), fund];
  }

  lemma ProofStep(g: Stage, w: World, id: SwapId)
    requires Set(g, Legacy, 50, 30) && CacheOf(w.log) == map[1 := g.theirs] && Has(w, id, OFFER)
    ensures var after := Step(g.c, w, Message(Proof(g, id), Working(Coins(g, id), 2)));
            && after.swaps == w.swaps[id := Entry(Proved(g, id), None, 0)]
            && Closed(after.log) == Closed(w.log) && CacheOf(after.log) == map[1 := g.theirs]
  {
    Proving(g, w.log, id);
    PlainStep(g.c, w, Proof(g, id), Working(Coins(g, id), 2),
              Plan([Watch(2), Fund(DealOf(id, Proved(g, id)), 2)], Proved(g, id), Ending.Store));
  }

  function Asked(g: Stage, id: SwapId): seq<Exchange> {
    [Opening(id), Message(Ask(g, id), Working([], 1))]
  }

  function Beginning(g: Stage, id: SwapId): seq<Exchange> {
    Asked(g, id) + [Message(Proof(g, id), Working(Coins(g, id), 2))]
  }

  lemma OneMore(c: Config, w: World, xs: seq<Exchange>, x: Exchange)
    ensures Steps(c, w, xs + [x]) == Step(c, Steps(c, w, xs), x)
  {
    assert (xs + [x])[..|xs|] == xs;
  }

  lemma OfferAndAsk(g: Stage, w: World, id: SwapId) returns (after: World)
    requires Set(g, Legacy, 50, 30) && (CacheOf(w.log) == map[] || CacheOf(w.log) == map[1 := g.theirs]) && id !in w.swaps
    requires MakerRegistry.ActiveSwaps(w.swaps) <= 1 && MakerRegistry.Reserved(w.swaps) <= 2000
    ensures after == Steps(g.c, w, Asked(g, id)) && after.swaps == w.swaps[id := Entry(OFFER, None, 0)]
    ensures Closed(after.log) == Closed(w.log) && CacheOf(after.log) == map[1 := g.theirs]
  {
    OpeningStep(g, w, id);
    var w0 := Step(g.c, w, Opening(id));
    AskStep(g, w0, id);
    TwoSteps(g.c, w, Opening(id), Message(Ask(g, id), Working([], 1)));
    after := Step(g.c, w0, Message(Ask(g, id), Working([], 1)));
  }

  /** From the offer to the proof, beside whatever else is going on. */
  lemma Begun(g: Stage, w: World, id: SwapId) returns (after: World)
    requires Set(g, Legacy, 50, 30) && (CacheOf(w.log) == map[] || CacheOf(w.log) == map[1 := g.theirs]) && id !in w.swaps
    requires MakerRegistry.ActiveSwaps(w.swaps) <= 1 && MakerRegistry.Reserved(w.swaps) <= 2000
    ensures after == Steps(g.c, w, Beginning(g, id)) && after.swaps == w.swaps[id := Entry(Proved(g, id), None, 0)]
    ensures Closed(after.log) == Closed(w.log) && CacheOf(after.log) == map[1 := g.theirs]
  {
    var asked := OfferAndAsk(g, w, id);
    ProofStep(g, asked, id);
    Overwritten(w.swaps, id, Entry(OFFER, None, 0), Entry(Proved(g, id), None, 0));
    OneMore(g.c, w, Asked(g, id), Message(Proof(g, id), Working(Coins(g, id), 2)));
    after := Step(g.c, asked, Message(Proof(g, id), Working(Coins(g, id), 2)));
  }

  lemma BegunFirst(g: Stage) returns (w: World)
    requires Set(g, Legacy, 50, 30)
    ensures w == Steps(g.c, START, Beginning(g, 7)) && Sound(g.c, w) && w.swaps == map[7 := Entry(Proved(g, 7), None, 0)]
    ensures Closed(w.log) == [] && CacheOf(w.log) == map[1 := g.theirs]
  {
    OneEntry(7, Entry(OFFER, None, 0));
    w := Begun(g, START, 7);
    RunsAreOrderly(g.c, Beginning(g, 7));
  }

  lemma SigsPlanned(g: Stage, log: Log, id: SwapId) returns (p: Plan)
    requires Set(g, Legacy, 50, 30)
    ensures forall e :: PlanFor(g.c, log, Proved(g, id), Sigs(id), e) == Some(p)
    ensures |p.effects| == 7 && p.ending == Ending.Store && p.next == Sent(g, id)
    ensures Unreleasing(p.effects) && Unbinding(p.effects)
  {
    p := SigsPlan(g.c, id, Proved(g, id), [0], [0, 0]).value;
  }

  // ------------------------------------------------------------------ a batch half sent

  function ThenFails(done: nat): seq<Exchange> {
    [Message(Sigs(7), Working([], 0).(done := done)), DrainPass(901, None), RecoveryPass(7)]
  }

  lemma HalfSent(g: Stage, w: World, p: Plan) returns (done: nat)
    requires Sound(g.c, w) && w.swaps == map[7 := Entry(Proved(g, 7), None, 0)]
    requires forall e :: PlanFor(g.c, w.log, Proved(g, 7), Sigs(7), e) == Some(p)
    ensures SentThenDiscarded(g.c, w, Sigs(7), Working([], 0).(done := done), 901)
  {
    var e := Working([], 0);
    FailedBatchIsDiscarded(g.c, w, Sigs(7), e, p, 901);
    done :| done < |p.effects| && SentThenDiscarded(g.c, w, Sigs(7), e.(done := done), 901);
  }

  lemma HalfSentOn(g: Stage) returns (w: World, done: nat)
    requires Set(g, Legacy, 50, 30)
    ensures SentThenDiscarded(g.c, w, Sigs(7), Working([], 0).(done := done), 901)
    ensures Steps(g.c, START, Beginning(g, 7) + ThenFails(done)) == Steps(g.c, w, ThenFails(done))
  {
    w := BegunFirst(g);
    var p := SigsPlanned(g, w.log, 7);
    done := HalfSent(g, w, p);
    StepsAppend(g.c, START, Beginning(g, 7), ThenFails(done));
  }

  lemma Places(n: nat, log: Log, id: SwapId) returns (i: nat, j: nat)
    requires n <= |log| && SentAndDiscarded(log[n..], id)
    ensures i < j < |log| && log[i].Broadcast? && log[i].batch.id == id && log[j].Discard? && log[j].id == id
  {
    var tail := log[n..];
    var k :| 0 <= k < |tail| && tail[k].Broadcast? && tail[k].batch.id == id;
    assert tail[k] == log[n + k] && tail[|tail| - 1] == log[|log| - 1];
    i, j := n + k, |log| - 1;
  }

  /** A run in which recovery discards the coins of a swap whose first funding transaction has gone out. */
  lemma HalfSentRun() returns (c: Config, xs: seq<Exchange>, i: nat, j: nat)
    ensures Real(c)
    ensures var log := Steps(c, START, xs).log;
            i < j < |log| && log[i].Broadcast? && log[i].batch.id == 7 && log[j].Discard? && log[j].id == 7
  {
    var g := LegacyStage();
    var w, done := HalfSentOn(g);
    c, xs := g.c, Beginning(g, 7) + ThenFails(done);
    i, j := Places(|w.log|, Steps(c, w, ThenFails(done)).log, 7);
  }

  // ------------------------------------------------------- two coins for one contract

  lemma SentBatch(g: Stage, log: Log) returns (p: Plan)
    requires Set(g, Legacy, 50, 30)
    ensures PlanFor(g.c, log, Proved(g, 7), Sigs(7), Working([], 7)) == Some(p) && |p.effects| == 7
    ensures p.effects[5] == Broadcast(Batch(7, Sent(g, 7)), 70)
  {
    p := SigsPlan(g.c, 7, Proved(g, 7), [0], [0, 0]).value;
    var b := Batch(7, Sent(g, 7));
    assert |Preparation(b)| == 5 && Broadcasts(b, Proved(g, 7).pending)[0] == Broadcast(b, 70);
  }

  /** A run in which the maker sends the funding of two coins for the one contract that was negotiated. */
  lemma MiscountedRun() returns (c: Config, xs: seq<Exchange>, i: nat)
    ensures Real(c)
    ensures var log := Steps(c, START, xs).log;
            && i < |log| && log[i].Broadcast?
            && log[i].batch.swap.terms.count == 1 && |log[i].batch.swap.outgoing| == 2
  {
    var g := LegacyStage();
    var w := BegunFirst(g);
    var p := SentBatch(g, w.log);
    WholeStep(g.c, w, Sigs(7), Working([], 7), p);
    OneMore(g.c, START, Beginning(g, 7), Message(Sigs(7), Working([], 7)));
    c, xs, i := g.c, Beginning(g, 7) + [Message(Sigs(7), Working([], 7))], |w.log| + 5;
  }

  // --------------------------------------------------------------- a spend that is no contract

  /** From the proof to the sent batch. */
  lemma SigsStep(g: Stage, w: World, id: SwapId)
    requires Set(g, Legacy, 50, 30) && Has(w, id, Proved(g, id))
    ensures var after := Step(g.c, w, Message(Sigs(id), Working([], 7)));
            && after.swaps == w.swaps[id := Entry(Sent(g, id), None, 0)]
            && Closed(after.log) == Closed(w.log) && CacheOf(after.log) == CacheOf(w.log)
  {
    var p := SigsPlanned(g, w.log, id);
    PlainStep(g.c, w, Sigs(id), Working([], 7), p);
  }

  function Middle(g: Stage, id: SwapId): seq<Exchange> {
    Beginning(g, id) + [Message(Sigs(id), Working([], 7))]
  }

  lemma SentFirst(g: Stage) returns (w: World)
    requires Set(g, Legacy, 50, 30)
    ensures w == Steps(g.c, START, Middle(g, 7)) && Sound(g.c, w) && w.swaps == map[7 := Entry(Sent(g, 7), None, 0)]
    ensures Closed(w.log) == [] && CacheOf(w.log) == map[1 := g.theirs]
  {
    var before := BegunFirst(g);
    SigsStep(g, before, 7);
    Overwritten(before.swaps, 7, Entry(Proved(g, 7), None, 0), Entry(Sent(g, 7), None, 0));
    OneMore(g.c, START, Beginning(g, 7), Message(Sigs(7), Working([], 7)));
    w := Step(g.c, before, Message(Sigs(7), Working([], 7)));
    RunsAreOrderly(g.c, Middle(g, 7));
  }

  lemma ForeignSpend(g: Stage, w: World) returns (x: Exchange)
    requires Set(g, Legacy, 50, 30) && Sound(g.c, w) && Has(w, 7, Sent(g, 7))
    ensures !SignsContracts(Step(g.c, w, x).log)
  {
    var coin := Sent(g, 7).outgoing[0];
    var e := Working([], 1).(found := [coin]);
    AnySpendIsSigned(g.c, w, 7, 0, coin.contract + 1, e);
    x := Message(ReceiverSigsRequest(7, [SpendOf(g.c, coin, coin.contract + 1)]), e);
  }

  /** A run in which the maker signs a spend of its coin that is not the coin's contract. */
  lemma ForeignSpendRun() returns (c: Config, xs: seq<Exchange>)
    ensures Real(c) && !SignsContracts(Steps(c, START, xs).log)
  {
    var g := LegacyStage();
    var w := SentFirst(g);
    var x := ForeignSpend(g, w);
    OneMore(g.c, START, Middle(g, 7), x);
    c, xs := g.c, Middle(g, 7) + [x];
  }

  // ------------------------------------------------------------------ one coin for two swaps

  lemma SentSecond(g: Stage, w: World) returns (after: World)
    requires Set(g, Legacy, 50, 30) && CacheOf(w.log) == map[1 := g.theirs] && Closed(w.log) == []
    requires w.swaps == map[7 := Entry(Sent(g, 7), None, 0)]
    ensures after == Steps(g.c, w, Middle(g, 8)) && Closed(after.log) == []
    ensures Has(after, 7, Sent(g, 7)) && Has(after, 8, Sent(g, 8))
  {
    OneEntry(7, Entry(Sent(g, 7), None, 0));
    var begun := Begun(g, w, 8);
    SigsStep(g, begun, 8);
    assert Middle(g, 8)[..3] == Beginning(g, 8);
    after := Step(g.c, begun, Message(Sigs(8), Working([], 7)));
  }

  /** The taker hands over its key, and the maker releases its own. */
  lemma HandingOver(g: Stage, log: Log, id: SwapId) returns (p: Plan)
    requires Set(g, Legacy, 50, 30)
    ensures PlanFor(g.c, log, Sent(g, id), Handover(id, Legacy, [3]), Working([], 2)) == Some(p)
    ensures p.ending == Finish && |p.effects| == 2 && !p.effects[0].Release?
    ensures p.effects[1] == Release(Batch(id, p.next)) && DealOf(id, p.next) == DealOf(id, Proved(g, id))
  {
    p := HandoverPlan(g.c, id, Sent(g, id), [3]).value;
    assert Unkeyed(p.next.incoming) == Unkeyed(Proved(g, id).incoming);
    assert Unsigned(p.next.outgoing) == Unsigned(Proved(g, id).outgoing);
  }

  lemma HandoverStep(g: Stage, w: World, id: SwapId)
    requires Set(g, Legacy, 50, 30) && Has(w, id, Sent(g, id)) && DealOf(id, Proved(g, id)) !in Closed(w.log)
    ensures var after := Step(g.c, w, Message(Handover(id, Legacy, [3]), Working([], 2)));
            after.swaps == w.swaps - {id} && Closed(after.log) == Closed(w.log) + [DealOf(id, Proved(g, id))]
  {
    var p := HandingOver(g, w.log, id);
    WholeStep(g.c, w, Handover(id, Legacy, [3]), Working([], 2), p);
    var first := [p.effects[0]];
    ClosedAppend(w.log, first);
    assert w.log + p.effects == w.log + first + [p.effects[1]];
    assert (w.log + p.effects)[..|w.log| + 1] == w.log + first;
  }

  lemma BothReleased(g: Stage, w: World) returns (xs: seq<Exchange>)
    requires Set(g, Legacy, 50, 30) && Closed(w.log) == [] && Has(w, 7, Sent(g, 7)) && Has(w, 8, Sent(g, 8))
    ensures Closed(Steps(g.c, w, xs).log) == [DealOf(7, Proved(g, 7)), DealOf(8, Proved(g, 8))] && AllProper(xs)
  {
    var x, y := Message(Handover(7, Legacy, [3]), Working([], 2)), Message(Handover(8, Legacy, [3]), Working([], 2));
    HandoverStep(g, w, 7);
    var w1 := Step(g.c, w, x);
    HandoverStep(g, w1, 8);
    TwoSteps(g.c, w, x, y);
    xs := [x, y];
  }

  predicate AllProper(xs: seq<Exchange>) {
    forall i | 0 <= i < |xs| :: Proper(xs[i])
  }

  lemma ProperMiddle(g: Stage, id: SwapId)
    ensures AllProper(Middle(g, id))
  {
  }

  lemma StepsInParts(c: Config, a: seq<Exchange>, b: seq<Exchange>, d: seq<Exchange>)
    ensures Steps(c, START, a + b + d) == Steps(c, Steps(c, Steps(c, START, a), b), d)
  {
    StepsAppend(c, START, a + b, d);
    StepsAppend(c, START, a, b);
  }

  lemma TwoSwapsClose(g: Stage) returns (xs: seq<Exchange>)
    requires Set(g, Legacy, 50, 30)
    ensures Closed(Steps(g.c, START, xs).log) == [DealOf(7, Proved(g, 7)), DealOf(8, Proved(g, 8))] && AllProper(xs)
  {
    var w0 := SentFirst(g);
    var w1 := SentSecond(g, w0);
    var end := BothReleased(g, w1);
    StepsInParts(g.c, Middle(g, 7), Middle(g, 8), end);
    ProperMiddle(g, 7);
    ProperMiddle(g, 8);
    ProperParts(Middle(g, 7), Middle(g, 8), end);
    xs := Middle(g, 7) + Middle(g, 8) + end;
  }

  lemma ProperParts(a: seq<Exchange>, b: seq<Exchange>, d: seq<Exchange>)
    requires AllProper(a) && AllProper(b) && AllProper(d)
    ensures AllProper(a + b + d)
  {
  }

  /** Two deals on the same coin of value. */
  lemma OneCoinOverlaps(d: Deal, e: Deal)
    requires d.incoming != [] && e.incoming != [] && d.incoming[0].outpoint == e.incoming[0].outpoint
    requires e.incoming[0].amount > 0
    ensures !Disjoint([d, e])
  {
    var ds := [d, e];
    assert ds[..1] == [d] && [d][..0] == [];
    assert Taken([d]) == [] + d.incoming == d.incoming;
    assert Holds(Taken(ds[..1]), ds[1].incoming[0].outpoint);
  }

  lemma OneCoinTwice(g: Stage)
    ensures !Disjoint([DealOf(7, Proved(g, 7)), DealOf(8, Proved(g, 8))])
  {
    OneCoinOverlaps(DealOf(7, Proved(g, 7)), DealOf(8, Proved(g, 8)));
  }

  lemma PaidTwice(g: Stage, actions: seq<Action>)
    requires Closed(After(g.c, START, actions).log) == [DealOf(7, Proved(g, 7)), DealOf(8, Proved(g, 8))]
    ensures var ds := Closed(After(g.c, START, actions).log); Paid(ds) > Worth(Taken(ds))
  {
    OneCoinTwice(g);
    ValueAcrossSwaps(g.c, actions);
  }

  /** A run of two swaps, nothing failing, in which the maker gives away more than the coins it took are worth. */
  lemma PaidTwiceRun() returns (c: Config, actions: seq<Action>)
    ensures Real(c)
    ensures var ds := Closed(After(c, START, actions).log); Paid(ds) > Worth(Taken(ds))
  {
    var g := LegacyStage();
    c := g.c;
    var xs := TwoSwapsClose(g);
    actions := ExchangesAreRun(c, xs);
    PaidTwice(g, actions);
  }

  // --------------------------------------------------- a Taproot batch half sent and let go

  const PAIR: Terms := Terms(Taproot, 4000, 2, 1000, 20)

  const PAIR_OFFER: Swap := NO_SWAP.(terms := PAIR, phase := AwaitingContractData)

  function PairClaims(g: Stage): seq<Claim> {
    [Claim(1, g.theirs, 1, 2000, 3), Claim(2, g.theirs, 2, 2000, 3)]
  }

  /** Coins of the given amounts. */
  function PairCoins(g: Stage, amounts: seq<nat>): seq<Outgoing> {
    seq(|amounts|, i requires 0 <= i < |amounts| => Outgoing(10 + i, 10 + i, g.ours, amounts[i], 0, 0, None))
  }

  lemma PairSplits(a: seq<nat>, service: nat) returns (amounts: seq<nat>)
    requires |a| == 2 && a[0] == a[1] == 2000 && service == 0
    ensures FeeSplit.Split(a, service) == Ok(amounts) && FeeSplit.Sum(a) == 4000
  {
    assert FeeSplit.Sum(a) == 4000 by {
      assert FeeSplit.Sum(a[..1][..0]) == 0;
      assert FeeSplit.Sum(a[..1]) == 2000;
    }
    FeeSplit.SplitSucceeds(a, service);
    amounts := FeeSplit.Split(a, service).value;
  }

  lemma PairFits(g: Stage)
    requires Set(g, Taproot, 1020, 1000)
    ensures Amounts(PairClaims(g)) == [2000, 2000] && ClaimsFit(PairClaims(g), PAIR)
    ensures ClaimsOpen(g.c, Taproot, PairClaims(g), HashOf(g.c, Taproot, PairClaims(g)), 1000)
    ensures HashOf(g.c, Taproot, PairClaims(g)) == g.hash
  {
    var coins := Received(PairClaims(g));
    assert IncomingTotal(coins) == 4000 by {
      assert IncomingTotal(coins[..1][..0]) == 0;
      assert IncomingTotal(coins[..1]) == 2000;
    }
  }

  lemma PairPlanned(g: Stage, log: Log) returns (e: Env)
    requires Set(g, Taproot, 1020, 1000)
    ensures PlanFor(g.c, log, PAIR_OFFER, ContractData(7, PairClaims(g)), e).Some?
  {
    PairFits(g);
    var service := g.c.fee(IncomingTotal(Received(PairClaims(g))), PAIR.offset);
    var amounts := PairSplits(Amounts(PairClaims(g)), service);
    e := Working(PairCoins(g, amounts), 0);
    assert PaysOut(e.coins, amounts);
    assert BuiltOn(g.c, Taproot, e.coins, g.hash, 1000);
  }

  function PairOpening(): Exchange {
    Negotiate(7, PAIR, Working([], 0))
  }

  lemma PairHasRoom()
    ensures MakerRegistry.Admitted(map[], 7, PAIR_OFFER, 4000, 0) == Ok(map[7 := Entry(PAIR_OFFER, None, 0)])
  {
    OneEntry(7, Entry(OFFER, None, 0));
  }

  lemma PairBegun(g: Stage) returns (w: World)
    requires Set(g, Taproot, 1020, 1000)
    ensures w == Steps(g.c, START, [PairOpening()]) && Sound(g.c, w)
    ensures w.swaps == map[7 := Entry(PAIR_OFFER, None, 0)] && w.cases == map[]
  {
    assert FreshOffer(g.c, PAIR) == PAIR_OFFER;
    PairHasRoom();
    OneMore(g.c, START, [], PairOpening());
    assert [] + [PairOpening()] == [PairOpening()];
    RunsAreOrderly(g.c, [PairOpening()]);
    w := Steps(g.c, START, [PairOpening()]);
  }

  lemma PairDropped(g: Stage, w: World) returns (m: Message, e: Env)
    requires Set(g, Taproot, 1020, 1000) && Sound(g.c, w) && w.swaps == map[7 := Entry(PAIR_OFFER, None, 0)]
    ensures IsProtocolMessage(m) && m.id == 7 && SentThenDropped(g.c, w, m, e, 901)
  {
    m := ContractData(7, PairClaims(g));
    e := PairPlanned(g, w.log);
    var p := PlanFor(g.c, w.log, PAIR_OFFER, m, e).value;
    FailedBatchIsDropped(g.c, w, m, e, p, 901);
    var done: nat :| done < |p.effects| && SentThenDropped(g.c, w, m, e.(done := done), 901);
    e := e.(done := done);
  }

  lemma SentSince(log: Log, n: nat, id: SwapId)
    requires n <= |log| && !Unsent(log[n..], id)
    ensures !Unsent(log, id)
  {
    var tail := log[n..];
    var k :| 0 <= k < |tail| && tail[k].Broadcast? && tail[k].batch.id == id;
    assert log[n + k] == tail[k];
  }

  /** A run in which a Taproot swap with a transaction sent ends up in neither the registry nor recovery. */
  lemma DroppedRun() returns (c: Config, xs: seq<Exchange>)
    ensures Real(c)
    ensures var after := Steps(c, START, xs); !Unsent(after.log, 7) && 7 !in after.swaps && 7 !in after.cases
  {
    var g := TaprootStage();
    var w := PairBegun(g);
    var m, e := PairDropped(g, w);
    var end := [Message(m, e), DrainPass(901, None)];
    StepsAppend(g.c, START, [PairOpening()], end);
    SentSince(Steps(g.c, w, end).log, |w.log|, 7);
    c, xs := g.c, [PairOpening()] + end;
  }
}
