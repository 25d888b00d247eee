/** The order in which a maker may commit funds and release keys, as a law about the log of everything it does. */
module MakerSafety {
  import opened Bytes
  import opened Deadline
  import opened RouteFees
  import opened MakerState
  import opened MakerHandlers

  predicate Keeps(e: Effect, contract: Txid) {
    e.Discard? ==> contract !in e.contracts
  }

  /** The effect happened, and nothing after it discarded the coin with the given contract. */
  ghost predicate Stands(log: Log, e: Effect, contract: Txid) {
    exists j | 0 <= j < |log| :: log[j] == e && forall k | j < k < |log| :: Keeps(log[k], contract)
  }

  ghost predicate AllSaved(log: Log, s: Swap) {
    && (forall i | 0 <= i < |s.incoming| :: Stands(log, SaveIncoming(s.incoming[i]), s.incoming[i].contract))
    && (forall i | 0 <= i < |s.outgoing| :: Stands(log, SaveOutgoing(s.outgoing[i]), s.outgoing[i].contract))
    && (forall i | 0 <= i < |s.outgoing| :: Watch(s.outgoing[i].contract) in log)
  }

  predicate SignedBy(c: Config, contract: Txid, other: Point, signature: Option<Signature>) {
    signature.Some? && c.valid(contract, other, signature.value)
  }

  predicate AllSigned(c: Config, s: Swap) {
    && (forall i | 0 <= i < |s.incoming| :: SignedBy(c, s.incoming[i].contract, s.incoming[i].other, s.incoming[i].signature))
    && (forall i | 0 <= i < |s.outgoing| :: SignedBy(c, s.outgoing[i].contract, s.outgoing[i].other, s.outgoing[i].signature))
  }

  /** May be broadcast for this batch: the terms were agreed and met, its coins made, and Legacy coins carry the other side's signature. */
  ghost predicate Ready(c: Config, log: Log, b: Batch) {
    && Admit(b.id, b.swap.terms) in log
    && Proven(c, b.swap) && Funded(log, DealOf(b.id, b.swap))
    && (b.swap.terms.protocol == Legacy ==> AllSigned(c, b.swap) && AllBound(log, b.swap.incoming))
  }

  predicate Opens(c: Config, coin: Incoming) {
    coin.otherKey.Some? && c.point(coin.otherKey.value) == coin.other
  }

  /** For every incoming coin the maker holds, and has saved, the other side's private key. */
  ghost predicate HoldsKeys(c: Config, log: Log, s: Swap) {
    forall i | 0 <= i < |s.incoming| ::
      Opens(c, s.incoming[i]) && Stands(log, SaveIncoming(s.incoming[i]), s.incoming[i].contract)
  }

  /** A coin for every next hop and from every negotiated contract; what comes in is what goes out and the fees. */
  predicate AddsUp(d: Deal, hops: nat) {
    && |d.outgoing| == hops && |d.incoming| == d.terms.count && DistinctIncoming(d.incoming)
    && IncomingTotal(d.incoming) == OutgoingTotal(d.outgoing) + d.service + FUNDING_FEE * hops
    && IncomingTotal(d.incoming) <= d.terms.amount
  }

  /** What must already have happened for an effect to be allowed. */
  ghost predicate Allowed(c: Config, log: Log, e: Effect) {
    match e
    case Bind(bs) => Compatible(CacheOf(log), bs) && forall i | 0 <= i < |bs| :: c.decode(Legacy, bs[i].scripts).Some?
    case Broadcast(b, tx) => Ready(c, log, b) && AllSaved(log, b.swap) && tx in Fundings(b.swap.outgoing)
    case Release(b) =>
      Admit(b.id, b.swap.terms) in log && Proven(c, b.swap) && Funded(log, DealOf(b.id, b.swap)) && HoldsKeys(c, log, b.swap)
    case Fund(d, hops) => Admit(d.id, d.terms) in log && AddsUp(d, hops)
    case Endorse(es) => forall i | 0 <= i < |es| :: Made(log, es[i].coin) && SpendsCoin(c, es[i].coin, es[i].spend)
    case _ => true
  }

  ghost predicate Lawful(c: Config, log: Log) {
    forall i | 0 <= i < |log| :: Allowed(c, log[..i], log[i])
  }

  // ------------------------------------------------------------- growing a log

  lemma LawfulNext(c: Config, log: Log, e: Effect)
    requires Lawful(c, log) && Allowed(c, log, e)
    ensures Lawful(c, log + [e])
  {
    var later := log + [e];
    forall i | 0 <= i < |later|
      ensures Allowed(c, later[..i], later[i])
    {
      assert later[..i] == log[..i];
      assert i == |log| ==> log[..i] == log;
    }
  }

  predicate Harmless(e: Effect) {
    !e.Broadcast? && !e.Release? && !e.Bind? && !e.Endorse? && !e.Fund?
  }

  lemma {:induction false} LawfulAppend(c: Config, log: Log, es: seq<Effect>)
    requires Lawful(c, log) && forall i | 0 <= i < |es| :: Allowed(c, log + es[..i], es[i])
    ensures Lawful(c, log + es)
  {
    if es == [] {
      assert log + es == log;
    } else {
      var n := |es| - 1;
      forall i | 0 <= i < n
        ensures Allowed(c, log + es[..n][..i], es[..n][i])
      {
        assert es[..n][..i] == es[..i];
      }
      LawfulAppend(c, log, es[..n]);
      LawfulNext(c, log + es[..n], es[n]);
      assert log + es == log + es[..n] + [es[n]];
    }
  }

  lemma StandsNow(log: Log, before: seq<Effect>, es: seq<Effect>, i: nat, contract: Txid)
    requires i < |es| && forall k | 0 <= k < |es| :: !es[k].Discard?
    ensures Stands(log + before + es, es[i], contract)
  {
    var all, j := log + before + es, |log| + |before| + i;
    assert all[j] == es[i];
    assert forall k | j < k < |all| :: all[k] == es[k - |log| - |before|];
  }

  /** Once prepared, a batch has everything saved and watched, whatever undiscarding effects follow. */
  lemma PreparationSaves(log: Log, b: Batch, rest: seq<Effect>)
    requires forall k | 0 <= k < |rest| :: !rest[k].Discard?
    ensures AllSaved(log + Preparation(b) + rest, b.swap)
  {
    var s := b.swap;
    var w, i1, o := Watches(s.outgoing), SavesIncoming(s.incoming), SavesOutgoing(s.outgoing);
    var all := log + Preparation(b) + rest;
    forall i | 0 <= i < |s.incoming|
      ensures Stands(all, SaveIncoming(s.incoming[i]), s.incoming[i].contract)
    {
      assert all == log + w + (i1 + o + rest);
      StandsNow(log, w, i1 + o + rest, i, s.incoming[i].contract);
    }
    forall i | 0 <= i < |s.outgoing|
      ensures Stands(all, SaveOutgoing(s.outgoing[i]), s.outgoing[i].contract)
      ensures Watch(s.outgoing[i].contract) in all
    {
      assert all == log + (w + i1) + (o + rest);
      StandsNow(log, w + i1, o + rest, i, s.outgoing[i].contract);
      assert all[|log| + i] == w[i];
    }
  }

  lemma BroadcastAllowed(c: Config, log: Log, b: Batch, tx: Txid, rest: seq<Effect>)
    requires Ready(c, log, b) && tx in Fundings(b.swap.outgoing) && forall k | 0 <= k < |rest| :: !rest[k].Discard?
    ensures Allowed(c, log + Preparation(b) + rest, Broadcast(b, tx))
  {
    PreparationSaves(log, b, rest);
    if b.swap.terms.protocol == Legacy {
      AllBoundStays(log, Preparation(b) + rest, b.swap.incoming);
      assert log + (Preparation(b) + rest) == log + Preparation(b) + rest;
    }
  }

  lemma SendAllowed(c: Config, log: Log, b: Batch, txs: seq<Txid>, j: nat)
    requires Ready(c, log, b) && forall i | 0 <= i < |txs| :: txs[i] in Fundings(b.swap.outgoing)
    requires j < |txs|
    ensures Allowed(c, log + (Preparation(b) + Broadcasts(b, txs)[..j]), Broadcasts(b, txs)[j])
  {
    var sent := Broadcasts(b, txs)[..j];
    BroadcastAllowed(c, log, b, txs[j], sent);
    assert log + (Preparation(b) + sent) == log + Preparation(b) + sent;
  }

  lemma TakeOfSum<T>(a: seq<T>, b: seq<T>, i: nat)
    requires i <= |a| + |b|
    ensures i <= |a| ==> (a + b)[..i] == a[..i]
    ensures i >= |a| ==> (a + b)[..i] == a + b[..i - |a|]
    ensures i < |a| ==> (a + b)[i] == a[i]
    ensures |a| <= i < |a| + |b| ==> (a + b)[i] == b[i - |a|]
  {
  }

  lemma CommitAllowed(c: Config, log: Log, b: Batch, txs: seq<Txid>, i: nat)
    requires Ready(c, log, b) && forall i | 0 <= i < |txs| :: txs[i] in Fundings(b.swap.outgoing)
    requires i < |Preparation(b) + Broadcasts(b, txs)|
    ensures Allowed(c, log + (Preparation(b) + Broadcasts(b, txs))[..i], (Preparation(b) + Broadcasts(b, txs))[i])
  {
    TakeOfSum(Preparation(b), Broadcasts(b, txs), i);
    if i < |Preparation(b)| {
      assert Harmless(Preparation(b)[i]);
    } else {
      SendAllowed(c, log, b, txs, i - |Preparation(b)|);
    }
  }

  /** However far a committing plan gets, it obeys the law. */
  lemma CommitIsLawful(c: Config, log: Log, b: Batch, txs: seq<Txid>, k: nat)
    requires Lawful(c, log) && Ready(c, log, b) && forall i | 0 <= i < |txs| :: txs[i] in Fundings(b.swap.outgoing)
    requires k <= |Preparation(b) + Broadcasts(b, txs)|
    ensures Lawful(c, log + (Preparation(b) + Broadcasts(b, txs))[..k])
  {
    var all := Preparation(b) + Broadcasts(b, txs);
    var es := all[..k];
    forall i | 0 <= i < |es|
      ensures Allowed(c, log + es[..i], es[i])
    {
      assert es[..i] == all[..i];
      CommitAllowed(c, log, b, txs, i);
    }
    LawfulAppend(c, log, es);
  }

  lemma SavesKeys(c: Config, log: Log, s: Swap)
    requires forall i | 0 <= i < |s.incoming| :: Opens(c, s.incoming[i])
    ensures HoldsKeys(c, log + SavesIncoming(s.incoming), s)
  {
    forall i | 0 <= i < |s.incoming|
      ensures Stands(log + SavesIncoming(s.incoming), SaveIncoming(s.incoming[i]), s.incoming[i].contract)
    {
      assert log + SavesIncoming(s.incoming) == log + [] + SavesIncoming(s.incoming);
      StandsNow(log, [], SavesIncoming(s.incoming), i, s.incoming[i].contract);
    }
  }

  lemma ReleaseIsLawful(c: Config, log: Log, b: Batch, k: nat)
    requires Lawful(c, log) && Admit(b.id, b.swap.terms) in log && Proven(c, b.swap) && Funded(log, DealOf(b.id, b.swap))
    requires forall i | 0 <= i < |b.swap.incoming| :: Opens(c, b.swap.incoming[i])
    requires k <= |SavesIncoming(b.swap.incoming)| + 1
    ensures Lawful(c, log + (SavesIncoming(b.swap.incoming) + [Release(b)])[..k])
  {
    var saves := SavesIncoming(b.swap.incoming);
    var es := (saves + [Release(b)])[..k];
    forall i | 0 <= i < |es|
      ensures Allowed(c, log + es[..i], es[i])
    {
      if i == |saves| {
        assert es[..i] == saves;
        SavesKeys(c, log, b.swap);
      } else {
        assert es[i] == saves[i];
      }
    }
    LawfulAppend(c, log, es);
  }

  lemma HarmlessIsLawful(c: Config, log: Log, es: seq<Effect>)
    requires Lawful(c, log) && forall i | 0 <= i < |es| :: Harmless(es[i])
    ensures Lawful(c, log + es)
  {
    LawfulAppend(c, log, es);
  }

  // ------------------------------------------------------------ every handler

  lemma DealAddsUp(c: Config, id: SwapId, s: Swap)
    requires Proven(c, s)
    ensures AddsUp(DealOf(id, s), |s.outgoing|)
  {
    SameIncomingTotal(s.incoming, Unkeyed(s.incoming));
    SameOutgoingTotal(s.outgoing, Unsigned(s.outgoing));
  }

  lemma SigsAreLawful(c: Config, log: Log, id: SwapId, s: Swap, receivers: seq<Signature>, senders: seq<Signature>, p: Plan, k: nat)
    requires Lawful(c, log) && Good(c, log, id, s) && s.terms.protocol == Legacy && SigsPlan(c, id, s, receivers, senders) == Some(p)
    requires k <= |p.effects|
    ensures Lawful(c, log + p.effects[..k])
  {
    SigsAreReady(c, log, id, s, receivers, senders, p);
    CommitIsLawful(c, log, Batch(id, p.next), s.pending, k);
  }

  lemma SigsAreReady(c: Config, log: Log, id: SwapId, s: Swap, receivers: seq<Signature>, senders: seq<Signature>, p: Plan)
    requires Good(c, log, id, s) && s.terms.protocol == Legacy && SigsPlan(c, id, s, receivers, senders) == Some(p)
    ensures Ready(c, log, Batch(id, p.next)) && Fundings(p.next.outgoing) == s.pending
  {
    SigsAreGood(c, log, id, s, receivers, senders, p);
    SigsAreSigned(c, s, receivers, senders);
    assert Fundings(p.next.outgoing) == s.pending;
  }

  lemma SigsAreSigned(c: Config, s: Swap, receivers: seq<Signature>, senders: seq<Signature>)
    requires SigsFit(c, s, receivers, senders)
    ensures AllSigned(c, s.(incoming := SignedIncoming(s.incoming, receivers), outgoing := SignedOutgoing(s.outgoing, senders)))
  {
  }

  lemma ContractIsReady(c: Config, log: Log, id: SwapId, s: Swap, claims: seq<Claim>, e: Env, p: Plan)
    requires Good(c, log, id, s) && s.terms.protocol == Taproot && ContractPlan(c, id, s, claims, e) == Some(p)
    ensures Ready(c, log + [Fund(DealOf(id, p.next), |claims|)], Batch(id, p.next))
  {
    ContractIsProven(c, id, s, claims, e, p);
    ContractIsFunded(c, log, id, s, claims, e, p);
  }

  lemma ContractIsLawful(c: Config, log: Log, id: SwapId, s: Swap, claims: seq<Claim>, e: Env, p: Plan, k: nat)
    requires Lawful(c, log) && Good(c, log, id, s) && s.terms.protocol == Taproot && ContractPlan(c, id, s, claims, e) == Some(p)
    requires k <= |p.effects|
    ensures Lawful(c, log + p.effects[..k])
  {
    ContractIsProven(c, id, s, claims, e, p);
    DealAddsUp(c, id, p.next);
    var fund, b := [Fund(DealOf(id, p.next), |claims|)], Batch(id, p.next);
    var rest := Preparation(b) + Broadcasts(b, Fundings(e.coins));
    ContractIsReady(c, log, id, s, claims, e, p);
    ContractIsFunded(c, log, id, s, claims, e, p);
    FundIsLawful(c, log, fund, rest, b, Fundings(e.coins), k);
  }

  lemma FundIsLawful(c: Config, log: Log, fund: seq<Effect>, rest: seq<Effect>, b: Batch, txs: seq<Txid>, k: nat)
    requires Lawful(c, log) && |fund| == 1 && Allowed(c, log, fund[0]) && rest == Preparation(b) + Broadcasts(b, txs)
    requires Ready(c, log + fund, b) && forall i | 0 <= i < |txs| :: txs[i] in Fundings(b.swap.outgoing)
    requires k <= |fund + rest|
    ensures Lawful(c, log + (fund + rest)[..k])
  {
    if k == 0 {
      assert log + (fund + rest)[..k] == log;
    } else {
      LawfulNext(c, log, fund[0]);
      assert fund == [fund[0]];
      CommitIsLawful(c, log + fund, b, txs, k - 1);
      assert log + (fund + rest)[..k] == log + fund + rest[..k - 1];
    }
  }

  lemma HandoverIsLawful(c: Config, log: Log, id: SwapId, s: Swap, keys: seq<Key>, p: Plan, k: nat)
    requires Lawful(c, log) && Good(c, log, id, s) && HandoverPlan(c, id, s, keys) == Some(p)
    requires k <= |p.effects|
    ensures Lawful(c, log + p.effects[..k])
  {
    HandoverIsGood(c, log, id, s, keys, p);
    forall i | 0 <= i < |p.next.incoming|
      ensures Opens(c, p.next.incoming[i])
    {
      assert c.point(keys[i]) == s.incoming[i].other;
    }
    ReleaseIsLawful(c, log, Batch(id, p.next), k);
  }

  lemma ProofIsLawful(c: Config, log: Log, id: SwapId, s: Swap, locktime: nat, claims: seq<Claim>, nextHops: nat, e: Env, p: Plan, k: nat)
    requires Lawful(c, log) && Good(c, log, id, s) && ProofPlan(c, CacheOf(log), id, s, locktime, claims, nextHops, e) == Some(p)
    requires k <= |p.effects|
    ensures Lawful(c, log + p.effects[..k])
  {
    ProofIsGood(c, log, id, s, locktime, claims, nextHops, e, p);
    DealAddsUp(c, id, p.next);
    FundingIsLawful(c, log, WatchesIncoming(p.next.incoming), Fund(DealOf(id, p.next), nextHops), k);
  }

  lemma FundingIsLawful(c: Config, log: Log, watches: seq<Effect>, fund: Effect, k: nat)
    requires Lawful(c, log) && (forall i | 0 <= i < |watches| :: Harmless(watches[i])) && k <= |watches| + 1
    requires fund.Fund? && Admit(fund.deal.id, fund.deal.terms) in log && AddsUp(fund.deal, fund.hops)
    ensures Lawful(c, log + (watches + [fund])[..k])
  {
    if k <= |watches| {
      assert (watches + [fund])[..k] == watches[..k];
      HarmlessIsLawful(c, log, watches[..k]);
    } else {
      HarmlessIsLawful(c, log, watches);
      LawfulNext(c, log + watches, fund);
      assert log + (watches + [fund])[..k] == log + watches + [fund];
    }
  }

  /** A plan of a single effect that is allowed. */
  lemma OneIsLawful(c: Config, log: Log, e: Effect, k: nat)
    requires Lawful(c, log) && Allowed(c, log, e) && k <= 1
    ensures Lawful(c, log + [e][..k])
  {
    if k == 1 {
      LawfulNext(c, log, e);
      assert [e][..k] == [e];
    } else {
      assert log + [e][..k] == log;
    }
  }

  /** From a good state, however far the plan for any message gets, it obeys the law. */
  lemma PlansAreLawful(c: Config, log: Log, s: Swap, m: Message, e: Env, p: Plan, k: nat)
    requires IsProtocolMessage(m) && Lawful(c, log) && Good(c, log, m.id, s) && PlanFor(c, log, s, m, e) == Some(p)
    requires k <= |p.effects|
    ensures Lawful(c, log + p.effects[..k])
  {
    match m
    case SenderSigsRequest(id, locktime, hash, bindings) => OneIsLawful(c, log, Bind(bindings), k);
    case ProofOfFunding(id, locktime, claims, nextHops) => ProofIsLawful(c, log, id, s, locktime, claims, nextHops, e, p, k);
    case ContractSigs(id, receivers, senders) => SigsAreLawful(c, log, id, s, receivers, senders, p, k);
    case ReceiverSigsRequest(id, spends) => OneIsLawful(c, log, Endorse(Endorsements(e.found, spends)), k);
    case ContractData(id, claims) => ContractIsLawful(c, log, id, s, claims, e, p, k);
    case Handover(id, protocol, keys) => HandoverIsLawful(c, log, id, s, keys, p, k);
  }

  // ------------------------------------------------------------- signed contracts

  predicate Within(small: Cache, large: Cache) {
    forall o | o in small :: o in large && large[o] == small[o]
  }

  lemma {:induction false} CompatibleGrows(cache: Cache, bs: seq<Binding>)
    requires Compatible(cache, bs)
    ensures Within(cache, Rebound(cache, bs))
  {
    if bs != [] {
      CompatibleGrows(cache, bs[..|bs| - 1]);
    }
  }

  /** Once the maker has signed a contract for an outpoint, its wallet never holds another. */
  lemma {:induction false} CacheOnlyGrows(c: Config, log: Log, i: nat)
    requires Lawful(c, log) && i <= |log|
    ensures Within(CacheOf(log[..i]), CacheOf(log))
    decreases |log|
  {
    var n := |log| - 1;
    if i == |log| {
      assert log[..i] == log;
    } else {
      LawfulPrefix(c, log, n);
      CacheOnlyGrows(c, log[..n], i);
      assert log[..n][..i] == log[..i];
      assert Allowed(c, log[..n], log[n]);
      if log[n].Bind? {
        CompatibleGrows(CacheOf(log[..n]), log[n].bindings);
      }
    }
  }

  lemma LawfulPrefix(c: Config, log: Log, n: nat)
    requires Lawful(c, log) && n <= |log|
    ensures Lawful(c, log[..n])
  {
    forall i | 0 <= i < n
      ensures Allowed(c, log[..n][..i], log[..n][i])
    {
      assert log[..n][..i] == log[..i];
    }
  }

  /** A request names each outpoint with one contract only. */
  predicate SingleMinded(bs: seq<Binding>) {
    forall i, j | 0 <= i < |bs| && 0 <= j < |bs| :: bs[i].outpoint == bs[j].outpoint ==> bs[i].scripts == bs[j].scripts
  }

  lemma {:induction false} ReboundKeeps(cache: Cache, bs: seq<Binding>, k: nat)
    requires SingleMinded(bs) && k < |bs|
    ensures bs[k].outpoint in Rebound(cache, bs) && Rebound(cache, bs)[bs[k].outpoint] == bs[k].scripts
  {
    var n := |bs| - 1;
    if k < n {
      ReboundKeeps(cache, bs[..n], k);
    }
  }

  /** If every request is single-minded, what the maker has signed is what its wallet holds. */
  lemma {:induction false} BoundIsCached(c: Config, log: Log, o: OutPoint, scripts: seq<Data>)
    requires Lawful(c, log) && Bound(log, o, scripts)
    requires forall i | 0 <= i < |log| && log[i].Bind? :: SingleMinded(log[i].bindings)
    ensures o in CacheOf(log) && CacheOf(log)[o] == scripts
  {
    var n := |log| - 1;
    var i :| 0 <= i < |log| && log[i].Bind? && Binding(o, scripts) in log[i].bindings;
    LawfulPrefix(c, log, n);
    assert Allowed(c, log[..n], log[n]);
    if i == n {
      var k :| 0 <= k < |log[n].bindings| && log[n].bindings[k] == Binding(o, scripts);
      ReboundKeeps(CacheOf(log[..n]), log[n].bindings, k);
    } else {
      assert log[..n][i] == log[i];
      BoundIsCached(c, log[..n], o, scripts);
      if log[n].Bind? {
        CompatibleGrows(CacheOf(log[..n]), log[n].bindings);
      }
    }
  }

  /** The maker signs at most one contract per outpoint. */
  ghost predicate OneContractEach(log: Log) {
    forall o, s, t :: Bound(log, o, s) && Bound(log, o, t) ==> s == t
  }

  /** That is so exactly if no single request names one outpoint with two contracts. */
  lemma OneContractExactly(c: Config, log: Log)
    requires Lawful(c, log)
    ensures OneContractEach(log) <==> forall i | 0 <= i < |log| && log[i].Bind? :: SingleMinded(log[i].bindings)
  {
    if forall i | 0 <= i < |log| && log[i].Bind? :: SingleMinded(log[i].bindings) {
      forall o, s, t | Bound(log, o, s) && Bound(log, o, t)
        ensures s == t
      {
        BoundIsCached(c, log, o, s);
        BoundIsCached(c, log, o, t);
      }
    } else {
      var i :| 0 <= i < |log| && log[i].Bind? && !SingleMinded(log[i].bindings);
      var bs := log[i].bindings;
      var j, k :| 0 <= j < |bs| && 0 <= k < |bs| && bs[j].outpoint == bs[k].outpoint && bs[j].scripts != bs[k].scripts;
      assert bs[j] == Binding(bs[j].outpoint, bs[j].scripts) && bs[k] == Binding(bs[j].outpoint, bs[k].scripts);
      assert Bound(log, bs[j].outpoint, bs[j].scripts) && Bound(log, bs[j].outpoint, bs[k].scripts);
    }
  }

  /** Such a request is not refused, and breaks that. */
  lemma TwoContractsInOneRequest(c: Config, log: Log, s: Swap, hash: Data, o: OutPoint, a: seq<Data>, b: seq<Data>, e: Env)
    requires s.terms.protocol == Legacy && s.phase == AwaitingContractData && e.verified && o !in CacheOf(log)
    requires s.terms.timelock + REFUND_LOCKTIME_STEP < 0x1_0000 && a != b
    requires c.decode(Legacy, a) == c.decode(Legacy, b) == Some(Lock(hash, s.terms.timelock + REFUND_LOCKTIME_STEP))
    ensures var bs := [Binding(o, a), Binding(o, b)];
            && SenderSigsPlan(c, CacheOf(log), s, s.terms.timelock, hash, bs, e) == Some(Plan([Bind(bs)], s, Store))
            && !OneContractEach(log + [Bind(bs)])
  {
    var bs := [Binding(o, a), Binding(o, b)];
    var more := log + [Bind(bs)];
    assert more[|log|] == Bind(bs) && bs[0] == Binding(o, a) && bs[1] == Binding(o, b);
    assert Bound(more, o, a) && Bound(more, o, b);
  }
}
