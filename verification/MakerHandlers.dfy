/**
 What a maker does with each protocol message: the checks, the effects in their order, and the state that results.

 A handler is a plan. Its effects are carried out one after another, each may fail, and a failure drops the
 connection and leaves the registry as it was.
 */
module MakerHandlers {
  import opened Bytes
  import opened Deadline
  import opened RouteFees
  import opened FeeSplit
  import opened MakerState

  /** One incoming contract as the taker presents it. */
  datatype Claim = Claim(outpoint: OutPoint, scripts: seq<Data>, contract: Txid, amount: nat, other: Point)

  type Cache = map<OutPoint, seq<Data>>

  datatype Message =
    | Hello
    | GetOffer
    | SwapDetails(id: SwapId, terms: Terms)
    | SenderSigsRequest(id: SwapId, locktime: nat, hash: Data, bindings: seq<Binding>)
    | ProofOfFunding(id: SwapId, locktime: nat, claims: seq<Claim>, nextHops: nat)
    | ContractSigs(id: SwapId, receivers: seq<Signature>, senders: seq<Signature>)
    | ReceiverSigsRequest(id: SwapId, spends: seq<SpendRequest>)
    | ContractData(id: SwapId, claims: seq<Claim>)
    | Handover(id: SwapId, protocol: Protocol, keys: seq<Key>)
    | WaitingFunding(id: SwapId)

  /** What the handler learns from scripts, chain and wallet while it works. */
  datatype Env = Env(
    verified: bool,                // the keys and confirmations check out
    height: nat,                   // the chain height read
    confirmed: Option<nat>,        // the earliest confirmation of the incoming funding
    coins: seq<Outgoing>,          // the outgoing coins the wallet funds
    watchtower: bool,
    liquidity: nat,
    now: nat,
    done: nat,                     // how many effects succeed before one fails
    swept: bool,                   // the incoming coins of a completed swap are all swept
    found: seq<Outgoing>)          // the outgoing coins found for the requested multisigs, until one is missing

  /** Leave the registry alone, store the new state, or remove the completed swap. */
  datatype Ending = Stay | Store | Finish

  datatype Plan = Plan(effects: seq<Effect>, next: Swap, ending: Ending)

  function Min(a: nat, b: nat): nat {
    if a < b then a else b
  }

  // -------------------------------------------------------------- lists of effects

  function Watches(coins: seq<Outgoing>): seq<Effect> {
    seq(|coins|, i requires 0 <= i < |coins| => Watch(coins[i].contract))
  }

  function WatchesIncoming(coins: seq<Incoming>): seq<Effect> {
    seq(|coins|, i requires 0 <= i < |coins| => Watch(coins[i].contract))
  }

  function SavesIncoming(coins: seq<Incoming>): seq<Effect> {
    seq(|coins|, i requires 0 <= i < |coins| => SaveIncoming(coins[i]))
  }

  function SavesOutgoing(coins: seq<Outgoing>): seq<Effect> {
    seq(|coins|, i requires 0 <= i < |coins| => SaveOutgoing(coins[i]))
  }

  function Broadcasts(b: Batch, txs: seq<Txid>): seq<Effect> {
    seq(|txs|, i requires 0 <= i < |txs| => Broadcast(b, txs[i]))
  }

  /** Everything that comes before the first broadcast: watch the outgoing contracts, then save all coins. */
  function Preparation(b: Batch): seq<Effect> {
    Watches(b.swap.outgoing) + SavesIncoming(b.swap.incoming) + SavesOutgoing(b.swap.outgoing)
  }

  // -------------------------------------------------------------------- the plans

  function Received(claims: seq<Claim>): seq<Incoming> {
    seq(|claims|, i requires 0 <= i < |claims| =>
      Incoming(claims[i].outpoint, claims[i].scripts, claims[i].contract, claims[i].amount, claims[i].other, None, None))
  }

  function Amounts(claims: seq<Claim>): seq<nat> {
    seq(|claims|, i requires 0 <= i < |claims| => claims[i].amount)
  }

  predicate DistinctClaims(claims: seq<Claim>) {
    forall i, j | 0 <= i < j < |claims| :: claims[i].outpoint != claims[j].outpoint
  }

  /** The count, the outpoints and the total agree with the negotiated terms. */
  predicate ClaimsFit(claims: seq<Claim>, t: Terms) {
    |claims| == t.count && DistinctClaims(claims) && IncomingTotal(Received(claims)) <= t.amount
  }

  /** The wallet funds as many coins as asked for, paying the net amount between them. */
  predicate FundsExactly(coins: seq<Outgoing>, count: nat, net: nat) {
    |coins| == count && OutgoingTotal(coins) == net
  }

  /** An incoming contract opens by the hash, and its refund comes late enough after ours. */
  predicate OpensLate(c: Config, p: Protocol, scripts: seq<Data>, hash: Data, timelock: nat) {
    var lock := c.decode(p, scripts);
    && lock.Some? && lock.value.hash == hash
    && match p
       case Legacy => lock.value.delay >= timelock + MIN_CONTRACT_REACTION_TIME
       case Taproot => lock.value.delay == timelock + REFUND_LOCKTIME_STEP
  }

  /** All claims open by the same hash, late enough. */
  predicate ClaimsOpen(c: Config, p: Protocol, claims: seq<Claim>, hash: Data, timelock: nat) {
    forall i | 0 <= i < |claims| :: OpensLate(c, p, claims[i].scripts, hash, timelock)
  }

  /** The maker builds its own contracts on that hash and its own timelock. */
  predicate BuiltOn(c: Config, p: Protocol, coins: seq<Outgoing>, hash: Data, timelock: nat) {
    forall i | 0 <= i < |coins| :: c.decode(p, coins[i].scripts) == Some(Lock(hash, timelock))
  }

  /** The hash of the first claim. */
  function HashOf(c: Config, p: Protocol, claims: seq<Claim>): Data {
    if claims == [] || c.decode(p, claims[0].scripts).None? then [] else c.decode(p, claims[0].scripts).value.hash
  }

  /** No binding takes the place of a different one in the cache. */
  predicate Compatible(cache: Cache, bs: seq<Binding>) {
    forall i | 0 <= i < |bs| && bs[i].outpoint in cache :: cache[bs[i].outpoint] == bs[i].scripts
  }

  predicate BindingsFit(c: Config, bs: seq<Binding>, hash: Data, delay: nat) {
    forall i | 0 <= i < |bs| :: c.decode(Legacy, bs[i].scripts) == Some(Lock(hash, delay))
  }

  function SenderSigsPlan(c: Config, cache: Cache, s: Swap, locktime: nat, hash: Data, bs: seq<Binding>, e: Env): Option<Plan> {
    if s.phase !in {AwaitingContractData, AwaitingSignatures} || locktime != s.terms.timelock || !e.verified then None
    else if bs == [] || locktime + REFUND_LOCKTIME_STEP >= 0x1_0000 then None
    else if !BindingsFit(c, bs, hash, locktime + REFUND_LOCKTIME_STEP) || !Compatible(cache, bs) then None
    else Some(Plan([Bind(bs)], s, Store))
  }

  /** Every claimed outpoint is bound to the claimed contract. */
  predicate ClaimsBound(cache: Cache, claims: seq<Claim>) {
    forall i | 0 <= i < |claims| :: claims[i].outpoint in cache && cache[claims[i].outpoint] == claims[i].scripts
  }

  /** The proof holds up, whatever the fees and the wallet then say. */
  predicate ProofHolds(c: Config, cache: Cache, s: Swap, locktime: nat, claims: seq<Claim>, e: Env) {
    && s.terms.protocol == Legacy && s.phase in {AwaitingContractData, AwaitingSignatures} && locktime == s.terms.timelock
    && claims != [] && ClaimsFit(claims, s.terms) && e.verified
    && ClaimsOpen(c, Legacy, claims, HashOf(c, Legacy, claims), locktime) && ClaimsBound(cache, claims)
  }

  function ProofPlan(c: Config, cache: Cache, id: SwapId, s: Swap, locktime: nat, claims: seq<Claim>, nextHops: nat, e: Env): Option<Plan> {
    var incoming := Received(claims);
    var total := IncomingTotal(incoming);
    var service := c.fee(total, locktime);
    var fees := service + FUNDING_FEE * nextHops;
    if !ProofHolds(c, cache, s, locktime, claims, e) then None
    else if fees > total || !FundsExactly(e.coins, nextHops, total - fees) then None
    else if !BuiltOn(c, Legacy, e.coins, HashOf(c, Legacy, claims), locktime) then None
    else
      var next := s.(incoming := incoming, outgoing := e.coins, pending := Fundings(e.coins), service := service,
                     phase := AwaitingSignatures);
      Some(Plan(WatchesIncoming(incoming) + [Fund(DealOf(id, next), nextHops)], next, Store))
  }

  function SignedIncoming(coins: seq<Incoming>, sigs: seq<Signature>): seq<Incoming>
    requires |coins| == |sigs|
  {
    seq(|coins|, i requires 0 <= i < |coins| => coins[i].(signature := Some(sigs[i])))
  }

  function SignedOutgoing(coins: seq<Outgoing>, sigs: seq<Signature>): seq<Outgoing>
    requires |coins| == |sigs|
  {
    seq(|coins|, i requires 0 <= i < |coins| => coins[i].(signature := Some(sigs[i])))
  }

  predicate SigsFit(c: Config, s: Swap, receivers: seq<Signature>, senders: seq<Signature>) {
    && |receivers| == |s.incoming| && |senders| == |s.outgoing|
    && (forall i | 0 <= i < |receivers| :: c.valid(s.incoming[i].contract, s.incoming[i].other, receivers[i]))
    && (forall i | 0 <= i < |senders| :: c.valid(s.outgoing[i].contract, s.outgoing[i].other, senders[i]))
  }

  function SigsPlan(c: Config, id: SwapId, s: Swap, receivers: seq<Signature>, senders: seq<Signature>): Option<Plan> {
    if s.phase != AwaitingSignatures || !SigsFit(c, s, receivers, senders) then None
    else
      var next := s.(incoming := SignedIncoming(s.incoming, receivers), outgoing := SignedOutgoing(s.outgoing, senders),
                     pending := [], broadcast := true, phase := AwaitingHandover);
      var b := Batch(id, next);
      Some(Plan(Preparation(b) + Broadcasts(b, s.pending), next, Store))
  }

  function ContractPlan(c: Config, id: SwapId, s: Swap, claims: seq<Claim>, e: Env): Option<Plan> {
    var service := c.fee(IncomingTotal(Received(claims)), s.terms.offset);
    var split := Split(Amounts(claims), service);
    if s.phase != AwaitingContractData || !e.verified || claims == [] || !ClaimsFit(claims, s.terms) then None
    else if !ClaimsOpen(c, Taproot, claims, HashOf(c, Taproot, claims), s.terms.timelock) then None
    else if PastRefundDeadline(Taproot, s.terms.timelock, None, e.height) || split.Err? then None
    else if !PaysOut(e.coins, split.value) || !BuiltOn(c, Taproot, e.coins, HashOf(c, Taproot, claims), s.terms.timelock) then None
    else
      var next := s.(incoming := Received(claims), outgoing := e.coins, service := service, broadcast := true,
                     phase := AwaitingHandover);
      var b := Batch(id, next);
      Some(Plan([Fund(DealOf(id, next), |claims|)] + (Preparation(b) + Broadcasts(b, Fundings(e.coins))), next, Store))
  }

  /** Each contract transaction pays its own output. */
  predicate PaysOut(coins: seq<Outgoing>, amounts: seq<nat>) {
    |coins| == |amounts| && forall i | 0 <= i < |coins| :: coins[i].amount == amounts[i] && coins[i].funding == coins[i].contract
  }

  function Keyed(coins: seq<Incoming>, keys: seq<Key>): seq<Incoming>
    requires |coins| == |keys|
  {
    seq(|coins|, i requires 0 <= i < |coins| => coins[i].(otherKey := Some(keys[i])))
  }

  predicate KeysFit(c: Config, coins: seq<Incoming>, keys: seq<Key>) {
    |keys| == |coins| && forall i | 0 <= i < |keys| :: c.point(keys[i]) == coins[i].other
  }

  function HandoverPlan(c: Config, id: SwapId, s: Swap, keys: seq<Key>): Option<Plan> {
    if s.phase != AwaitingHandover || s.outgoing == [] || !KeysFit(c, s.incoming, keys) then None
    else
      var next := s.(incoming := Keyed(s.incoming, keys), phase := Completed);
      Some(Plan(SavesIncoming(next.incoming) + [Release(Batch(id, next))], next, Finish))
  }

  /** The wallet has made this coin for a Legacy swap. */
  predicate Made(log: Log, coin: Outgoing) {
    exists i | 0 <= i < |log| ::
      log[i].Fund? && log[i].deal.terms.protocol == Legacy && coin.(signature := None) in log[i].deal.outgoing
  }

  /** One input, from the coin's funding, one output, and the coin's two keys; what the output pays is not looked at. */
  predicate SpendsCoin(c: Config, coin: Outgoing, spend: SpendRequest) {
    |spend.inputs| == 1 && spend.outputs == 1 && spend.multisig == {c.point(coin.key), coin.other} && spend.inputs[0] == coin.funding
  }

  predicate SpendsFit(c: Config, log: Log, spends: seq<SpendRequest>, found: seq<Outgoing>) {
    |found| == |spends| && forall i | 0 <= i < |found| :: Made(log, found[i]) && SpendsCoin(c, found[i], spends[i])
  }

  function Endorsements(found: seq<Outgoing>, spends: seq<SpendRequest>): seq<Endorsement>
    requires |found| == |spends|
  {
    seq(|found|, i requires 0 <= i < |found| => Endorsement(found[i], spends[i]))
  }

  function ReceiverPlan(c: Config, log: Log, s: Swap, spends: seq<SpendRequest>, e: Env): Option<Plan> {
    if s.phase != AwaitingHandover || !SpendsFit(c, log, spends, e.found) then None
    else Some(Plan([Endorse(Endorsements(e.found, spends))], s, Stay))
  }

  predicate IsProtocolMessage(m: Message) {
    !m.Hello? && !m.GetOffer? && !m.SwapDetails? && !m.WaitingFunding?
  }

  /** The plan for a protocol message, on a connection whose state has been restored. */
  function PlanFor(c: Config, log: Log, s: Swap, m: Message, e: Env): Option<Plan>
    requires IsProtocolMessage(m)
  {
    match m
    case SenderSigsRequest(id, locktime, hash, bindings) =>
      if s.terms.protocol == Legacy then SenderSigsPlan(c, CacheOf(log), s, locktime, hash, bindings, e) else None
    case ProofOfFunding(id, locktime, claims, nextHops) => ProofPlan(c, CacheOf(log), id, s, locktime, claims, nextHops, e)
    case ContractSigs(id, receivers, senders) =>
      if s.terms.protocol == Legacy then SigsPlan(c, id, s, receivers, senders) else None
    case ReceiverSigsRequest(id, spends) =>
      if s.terms.protocol == Legacy then ReceiverPlan(c, log, s, spends, e) else None
    case ContractData(id, claims) =>
      if s.terms.protocol == Taproot then ContractPlan(c, id, s, claims, e) else None
    case Handover(id, protocol, keys) =>
      if s.terms.protocol == protocol then HandoverPlan(c, id, s, keys) else None
  }

  // ----------------------------------------------------- what a good state is

  /** The maker has signed this contract for the outpoint. */
  ghost predicate Bound(log: Log, outpoint: OutPoint, scripts: seq<Data>) {
    exists i | 0 <= i < |log| :: log[i].Bind? && Binding(outpoint, scripts) in log[i].bindings
  }

  ghost predicate AllBound(log: Log, coins: seq<Incoming>) {
    forall i | 0 <= i < |coins| :: Bound(log, coins[i].outpoint, coins[i].scripts)
  }

  /** One hash opens every contract of the swap, and the incoming refunds come late enough after the outgoing ones. */
  ghost predicate Chained(c: Config, s: Swap) {
    exists hash ::
      && (forall i | 0 <= i < |s.incoming| :: OpensLate(c, s.terms.protocol, s.incoming[i].scripts, hash, s.terms.timelock))
      && BuiltOn(c, s.terms.protocol, s.outgoing, hash, s.terms.timelock)
  }

  /**
   Negotiated terms were admitted; before contract data there are no coins; after it there is one incoming coin per
   negotiated contract, from distinct outpoints, the books balance, one hash opens all contracts, and the wallet has
   made the outgoing coins for this deal.
   */
  ghost predicate Good(c: Config, log: Log, id: SwapId, s: Swap) {
    && (s.phase.Negotiated() ==> Admit(id, s.terms) in log)
    && (s.phase.Rank() <= AwaitingContractData.Rank() ==> Bare(s))
    && (s.phase.Rank() > AwaitingContractData.Rank() ==>
          Proven(c, s) && Funded(log, DealOf(id, s)) && (s.terms.protocol == Legacy ==> AllBound(log, s.incoming)))
    && (s.phase == AwaitingSignatures ==> s.terms.protocol == Legacy && s.pending == Fundings(s.outgoing) && !s.broadcast)
    && (s.phase.Rank() > AwaitingSignatures.Rank() ==> s.broadcast)
  }

  /** The wallet has made the coins of this deal, one for each next-hop key. */
  ghost predicate Funded(log: Log, d: Deal) {
    Fund(d, |d.outgoing|) in log
  }

  predicate Bare(s: Swap) {
    s.incoming == [] && s.outgoing == [] && s.pending == [] && !s.broadcast
  }

  ghost predicate Proven(c: Config, s: Swap) {
    && |s.incoming| == s.terms.count && DistinctIncoming(s.incoming) && Balances(s) && Chained(c, s)
    && (s.terms.protocol == Taproot ==> |s.outgoing| == s.terms.count)
  }

  predicate DistinctIncoming(coins: seq<Incoming>) {
    forall i, j | 0 <= i < j < |coins| :: coins[i].outpoint != coins[j].outpoint
  }

  // --------------------------------------------------------------------- the cache

  lemma {:induction false} ReboundIsBound(cache: Cache, bs: seq<Binding>, o: OutPoint)
    requires o in Rebound(cache, bs)
    ensures Binding(o, Rebound(cache, bs)[o]) in bs || (o in cache && cache[o] == Rebound(cache, bs)[o])
  {
    if bs != [] && bs[|bs| - 1].outpoint != o {
      ReboundIsBound(cache, bs[..|bs| - 1], o);
    }
  }

  /** Whatever the cache holds, the maker has signed. */
  lemma {:induction false} CachedIsBound(log: Log, o: OutPoint)
    requires o in CacheOf(log)
    ensures Bound(log, o, CacheOf(log)[o])
  {
    var n := |log| - 1;
    var before := CacheOf(log[..n]);
    if log[n].Bind? {
      ReboundIsBound(before, log[n].bindings, o);
    }
    if !(log[n].Bind? && Binding(o, CacheOf(log)[o]) in log[n].bindings) {
      CachedIsBound(log[..n], o);
      var i :| 0 <= i < n && log[..n][i].Bind? && Binding(o, CacheOf(log)[o]) in log[..n][i].bindings;
      assert log[i] == log[..n][i];
    }
  }

  lemma {:induction false} ReceivedTotal(claims: seq<Claim>)
    ensures IncomingTotal(Received(claims)) == Sum(Amounts(claims))
  {
    if claims != [] {
      var n := |claims| - 1;
      ReceivedTotal(claims[..n]);
      assert Received(claims)[..n] == Received(claims[..n]);
      assert Amounts(claims)[..n] == Amounts(claims[..n]);
    }
  }

  lemma {:induction false} PaidTotal(coins: seq<Outgoing>, amounts: seq<nat>)
    requires PaysOut(coins, amounts)
    ensures OutgoingTotal(coins) == Sum(amounts)
  {
    if coins != [] {
      var n := |coins| - 1;
      PaidTotal(coins[..n], amounts[..n]);
    }
  }

  lemma {:induction false} SameIncomingTotal(a: seq<Incoming>, b: seq<Incoming>)
    requires |a| == |b| && forall i | 0 <= i < |a| :: a[i].amount == b[i].amount
    ensures IncomingTotal(a) == IncomingTotal(b)
  {
    if a != [] {
      SameIncomingTotal(a[..|a| - 1], b[..|b| - 1]);
    }
  }

  lemma {:induction false} SameOutgoingTotal(a: seq<Outgoing>, b: seq<Outgoing>)
    requires |a| == |b| && forall i | 0 <= i < |a| :: a[i].amount == b[i].amount
    ensures OutgoingTotal(a) == OutgoingTotal(b)
  {
    if a != [] {
      SameOutgoingTotal(a[..|a| - 1], b[..|b| - 1]);
    }
  }

  lemma ReceivedAreChained(c: Config, p: Protocol, claims: seq<Claim>, hash: Data, timelock: nat)
    requires ClaimsOpen(c, p, claims, hash, timelock)
    ensures forall i | 0 <= i < |claims| :: OpensLate(c, p, Received(claims)[i].scripts, hash, timelock)
  {
  }

  lemma ClaimsAreBound(log: Log, claims: seq<Claim>)
    requires ClaimsBound(CacheOf(log), claims)
    ensures AllBound(log, Received(claims))
  {
    forall i | 0 <= i < |claims|
      ensures Bound(log, claims[i].outpoint, claims[i].scripts)
    {
      CachedIsBound(log, claims[i].outpoint);
    }
  }

  /** From one good state to another, of the same terms and no earlier phase. */
  ghost predicate Leads(c: Config, log: Log, id: SwapId, s: Swap, next: Swap) {
    Good(c, log, id, next) && next.terms == s.terms && s.phase.Negotiated() && s.phase.Rank() <= next.phase.Rank()
  }

  lemma AllBoundStays(log: Log, more: Log, coins: seq<Incoming>)
    requires AllBound(log, coins)
    ensures AllBound(log + more, coins)
  {
    forall i | 0 <= i < |coins|
      ensures Bound(log + more, coins[i].outpoint, coins[i].scripts)
    {
      var j :| 0 <= j < |log| && log[j].Bind? && Binding(coins[i].outpoint, coins[i].scripts) in log[j].bindings;
      assert (log + more)[j] == log[j];
    }
  }

  lemma GoodStays(c: Config, log: Log, more: Log, id: SwapId, s: Swap)
    requires Good(c, log, id, s)
    ensures Good(c, log + more, id, s)
  {
    if AllBound(log, s.incoming) {
      AllBoundStays(log, more, s.incoming);
    }
  }

  lemma ProofIsGood(c: Config, log: Log, id: SwapId, s: Swap, locktime: nat, claims: seq<Claim>, nextHops: nat, e: Env, p: Plan)
    requires Good(c, log, id, s) && ProofPlan(c, CacheOf(log), id, s, locktime, claims, nextHops, e) == Some(p)
    ensures Leads(c, log + p.effects, id, s, p.next)
  {
    ReceivedAreChained(c, Legacy, claims, HashOf(c, Legacy, claims), locktime);
    ClaimsAreBound(log, claims);
    AllBoundStays(log, p.effects, p.next.incoming);
    assert p.effects[|claims|] == Fund(DealOf(id, p.next), nextHops);
  }

  lemma SplitBalances(claims: seq<Claim>, service: nat, coins: seq<Outgoing>)
    requires claims != [] && Split(Amounts(claims), service).Ok? && PaysOut(coins, Split(Amounts(claims), service).value)
    ensures |coins| == |claims|
    ensures IncomingTotal(Received(claims)) == OutgoingTotal(coins) + service + FUNDING_FEE * |coins|
  {
    var out, net, corrected := SplitIsExact(Amounts(claims), service);
    ReceivedTotal(claims);
    PaidTotal(coins, out);
  }

  lemma ContractIsProven(c: Config, id: SwapId, s: Swap, claims: seq<Claim>, e: Env, p: Plan)
    requires s.terms.protocol == Taproot && ContractPlan(c, id, s, claims, e) == Some(p)
    ensures Proven(c, p.next) && |p.next.outgoing| == |claims|
  {
    SplitBalances(claims, c.fee(IncomingTotal(Received(claims)), s.terms.offset), e.coins);
    ReceivedAreChained(c, Taproot, claims, HashOf(c, Taproot, claims), s.terms.timelock);
  }

  /** The first effect of a Taproot plan makes its coins. */
  lemma ContractIsFunded(c: Config, log: Log, id: SwapId, s: Swap, claims: seq<Claim>, e: Env, p: Plan)
    requires s.terms.protocol == Taproot && ContractPlan(c, id, s, claims, e) == Some(p)
    ensures p.effects == [Fund(DealOf(id, p.next), |claims|)] + (Preparation(Batch(id, p.next)) + Broadcasts(Batch(id, p.next), Fundings(e.coins)))
    ensures Funded(log + [Fund(DealOf(id, p.next), |claims|)], DealOf(id, p.next))
  {
    ContractIsProven(c, id, s, claims, e, p);
    assert (log + [Fund(DealOf(id, p.next), |claims|)])[|log|] == Fund(DealOf(id, p.next), |claims|);
  }

  lemma ContractIsGood(c: Config, log: Log, id: SwapId, s: Swap, claims: seq<Claim>, e: Env, p: Plan)
    requires Good(c, log, id, s) && s.terms.protocol == Taproot && ContractPlan(c, id, s, claims, e) == Some(p)
    ensures Leads(c, log + p.effects, id, s, p.next)
  {
    ContractIsProven(c, id, s, claims, e, p);
    ContractIsFunded(c, log, id, s, claims, e, p);
  }

  /** The same deal, coin by coin. */
  lemma SameCoins(id: SwapId, s: Swap, t: Swap)
    requires DealOf(id, t) == DealOf(id, s)
    ensures |t.incoming| == |s.incoming| && |t.outgoing| == |s.outgoing|
    ensures forall i | 0 <= i < |s.incoming| ::
              t.incoming[i].outpoint == s.incoming[i].outpoint && t.incoming[i].scripts == s.incoming[i].scripts &&
              t.incoming[i].amount == s.incoming[i].amount
    ensures forall i | 0 <= i < |s.outgoing| ::
              t.outgoing[i].scripts == s.outgoing[i].scripts && t.outgoing[i].amount == s.outgoing[i].amount
  {
    var incoming, outgoing := Unkeyed(s.incoming), Unsigned(s.outgoing);
    assert |incoming| == |s.incoming| && |outgoing| == |s.outgoing|;
    forall i | 0 <= i < |s.incoming|
      ensures t.incoming[i].outpoint == s.incoming[i].outpoint && t.incoming[i].scripts == s.incoming[i].scripts &&
              t.incoming[i].amount == s.incoming[i].amount
    {
      assert incoming[i] == Unkeyed(t.incoming)[i];
    }
    forall i | 0 <= i < |s.outgoing|
      ensures t.outgoing[i].scripts == s.outgoing[i].scripts && t.outgoing[i].amount == s.outgoing[i].amount
    {
      assert outgoing[i] == Unsigned(t.outgoing)[i];
    }
  }

  /** Changes to signatures and keys leave the contracts as they were. */
  lemma SameContracts(c: Config, log: Log, id: SwapId, s: Swap, t: Swap)
    requires Proven(c, s) && DealOf(id, t) == DealOf(id, s)
    ensures Proven(c, t) && (AllBound(log, s.incoming) ==> AllBound(log, t.incoming))
  {
    SameCoins(id, s, t);
    SameIncomingTotal(s.incoming, t.incoming);
    SameOutgoingTotal(s.outgoing, t.outgoing);
    var hash :| (forall i | 0 <= i < |s.incoming| :: OpensLate(c, s.terms.protocol, s.incoming[i].scripts, hash, s.terms.timelock))
             && BuiltOn(c, s.terms.protocol, s.outgoing, hash, s.terms.timelock);
    assert BuiltOn(c, t.terms.protocol, t.outgoing, hash, t.terms.timelock);
  }

  lemma SigsAreGood(c: Config, log: Log, id: SwapId, s: Swap, receivers: seq<Signature>, senders: seq<Signature>, p: Plan)
    requires Good(c, log, id, s) && SigsPlan(c, id, s, receivers, senders) == Some(p)
    ensures DealOf(id, p.next) == DealOf(id, s) && Leads(c, log, id, s, p.next)
  {
    assert Unkeyed(p.next.incoming) == Unkeyed(s.incoming) && Unsigned(p.next.outgoing) == Unsigned(s.outgoing);
    SameContracts(c, log, id, s, p.next);
  }

  lemma HandoverIsGood(c: Config, log: Log, id: SwapId, s: Swap, keys: seq<Key>, p: Plan)
    requires Good(c, log, id, s) && HandoverPlan(c, id, s, keys) == Some(p)
    ensures DealOf(id, p.next) == DealOf(id, s) && Leads(c, log, id, s, p.next)
  {
    assert Unkeyed(p.next.incoming) == Unkeyed(s.incoming);
    SameContracts(c, log, id, s, p.next);
  }

  /** Every plan leads from a good state to a good state, once all its effects have happened. */
  lemma PlansAreGood(c: Config, log: Log, s: Swap, m: Message, e: Env, p: Plan)
    requires IsProtocolMessage(m) && Good(c, log, m.id, s) && PlanFor(c, log, s, m, e) == Some(p)
    ensures Leads(c, log + p.effects, m.id, s, p.next)
  {
    match m
    case SenderSigsRequest(id, locktime, hash, bindings) => GoodStays(c, log, p.effects, id, s);
    case ProofOfFunding(id, locktime, claims, nextHops) => ProofIsGood(c, log, id, s, locktime, claims, nextHops, e, p);
    case ContractSigs(id, receivers, senders) =>
      SigsAreGood(c, log, id, s, receivers, senders, p);
      GoodStays(c, log, p.effects, id, p.next);
    case ReceiverSigsRequest(id, spends) => GoodStays(c, log, p.effects, id, s);
    case ContractData(id, claims) => ContractIsGood(c, log, id, s, claims, e, p);
    case Handover(id, protocol, keys) =>
      HandoverIsGood(c, log, id, s, keys, p);
      GoodStays(c, log, p.effects, id, p.next);
  }
}
