/** The handlers as the maker runs them: checks and effects in loops, each effect able to fail. */
module MakerProcess {
  import opened Bytes
  import opened Deadline
  import opened RouteFees
  import opened FeeSplit
  import opened MakerState
  import opened MakerHandlers

  /** As many of the effects as still succeed have happened, in order. */
  ghost predicate Did(log: Log, left: nat, es: seq<Effect>, log': Log, left': nat, ok: bool) {
    var k := Min(left, |es|);
    log' == log + es[..k] && left' == left - k && (ok <==> left >= |es|)
  }

  lemma DidBoth(log: Log, left: nat, es: seq<Effect>, log1: Log, left1: nat, fs: seq<Effect>, log2: Log, left2: nat, ok: bool)
    requires Did(log, left, es, log1, left1, true) && Did(log1, left1, fs, log2, left2, ok)
    ensures Did(log, left, es + fs, log2, left2, ok)
  {
    assert es[..|es|] == es;
    assert (es + fs)[..Min(left, |es + fs|)] == es + fs[..Min(left1, |fs|)];
  }

  lemma DidFirst(log: Log, left: nat, es: seq<Effect>, log1: Log, left1: nat, fs: seq<Effect>)
    requires Did(log, left, es, log1, left1, false)
    ensures Did(log, left, es + fs, log1, left1, false)
  {
    assert (es + fs)[..left] == es[..left];
  }

  /** The wallet, watchtower and network the maker acts on; `left` effects will succeed before one fails. */
  class Node {
    var log: Log
    var left: nat

    constructor (log: Log, left: nat)
      ensures this.log == log && this.left == left
    {
      this.log, this.left := log, left;
    }

    method Try(e: Effect) returns (ok: bool)
      modifies this
      ensures Did(old(log), old(left), [e], log, left, ok)
    {
      if left == 0 {
        return false;
      }
      log, left := log + [e], left - 1;
      ok := true;
    }

    /** One effect after another, until one fails. */
    method TryAll(es: seq<Effect>) returns (ok: bool)
      modifies this
      ensures Did(old(log), old(left), es, log, left, ok)
    {
      ok := true;
      for i := 0 to |es|
        invariant Did(old(log), old(left), es[..i], log, left, true)
      {
        ghost var log1, left1 := log, left;
        ok := Try(es[i]);
        assert es[..i + 1] == es[..i] + [es[i]];
        DidBoth(old(log), old(left), es[..i], log1, left1, [es[i]], log, left, ok);
        if !ok {
          assert es == es[..i + 1] + es[i + 1..];
          DidFirst(old(log), old(left), es[..i + 1], log, left, es[i + 1..]);
          return;
        }
      }
      assert es[..|es|] == es;
    }

    /** Watch, then save, then send. */
    method Commit(b: Batch, txs: seq<Txid>) returns (ok: bool)
      modifies this
      ensures Did(old(log), old(left), Preparation(b) + Broadcasts(b, txs), log, left, ok)
    {
      ghost var w, i, o := Watches(b.swap.outgoing), SavesIncoming(b.swap.incoming), SavesOutgoing(b.swap.outgoing);
      ghost var s := Broadcasts(b, txs);
      ok := TryAll(Watches(b.swap.outgoing));
      if !ok {
        assert w + (i + o + s) == Preparation(b) + s;
        DidFirst(old(log), old(left), w, log, left, i + o + s);
        return;
      }
      ghost var log1, left1 := log, left;
      ok := TryAll(SavesIncoming(b.swap.incoming));
      DidBoth(old(log), old(left), w, log1, left1, i, log, left, ok);
      if !ok {
        assert w + i + (o + s) == Preparation(b) + s;
        DidFirst(old(log), old(left), w + i, log, left, o + s);
        return;
      }
      ghost var log2, left2 := log, left;
      ok := TryAll(SavesOutgoing(b.swap.outgoing));
      DidBoth(old(log), old(left), w + i, log2, left2, o, log, left, ok);
      if !ok {
        DidFirst(old(log), old(left), w + i + o, log, left, s);
        return;
      }
      ghost var log3, left3 := log, left;
      ok := TryAll(Broadcasts(b, txs));
      DidBoth(old(log), old(left), w + i + o, log3, left3, s, log, left, ok);
    }
  }

  // ---------------------------------------------------------------------- the checks

  method VerifyContractSigs(c: Config, s: Swap, receivers: seq<Signature>, senders: seq<Signature>) returns (ok: bool)
    ensures ok <==> SigsFit(c, s, receivers, senders)
  {
    if |receivers| != |s.incoming| || |senders| != |s.outgoing| {
      return false;
    }
    for i := 0 to |receivers|
      invariant forall j | 0 <= j < i :: c.valid(s.incoming[j].contract, s.incoming[j].other, receivers[j])
    {
      if !c.valid(s.incoming[i].contract, s.incoming[i].other, receivers[i]) {
        return false;
      }
    }
    for i := 0 to |senders|
      invariant forall j | 0 <= j < i :: c.valid(s.outgoing[j].contract, s.outgoing[j].other, senders[j])
    {
      if !c.valid(s.outgoing[i].contract, s.outgoing[i].other, senders[i]) {
        return false;
      }
    }
    ok := true;
  }

  method VerifyKeys(c: Config, coins: seq<Incoming>, keys: seq<Key>) returns (ok: bool)
    ensures ok <==> KeysFit(c, coins, keys)
  {
    if |keys| != |coins| {
      return false;
    }
    for i := 0 to |keys|
      invariant forall j | 0 <= j < i :: c.point(keys[j]) == coins[j].other
    {
      if c.point(keys[i]) != coins[i].other {
        return false;
      }
    }
    ok := true;
  }

  /** No outpoint is presented twice; the seen ones are collected in a set. */
  method VerifyOutpoints(claims: seq<Claim>) returns (ok: bool)
    ensures ok <==> DistinctClaims(claims)
  {
    var seen: set<nat> := {};
    for i := 0 to |claims|
      invariant DistinctClaims(claims[..i])
      invariant forall x :: x in seen <==> exists j | 0 <= j < i :: claims[j].outpoint == x
    {
      if claims[i].outpoint in seen {
        return false;
      }
      seen := seen + {claims[i].outpoint};
    }
    assert claims[..|claims|] == claims;
    ok := true;
  }

  method TotalClaimed(claims: seq<Claim>) returns (total: nat)
    ensures total == IncomingTotal(Received(claims))
  {
    total := 0;
    for i := 0 to |claims|
      invariant total == IncomingTotal(Received(claims[..i]))
    {
      assert Received(claims[..i + 1])[..i] == Received(claims[..i]);
      total := total + claims[i].amount;
    }
    assert claims[..|claims|] == claims;
  }

  method VerifyClaims(claims: seq<Claim>, t: Terms) returns (ok: bool)
    ensures ok <==> ClaimsFit(claims, t)
  {
    if |claims| != t.count {
      return false;
    }
    ok := VerifyOutpoints(claims);
    if ok {
      var total := TotalClaimed(claims);
      ok := total <= t.amount;
    }
  }

  /** One hash for all claims, read off the first, and enough time before each sender's refund. */
  method VerifyLocks(c: Config, p: Protocol, claims: seq<Claim>, timelock: nat) returns (hash: Option<Data>)
    requires claims != []
    ensures hash.Some? <==> ClaimsOpen(c, p, claims, HashOf(c, p, claims), timelock)
    ensures hash.Some? ==> hash.value == HashOf(c, p, claims)
  {
    hash := None;
    for i := 0 to |claims|
      invariant hash == if i == 0 then None else Some(HashOf(c, p, claims))
      invariant forall j | 0 <= j < i :: OpensLate(c, p, claims[j].scripts, HashOf(c, p, claims), timelock)
    {
      var lock := c.decode(p, claims[i].scripts);
      if lock.None? || (hash.Some? && hash.value != lock.value.hash) || !OpensLate(c, p, claims[i].scripts, lock.value.hash, timelock) {
        assert !OpensLate(c, p, claims[i].scripts, HashOf(c, p, claims), timelock);
        return None;
      }
      hash := Some(lock.value.hash);
    }
  }

  /** The contracts the wallet has bound to outpoints. */
  class PrevoutCache {
    var contracts: Cache

    constructor ()
      ensures contracts == map[]
    {
      contracts := map[];
    }

    /** Refuses to rebind; otherwise takes all bindings in. */
    method CachePrevouts(bs: seq<Binding>) returns (ok: bool)
      modifies this
      ensures ok <==> Compatible(old(contracts), bs)
      ensures contracts == if ok then Rebound(old(contracts), bs) else old(contracts)
    {
      for i := 0 to |bs|
        invariant contracts == old(contracts)
        invariant forall j | 0 <= j < i && bs[j].outpoint in contracts :: contracts[bs[j].outpoint] == bs[j].scripts
      {
        if bs[i].outpoint in contracts && contracts[bs[i].outpoint] != bs[i].scripts {
          return false;
        }
      }
      for i := 0 to |bs|
        invariant contracts == Rebound(old(contracts), bs[..i])
      {
        assert bs[..i + 1][..i] == bs[..i];
        contracts := contracts[bs[i].outpoint := bs[i].scripts];
      }
      assert bs[..|bs|] == bs;
      ok := true;
    }

    method VerifyBound(claims: seq<Claim>) returns (ok: bool)
      ensures ok <==> ClaimsBound(contracts, claims)
    {
      for i := 0 to |claims|
        invariant forall j | 0 <= j < i :: claims[j].outpoint in contracts && contracts[claims[j].outpoint] == claims[j].scripts
      {
        if claims[i].outpoint !in contracts || contracts[claims[i].outpoint] != claims[i].scripts {
          return false;
        }
      }
      ok := true;
    }
  }

  // -------------------------------------------------------------------- the handlers

  /** Nothing happened, or as much of the plan as could, and the new state is the plan's if it all did. */
  ghost predicate CarriedOut(plan: Option<Plan>, log: Log, left: nat, was: Swap, log': Log, left': nat, now: Swap, ok: bool) {
    match plan
    case None => !ok && log' == log && left' == left && now == was
    case Some(p) => Did(log, left, p.effects, log', left', ok) && (ok ==> now == p.next)
  }

  class Connection {
    var swap: Swap

    constructor (swap: Swap)
      ensures this.swap == swap
    {
      this.swap := swap;
    }

    method ProcessProofOfFunding(c: Config, node: Node, cache: PrevoutCache, id: SwapId, locktime: nat, claims: seq<Claim>, nextHops: nat, e: Env)
      returns (ok: bool)
      modifies this, node
      ensures CarriedOut(ProofPlan(c, cache.contracts, id, old(swap), locktime, claims, nextHops, e), old(node.log), old(node.left), old(swap),
                         node.log, node.left, swap, ok)
    {
      if swap.terms.protocol != Legacy || swap.phase !in {AwaitingContractData, AwaitingSignatures} {
        return false;
      }
      if locktime != swap.terms.timelock || !e.verified || |claims| == 0 {
        return false;
      }
      var fits := VerifyClaims(claims, swap.terms);
      var hash := VerifyLocks(c, Legacy, claims, locktime);
      var bound := cache.VerifyBound(claims);
      if !fits || hash.None? || !bound {
        return false;
      }
      var total := TotalClaimed(claims);
      var service := c.fee(total, locktime);
      var fees := service + FUNDING_FEE * nextHops;
      if fees > total || !FundsExactly(e.coins, nextHops, total - fees) || !BuiltOn(c, Legacy, e.coins, hash.value, locktime) {
        return false;
      }
      var next := swap.(incoming := Received(claims), outgoing := e.coins, pending := Fundings(e.coins), service := service,
                        phase := AwaitingSignatures);
      ghost var watches, fund := WatchesIncoming(Received(claims)), [Fund(DealOf(id, next), nextHops)];
      ok := node.TryAll(WatchesIncoming(Received(claims)));
      if !ok {
        DidFirst(old(node.log), old(node.left), watches, node.log, node.left, fund);
        return;
      }
      ghost var log1, left1 := node.log, node.left;
      ok := node.Try(Fund(DealOf(id, next), nextHops));
      DidBoth(old(node.log), old(node.left), watches, log1, left1, fund, node.log, node.left, ok);
      swap := next;
    }

    method ProcessContractSigs(c: Config, node: Node, id: SwapId, receivers: seq<Signature>, senders: seq<Signature>)
      returns (ok: bool)
      modifies this, node
      ensures CarriedOut(SigsPlan(c, id, old(swap), receivers, senders), old(node.log), old(node.left), old(swap),
                      node.log, node.left, swap, ok)
    {
      if swap.phase != AwaitingSignatures {
        return false;
      }
      var fit := VerifyContractSigs(c, swap, receivers, senders);
      if !fit {
        return false;
      }
      var pending := swap.pending;
      var next := swap.(incoming := SignedIncoming(swap.incoming, receivers), outgoing := SignedOutgoing(swap.outgoing, senders),
                        pending := [], broadcast := true, phase := AwaitingHandover);
      ok := node.Commit(Batch(id, next), pending);
      swap := next;
    }

    method ProcessContractData(c: Config, node: Node, id: SwapId, claims: seq<Claim>, e: Env) returns (ok: bool)
      modifies this, node
      ensures CarriedOut(ContractPlan(c, id, old(swap), claims, e), old(node.log), old(node.left), old(swap),
                      node.log, node.left, swap, ok)
    {
      if swap.phase != AwaitingContractData || !e.verified || |claims| == 0 {
        return false;
      }
      var fits := VerifyClaims(claims, swap.terms);
      var hash := VerifyLocks(c, Taproot, claims, swap.terms.timelock);
      if !fits || hash.None? || PastRefundDeadline(Taproot, swap.terms.timelock, None, e.height) {
        return false;
      }
      var total := TotalClaimed(claims);
      var service := c.fee(total, swap.terms.offset);
      var split := SplitOutgoing(Amounts(claims), service);
      if split.Err? || !PaysOut(e.coins, split.value) || !BuiltOn(c, Taproot, e.coins, hash.value, swap.terms.timelock) {
        return false;
      }
      var next := swap.(incoming := Received(claims), outgoing := e.coins, service := service, broadcast := true,
                        phase := AwaitingHandover);
      ghost var fund, b := [Fund(DealOf(id, next), |claims|)], Batch(id, next);
      ghost var commit := Preparation(b) + Broadcasts(b, Fundings(e.coins));
      ok := node.Try(Fund(DealOf(id, next), |claims|));
      if !ok {
        DidFirst(old(node.log), old(node.left), fund, node.log, node.left, commit);
        return;
      }
      ghost var log1, left1 := node.log, node.left;
      ok := node.Commit(Batch(id, next), Fundings(e.coins));
      DidBoth(old(node.log), old(node.left), fund, log1, left1, commit, node.log, node.left, ok);
      swap := next;
    }

    /** Signs what the receiver asks for, request by request; all signatures go out together. */
    method ProcessReceiverSigs(c: Config, node: Node, spends: seq<SpendRequest>, e: Env) returns (ok: bool)
      modifies node
      ensures CarriedOut(ReceiverPlan(c, old(node.log), swap, spends, e), old(node.log), old(node.left), swap,
                         node.log, node.left, swap, ok)
    {
      if swap.phase != AwaitingHandover || |e.found| != |spends| {
        return false;
      }
      var signed: seq<Endorsement> := [];
      for i := 0 to |spends|
        invariant |signed| == i && forall j | 0 <= j < i :: signed[j] == Endorsement(e.found[j], spends[j])
        invariant forall j | 0 <= j < i :: Made(node.log, e.found[j]) && SpendsCoin(c, e.found[j], spends[j])
      {
        if !Made(node.log, e.found[i]) || !SpendsCoin(c, e.found[i], spends[i]) {
          return false;
        }
        signed := signed + [Endorsement(e.found[i], spends[i])];
      }
      assert signed == Endorsements(e.found, spends);
      ok := node.Try(Endorse(signed));
    }

    method ProcessHandover(c: Config, node: Node, id: SwapId, keys: seq<Key>) returns (ok: bool)
      modifies this, node
      ensures CarriedOut(HandoverPlan(c, id, old(swap), keys), old(node.log), old(node.left), old(swap),
                      node.log, node.left, swap, ok)
    {
      if swap.phase != AwaitingHandover || |swap.outgoing| == 0 {
        return false;
      }
      var fit := VerifyKeys(c, swap.incoming, keys);
      if !fit {
        return false;
      }
      var next := swap.(incoming := Keyed(swap.incoming, keys), phase := Completed);
      ghost var saves, release := SavesIncoming(next.incoming), [Release(Batch(id, next))];
      ok := node.TryAll(SavesIncoming(next.incoming));
      if !ok {
        DidFirst(old(node.log), old(node.left), saves, node.log, node.left, release);
        return;
      }
      ghost var log1, left1 := node.log, node.left;
      ok := node.Try(Release(Batch(id, next)));
      DidBoth(old(node.log), old(node.left), saves, log1, left1, release, node.log, node.left, ok);
      swap := next;
    }
  }
}
