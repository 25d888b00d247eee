/** Where the number of a maker's outgoing coins comes from. */
module OutgoingCounts {
  import opened Bytes
  import opened Deadline
  import opened MakerState
  import opened MakerHandlers
  import opened MakerRuns

  /** A Legacy funding by this message: for its swap, and with as many coins as it names keys of the next hop. */
  predicate FundedBy(e: Effect, m: Message) {
    e.Fund? && e.deal.terms.protocol == Legacy ==> m.ProofOfFunding? && m.id == e.deal.id && m.nextHops == e.hops
  }

  predicate AllFundedBy(es: seq<Effect>, m: Message) {
    forall i | 0 <= i < |es| :: FundedBy(es[i], m)
  }

  /** At the proof: as many coins as negotiated exactly if it names as many keys of the next hop. */
  lemma ProofCounts(c: Config, log: Log, s: Swap, m: Message, e: Env, p: Plan)
    requires m.ProofOfFunding? && PlanFor(c, log, s, m, e) == Some(p)
    ensures |p.next.outgoing| == p.next.terms.count <==> m.nextHops == |m.claims|
    ensures AllFundedBy(p.effects, m)
  {
    assert FundsExactly(e.coins, m.nextHops, OutgoingTotal(e.coins));
  }

  lemma PlanFunds(c: Config, log: Log, s: Swap, m: Message, e: Env, p: Plan)
    requires IsProtocolMessage(m) && PlanFor(c, log, s, m, e) == Some(p)
    ensures AllFundedBy(p.effects, m)
  {
    if m.ProofOfFunding? {
      ProofCounts(c, log, s, m, e, p);
    }
  }

  /** The log grows, and what it grows by was funded by this action's message. */
  predicate GrowsBy(log: Log, log': Log, a: Action) {
    && log <= log'
    && forall i | |log| <= i < |log'| && log'[i].Fund? && log'[i].deal.terms.protocol == Legacy ::
         a.Say? && FundedBy(log'[i], a.message)
  }

  lemma CarriedGrowsBy(w: World, k: nat, id: SwapId, plan: Option<Plan>, e: Env, a: Action)
    requires a.Say? && (plan.Some? ==> AllFundedBy(plan.value.effects, a.message))
    ensures GrowsBy(w.log, Carried(w, k, id, plan, e).log, a)
  {
  }

  lemma SpokenGrowsBy(c: Config, w: World, conn: Conn, a: Action)
    requires a.Say? && IsProtocolMessage(a.message)
    ensures GrowsBy(w.log, Spoken(c, w, a.conn, conn, a.message, a.env).log, a)
  {
    var m, e := a.message, a.env;
    var plan := PlanFor(c, w.log, conn.swap, m, e);
    if plan.Some? {
      PlanFunds(c, w.log, conn.swap, m, e, plan.value);
    }
    CarriedGrowsBy(WithConfirmation(c, w, conn.swap, m, e), a.conn, m.id, plan, e, a);
  }

  lemma ActionGrowsBy(c: Config, w: World, a: Action)
    ensures GrowsBy(w.log, Do(c, w, a).log, a)
  {
    if a.Say? && a.conn in w.conns && IsProtocolMessage(a.message) {
      SpokenGrowsBy(c, w, Restored(w.conns[a.conn], a.message.id, w.swaps), a);
    }
  }

  /** In every run each Legacy funding goes back to a proof of funding for its swap that named as many next-hop keys. */
  lemma {:induction false} FundsGoBackToProofs(c: Config, actions: seq<Action>, j: nat) returns (i: nat)
    requires j < |After(c, START, actions).log| && After(c, START, actions).log[j].Fund?
    requires After(c, START, actions).log[j].deal.terms.protocol == Legacy
    ensures i < |actions| && actions[i].Say? && actions[i].message.ProofOfFunding?
    ensures FundedBy(After(c, START, actions).log[j], actions[i].message)
  {
    var n := |actions| - 1;
    var w := After(c, START, actions[..n]);
    ActionGrowsBy(c, w, actions[n]);
    if j < |w.log| {
      i := FundsGoBackToProofs(c, actions[..n], j);
    } else {
      i := n;
    }
  }

  /**
   For every Legacy broadcast of every run there is a proof of funding for its swap, and the batch has as many outgoing
   coins as contracts were negotiated exactly if that proof named as many next-hop keys.
   */
  lemma LegacyCountExactly(c: Config, actions: seq<Action>, i: nat) returns (k: nat)
    requires i < |After(c, START, actions).log| && After(c, START, actions).log[i].Broadcast?
    requires After(c, START, actions).log[i].batch.swap.terms.protocol == Legacy
    ensures k < |actions| && actions[k].Say? && actions[k].message.ProofOfFunding?
    ensures var b := After(c, START, actions).log[i].batch;
            && actions[k].message.id == b.id
            && (|b.swap.outgoing| == b.swap.terms.count <==> actions[k].message.nextHops == b.swap.terms.count)
  {
    OutgoingCount(c, actions, i);
    var log := After(c, START, actions).log;
    var d := DealOf(log[i].batch.id, log[i].batch.swap);
    var j :| 0 <= j < i && log[..i][j] == Fund(d, |d.outgoing|);
    k := FundsGoBackToProofs(c, actions, j);
  }
}
