/** What a maker signs for the receiver of its outgoing coins. */
module SignedSpends {
  import opened Bytes
  import opened Deadline
  import opened MakerState
  import opened MakerHandlers
  import opened MakerSafety
  import opened MakerRuns
  import opened FreshRuns

  /** The spend is the coin's own contract transaction. */
  predicate PaysContract(x: Endorsement) {
    x.spend.tx == x.coin.contract
  }

  predicate OnlyContracts(e: Effect) {
    e.Endorse? ==> forall i | 0 <= i < |e.spends| :: PaysContract(e.spends[i])
  }

  /** Every signature the maker gives on its own coins is for their contracts. */
  predicate SignsContracts(log: Log) {
    forall i | 0 <= i < |log| :: OnlyContracts(log[i])
  }

  /** The request asks for the contracts of the coins found. */
  predicate AsksForContracts(m: Message, e: Env)
    requires m.ReceiverSigsRequest?
  {
    forall i | 0 <= i < |m.spends| && i < |e.found| :: m.spends[i].tx == e.found[i].contract
  }

  /** A connection's state allows an answer to the request, and the answer goes out. */
  predicate Answers(c: Config, w: World, conn: Conn, m: Message, e: Env)
    requires m.ReceiverSigsRequest?
  {
    (conn.id.Some? ==> conn.id.value == m.id) && PlanFor(c, w.log, conn.swap, m, e).Some? && e.done > 0
  }

  /** If the action makes the maker sign spends of its coins, it asks for contracts. */
  predicate Honest(c: Config, w: World, a: Action) {
    a.Say? && a.message.ReceiverSigsRequest? && a.conn in w.conns &&
    Answers(c, w, Restored(w.conns[a.conn], a.message.id, w.swaps), a.message, a.env) ==>
      AsksForContracts(a.message, a.env)
  }

  // ---------------------------------------------------------------------- one action

  predicate Unendorsing(es: seq<Effect>) {
    forall i | 0 <= i < |es| :: !es[i].Endorse?
  }

  /** No other message makes the maker sign such a spend. */
  lemma OthersEndorseNothing(c: Config, log: Log, s: Swap, m: Message, e: Env, p: Plan)
    requires IsProtocolMessage(m) && !m.ReceiverSigsRequest? && PlanFor(c, log, s, m, e) == Some(p)
    ensures Unendorsing(p.effects)
  {
  }

  /** The log grows by effects that sign only contracts. */
  predicate GrowsHonestly(log: Log, log': Log) {
    log <= log' && forall i | |log| <= i < |log'| :: OnlyContracts(log'[i])
  }

  lemma CarriedUnendorsing(w: World, k: nat, id: SwapId, plan: Option<Plan>, e: Env)
    requires plan.Some? ==> Unendorsing(plan.value.effects)
    ensures GrowsHonestly(w.log, Carried(w, k, id, plan, e).log)
  {
  }

  lemma CarriedEndorsing(w: World, k: nat, id: SwapId, p: Plan, spends: seq<Endorsement>, e: Env)
    requires p.effects == [Endorse(spends)]
    ensures Carried(w, k, id, Some(p), e).log == if e.done > 0 then w.log + [Endorse(spends)] else w.log
  {
    assert p.effects[..1] == p.effects && w.log + p.effects[..0] == w.log;
  }

  lemma EndorsedGrowth(log: Log, signed: seq<Endorsement>)
    ensures GrowsHonestly(log, log + [Endorse(signed)]) <==> OnlyContracts(Endorse(signed))
    ensures GrowsHonestly(log, log)
  {
    assert (log + [Endorse(signed)])[|log|] == Endorse(signed);
  }

  lemma SignedAreContracts(m: Message, e: Env)
    requires m.ReceiverSigsRequest? && |m.spends| == |e.found|
    ensures OnlyContracts(Endorse(Endorsements(e.found, m.spends))) <==> AsksForContracts(m, e)
  {
    var signed := Endorsements(e.found, m.spends);
    assert forall i | 0 <= i < |signed| :: PaysContract(signed[i]) <==> m.spends[i].tx == e.found[i].contract;
    if OnlyContracts(Endorse(signed)) {
      assert forall i | 0 <= i < |signed| :: PaysContract(signed[i]);
    }
  }

  lemma RequestPlan(c: Config, log: Log, s: Swap, m: Message, e: Env)
    requires m.ReceiverSigsRequest? && PlanFor(c, log, s, m, e).Some?
    ensures |m.spends| == |e.found| && PlanFor(c, log, s, m, e).value.effects == [Endorse(Endorsements(e.found, m.spends))]
  {
  }

  lemma RequestSigns(c: Config, w: World, k: nat, conn: Conn, m: Message, e: Env)
    requires m.ReceiverSigsRequest?
    ensures w.log <= Spoken(c, w, k, conn, m, e).log
    ensures GrowsHonestly(w.log, Spoken(c, w, k, conn, m, e).log) <==> (Answers(c, w, conn, m, e) ==> AsksForContracts(m, e))
  {
    var plan := PlanFor(c, w.log, conn.swap, m, e);
    EndorsedGrowth(w.log, []);
    if plan.Some? {
      RequestPlan(c, w.log, conn.swap, m, e);
      var signed := Endorsements(e.found, m.spends);
      CarriedEndorsing(w, k, m.id, plan.value, signed, e);
      EndorsedGrowth(w.log, signed);
      SignedAreContracts(m, e);
    }
  }

  lemma OtherSpeechSignsNothing(c: Config, w: World, k: nat, conn: Conn, m: Message, e: Env)
    requires IsProtocolMessage(m) && !m.ReceiverSigsRequest?
    ensures GrowsHonestly(w.log, Spoken(c, w, k, conn, m, e).log)
  {
    var plan := PlanFor(c, w.log, conn.swap, m, e);
    if plan.Some? {
      OthersEndorseNothing(c, w.log, conn.swap, m, e, plan.value);
    }
    CarriedUnendorsing(WithConfirmation(c, w, conn.swap, m, e), k, m.id, plan, e);
  }

  lemma ActionSigns(c: Config, w: World, a: Action)
    ensures w.log <= Do(c, w, a).log
    ensures GrowsHonestly(w.log, Do(c, w, a).log) <==> Honest(c, w, a)
  {
    if a.Say? && a.conn in w.conns && IsProtocolMessage(a.message) {
      var conn := Restored(w.conns[a.conn], a.message.id, w.swaps);
      if a.message.ReceiverSigsRequest? {
        RequestSigns(c, w, a.conn, conn, a.message, a.env);
      } else {
        OtherSpeechSignsNothing(c, w, a.conn, conn, a.message, a.env);
      }
    }
  }

  lemma SignsFurther(log: Log, log': Log)
    requires log <= log'
    ensures SignsContracts(log') <==> SignsContracts(log) && GrowsHonestly(log, log')
  {
    if SignsContracts(log') {
      forall i | 0 <= i < |log|
        ensures OnlyContracts(log[i])
      {
        assert log[i] == log'[i];
      }
    }
    if SignsContracts(log) && GrowsHonestly(log, log') {
      forall i | 0 <= i < |log'|
        ensures OnlyContracts(log'[i])
      {
        assert i < |log| ==> log'[i] == log[i];
      }
    }
  }

  // --------------------------------------------------------------------- over every run

  /** The maker has signed nothing but contracts exactly if every request it answered asked for nothing else. */
  lemma {:induction false} SignsContractsExactly(c: Config, actions: seq<Action>)
    ensures SignsContracts(After(c, START, actions).log) <==>
            forall i | 0 <= i < |actions| :: Honest(c, After(c, START, actions[..i]), actions[i])
  {
    if actions != [] {
      var n := |actions| - 1;
      var init := actions[..n];
      SignsContractsExactly(c, init);
      ActionSigns(c, After(c, START, init), actions[n]);
      SignsFurther(After(c, START, init).log, After(c, START, actions).log);
      HonestLast(c, actions);
    }
  }

  lemma HonestLast(c: Config, actions: seq<Action>)
    requires actions != []
    ensures var n := |actions| - 1;
            (forall i | 0 <= i < |actions| :: Honest(c, After(c, START, actions[..i]), actions[i])) <==>
            (forall i | 0 <= i < n :: Honest(c, After(c, START, actions[..n][..i]), actions[..n][i])) &&
            Honest(c, After(c, START, actions[..n]), actions[n])
  {
    var n := |actions| - 1;
    assert forall i | 0 <= i < n :: actions[..n][..i] == actions[..i] && actions[..n][i] == actions[i];
  }

  /** Whatever the maker signs spends the funding of a Legacy coin its own wallet has made, and nothing else. */
  lemma SignedCoinsAreOwn(c: Config, actions: seq<Action>, i: nat, j: nat)
    requires i < |After(c, START, actions).log| && After(c, START, actions).log[i].Endorse?
    requires j < |After(c, START, actions).log[i].spends|
    ensures var log := After(c, START, actions).log;
            var x := log[i].spends[j];
            Made(log[..i], x.coin) && x.spend.inputs == [x.coin.funding] && x.spend.multisig == {c.point(x.coin.key), x.coin.other}
  {
    RunsAreSound(c, actions);
    var log := After(c, START, actions).log;
    assert Allowed(c, log[..i], log[i]);
    assert SpendsCoin(c, log[i].spends[j].coin, log[i].spends[j].spend);
  }

  // ---------------------------------------------------------------- whatever is asked for

  lemma StoredCoinsAreMade(c: Config, log: Log, id: SwapId, s: Swap, k: nat)
    requires Good(c, log, id, s) && s.phase == AwaitingHandover && s.terms.protocol == Legacy && k < |s.outgoing|
    ensures Made(log, s.outgoing[k])
  {
    var d := DealOf(id, s);
    assert Fund(d, |d.outgoing|) in log;
    assert d.outgoing[k] == s.outgoing[k].(signature := None);
  }

  function SpendOf(c: Config, coin: Outgoing, tx: Txid): SpendRequest {
    SpendRequest({c.point(coin.key), coin.other}, [coin.funding], 1, tx)
  }

  lemma SpendIsPlanned(c: Config, log: Log, id: SwapId, s: Swap, coin: Outgoing, tx: Txid, e: Env)
    requires s.phase == AwaitingHandover && s.terms.protocol == Legacy && Made(log, coin) && e.found == [coin]
    ensures PlanFor(c, log, s, ReceiverSigsRequest(id, [SpendOf(c, coin, tx)]), e) ==
            Some(Plan([Endorse([Endorsement(coin, SpendOf(c, coin, tx))])], s, Stay))
  {
    assert Endorsements([coin], [SpendOf(c, coin, tx)]) == [Endorsement(coin, SpendOf(c, coin, tx))];
  }

  /**
   In every reachable state, once a Legacy swap awaits the key handover, the maker signs any spend of its funding that
   is asked for, whatever it pays.
   */
  lemma AnySpendIsSigned(c: Config, w: World, id: SwapId, k: nat, tx: Txid, e: Env)
    requires Sound(c, w) && id in w.swaps && w.swaps[id].swap.phase == AwaitingHandover
    requires w.swaps[id].swap.terms.protocol == Legacy && k < |w.swaps[id].swap.outgoing|
    requires e.found == [w.swaps[id].swap.outgoing[k]] && e.done > 0
    ensures var coin := w.swaps[id].swap.outgoing[k];
            var log := Step(c, w, Message(ReceiverSigsRequest(id, [SpendOf(c, coin, tx)]), e)).log;
            && log == w.log + [Endorse([Endorsement(coin, SpendOf(c, coin, tx))])]
            && (tx != coin.contract ==> !SignsContracts(log))
  {
    var s, coin := w.swaps[id].swap, w.swaps[id].swap.outgoing[k];
    assert GoodEntry(c, w.log, id, w.swaps[id]);
    StoredCoinsAreMade(c, w.log, id, s, k);
    SpendIsPlanned(c, w.log, id, s, coin, tx, e);
    StepEndorses(c, w, ReceiverSigsRequest(id, [SpendOf(c, coin, tx)]), e, [Endorsement(coin, SpendOf(c, coin, tx))]);
    OneForeignSpend(w.log, coin, SpendOf(c, coin, tx));
  }

  lemma StepEndorses(c: Config, w: World, m: Message, e: Env, signed: seq<Endorsement>)
    requires m.ReceiverSigsRequest? && Hears(w, m) && e.done > 0
    requires PlanFor(c, w.log, w.swaps[m.id].swap, m, e) == Some(Plan([Endorse(signed)], w.swaps[m.id].swap, Stay))
    ensures Step(c, w, Message(m, e)).log == w.log + [Endorse(signed)]
  {
    CarriedEndorsing(w, 0, m.id, Plan([Endorse(signed)], w.swaps[m.id].swap, Stay), signed, e);
  }

  lemma OneForeignSpend(log: Log, coin: Outgoing, spend: SpendRequest)
    ensures spend.tx != coin.contract ==> !SignsContracts(log + [Endorse([Endorsement(coin, spend)])])
  {
    var signed := [Endorsement(coin, spend)];
    assert (log + [Endorse(signed)])[|log|] == Endorse(signed);
    assert spend.tx != coin.contract ==> !PaysContract(signed[0]);
  }
}
