/** When a maker's recovery may delete coins: never after their funding went out. */
module Deletion {
  import opened Bytes
  import opened Deadline
  import opened MakerState
  import opened MakerHandlers
  import opened MakerRegistry
  import opened MakerSafety
  import opened MakerRuns
  import opened FreshRuns

  predicate Unsent(log: Log, id: SwapId) {
    forall i | 0 <= i < |log| :: log[i].Broadcast? ==> log[i].batch.id != id
  }

  predicate Known(log: Log, id: SwapId) {
    exists i | 0 <= i < |log| :: log[i].Admit? && log[i].id == id
  }

  /** Nothing will be sent for this swap any more, and nothing has been. */
  ghost predicate Dead(w: World, id: SwapId) {
    id !in w.swaps && Known(w.log, id)
  }

  ghost predicate GuardedSwaps(w: World) {
    forall id | id in w.swaps :: Known(w.log, id) && (!w.swaps[id].swap.broadcast ==> Unsent(w.log, id))
  }

  ghost predicate GuardedRecords(w: World) {
    forall id | id in w.records :: Dead(w, id) && (!w.records[id] ==> Unsent(w.log, id))
  }

  ghost predicate GuardedDiscards(w: World) {
    forall i | 0 <= i < |w.log| && w.log[i].Discard? :: Dead(w, w.log[i].id) && Unsent(w.log, w.log[i].id)
  }

  ghost predicate Guarded(w: World) {
    GuardedSwaps(w) && GuardedRecords(w) && GuardedDiscards(w)
  }

  /** A swap id is not taken up again once its entry is gone; a batch that fails has put nothing on the network. */
  ghost predicate Fair(c: Config, w: World, x: Exchange) {
    match x
    case Negotiate(id, terms, e) => id in w.swaps || !Known(w.log, id)
    case Message(m, e) => Takes(c, w, m, e) ==> FailsClean(PlanFor(c, w.log, w.swaps[m.id].swap, m, e).value, e.done)
    case _ => true
  }

  /** If the plan is cut off after so many effects, none of them sent anything. */
  predicate FailsClean(p: Plan, done: nat) {
    done < |p.effects| ==> forall i | 0 <= i < done :: !p.effects[i].Broadcast?
  }

  // ------------------------------------------------------------- how the log grows

  /** Effects on behalf of one swap that send nothing for another, and admit or discard none. */
  predicate Only(es: seq<Effect>, id: SwapId) {
    forall i | 0 <= i < |es| :: !es[i].Discard? && !es[i].Admit? && (es[i].Broadcast? ==> es[i].batch.id == id)
  }

  lemma KnownStays(log: Log, es: seq<Effect>, id: SwapId)
    requires Known(log, id)
    ensures Known(log + es, id)
  {
    var i :| 0 <= i < |log| && log[i].Admit? && log[i].id == id;
    assert (log + es)[i] == log[i];
  }

  lemma UnsentStays(log: Log, es: seq<Effect>, id: SwapId)
    requires Unsent(log, id) && forall i | 0 <= i < |es| :: es[i].Broadcast? ==> es[i].batch.id != id
    ensures Unsent(log + es, id)
  {
    var all := log + es;
    forall i | 0 <= i < |all|
      ensures all[i].Broadcast? ==> all[i].batch.id != id
    {
      assert i >= |log| ==> all[i] == es[i - |log|];
    }
  }

  /** Sending for one live swap leaves the records and the discards guarded. */
  lemma SendingIsGuarded(w: World, id: SwapId, es: seq<Effect>)
    requires Guarded(w) && id in w.swaps && Only(es, id)
    ensures GuardedRecords(w.(log := w.log + es)) && GuardedDiscards(w.(log := w.log + es))
  {
    forall d | Dead(w, d)
      ensures Known(w.log + es, d) && (Unsent(w.log, d) ==> Unsent(w.log + es, d))
    {
      KnownStays(w.log, es, d);
      if Unsent(w.log, d) {
        UnsentStays(w.log, es, d);
      }
    }
    var log := w.log + es;
    forall i | 0 <= i < |log| && log[i].Discard?
      ensures Dead(w.(log := log), log[i].id) && Unsent(log, log[i].id)
    {
      assert i < |w.log| && log[i] == w.log[i] && Dead(w, w.log[i].id);
    }
  }

  lemma OtherSwapsAreGuarded(w: World, id: SwapId, es: seq<Effect>, other: SwapId)
    requires GuardedSwaps(w) && Only(es, id) && other in w.swaps
    requires other != id || forall i | 0 <= i < |es| :: !es[i].Broadcast?
    ensures Known(w.log + es, other) && (!w.swaps[other].swap.broadcast ==> Unsent(w.log + es, other))
  {
    KnownStays(w.log, es, other);
    if !w.swaps[other].swap.broadcast {
      UnsentStays(w.log, es, other);
    }
  }

  // ------------------------------------------------------------------- the plans

  predicate Sends(es: seq<Effect>) {
    exists i | 0 <= i < |es| :: es[i].Broadcast?
  }

  /** A plan acts for its own swap; if it sends anything, the state it leaves says so and is not merely the connection's. */
  predicate Owns(p: Plan, id: SwapId, s: Swap) {
    && Only(p.effects, id)
    && (Sends(p.effects) || s.broadcast ==> p.next.broadcast)
    && (p.ending == Stay ==> !Sends(p.effects))
  }

  lemma CommitIsOnly(b: Batch, txs: seq<Txid>)
    ensures Only(Preparation(b) + Broadcasts(b, txs), b.id)
  {
    var es := Preparation(b) + Broadcasts(b, txs);
    forall i | 0 <= i < |es|
      ensures !es[i].Discard? && !es[i].Admit? && (es[i].Broadcast? ==> es[i].batch.id == b.id)
    {
      TakeOfSum(Preparation(b), Broadcasts(b, txs), i);
    }
  }

  /** The effects of every plan are on behalf of its own swap. */
  lemma PlanIsOnly(c: Config, log: Log, s: Swap, m: Message, e: Env, p: Plan)
    requires IsProtocolMessage(m) && PlanFor(c, log, s, m, e) == Some(p)
    ensures Only(p.effects, m.id)
  {
    match m
    case SenderSigsRequest(id, locktime, hash, bindings) =>
    case ProofOfFunding(id, locktime, claims, nextHops) =>
    case ContractSigs(id, receivers, senders) => CommitIsOnly(Batch(id, p.next), s.pending);
    case ReceiverSigsRequest(id, spends) =>
    case ContractData(id, claims) => CommitIsOnly(Batch(id, p.next), Fundings(e.coins));
    case Handover(id, protocol, keys) =>
  }

  lemma PlanOwns(c: Config, log: Log, s: Swap, m: Message, e: Env, p: Plan)
    requires IsProtocolMessage(m) && Good(c, log, m.id, s) && PlanFor(c, log, s, m, e) == Some(p)
    ensures Owns(p, m.id, s)
  {
    PlanIsOnly(c, log, s, m, e, p);
    if !m.ContractSigs? && !m.ContractData? {
      QuietPlan(c, log, s, m, e, p);
    }
  }

  /** Only contract signatures and contract data send anything. */
  lemma QuietPlan(c: Config, log: Log, s: Swap, m: Message, e: Env, p: Plan)
    requires IsProtocolMessage(m) && PlanFor(c, log, s, m, e) == Some(p) && !m.ContractSigs? && !m.ContractData?
    ensures !Sends(p.effects)
  {
  }

  lemma PerformIsGuarded(w: World, id: SwapId, p: Plan, e: Env)
    requires Guarded(w) && id in w.swaps && Owns(p, id, w.swaps[id].swap) && FailsClean(p, e.done)
    ensures Guarded(Perform(w, 0, id, p, e))
  {
    var es, w' := p.effects[..Min(e.done, |p.effects|)], Perform(w, 0, id, p, e);
    SendingIsGuarded(w, id, es);
    PerformLeaves(w, id, p, e);
    forall other | other in w'.swaps
      ensures Known(w'.log, other) && (!w'.swaps[other].swap.broadcast ==> Unsent(w'.log, other))
    {
      if other != id || e.done < |p.effects| || !Sends(p.effects) {
        assert other == id ==> forall i | 0 <= i < |es| :: es[i] == p.effects[i];
        OtherSwapsAreGuarded(w, id, es, other);
      } else {
        KnownStays(w.log, es, id);
      }
    }
  }

  /** What a plan does to the registry. */
  lemma PerformLeaves(w: World, id: SwapId, p: Plan, e: Env)
    requires id in w.swaps
    ensures var w' := Perform(w, 0, id, p, e);
            && w'.log == w.log + p.effects[..Min(e.done, |p.effects|)] && w'.records == w.records
            && w'.swaps.Keys <= w.swaps.Keys
            && (forall other | other in w'.swaps && other != id :: w'.swaps[other] == w.swaps[other])
            && (id in w'.swaps ==> w'.swaps[id].swap == w.swaps[id].swap || w'.swaps[id].swap == p.next)
            && (e.done < |p.effects| || p.ending == Stay ==> w'.swaps == w.swaps)
            && (e.done >= |p.effects| && p.ending != Stay && id in w'.swaps ==> w'.swaps[id].swap == p.next)
  {
  }

  // -------------------------------------------------------------------- every step

  lemma ConfirmationIsGuarded(c: Config, w: World, m: Message, e: Env)
    requires Guarded(w) && Hears(w, m)
    ensures Guarded(WithConfirmation(c, w, w.swaps[m.id].swap, m, e))
  {
    var v := WithConfirmation(c, w, w.swaps[m.id].swap, m, e);
    assert v.swaps.Keys == w.swaps.Keys;
  }

  lemma TakenIsOwned(c: Config, w: World, m: Message, e: Env)
    requires Sound(c, w) && Takes(c, w, m, e)
    ensures Owns(PlanFor(c, w.log, w.swaps[m.id].swap, m, e).value, m.id, w.swaps[m.id].swap)
  {
    assert GoodEntry(c, w.log, m.id, w.swaps[m.id]);
    PlanOwns(c, w.log, w.swaps[m.id].swap, m, e, PlanFor(c, w.log, w.swaps[m.id].swap, m, e).value);
  }

  lemma CarriedIsGuarded(w: World, id: SwapId, plan: Option<Plan>, e: Env)
    requires Guarded(w) && id in w.swaps
    requires plan.Some? ==> Owns(plan.value, id, w.swaps[id].swap) && FailsClean(plan.value, e.done)
    ensures Guarded(Carried(w, 0, id, plan, e).(conns := map[]))
  {
    if plan.Some? {
      PerformIsGuarded(w, id, plan.value, e);
    }
  }

  lemma AnswerIsGuarded(c: Config, w: World, m: Message, e: Env)
    requires Sound(c, w) && Guarded(w) && Hears(w, m) && Fair(c, w, Message(m, e))
    ensures Guarded(Answer(c, w, m, e))
  {
    var s := w.swaps[m.id].swap;
    var v, plan := WithConfirmation(c, w, s, m, e), PlanFor(c, w.log, s, m, e);
    ConfirmationIsGuarded(c, w, m, e);
    if plan.Some? {
      TakenIsOwned(c, w, m, e);
    }
    CarriedIsGuarded(v, m.id, plan, e);
  }

  /** Nothing is ever sent for a swap that was not admitted. */
  lemma UnknownIsUnsent(c: Config, log: Log, id: SwapId)
    requires Lawful(c, log) && !Known(log, id)
    ensures Unsent(log, id)
  {
    forall i | 0 <= i < |log| && log[i].Broadcast?
      ensures log[i].batch.id != id
    {
      assert Allowed(c, log[..i], log[i]);
    }
  }

  /** Effects that neither send nor discard leave everything guarded. */
  lemma QuietIsGuarded(w: World, es: seq<Effect>)
    requires Guarded(w) && forall i | 0 <= i < |es| :: !es[i].Broadcast? && !es[i].Discard?
    ensures Guarded(w.(log := w.log + es))
  {
    var log := w.log + es;
    forall d | Known(w.log, d)
      ensures Known(log, d) && (Unsent(w.log, d) ==> Unsent(log, d))
    {
      KnownStays(w.log, es, d);
      if Unsent(w.log, d) {
        UnsentStays(w.log, es, d);
      }
    }
    forall i | 0 <= i < |log| && log[i].Discard?
      ensures Dead(w.(log := log), log[i].id) && Unsent(log, log[i].id)
    {
      assert log[i] == w.log[i] && Dead(w, w.log[i].id);
    }
  }

  /** So does an admission, of a swap that is there already or for which there is nothing to guard. */
  lemma RegisteringIsGuarded(w: World, id: SwapId, swaps: Registry)
    requires Guarded(w) && Known(w.log, id) && swaps.Keys == w.swaps.Keys + {id}
    requires forall other | other in w.swaps :: swaps[other].swap == w.swaps[other].swap
    requires id !in w.swaps ==>
               Unsent(w.log, id) && id !in w.records &&
               forall i | 0 <= i < |w.log| :: w.log[i].Discard? ==> w.log[i].id != id
    ensures Guarded(w.(swaps := swaps))
  {
    var w' := w.(swaps := swaps);
    forall d | Dead(w, d) && d != id
      ensures Dead(w', d)
    {
    }
    forall i | 0 <= i < |w.log| && w.log[i].Discard?
      ensures Dead(w', w.log[i].id) && Unsent(w.log, w.log[i].id)
    {
      assert Dead(w, w.log[i].id);
    }
  }

  lemma AdmissionIsGuarded(c: Config, w: World, id: SwapId, terms: Terms, swaps: Registry)
    requires Lawful(c, w.log) && Guarded(w) && (id in w.swaps || !Known(w.log, id))
    requires swaps.Keys == w.swaps.Keys + {id}
    requires forall other | other in w.swaps :: swaps[other].swap == w.swaps[other].swap
    ensures Guarded(w.(swaps := swaps, log := w.log + [Admit(id, terms)]))
  {
    var es := [Admit(id, terms)];
    var w1 := w.(log := w.log + es);
    QuietIsGuarded(w, es);
    assert w1.log[|w.log|] == Admit(id, terms);
    if id !in w.swaps {
      UnknownIsUnsent(c, w.log, id);
      UnsentStays(w.log, es, id);
      assert id in w.records ==> Dead(w, id);
      forall i | 0 <= i < |w1.log| && w1.log[i].Discard?
        ensures w1.log[i].id != id
      {
        assert w1.log[i] == w.log[i] && Dead(w, w.log[i].id);
      }
    }
    RegisteringIsGuarded(w1, id, swaps);
  }

  lemma NegotiationIsGuarded(c: Config, w: World, id: SwapId, terms: Terms, e: Env)
    requires Lawful(c, w.log) && Guarded(w) && Fair(c, w, Negotiate(id, terms, e))
    ensures Guarded(Negotiation(c, w, id, terms, e))
  {
    var r := Admitted(w.swaps, id, FreshOffer(c, terms), e.liquidity, e.now);
    if r.Ok? {
      AdmissionIsGuarded(c, w, id, terms, r.value);
    }
  }

  lemma PingIsGuarded(w: World, id: SwapId, e: Env)
    requires Guarded(w)
    ensures Guarded(w.(swaps := KeptAlive(w.swaps, id, e.now, e.height)))
  {
    assert KeptAlive(w.swaps, id, e.now, e.height).Keys == w.swaps.Keys;
  }

  lemma DrainIsGuarded(w: World, now: nat, height: Option<nat>)
    requires Guarded(w)
    ensures Guarded(Drained(w, now, height))
  {
    var w' := Drained(w, now, height);
    forall id | id in w'.records
      ensures Dead(w', id) && (!w'.records[id] ==> Unsent(w'.log, id))
    {
      if id !in Returned(w.swaps, now, height) {
        assert Dead(w, id);
      }
    }
    forall i | 0 <= i < |w.log| && w.log[i].Discard?
      ensures Dead(w', w.log[i].id) && Unsent(w.log, w.log[i].id)
    {
      assert Dead(w, w.log[i].id);
    }
  }

  lemma RecoveryIsGuarded(w: World, id: SwapId)
    requires Guarded(w)
    ensures Guarded(Recovered(w, id))
  {
    var w' := Recovered(w, id);
    if w' != w {
      var es := [Discard(id, Contracts(w.cases[id]))];
      assert w'.log == w.log + es;
      forall d | Known(w.log, d)
        ensures Known(w'.log, d) && (Unsent(w.log, d) ==> Unsent(w'.log, d))
      {
        KnownStays(w.log, es, d);
        if Unsent(w.log, d) {
          UnsentStays(w.log, es, d);
        }
      }
      assert Dead(w, id);
      forall i | 0 <= i < |w'.log| && w'.log[i].Discard?
        ensures Dead(w', w'.log[i].id) && Unsent(w'.log, w'.log[i].id)
      {
        assert i < |w.log| ==> w'.log[i] == w.log[i] && Dead(w, w.log[i].id);
      }
    }
  }

  lemma StepIsGuarded(c: Config, w: World, x: Exchange)
    requires Sound(c, w) && Guarded(w) && Fair(c, w, x)
    ensures Guarded(Step(c, w, x))
  {
    match x
    case Negotiate(id, terms, e) => NegotiationIsGuarded(c, w, id, terms, e);
    case Message(m, e) => if Hears(w, m) { AnswerIsGuarded(c, w, m, e); }
    case Ping(id, e) => PingIsGuarded(w, id, e);
    case DrainPass(now, height) => DrainIsGuarded(w, now, height);
    case RecoveryPass(id) => RecoveryIsGuarded(w, id);
    case RecordLost(id) =>
  }

  ghost predicate FairRun(c: Config, xs: seq<Exchange>) {
    forall i | 0 <= i < |xs| :: Fair(c, Steps(c, START, xs[..i]), xs[i])
  }

  lemma {:induction false} RunsAreGuarded(c: Config, xs: seq<Exchange>)
    requires FairRun(c, xs)
    ensures Guarded(Steps(c, START, xs))
  {
    if xs != [] {
      var n := |xs| - 1;
      forall i | 0 <= i < n
        ensures Fair(c, Steps(c, START, xs[..n][..i]), xs[..n][i])
      {
        assert xs[..n][..i] == xs[..i];
      }
      RunsAreGuarded(c, xs[..n]);
      RunsAreOrderly(c, xs[..n]);
      StepIsGuarded(c, Steps(c, START, xs[..n]), xs[n]);
    }
  }

  /** In every fair run, no transaction of a swap whose coins were discarded is ever sent, before or after. */
  lemma DiscardedWereNeverSent(c: Config, xs: seq<Exchange>, i: nat, j: nat)
    requires FairRun(c, xs)
    requires i < |Steps(c, START, xs).log| && Steps(c, START, xs).log[i].Discard?
    requires j < |Steps(c, START, xs).log| && Steps(c, START, xs).log[j].Broadcast?
    ensures Steps(c, START, xs).log[j].batch.id != Steps(c, START, xs).log[i].id
  {
    RunsAreGuarded(c, xs);
    assert Unsent(Steps(c, START, xs).log, Steps(c, START, xs).log[i].id);
  }

  // --------------------------------------------------------- swaps that are let go

  /** A swap that is gone and for which nothing was sent stays so. */
  lemma GoneStaysUnsent(c: Config, w: World, x: Exchange, id: SwapId)
    requires Sound(c, w) && Fair(c, w, x) && Dead(w, id) && Unsent(w.log, id)
    ensures Dead(Step(c, w, x), id) && Unsent(Step(c, w, x).log, id)
  {
    match x
    case Negotiate(other, terms, e) => NegotiationKeepsGone(c, w, other, terms, e, id);
    case Message(m, e) => if Hears(w, m) { AnswerKeepsGone(c, w, m, e, id); }
    case RecoveryPass(other) => RecoveryKeepsGone(w, other, id);
    case _ =>
  }

  /** A plan for one swap leaves another that is gone as it was. */
  lemma CarriedKeepsGone(w: World, other: SwapId, plan: Option<Plan>, e: Env, id: SwapId)
    requires Dead(w, id) && Unsent(w.log, id) && other in w.swaps && (plan.Some? ==> Only(plan.value.effects, other))
    ensures Dead(Carried(w, 0, other, plan, e), id) && Unsent(Carried(w, 0, other, plan, e).log, id)
  {
    if plan.Some? {
      var es := plan.value.effects[..Min(e.done, |plan.value.effects|)];
      KnownStays(w.log, es, id);
      UnsentStays(w.log, es, id);
    }
  }

  lemma AnswerKeepsGone(c: Config, w: World, m: Message, e: Env, id: SwapId)
    requires Hears(w, m) && Dead(w, id) && Unsent(w.log, id)
    ensures Dead(Answer(c, w, m, e), id) && Unsent(Answer(c, w, m, e).log, id)
  {
    var s := w.swaps[m.id].swap;
    var v, plan := WithConfirmation(c, w, s, m, e), PlanFor(c, w.log, s, m, e);
    assert v.swaps.Keys == w.swaps.Keys;
    if plan.Some? {
      PlanIsOnly(c, w.log, s, m, e, plan.value);
    }
    CarriedKeepsGone(v, m.id, plan, e, id);
  }

  lemma NegotiationKeepsGone(c: Config, w: World, other: SwapId, terms: Terms, e: Env, id: SwapId)
    requires Fair(c, w, Negotiate(other, terms, e)) && Dead(w, id) && Unsent(w.log, id)
    ensures Dead(Negotiation(c, w, other, terms, e), id) && Unsent(Negotiation(c, w, other, terms, e).log, id)
  {
    KnownStays(w.log, [Admit(other, terms)], id);
    UnsentStays(w.log, [Admit(other, terms)], id);
  }

  lemma RecoveryKeepsGone(w: World, other: SwapId, id: SwapId)
    requires Dead(w, id) && Unsent(w.log, id)
    ensures Dead(Recovered(w, other), id) && Unsent(Recovered(w, other).log, id)
  {
    if Recovered(w, other) != w {
      var es := [Discard(other, Contracts(w.cases[other]))];
      KnownStays(w.log, es, id);
      UnsentStays(w.log, es, id);
    }
  }

  lemma FairPrefix(c: Config, xs: seq<Exchange>, n: nat)
    requires FairRun(c, xs) && n <= |xs|
    ensures FairRun(c, xs[..n])
  {
    forall i | 0 <= i < n
      ensures Fair(c, Steps(c, START, xs[..n][..i]), xs[..n][i])
    {
      assert xs[..n][..i] == xs[..i];
    }
  }

  lemma ReleasedIsGone(w: World, now: nat, height: Option<nat>, id: SwapId)
    requires Guarded(w) && id in Released(w.swaps, now)
    ensures Dead(Drained(w, now, height), id) && Unsent(Drained(w, now, height).log, id)
  {
    DrainPartitions(w.swaps, now, height);
  }

  predicate LetsGo(w: World, x: Exchange, id: SwapId) {
    x.DrainPass? && id in Released(w.swaps, x.now)
  }

  /** At this point of the run a drain let the swap go. */
  ghost predicate LetGo(c: Config, xs: seq<Exchange>, from: nat, id: SwapId) {
    from < |xs| && LetsGo(Steps(c, START, xs[..from]), xs[from], id)
  }

  /** Not in the registry, and nothing was sent for it. */
  ghost predicate Gone(w: World, id: SwapId) {
    Dead(w, id) && Unsent(w.log, id)
  }

  /** In every fair run, no transaction of a swap that a drain let go is ever sent, before or after. */
  lemma {:induction false} ReleasedWereNeverSent(c: Config, xs: seq<Exchange>, from: nat, id: SwapId)
    requires FairRun(c, xs) && LetGo(c, xs, from, id)
    ensures Gone(Steps(c, START, xs), id)
    decreases |xs|
  {
    if from == |xs| - 1 {
      GoneAfterDrain(c, xs, id);
    } else {
      LetGoBefore(c, xs, from, id);
      FairPrefix(c, xs, |xs| - 1);
      ReleasedWereNeverSent(c, xs[..|xs| - 1], from, id);
      GoneAfterLast(c, xs, id);
    }
  }

  lemma LetGoBefore(c: Config, xs: seq<Exchange>, from: nat, id: SwapId)
    requires LetGo(c, xs, from, id) && from < |xs| - 1
    ensures LetGo(c, xs[..|xs| - 1], from, id)
  {
    assert xs[..|xs| - 1][..from] == xs[..from];
  }

  lemma GoneAfterDrain(c: Config, xs: seq<Exchange>, id: SwapId)
    requires xs != [] && FairRun(c, xs) && LetGo(c, xs, |xs| - 1, id)
    ensures Gone(Steps(c, START, xs), id)
  {
    var n := |xs| - 1;
    FairPrefix(c, xs, n);
    RunsAreGuarded(c, xs[..n]);
    ReleasedIsGone(Steps(c, START, xs[..n]), xs[n].now, xs[n].height, id);
  }

  lemma GoneAfterLast(c: Config, xs: seq<Exchange>, id: SwapId)
    requires xs != [] && FairRun(c, xs) && Gone(Steps(c, START, xs[..|xs| - 1]), id)
    ensures Gone(Steps(c, START, xs), id)
  {
    var n := |xs| - 1;
    RunsAreOrderly(c, xs[..n]);
    assert Fair(c, Steps(c, START, xs[..n]), xs[n]);
    GoneStaysUnsent(c, Steps(c, START, xs[..n]), xs[n], id);
  }

  // ------------------------------------------------------------------- the tracker's word

  /** The drain records that nothing has been sent for the swap. */
  predicate Notes(w: World, a: Action, id: SwapId) {
    a.Drain? && id in Returned(w.swaps, a.now, a.height) && !Returned(w.swaps, a.now, a.height)[id].swap.broadcast
  }

  /** At this point of the run a drain did so. */
  ghost predicate Records(c: Config, actions: seq<Action>, k: nat, id: SwapId) {
    k < |actions| && Notes(After(c, START, actions[..k]), actions[k], id)
  }

  lemma RecordsBefore(c: Config, actions: seq<Action>, n: nat, k: nat, id: SwapId)
    requires n <= |actions| && Records(c, actions[..n], k, id)
    ensures Records(c, actions, k, id)
  {
    assert actions[..n][..k] == actions[..k];
  }

  predicate Unforgotten(actions: seq<Action>, k: nat, id: SwapId) {
    forall n | k < n < |actions| :: actions[n] != Forget(id)
  }

  ghost predicate OnRecordFrom(c: Config, actions: seq<Action>, id: SwapId, k: nat) {
    Records(c, actions, k, id) && Unforgotten(actions, k, id)
  }

  /** Some drain did, and the record has not been lost since. */
  ghost predicate OnRecord(c: Config, actions: seq<Action>, id: SwapId) {
    exists k: nat :: OnRecordFrom(c, actions, id, k)
  }

  lemma UnforgottenFurther(actions: seq<Action>, k: nat, id: SwapId)
    requires actions != [] && Unforgotten(actions[..|actions| - 1], k, id) && actions[|actions| - 1] != Forget(id)
    ensures Unforgotten(actions, k, id)
  {
    var init := actions[..|actions| - 1];
    assert forall n | k < n < |init| :: actions[n] == init[n];
  }

  lemma StillOnRecord(c: Config, actions: seq<Action>, id: SwapId)
    requires actions != [] && OnRecord(c, actions[..|actions| - 1], id) && actions[|actions| - 1] != Forget(id)
    ensures OnRecord(c, actions, id)
  {
    var k: nat :| OnRecordFrom(c, actions[..|actions| - 1], id, k);
    RecordsBefore(c, actions, |actions| - 1, k, id);
    UnforgottenFurther(actions, k, id);
    assert OnRecordFrom(c, actions, id, k);
  }

  lemma CarriedLeavesRecords(w: World, k: nat, id: SwapId, plan: Option<Plan>, e: Env)
    ensures Carried(w, k, id, plan, e).records == w.records
  {
  }

  lemma HeardLeavesRecords(c: Config, w: World, k: nat, m: Message, e: Env)
    requires k in w.conns
    ensures Heard(c, w, k, m, e).records == w.records
  {
    if IsProtocolMessage(m) {
      var conn := Restored(w.conns[k], m.id, w.swaps);
      CarriedLeavesRecords(WithConfirmation(c, w, conn.swap, m, e), k, m.id, PlanFor(c, w.log, conn.swap, m, e), e);
    }
  }

  /** Nothing but a drain writes a record. */
  lemma RecordsStay(c: Config, w: World, a: Action)
    requires !a.Drain?
    ensures Do(c, w, a).records == if a.Forget? then w.records - {a.id} else w.records
  {
    if a.Say? && a.conn in w.conns {
      HeardLeavesRecords(c, w, a.conn, a.message, a.env);
    }
  }

  lemma {:induction false} FalseIsOnRecord(c: Config, actions: seq<Action>, id: SwapId)
    requires id in After(c, START, actions).records && !After(c, START, actions).records[id]
    ensures OnRecord(c, actions, id)
  {
    var n := |actions| - 1;
    var w, a := After(c, START, actions[..n]), actions[n];
    if a.Drain? && id in Returned(w.swaps, a.now, a.height) {
      assert Notes(w, a, id);
      assert OnRecordFrom(c, actions, id, n);
    } else {
      if !a.Drain? {
        RecordsStay(c, w, a);
      }
      FalseIsOnRecord(c, actions[..n], id);
      StillOnRecord(c, actions, id);
    }
  }

  /** The log only grows, and only recovery adds a discard to it. */
  predicate Grows(log: Log, log': Log) {
    log <= log' && forall i | |log| <= i < |log'| :: !log'[i].Discard?
  }

  lemma CarriedGrows(w: World, k: nat, id: SwapId, plan: Option<Plan>, e: Env)
    requires plan.Some? ==> Only(plan.value.effects, id)
    ensures Grows(w.log, Carried(w, k, id, plan, e).log)
  {
  }

  lemma SpokenGrows(c: Config, w: World, k: nat, conn: Conn, m: Message, e: Env)
    requires IsProtocolMessage(m)
    ensures Grows(w.log, Spoken(c, w, k, conn, m, e).log)
  {
    var plan := PlanFor(c, w.log, conn.swap, m, e);
    if plan.Some? {
      PlanIsOnly(c, w.log, conn.swap, m, e, plan.value);
    }
    CarriedGrows(WithConfirmation(c, w, conn.swap, m, e), k, m.id, plan, e);
  }

  lemma ActionGrows(c: Config, w: World, a: Action)
    requires !a.Recover?
    ensures Grows(w.log, Do(c, w, a).log)
  {
    if a.Say? && a.conn in w.conns && IsProtocolMessage(a.message) {
      SpokenGrows(c, w, a.conn, Restored(w.conns[a.conn], a.message.id, w.swaps), a.message, a.env);
    }
  }

  /** The action that made the entry at this place of the log. */
  ghost predicate DiscardedBy(c: Config, actions: seq<Action>, i: nat, j: nat, id: SwapId) {
    && i < |actions| && actions[i] == Recover(id) && |After(c, START, actions[..i]).log| == j
    && OnRecord(c, actions[..i], id)
  }

  /**
   In every run, each discard was made by a recovery pass while the tracker's record said that nothing had been sent: a
   drain had recorded it, and the record had not been lost since.
   */
  lemma {:induction false} DiscardsAreOnRecord(c: Config, actions: seq<Action>, j: nat) returns (i: nat)
    requires j < |After(c, START, actions).log| && After(c, START, actions).log[j].Discard?
    ensures DiscardedBy(c, actions, i, j, After(c, START, actions).log[j].id)
  {
    var n := |actions| - 1;
    var w, a := After(c, START, actions[..n]), actions[n];
    if !a.Recover? {
      ActionGrows(c, w, a);
    }
    if j < |w.log| {
      i := DiscardsAreOnRecord(c, actions[..n], j);
      assert actions[..n][..i] == actions[..i];
    } else {
      i := n;
      FalseIsOnRecord(c, actions[..n], a.id);
    }
  }

  lemma LostBefore(actions: seq<Action>, f: nat, i: nat, k: nat, id: SwapId)
    requires f < i <= |actions| && k < i && actions[f] == Forget(id) && Unforgotten(actions[..i], k, id)
    ensures f <= k
  {
    assert actions[..i][f] == Forget(id);
  }

  /** After a record is lost no discard follows until a drain has made the record again. */
  lemma LostRecordIsNoLicence(c: Config, actions: seq<Action>, f: nat, i: nat, j: nat, id: SwapId) returns (k: nat)
    requires f < i && DiscardedBy(c, actions, i, j, id) && actions[f] == Forget(id)
    ensures f < k < i && Records(c, actions, k, id)
  {
    k :| OnRecordFrom(c, actions[..i], id, k);
    LostBefore(actions, f, i, k, id);
    RecordsBefore(c, actions, i, k, id);
  }

  // ------------------------------------------------------------ a batch that fails half-way

  predicate Quiet(es: seq<Effect>) {
    forall i | 0 <= i < |es| :: !es[i].Broadcast?
  }

  /** However it is cut off, a batch fails clean exactly if it sends at most one transaction. */
  lemma CommitFailsClean(lead: seq<Effect>, b: Batch, txs: seq<Txid>, p: Plan)
    requires Quiet(lead) && p.effects == lead + (Preparation(b) + Broadcasts(b, txs))
    ensures (forall done: nat :: FailsClean(p, done)) <==> |txs| <= 1
    ensures forall done: nat :: !FailsClean(p, done) ==> done > |lead| + |Preparation(b)|
    ensures |txs| >= 2 ==> !FailsClean(p, |lead| + |Preparation(b)| + 1)
  {
    var first, send := lead + Preparation(b), Broadcasts(b, txs);
    var es := first + send;
    assert p.effects == es;
    assert forall i | 0 <= i < |first| :: !es[i].Broadcast?;
    if |txs| >= 2 {
      assert es[|first|] == send[0] && es[|first|].Broadcast?;
      assert !FailsClean(p, |first| + 1);
    }
  }

  /** How many transactions the answer to a message would send. */
  function Sending(s: Swap, m: Message): nat {
    match m
    case ContractSigs(_, _, _) => |s.pending|
    case ContractData(_, _) => s.terms.count
    case _ => 0
  }

  /** In every reachable state: the answer to a message fails clean, however it is cut off, exactly if it sends at most one. */
  lemma FailsCleanExactly(c: Config, log: Log, s: Swap, m: Message, e: Env, p: Plan)
    requires IsProtocolMessage(m) && Good(c, log, m.id, s) && PlanFor(c, log, s, m, e) == Some(p)
    ensures (forall done: nat :: FailsClean(p, done)) <==> Sending(s, m) <= 1
  {
    match m
    case ContractSigs(id, receivers, senders) => SigsFailClean(c, id, s, receivers, senders, p);
    case ContractData(id, claims) => ContractsFailClean(c, log, id, s, claims, e, p);
    case _ => QuietPlan(c, log, s, m, e, p);
  }

  lemma SigsFailClean(c: Config, id: SwapId, s: Swap, receivers: seq<Signature>, senders: seq<Signature>, p: Plan)
    requires SigsPlan(c, id, s, receivers, senders) == Some(p)
    ensures (forall done: nat :: FailsClean(p, done)) <==> |s.pending| <= 1
  {
    assert [] + p.effects == p.effects;
    CommitFailsClean([], Batch(id, p.next), s.pending, p);
  }

  lemma ContractsFailClean(c: Config, log: Log, id: SwapId, s: Swap, claims: seq<Claim>, e: Env, p: Plan)
    requires s.terms.protocol == Taproot && ContractPlan(c, id, s, claims, e) == Some(p)
    ensures (forall done: nat :: FailsClean(p, done)) <==> s.terms.count <= 1
  {
    ContractIsFunded(c, log, id, s, claims, e, p);
    ContractIsProven(c, id, s, claims, e, p);
    CommitFailsClean([Fund(DealOf(id, p.next), |claims|)], Batch(id, p.next), Fundings(e.coins), p);
  }

  /** Ids are not taken up again, and no answer sends more than one transaction. */
  ghost predicate Plainly(c: Config, w: World, x: Exchange) {
    match x
    case Negotiate(id, terms, e) => id in w.swaps || !Known(w.log, id)
    case Message(m, e) => Takes(c, w, m, e) ==> Sending(w.swaps[m.id].swap, m) <= 1
    case _ => true
  }

  /** Such runs are fair whatever fails in them, so what recovery discards was never sent. */
  lemma PlainRunsAreFair(c: Config, xs: seq<Exchange>)
    requires forall i | 0 <= i < |xs| :: Plainly(c, Steps(c, START, xs[..i]), xs[i])
    ensures FairRun(c, xs)
  {
    forall i | 0 <= i < |xs|
      ensures Fair(c, Steps(c, START, xs[..i]), xs[i])
    {
      var w := Steps(c, START, xs[..i]);
      RunsAreOrderly(c, xs[..i]);
      if xs[i].Message? && Takes(c, w, xs[i].message, xs[i].env) {
        var m, e := xs[i].message, xs[i].env;
        assert GoodEntry(c, w.log, m.id, w.swaps[m.id]);
        FailsCleanExactly(c, w.log, w.swaps[m.id].swap, m, e, PlanFor(c, w.log, w.swaps[m.id].swap, m, e).value);
      }
    }
  }

  /** The plan for the message, cut off before its end. */
  ghost predicate Fails(c: Config, w: World, m: Message, e: Env, p: Plan) {
    Takes(c, w, m, e) && PlanFor(c, w.log, w.swaps[m.id].swap, m, e) == Some(p) && e.done < |p.effects|
  }

  /** Which effects succeed is no part of the plan. */
  lemma PlanIgnoresFailure(c: Config, log: Log, s: Swap, m: Message, e: Env, done: nat)
    requires m.ContractSigs? || m.ContractData?
    ensures PlanFor(c, log, s, m, e.(done := done)) == PlanFor(c, log, s, m, e)
  {
  }

  lemma FailedStep(c: Config, w: World, m: Message, e: Env, p: Plan)
    requires !m.ProofOfFunding? && Fails(c, w, m, e, p)
    ensures Step(c, w, Message(m, e)) == w.(log := w.log + p.effects[..e.done], conns := map[])
  {
  }

  lemma DrainedAndRecovered(w: World, id: SwapId, now: nat)
    requires id in w.swaps && Idle(w.swaps[id], now) && w.swaps[id].swap.outgoing != [] && !w.swaps[id].swap.broadcast
    ensures Recovered(Drained(w, now, None), id).log == w.log + [Discard(id, Contracts(CaseOf(w.swaps[id])))]
  {
    assert id in Returned(w.swaps, now, None);
  }

  /** Something was sent for the swap, and then its coins were discarded. */
  ghost predicate SentAndDiscarded(log: Log, id: SwapId) {
    log != [] && log[|log| - 1].Discard? && log[|log| - 1].id == id && !Unsent(log, id)
  }

  /** The message fails, the swap goes idle, recovery comes. */
  ghost predicate SentThenDiscarded(c: Config, w: World, m: Message, e: Env, now: nat)
    requires IsProtocolMessage(m)
  {
    var log := Steps(c, w, [Message(m, e), DrainPass(now, None), RecoveryPass(m.id)]).log;
    |w.log| <= |log| && SentAndDiscarded(log[|w.log|..], m.id)
  }

  lemma CutOffSends(p: Plan, id: SwapId, done: nat, discard: Effect)
    requires Only(p.effects, id) && done < |p.effects| && discard.Discard? && discard.id == id
    ensures SentAndDiscarded(p.effects[..done] + [discard], id) <==> !FailsClean(p, done)
    ensures Unsent(p.effects[..done], id) <==> FailsClean(p, done)
  {
    var log := p.effects[..done] + [discard];
    if !FailsClean(p, done) {
      var i :| 0 <= i < done && p.effects[i].Broadcast?;
      assert log[i] == p.effects[i] && p.effects[..done][i] == p.effects[i];
    }
  }

  lemma FailedSigs(c: Config, w: World, m: Message, e: Env, p: Plan, now: nat)
    requires Sound(c, w) && m.ContractSigs? && Fails(c, w, m, e, p)
    requires Idle(w.swaps[m.id], now) && w.swaps[m.id].swap.outgoing != []
    ensures Steps(c, w, [Message(m, e), DrainPass(now, None), RecoveryPass(m.id)]).log ==
            w.log + p.effects[..e.done] + [Discard(m.id, Contracts(CaseOf(w.swaps[m.id])))]
  {
    assert GoodEntry(c, w.log, m.id, w.swaps[m.id]);
    FailedStep(c, w, m, e, p);
    IdleIsDiscarded(c, w, w.(log := w.log + p.effects[..e.done], conns := map[]), Message(m, e), m.id, now);
  }

  lemma IdleIsDiscarded(c: Config, w: World, w1: World, x: Exchange, id: SwapId, now: nat)
    requires Step(c, w, x) == w1 && id in w1.swaps && Idle(w1.swaps[id], now)
    requires w1.swaps[id].swap.outgoing != [] && !w1.swaps[id].swap.broadcast
    ensures Steps(c, w, [x, DrainPass(now, None), RecoveryPass(id)]).log ==
            w1.log + [Discard(id, Contracts(CaseOf(w1.swaps[id])))]
  {
    DrainThenRecover(c, w, x, id, now);
    DrainedAndRecovered(w1, id, now);
  }

  lemma DrainThenRecover(c: Config, w: World, x: Exchange, id: SwapId, now: nat)
    ensures Steps(c, w, [x, DrainPass(now, None), RecoveryPass(id)]) == Recovered(Drained(Step(c, w, x), now, None), id)
  {
    ThreeSteps(c, w, x, DrainPass(now, None), RecoveryPass(id));
  }

  lemma DiscardedAfter(c: Config, w: World, m: Message, e: Env, p: Plan, now: nat)
    requires Sound(c, w) && m.ContractSigs? && Fails(c, w, m, e, p)
    requires Idle(w.swaps[m.id], now) && w.swaps[m.id].swap.outgoing != []
    ensures SentThenDiscarded(c, w, m, e, now) <==> !FailsClean(p, e.done)
  {
    FailedSigs(c, w, m, e, p, now);
    PlanIsOnly(c, w.log, w.swaps[m.id].swap, m, e, p);
    var discard := Discard(m.id, Contracts(CaseOf(w.swaps[m.id])));
    LogIsCutOff(c, w, m, e, now, p.effects[..e.done], discard);
    CutOffSends(p, m.id, e.done, discard);
  }

  lemma LogIsCutOff(c: Config, w: World, m: Message, e: Env, now: nat, es: seq<Effect>, discard: Effect)
    requires IsProtocolMessage(m)
    requires Steps(c, w, [Message(m, e), DrainPass(now, None), RecoveryPass(m.id)]).log == w.log + es + [discard]
    ensures SentThenDiscarded(c, w, m, e, now) <==> SentAndDiscarded(es + [discard], m.id)
  {
    assert (w.log + es + [discard])[|w.log|..] == es + [discard];
  }

  /**
   Legacy: from any reachable state, some way for the answer to contract signatures to fail leads recovery to discard
   coins whose funding has gone out, once the swap is idle; this is so exactly if two or more transactions are pending.
   */
  lemma FailedBatchIsDiscarded(c: Config, w: World, m: Message, e: Env, p: Plan, now: nat)
    requires Sound(c, w) && m.ContractSigs? && Takes(c, w, m, e) && PlanFor(c, w.log, w.swaps[m.id].swap, m, e) == Some(p)
    requires Idle(w.swaps[m.id], now) && w.swaps[m.id].swap.outgoing != []
    ensures (exists done: nat | done < |p.effects| :: SentThenDiscarded(c, w, m, e.(done := done), now))
            <==> |w.swaps[m.id].swap.pending| >= 2
  {
    var s := w.swaps[m.id].swap;
    assert GoodEntry(c, w.log, m.id, w.swaps[m.id]);
    FailsCleanExactly(c, w.log, s, m, e, p);
    forall done: nat | done < |p.effects|
      ensures SentThenDiscarded(c, w, m, e.(done := done), now) <==> !FailsClean(p, done)
    {
      PlanIgnoresFailure(c, w.log, s, m, e, done);
      DiscardedAfter(c, w, m, e.(done := done), p, now);
    }
    if |s.pending| >= 2 {
      var done: nat :| !FailsClean(p, done);
      assert SentThenDiscarded(c, w, m, e.(done := done), now);
    }
  }

  /** The message fails and the swap goes idle: something was sent for it, and it is in neither the registry nor recovery. */
  ghost predicate SentThenDropped(c: Config, w: World, m: Message, e: Env, now: nat)
    requires IsProtocolMessage(m)
  {
    var after := Steps(c, w, [Message(m, e), DrainPass(now, None)]);
    && |w.log| <= |after.log| && !Unsent(after.log[|w.log|..], m.id)
    && m.id !in after.swaps && (m.id in after.cases <==> m.id in w.cases)
  }

  lemma FailedContract(c: Config, w: World, m: Message, e: Env, p: Plan, now: nat)
    requires Sound(c, w) && m.ContractData? && Fails(c, w, m, e, p) && Idle(w.swaps[m.id], now)
    ensures var after := Steps(c, w, [Message(m, e), DrainPass(now, None)]);
            && after.log == w.log + p.effects[..e.done] && m.id !in after.swaps
            && (m.id in after.cases <==> m.id in w.cases)
  {
    TakenIsUnfunded(c, w, m, e);
    FailedStep(c, w, m, e, p);
    DroppedByDrain(c, w, w.(log := w.log + p.effects[..e.done], conns := map[]), Message(m, e), m.id, now);
  }

  lemma TakenIsUnfunded(c: Config, w: World, m: Message, e: Env)
    requires Sound(c, w) && m.ContractData? && Takes(c, w, m, e)
    ensures Unfunded(w.swaps[m.id].swap)
  {
    assert GoodEntry(c, w.log, m.id, w.swaps[m.id]);
  }

  lemma DroppedByDrain(c: Config, w: World, w1: World, x: Exchange, id: SwapId, now: nat)
    requires Step(c, w, x) == w1 && id in w1.swaps && Idle(w1.swaps[id], now) && Unfunded(w1.swaps[id].swap)
    ensures var after := Steps(c, w, [x, DrainPass(now, None)]);
            after.log == w1.log && id !in after.swaps && (id in after.cases <==> id in w1.cases)
  {
    TwoSteps(c, w, x, DrainPass(now, None));
    IdleIsDropped(w1, id, now);
  }

  lemma IdleIsDropped(w: World, id: SwapId, now: nat)
    requires id in w.swaps && Idle(w.swaps[id], now) && Unfunded(w.swaps[id].swap)
    ensures var after := Drained(w, now, None);
            after.log == w.log && id !in after.swaps && (id in after.cases <==> id in w.cases)
  {
    assert id !in Returned(w.swaps, now, None);
  }

  lemma DroppedAfter(c: Config, w: World, m: Message, e: Env, p: Plan, now: nat)
    requires Sound(c, w) && m.ContractData? && Fails(c, w, m, e, p) && Idle(w.swaps[m.id], now)
    ensures SentThenDropped(c, w, m, e, now) <==> !FailsClean(p, e.done)
  {
    FailedContract(c, w, m, e, p, now);
    PlanIsOnly(c, w.log, w.swaps[m.id].swap, m, e, p);
    assert (w.log + p.effects[..e.done])[|w.log|..] == p.effects[..e.done];
    CutOffSends(p, m.id, e.done, Discard(m.id, []));
  }

  /**
   Taproot: some way for the answer to contract data to fail leaves a swap with a transaction sent that, once idle, is
   let go without recovery; this is so exactly if two or more contracts were negotiated.
   */
  lemma FailedBatchIsDropped(c: Config, w: World, m: Message, e: Env, p: Plan, now: nat)
    requires Sound(c, w) && m.ContractData? && Takes(c, w, m, e) && PlanFor(c, w.log, w.swaps[m.id].swap, m, e) == Some(p)
    requires Idle(w.swaps[m.id], now)
    ensures (exists done: nat | done < |p.effects| :: SentThenDropped(c, w, m, e.(done := done), now))
            <==> w.swaps[m.id].swap.terms.count >= 2
  {
    var s := w.swaps[m.id].swap;
    assert GoodEntry(c, w.log, m.id, w.swaps[m.id]);
    FailsCleanExactly(c, w.log, s, m, e, p);
    forall done: nat | done < |p.effects|
      ensures SentThenDropped(c, w, m, e.(done := done), now) <==> !FailsClean(p, done)
    {
      PlanIgnoresFailure(c, w.log, s, m, e, done);
      DroppedAfter(c, w, m, e.(done := done), p, now);
    }
    if s.terms.count >= 2 {
      var done: nat :| !FailsClean(p, done);
      assert SentThenDropped(c, w, m, e.(done := done), now);
    }
  }

  lemma TwoSteps(c: Config, w: World, x: Exchange, y: Exchange)
    ensures Steps(c, w, [x, y]) == Step(c, Step(c, w, x), y)
  {
    assert [x, y][..1] == [x] && [x][..0] == [];
    assert Steps(c, w, []) == w;
    assert Steps(c, w, [x]) == Step(c, w, x);
  }

  lemma ThreeSteps(c: Config, w: World, x: Exchange, y: Exchange, z: Exchange)
    ensures Steps(c, w, [x, y, z]) == Step(c, Step(c, Step(c, w, x), y), z)
  {
    assert [x, y, z][..2] == [x, y];
    TwoSteps(c, w, x, y);
  }

  lemma {:induction false} StepsAppend(c: Config, w: World, xs: seq<Exchange>, ys: seq<Exchange>)
    ensures Steps(c, w, xs + ys) == Steps(c, Steps(c, w, xs), ys)
  {
    if ys == [] {
      assert xs + ys == xs;
    } else {
      var n := |ys| - 1;
      StepsAppend(c, w, xs, ys[..n]);
      assert (xs + ys)[..|xs + ys| - 1] == xs + ys[..n];
    }
  }
}
