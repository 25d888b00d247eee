/** Whole runs of a maker: any connections, messages in any order, any failures, drains and recovery passes. */
module MakerRuns {
  import opened Bytes
  import opened Deadline
  import opened MakerState
  import opened MakerHandlers
  import opened MakerRegistry
  import opened MakerSafety

  /** What a swap handed to recovery had in its registry entry. */
  datatype Case = Case(incoming: seq<Incoming>, outgoing: seq<Outgoing>)

  /**
   conns: the open connections; records: the tracker's word on whether funding was broadcast; cases: swaps in recovery;
   peak: the greatest liquidity an admission has read.
   */
  datatype World = World(
    conns: map<nat, Conn>,
    swaps: Registry,
    log: Log,
    records: map<SwapId, bool>,
    cases: map<SwapId, Case>,
    peak: nat)

  const START: World := World(map[], map[], [], map[], map[], 0)

  datatype Action =
    | Open(conn: nat)
    | Close(conn: nat)
    | Say(conn: nat, message: Message, env: Env)
    | Drain(now: nat, height: Option<nat>)
    | Recover(id: SwapId)
    | Forget(id: SwapId)         // the tracker's record is lost

  /** A connection without a swap of its own, or without outgoing coins, works on the stored state. */
  function Restored(conn: Conn, id: SwapId, swaps: Registry): Conn {
    if (conn.swap.terms.amount == 0 || conn.swap.outgoing == []) && id in swaps then Conn(Some(id), swaps[id].swap) else conn
  }

  /** The world with a plan carried out as far as it gets. */
  function Progressed(w: World, p: Plan, e: Env): World {
    w.(log := w.log + p.effects[..Min(e.done, |p.effects|)])
  }

  function Ended(w: World, k: nat, id: SwapId, p: Plan, e: Env): World {
    match p.ending
    case Stay => w.(conns := w.conns[k := Conn(Some(id), p.next)])
    case Store => w.(conns := w.conns[k := Conn(Some(id), p.next)], swaps := MakerRegistry.Store(w.swaps, id, p.next, e.now))
    case Finish =>
      w.(conns := w.conns - {k},
         swaps := if e.swept then w.swaps - {id} else MakerRegistry.Store(w.swaps - {id}, id, p.next, e.now))
  }

  /** On failure the connection is dropped and the registry left as it was. */
  function Perform(w: World, k: nat, id: SwapId, p: Plan, e: Env): World {
    if e.done < |p.effects| then Progressed(w, p, e).(conns := w.conns - {k})
    else Ended(Progressed(w, p, e), k, id, p, e)
  }

  /** Without a plan the connection is dropped. */
  function Carried(w: World, k: nat, id: SwapId, plan: Option<Plan>, e: Env): World {
    if plan.None? then w.(conns := w.conns - {k}) else Perform(w, k, id, plan.value, e)
  }

  /** A proof of funding that holds records when the incoming funding confirmed, before anything later can fail. */
  function WithConfirmation(c: Config, w: World, s: Swap, m: Message, e: Env): World {
    if m.ProofOfFunding? && ProofHolds(c, CacheOf(w.log), s, m.locktime, m.claims, e) && m.id in w.swaps && e.confirmed.Some?
    then w.(swaps := w.swaps[m.id := w.swaps[m.id].(confirmed := e.confirmed)]) else w
  }

  /** A protocol message on a restored connection. */
  function Spoken(c: Config, w: World, k: nat, conn: Conn, m: Message, e: Env): World
    requires IsProtocolMessage(m)
  {
    if conn.id.Some? && conn.id.value != m.id then w.(conns := w.conns - {k})
    else Carried(WithConfirmation(c, w, conn.swap, m, e), k, m.id, PlanFor(c, w.log, conn.swap, m, e), e)
  }

  function Protocolled(c: Config, w: World, k: nat, m: Message, e: Env): World
    requires k in w.conns && IsProtocolMessage(m)
  {
    Spoken(c, w, k, Restored(w.conns[k], m.id, w.swaps), m, e)
  }

  function Offered(conn: Conn, terms: Terms, service: nat): Swap {
    conn.swap.(terms := terms, service := service, phase := AwaitingContractData)
  }

  ghost function Negotiated(c: Config, w: World, k: nat, id: SwapId, terms: Terms, e: Env): World
    requires k in w.conns
  {
    var conn := w.conns[k];
    if conn.swap.phase != AwaitingSwapDetails then w.(conns := w.conns - {k})
    else if !e.watchtower then w
    else if !e.verified then w.(conns := w.conns - {k})
    else
      var swap := Offered(conn, terms, c.fee(terms.amount, terms.offset));
      match Admitted(w.swaps, id, swap, e.liquidity, e.now)
      case Ok(swaps) =>
        w.(conns := w.conns[k := Conn(Some(id), swap)], swaps := swaps, log := w.log + [Admit(id, terms)],
           peak := HighWater(w, id, e))
      case Err(_) =>
        w.(conns := w.conns[k := Conn(None, conn.swap.(terms := Terms(terms.protocol, 0, 0, 0, 0), service := 0))])
  }

  /** Only the admission of a new swap looks at the liquidity. */
  function HighWater(w: World, id: SwapId, e: Env): nat {
    if id !in w.swaps && w.peak < e.liquidity then e.liquidity else w.peak
  }

  function Greeted(w: World, k: nat, before: Phase, after: Phase): World
    requires k in w.conns
  {
    if w.conns[k].swap.phase != before then w.(conns := w.conns - {k})
    else w.(conns := w.conns[k := w.conns[k].(swap := w.conns[k].swap.(phase := after))])
  }

  function Waiting(w: World, k: nat, id: SwapId, e: Env): World
    requires k in w.conns
  {
    if id !in w.swaps || (w.conns[k].id.Some? && w.conns[k].id.value != id) then w.(conns := w.conns - {k})
    else w.(swaps := KeptAlive(w.swaps, id, e.now, e.height))
  }

  ghost function Heard(c: Config, w: World, k: nat, m: Message, e: Env): World
    requires k in w.conns
  {
    match m
    case Hello => Greeted(w, k, AwaitingHello, AwaitingOfferRequest)
    case GetOffer => Greeted(w, k, AwaitingOfferRequest, AwaitingSwapDetails)
    case SwapDetails(id, terms) => Negotiated(c, w, k, id, terms, e)
    case WaitingFunding(id) => Waiting(w, k, id, e)
    case _ => Protocolled(c, w, k, m, e)
  }

  function CaseOf(e: Entry): Case {
    Case(e.swap.incoming, e.swap.outgoing)
  }

  /** Entries returned by a drain go to recovery, with a tracker record of whether their funding was broadcast. */
  function Drained(w: World, now: nat, height: Option<nat>): World {
    var idle := Returned(w.swaps, now, height);
    w.(swaps := Kept(w.swaps, now, height),
       records := w.records + (map id | id in idle :: idle[id].swap.broadcast),
       cases := w.cases + (map id | id in idle :: CaseOf(idle[id])))
  }

  function Contracts(k: Case): seq<Txid> {
    seq(|k.outgoing|, i requires 0 <= i < |k.outgoing| => k.outgoing[i].contract) +
    seq(|k.incoming|, i requires 0 <= i < |k.incoming| => k.incoming[i].contract)
  }

  /** Recovery deletes a swap's coins only on a record that its funding was never broadcast. */
  function Recovered(w: World, id: SwapId): World {
    if id in w.cases && id in w.records && !w.records[id] then
      w.(log := w.log + [Discard(id, Contracts(w.cases[id]))], cases := w.cases - {id})
    else w
  }

  ghost function Do(c: Config, w: World, a: Action): World {
    match a
    case Open(k) => if k in w.conns then w else w.(conns := w.conns[k := NEW_CONN])
    case Close(k) => w.(conns := w.conns - {k})
    case Say(k, m, e) => if k in w.conns then Heard(c, w, k, m, e) else w
    case Drain(now, height) => Drained(w, now, height)
    case Recover(id) => Recovered(w, id)
    case Forget(id) => w.(records := w.records - {id})
  }

  ghost function After(c: Config, w: World, actions: seq<Action>): World {
    if actions == [] then w else Do(c, After(c, w, actions[..|actions| - 1]), actions[|actions| - 1])
  }

  // ------------------------------------------------------------ safety of every run

  ghost predicate GoodConn(c: Config, log: Log, conn: Conn) {
    match conn.id
    case Some(id) => Good(c, log, id, conn.swap)
    case None => !conn.swap.phase.Negotiated() && Bare(conn.swap)
  }

  ghost predicate GoodConns(c: Config, log: Log, conns: map<nat, Conn>) {
    forall k | k in conns :: GoodConn(c, log, conns[k])
  }

  ghost predicate GoodEntry(c: Config, log: Log, id: SwapId, e: Entry) {
    Good(c, log, id, e.swap) && e.swap.phase.Negotiated()
  }

  ghost predicate GoodSwaps(c: Config, log: Log, swaps: Registry) {
    forall id | id in swaps :: GoodEntry(c, log, id, swaps[id])
  }

  /** The log is lawful, and every connection's and every stored state is good. */
  ghost predicate Sound(c: Config, w: World) {
    Lawful(c, w.log) && GoodConns(c, w.log, w.conns) && GoodSwaps(c, w.log, w.swaps)
  }

  lemma LongerLog(c: Config, w: World, more: Log)
    requires GoodConns(c, w.log, w.conns) && GoodSwaps(c, w.log, w.swaps)
    ensures GoodConns(c, w.log + more, w.conns) && GoodSwaps(c, w.log + more, w.swaps)
  {
    forall k | k in w.conns
      ensures GoodConn(c, w.log + more, w.conns[k])
    {
      if w.conns[k].id.Some? {
        GoodStays(c, w.log, more, w.conns[k].id.value, w.conns[k].swap);
      }
    }
    forall id | id in w.swaps
      ensures GoodEntry(c, w.log + more, id, w.swaps[id])
    {
      GoodStays(c, w.log, more, id, w.swaps[id].swap);
    }
  }

  lemma PutConn(c: Config, log: Log, conns: map<nat, Conn>, k: nat, conn: Conn)
    requires GoodConns(c, log, conns) && GoodConn(c, log, conn)
    ensures GoodConns(c, log, conns[k := conn])
  {
  }

  lemma DropConn(c: Config, log: Log, conns: map<nat, Conn>, k: nat)
    requires GoodConns(c, log, conns)
    ensures GoodConns(c, log, conns - {k})
  {
  }

  lemma PutSwap(c: Config, log: Log, swaps: Registry, id: SwapId, e: Entry)
    requires GoodSwaps(c, log, swaps) && GoodEntry(c, log, id, e)
    ensures GoodSwaps(c, log, swaps[id := e])
  {
  }

  lemma DropSwap(c: Config, log: Log, swaps: Registry, id: SwapId)
    requires GoodSwaps(c, log, swaps)
    ensures GoodSwaps(c, log, swaps - {id})
  {
  }

  lemma EndedIsSound(c: Config, w: World, k: nat, id: SwapId, p: Plan, e: Env)
    requires Sound(c, w) && Good(c, w.log, id, p.next) && p.next.phase.Negotiated()
    ensures Sound(c, Ended(w, k, id, p, e))
  {
    match p.ending
    case Stay => PutConn(c, w.log, w.conns, k, Conn(Some(id), p.next));
    case Store =>
      PutConn(c, w.log, w.conns, k, Conn(Some(id), p.next));
      PutSwap(c, w.log, w.swaps, id, MakerRegistry.Store(w.swaps, id, p.next, e.now)[id]);
    case Finish =>
      DropConn(c, w.log, w.conns, k);
      DropSwap(c, w.log, w.swaps, id);
      PutSwap(c, w.log, w.swaps - {id}, id, Entry(p.next, None, e.now));
  }

  lemma PerformIsSound(c: Config, w: World, k: nat, id: SwapId, p: Plan, e: Env)
    requires Sound(c, w) && Lawful(c, Progressed(w, p, e).log)
    requires Good(c, w.log + p.effects, id, p.next) && p.next.phase.Negotiated()
    ensures Sound(c, Perform(w, k, id, p, e))
  {
    var more := p.effects[..Min(e.done, |p.effects|)];
    LongerLog(c, w, more);
    if e.done < |p.effects| {
      DropConn(c, w.log + more, w.conns, k);
    } else {
      assert more == p.effects;
      EndedIsSound(c, Progressed(w, p, e), k, id, p, e);
    }
  }

  lemma RestoredIsGood(c: Config, w: World, k: nat, id: SwapId)
    requires GoodConns(c, w.log, w.conns) && GoodSwaps(c, w.log, w.swaps) && k in w.conns
    ensures GoodConn(c, w.log, Restored(w.conns[k], id, w.swaps))
  {
    assert GoodConn(c, w.log, w.conns[k]);
    if id in w.swaps {
      assert GoodEntry(c, w.log, id, w.swaps[id]);
    }
  }

  lemma ConfirmationIsSound(c: Config, w: World, s: Swap, m: Message, e: Env)
    requires Sound(c, w)
    ensures Sound(c, WithConfirmation(c, w, s, m, e)) && WithConfirmation(c, w, s, m, e).log == w.log
  {
    if m.ProofOfFunding? && m.id in w.swaps && e.confirmed.Some? {
      assert GoodEntry(c, w.log, m.id, w.swaps[m.id]);
      PutSwap(c, w.log, w.swaps, m.id, w.swaps[m.id].(confirmed := e.confirmed));
    }
  }

  /** A connection without a swap has no plan for any protocol message. */
  lemma NoPlanWithoutSwap(c: Config, log: Log, s: Swap, m: Message, e: Env)
    requires IsProtocolMessage(m) && !s.phase.Negotiated()
    ensures PlanFor(c, log, s, m, e).None?
  {
  }

  /** A plan that keeps to the law and leads to a good state, or none. */
  ghost predicate Safe(c: Config, log: Log, id: SwapId, plan: Option<Plan>, done: nat) {
    plan.Some? ==>
      && Lawful(c, log + plan.value.effects[..Min(done, |plan.value.effects|)])
      && Good(c, log + plan.value.effects, id, plan.value.next) && plan.value.next.phase.Negotiated()
  }

  lemma PlanIsSafe(c: Config, log: Log, s: Swap, m: Message, e: Env)
    requires Lawful(c, log) && IsProtocolMessage(m) && Good(c, log, m.id, s)
    ensures Safe(c, log, m.id, PlanFor(c, log, s, m, e), e.done)
  {
    if PlanFor(c, log, s, m, e).Some? {
      var p := PlanFor(c, log, s, m, e).value;
      PlansAreGood(c, log, s, m, e, p);
      PlansAreLawful(c, log, s, m, e, p, Min(e.done, |p.effects|));
    }
  }

  lemma CarriedIsSound(c: Config, w: World, k: nat, id: SwapId, plan: Option<Plan>, e: Env)
    requires Sound(c, w) && Safe(c, w.log, id, plan, e.done)
    ensures Sound(c, Carried(w, k, id, plan, e))
  {
    if plan.None? {
      DropConn(c, w.log, w.conns, k);
    } else {
      PerformIsSound(c, w, k, id, plan.value, e);
    }
  }

  lemma SpokenIsSound(c: Config, w: World, k: nat, conn: Conn, m: Message, e: Env)
    requires Sound(c, w) && GoodConn(c, w.log, conn) && IsProtocolMessage(m)
    ensures Sound(c, Spoken(c, w, k, conn, m, e))
  {
    if conn.id.Some? && conn.id.value != m.id {
      DropConn(c, w.log, w.conns, k);
    } else {
      if conn.id.None? {
        NoPlanWithoutSwap(c, w.log, conn.swap, m, e);
      } else {
        PlanIsSafe(c, w.log, conn.swap, m, e);
      }
      ConfirmationIsSound(c, w, conn.swap, m, e);
      CarriedIsSound(c, WithConfirmation(c, w, conn.swap, m, e), k, m.id, PlanFor(c, w.log, conn.swap, m, e), e);
    }
  }

  lemma ProtocolledIsSound(c: Config, w: World, k: nat, m: Message, e: Env)
    requires Sound(c, w) && k in w.conns && IsProtocolMessage(m)
    ensures Sound(c, Protocolled(c, w, k, m, e))
  {
    RestoredIsGood(c, w, k, m.id);
    SpokenIsSound(c, w, k, Restored(w.conns[k], m.id, w.swaps), m, e);
  }

  lemma AdmissionIsSound(c: Config, log: Log, swaps: Registry, id: SwapId, s: Swap, liquidity: nat, now: nat)
    requires GoodSwaps(c, log, swaps) && Good(c, log, id, s) && s.phase.Negotiated() && Admitted(swaps, id, s, liquidity, now).Ok?
    ensures GoodSwaps(c, log, Admitted(swaps, id, s, liquidity, now).value)
  {
    if id in swaps {
      assert GoodEntry(c, log, id, swaps[id]);
      PutSwap(c, log, swaps, id, swaps[id].(active := now));
    } else {
      PutSwap(c, log, swaps, id, Entry(s, None, now));
    }
  }

  lemma OfferIsGood(c: Config, log: Log, conn: Conn, id: SwapId, terms: Terms, service: nat)
    requires GoodConn(c, log, conn) && conn.swap.phase == AwaitingSwapDetails
    ensures Good(c, log + [Admit(id, terms)], id, Offered(conn, terms, service))
  {
    assert Bare(conn.swap);
    assert (log + [Admit(id, terms)])[|log|] == Admit(id, terms);
  }

  lemma NegotiatedIsSound(c: Config, w: World, k: nat, id: SwapId, terms: Terms, e: Env)
    requires Sound(c, w) && k in w.conns
    ensures Sound(c, Negotiated(c, w, k, id, terms, e))
  {
    var conn := w.conns[k];
    assert GoodConn(c, w.log, conn);
    DropConn(c, w.log, w.conns, k);
    if conn.swap.phase == AwaitingSwapDetails {
      var swap, log := Offered(conn, terms, c.fee(terms.amount, terms.offset)), w.log + [Admit(id, terms)];
      if Admitted(w.swaps, id, swap, e.liquidity, e.now).Ok? {
        HarmlessIsLawful(c, w.log, [Admit(id, terms)]);
        LongerLog(c, w, [Admit(id, terms)]);
        OfferIsGood(c, w.log, conn, id, terms, c.fee(terms.amount, terms.offset));
        AdmissionIsSound(c, log, w.swaps, id, swap, e.liquidity, e.now);
        PutConn(c, log, w.conns, k, Conn(Some(id), swap));
      } else {
        PutConn(c, w.log, w.conns, k, Conn(None, conn.swap.(terms := Terms(terms.protocol, 0, 0, 0, 0), service := 0)));
      }
    }
  }

  lemma GreetedIsGood(c: Config, log: Log, conn: Conn, after: Phase)
    requires GoodConn(c, log, conn) && !conn.swap.phase.Negotiated() && !after.Negotiated()
    ensures GoodConn(c, log, conn.(swap := conn.swap.(phase := after)))
  {
  }

  lemma GreetedIsSound(c: Config, w: World, k: nat, before: Phase, after: Phase)
    requires Sound(c, w) && k in w.conns && !before.Negotiated() && !after.Negotiated()
    ensures Sound(c, Greeted(w, k, before, after))
  {
    assert GoodConn(c, w.log, w.conns[k]);
    DropConn(c, w.log, w.conns, k);
    if w.conns[k].swap.phase == before {
      GreetedIsGood(c, w.log, w.conns[k], after);
      PutConn(c, w.log, w.conns, k, w.conns[k].(swap := w.conns[k].swap.(phase := after)));
    }
  }

  lemma WaitingIsSound(c: Config, w: World, k: nat, id: SwapId, e: Env)
    requires Sound(c, w) && k in w.conns
    ensures Sound(c, Waiting(w, k, id, e))
  {
    DropConn(c, w.log, w.conns, k);
    if id in w.swaps {
      assert GoodEntry(c, w.log, id, w.swaps[id]);
      PutSwap(c, w.log, w.swaps, id, w.swaps[id].(active := e.now));
    }
  }

  lemma HeardIsSound(c: Config, w: World, k: nat, m: Message, e: Env)
    requires Sound(c, w) && k in w.conns
    ensures Sound(c, Heard(c, w, k, m, e))
  {
    match m
    case Hello => GreetedIsSound(c, w, k, AwaitingHello, AwaitingOfferRequest);
    case GetOffer => GreetedIsSound(c, w, k, AwaitingOfferRequest, AwaitingSwapDetails);
    case SwapDetails(id, terms) => NegotiatedIsSound(c, w, k, id, terms, e);
    case WaitingFunding(id) => WaitingIsSound(c, w, k, id, e);
    case _ => ProtocolledIsSound(c, w, k, m, e);
  }

  lemma RecoveredIsSound(c: Config, w: World, id: SwapId)
    requires Sound(c, w)
    ensures Sound(c, Recovered(w, id))
  {
    if id in w.cases && id in w.records && !w.records[id] {
      var es := [Discard(id, Contracts(w.cases[id]))];
      HarmlessIsLawful(c, w.log, es);
      LongerLog(c, w, es);
    }
  }

  lemma DrainedIsSound(c: Config, w: World, now: nat, height: Option<nat>)
    requires Sound(c, w)
    ensures Sound(c, Drained(w, now, height))
  {
  }

  lemma ActionIsSound(c: Config, w: World, a: Action)
    requires Sound(c, w)
    ensures Sound(c, Do(c, w, a))
  {
    match a
    case Open(k) => PutConn(c, w.log, w.conns, k, NEW_CONN);
    case Close(k) => DropConn(c, w.log, w.conns, k);
    case Say(k, m, e) => if k in w.conns { HeardIsSound(c, w, k, m, e); }
    case Drain(now, height) => DrainedIsSound(c, w, now, height);
    case Recover(id) => RecoveredIsSound(c, w, id);
    case Forget(id) =>
  }

  /** Every run, over any connections however stale, commits funds and releases keys only as the law allows. */
  lemma {:induction false} RunsAreSound(c: Config, actions: seq<Action>)
    ensures Sound(c, After(c, START, actions))
  {
    if actions != [] {
      var n := |actions| - 1;
      RunsAreSound(c, actions[..n]);
      ActionIsSound(c, After(c, START, actions[..n]), actions[n]);
    }
  }

  /**
   Commit order: when a transaction goes out, its swap's terms have been agreed, all its coins are saved and its
   outgoing contracts watched, there is one incoming coin from its own outpoint per negotiated contract, one hash opens
   all contracts and the incoming refunds come late enough, every Legacy coin carries the other side's valid signature,
   and every Legacy incoming contract is the one the maker signed for its outpoint.
   */
  lemma CommitOrder(c: Config, actions: seq<Action>, i: nat)
    requires i < |After(c, START, actions).log| && After(c, START, actions).log[i].Broadcast?
    ensures var log := After(c, START, actions).log;
            var b := log[i].batch;
            && Admit(b.id, b.swap.terms) in log[..i]
            && AllSaved(log[..i], b.swap)
            && |b.swap.incoming| == b.swap.terms.count && DistinctIncoming(b.swap.incoming)
            && (b.swap.terms.protocol == Taproot ==> |b.swap.outgoing| == b.swap.terms.count)
            && (b.swap.terms.protocol == Legacy ==> AllSigned(c, b.swap) && AllBound(log[..i], b.swap.incoming))
            && Chained(c, b.swap)
            && log[i].tx in Fundings(b.swap.outgoing)
  {
    RunsAreSound(c, actions);
    var log := After(c, START, actions).log;
    assert Allowed(c, log[..i], log[i]);
  }

  /**
   Value safety: when the maker releases its keys it holds, and has saved, the other key of every incoming coin, and
   those coins are worth what it pays out and its fees, within the agreed amount.
   */
  lemma ValueSafety(c: Config, actions: seq<Action>, i: nat)
    requires i < |After(c, START, actions).log| && After(c, START, actions).log[i].Release?
    ensures var log := After(c, START, actions).log;
            var b := log[i].batch;
            && HoldsKeys(c, log[..i], b.swap)
            && |b.swap.incoming| == b.swap.terms.count && DistinctIncoming(b.swap.incoming)
            && Balances(b.swap) && Admit(b.id, b.swap.terms) in log[..i]
  {
    RunsAreSound(c, actions);
    var log := After(c, START, actions).log;
    assert Allowed(c, log[..i], log[i]);
  }

  /**
   Every broadcast is for coins made at an accepted proof, and there are as many of them as contracts were negotiated
   exactly if that proof named as many keys of the next hop; for Taproot there always are.
   */
  lemma OutgoingCount(c: Config, actions: seq<Action>, i: nat)
    requires i < |After(c, START, actions).log| && After(c, START, actions).log[i].Broadcast?
    ensures var log := After(c, START, actions).log;
            var b := log[i].batch;
            && Funded(log[..i], DealOf(b.id, b.swap))
            && (|b.swap.outgoing| == b.swap.terms.count <==> Fund(DealOf(b.id, b.swap), b.swap.terms.count) in log[..i])
            && (b.swap.terms.protocol == Taproot ==> |b.swap.outgoing| == b.swap.terms.count)
  {
    RunsAreSound(c, actions);
    var log := After(c, START, actions).log;
    var d := DealOf(log[i].batch.id, log[i].batch.swap);
    BroadcastWasFunded(c, log, i);
    CommitOrder(c, actions, i);
    if Fund(d, d.terms.count) in log[..i] {
      FundedAddsUp(c, log[..i], d, d.terms.count);
    }
  }

  lemma BroadcastWasFunded(c: Config, log: Log, i: nat)
    requires Lawful(c, log) && i < |log| && log[i].Broadcast?
    ensures Funded(log[..i], DealOf(log[i].batch.id, log[i].batch.swap)) && Lawful(c, log[..i])
  {
    assert Allowed(c, log[..i], log[i]);
    LawfulPrefix(c, log, i);
  }

  lemma FundedAddsUp(c: Config, log: Log, d: Deal, hops: nat)
    requires Lawful(c, log) && Fund(d, hops) in log
    ensures AddsUp(d, hops)
  {
    var j :| 0 <= j < |log| && log[j] == Fund(d, hops);
    assert Allowed(c, log[..j], log[j]);
  }

  /** Over every run the contract the wallet holds for an outpoint never changes. */
  lemma SignedContractsAreFixed(c: Config, actions: seq<Action>, i: nat)
    requires i <= |After(c, START, actions).log|
    ensures Within(CacheOf(After(c, START, actions).log[..i]), CacheOf(After(c, START, actions).log))
  {
    RunsAreSound(c, actions);
    CacheOnlyGrows(c, After(c, START, actions).log, i);
  }
}
