/**
 Runs in which every protocol message arrives on a connection of its own, as the taker sends them: what the registry
 promises about limits, parameters and phases, and when recovery may delete coins.
 */
module FreshRuns {
  import opened Bytes
  import opened MakerState
  import opened MakerHandlers
  import opened MakerRegistry
  import opened MakerSafety
  import opened MakerRuns

  datatype Exchange =
    | Negotiate(id: SwapId, terms: Terms, env: Env)
    | Message(message: Message, env: Env)
    | Ping(id: SwapId, env: Env)
    | DrainPass(now: nat, height: Option<nat>)
    | RecoveryPass(id: SwapId)
    | RecordLost(id: SwapId)

  /** The actions of one exchange: open a connection, speak, close it. */
  function Actions(x: Exchange): seq<Action> {
    match x
    case Negotiate(id, terms, e) =>
      [Open(0), Say(0, Hello, e), Say(0, GetOffer, e), Say(0, SwapDetails(id, terms), e), Close(0)]
    case Message(m, e) => [Open(0), Say(0, m, e), Close(0)]
    case Ping(id, e) => [Open(0), Say(0, WaitingFunding(id), e), Close(0)]
    case DrainPass(now, height) => [Drain(now, height)]
    case RecoveryPass(id) => [Recover(id)]
    case RecordLost(id) => [Forget(id)]
  }

  function FreshOffer(c: Config, terms: Terms): Swap {
    NO_SWAP.(terms := terms, service := c.fee(terms.amount, terms.offset), phase := AwaitingContractData)
  }

  ghost function Negotiation(c: Config, w: World, id: SwapId, terms: Terms, e: Env): World {
    if !e.watchtower || !e.verified then w
    else
      match Admitted(w.swaps, id, FreshOffer(c, terms), e.liquidity, e.now)
      case Ok(swaps) => w.(swaps := swaps, log := w.log + [Admit(id, terms)], peak := HighWater(w, id, e))
      case Err(_) => w
  }

  predicate Hears(w: World, m: Message) {
    IsProtocolMessage(m) && m.id in w.swaps
  }

  predicate Takes(c: Config, w: World, m: Message, e: Env) {
    Hears(w, m) && PlanFor(c, w.log, w.swaps[m.id].swap, m, e).Some?
  }

  function Answer(c: Config, w: World, m: Message, e: Env): World
    requires Hears(w, m)
  {
    var s := w.swaps[m.id].swap;
    Carried(WithConfirmation(c, w, s, m, e), 0, m.id, PlanFor(c, w.log, s, m, e), e).(conns := map[])
  }

  /** One exchange in one step: a message works on the stored state and nothing else. */
  ghost function Step(c: Config, w: World, x: Exchange): World {
    match x
    case Negotiate(id, terms, e) => Negotiation(c, w, id, terms, e)
    case Message(m, e) => if Hears(w, m) then Answer(c, w, m, e) else w
    case Ping(id, e) => w.(swaps := KeptAlive(w.swaps, id, e.now, e.height))
    case DrainPass(now, height) => Drained(w, now, height)
    case RecoveryPass(id) => Recovered(w, id)
    case RecordLost(id) => w.(records := w.records - {id})
  }

  ghost function Steps(c: Config, w: World, xs: seq<Exchange>): World {
    if xs == [] then w else Step(c, Steps(c, w, xs[..|xs| - 1]), xs[|xs| - 1])
  }

  // --------------------------------------------------- a step is a run of actions

  lemma AfterOne(c: Config, w: World, a: Action)
    ensures After(c, w, [a]) == Do(c, w, a)
  {
    assert [a][..0] == [];
    assert After(c, w, []) == w;
  }

  lemma AfterLast(c: Config, w: World, actions: seq<Action>, a: Action)
    ensures After(c, w, actions + [a]) == Do(c, After(c, w, actions), a)
  {
    assert (actions + [a])[..|actions|] == actions;
  }

  lemma AfterThree(c: Config, w: World, a: Action, b: Action, d: Action)
    ensures After(c, w, [a, b, d]) == Do(c, Do(c, Do(c, w, a), b), d)
  {
    AfterOne(c, w, a);
    AfterLast(c, w, [a], b);
    AfterLast(c, w, [a, b], d);
    assert [a] + [b] == [a, b] && [a, b] + [d] == [a, b, d];
  }

  const ONE_CONN: map<nat, Conn> := map[0 := NEW_CONN]

  lemma EndedApart(w: World, id: SwapId, p: Plan, e: Env)
    ensures var x, y := Ended(w.(conns := ONE_CONN), 0, id, p, e), Ended(w, 0, id, p, e);
            x.(conns := x.conns - {0}) == y.(conns := map[])
  {
    assert ONE_CONN - {0} == map[] && ONE_CONN[0 := Conn(Some(id), p.next)] - {0} == map[] && ONE_CONN - {0} - {0} == map[];
  }

  /** Apart from the connections, a plan does the same whatever connections there are. */
  lemma PerformApart(w: World, id: SwapId, p: Plan, e: Env)
    ensures var x, y := Perform(w.(conns := ONE_CONN), 0, id, p, e), Perform(w, 0, id, p, e);
            x.(conns := x.conns - {0}) == y.(conns := map[])
  {
    if e.done < |p.effects| {
      assert ONE_CONN - {0} - {0} == map[];
    } else {
      EndedApart(Progressed(w, p, e), id, p, e);
    }
  }

  lemma CarriedApart(w: World, id: SwapId, plan: Option<Plan>, e: Env)
    ensures var x, y := Carried(w.(conns := ONE_CONN), 0, id, plan, e), Carried(w, 0, id, plan, e);
            x.(conns := x.conns - {0}) == y.(conns := map[])
  {
    if plan.Some? {
      PerformApart(w, id, plan.value, e);
    } else {
      assert ONE_CONN - {0} - {0} == map[];
    }
  }

  lemma SaidApart(c: Config, w: World, m: Message, e: Env)
    requires IsProtocolMessage(m)
    ensures var said := Protocolled(c, w.(conns := ONE_CONN), 0, m, e);
            said.(conns := said.conns - {0}) == if Hears(w, m) then Answer(c, w, m, e) else w.(conns := map[])
  {
    var open, conn := w.(conns := ONE_CONN), Restored(NEW_CONN, m.id, w.swaps);
    assert WithConfirmation(c, open, conn.swap, m, e) == WithConfirmation(c, w, conn.swap, m, e).(conns := ONE_CONN);
    if m.id !in w.swaps {
      NoPlanWithoutSwap(c, w.log, NO_SWAP, m, e);
      assert ONE_CONN - {0} - {0} == map[];
    } else {
      CarriedApart(WithConfirmation(c, w, conn.swap, m, e), m.id, PlanFor(c, w.log, conn.swap, m, e), e);
    }
  }

  lemma MessageStep(c: Config, w: World, m: Message, e: Env)
    requires w.conns == map[] && IsProtocolMessage(m)
    ensures After(c, w, Actions(Message(m, e))) == Step(c, w, Message(m, e))
  {
    AfterThree(c, w, Open(0), Say(0, m, e), Close(0));
    SaidApart(c, w, m, e);
    assert Do(c, w, Open(0)) == w.(conns := ONE_CONN);
    assert w.(conns := map[]) == w;
  }

  lemma PingStep(c: Config, w: World, id: SwapId, e: Env)
    requires w.conns == map[]
    ensures After(c, w, Actions(Ping(id, e))) == Step(c, w, Ping(id, e))
  {
    AfterThree(c, w, Open(0), Say(0, WaitingFunding(id), e), Close(0));
    assert Do(c, w, Open(0)) == w.(conns := ONE_CONN);
    assert ONE_CONN - {0} == map[] && ONE_CONN - {0} - {0} == map[];
  }

  /** A connection that has asked for the offer. */
  const ASKED: map<nat, Conn> := map[0 := Conn(None, NO_SWAP.(phase := AwaitingSwapDetails))]

  lemma Asking(c: Config, w: World, e: Env)
    requires w.conns == map[]
    ensures After(c, w, [Open(0), Say(0, Hello, e), Say(0, GetOffer, e)]) == w.(conns := ASKED)
  {
    AfterThree(c, w, Open(0), Say(0, Hello, e), Say(0, GetOffer, e));
    var hello := map[0 := Conn(None, NO_SWAP.(phase := AwaitingOfferRequest))];
    assert Do(c, w, Open(0)) == w.(conns := ONE_CONN);
    assert Do(c, w.(conns := ONE_CONN), Say(0, Hello, e)) == w.(conns := hello) by {
      assert ONE_CONN[0 := Conn(None, NO_SWAP.(phase := AwaitingOfferRequest))] == hello;
    }
    assert hello[0 := Conn(None, NO_SWAP.(phase := AwaitingSwapDetails))] == ASKED;
  }

  lemma OfferApart(c: Config, w: World, id: SwapId, terms: Terms, e: Env)
    requires w.conns == map[]
    ensures var said := Negotiated(c, w.(conns := ASKED), 0, id, terms, e);
            said.(conns := said.conns - {0}) == Negotiation(c, w, id, terms, e)
  {
    assert ASKED - {0} == map[] && ASKED - {0} - {0} == map[];
    var accepted := Conn(Some(id), FreshOffer(c, terms));
    var refused := Conn(None, ASKED[0].swap.(terms := Terms(terms.protocol, 0, 0, 0, 0), service := 0));
    assert ASKED[0 := accepted] - {0} == map[] && ASKED[0 := refused] - {0} == map[];
    assert Offered(ASKED[0], terms, c.fee(terms.amount, terms.offset)) == FreshOffer(c, terms);
  }

  lemma NegotiateStep(c: Config, w: World, id: SwapId, terms: Terms, e: Env)
    requires w.conns == map[]
    ensures After(c, w, Actions(Negotiate(id, terms, e))) == Step(c, w, Negotiate(id, terms, e))
  {
    var ask, tell := [Open(0), Say(0, Hello, e), Say(0, GetOffer, e)], Say(0, SwapDetails(id, terms), e);
    Asking(c, w, e);
    AfterLast(c, w, ask, tell);
    AfterLast(c, w, ask + [tell], Close(0));
    assert Actions(Negotiate(id, terms, e)) == ask + [tell] + [Close(0)];
    OfferApart(c, w, id, terms, e);
  }

  predicate Proper(x: Exchange) {
    x.Message? ==> IsProtocolMessage(x.message)
  }

  /** Every exchange is a run of the maker: what holds of all runs holds here. */
  lemma StepIsRun(c: Config, w: World, x: Exchange)
    requires w.conns == map[] && Proper(x)
    ensures After(c, w, Actions(x)) == Step(c, w, x) && Step(c, w, x).conns == map[]
  {
    match x
    case Negotiate(id, terms, e) => NegotiateStep(c, w, id, terms, e);
    case Message(m, e) => MessageStep(c, w, m, e);
    case Ping(id, e) => PingStep(c, w, id, e);
    case DrainPass(now, height) => AfterOne(c, w, Drain(now, height));
    case RecoveryPass(id) => AfterOne(c, w, Recover(id));
    case RecordLost(id) => AfterOne(c, w, Forget(id));
  }

  lemma {:induction false} AfterAppend(c: Config, w: World, a: seq<Action>, b: seq<Action>)
    ensures After(c, w, a + b) == After(c, After(c, w, a), b)
  {
    if b == [] {
      assert a + b == a;
    } else {
      var n := |b| - 1;
      AfterAppend(c, w, a, b[..n]);
      assert (a + b)[..|a + b| - 1] == a + b[..n];
    }
  }

  /** So is every sequence of exchanges: the safety of all runs holds of these too. */
  lemma {:induction false} ExchangesAreRun(c: Config, xs: seq<Exchange>) returns (actions: seq<Action>)
    requires forall i | 0 <= i < |xs| :: Proper(xs[i])
    ensures After(c, START, actions) == Steps(c, START, xs) && Steps(c, START, xs).conns == map[]
  {
    if xs == [] {
      actions := [];
    } else {
      var n := |xs| - 1;
      var before := ExchangesAreRun(c, xs[..n]);
      StepIsRun(c, Steps(c, START, xs[..n]), xs[n]);
      AfterAppend(c, START, before, Actions(xs[n]));
      actions := before + Actions(xs[n]);
    }
  }

  lemma StepIsSound(c: Config, w: World, x: Exchange)
    requires Sound(c, w)
    ensures Sound(c, Step(c, w, x))
  {
    match x
    case Negotiate(id, terms, e) => NegotiationIsSound(c, w, id, terms, e);
    case Message(m, e) =>
      if Hears(w, m) {
        AnswerIsSound(c, w, m, e);
      }
    case Ping(id, e) =>
      if id in w.swaps {
        assert GoodEntry(c, w.log, id, w.swaps[id]);
        PutSwap(c, w.log, w.swaps, id, w.swaps[id].(active := e.now));
      }
    case DrainPass(now, height) => DrainedIsSound(c, w, now, height);
    case RecoveryPass(id) => RecoveredIsSound(c, w, id);
    case RecordLost(id) =>
  }

  lemma AnswerIsSound(c: Config, w: World, m: Message, e: Env)
    requires Sound(c, w) && Hears(w, m)
    ensures Sound(c, Answer(c, w, m, e))
  {
    var s := w.swaps[m.id].swap;
    assert GoodEntry(c, w.log, m.id, w.swaps[m.id]);
    ConfirmationIsSound(c, w, s, m, e);
    PlanIsSafe(c, w.log, s, m, e);
    CarriedIsSound(c, WithConfirmation(c, w, s, m, e), 0, m.id, PlanFor(c, w.log, s, m, e), e);
  }

  lemma NegotiationIsSound(c: Config, w: World, id: SwapId, terms: Terms, e: Env)
    requires Sound(c, w)
    ensures Sound(c, Negotiation(c, w, id, terms, e))
  {
    if Admitted(w.swaps, id, FreshOffer(c, terms), e.liquidity, e.now).Ok? {
      var es := [Admit(id, terms)];
      HarmlessIsLawful(c, w.log, es);
      LongerLog(c, w, es);
      OfferIsGood(c, w.log, ASKED[0], id, terms, c.fee(terms.amount, terms.offset));
      AdmissionIsSound(c, w.log + es, w.swaps, id, FreshOffer(c, terms), e.liquidity, e.now);
    }
  }

  // ------------------------------------------------ limits, parameters and phases

  /** An entry that lives on keeps its terms, and its phase does not go back. */
  predicate Onward(r: Registry, q: Registry) {
    forall id | id in r && id in q ::
      q[id].swap.terms == r[id].swap.terms && r[id].swap.phase.Rank() <= q[id].swap.phase.Rank()
  }

  ghost predicate Orderly(w: World) {
    WithinLimits(w.swaps, w.peak)
  }

  lemma ReplaceIsOrderly(w: World, id: SwapId, e: Entry)
    requires Orderly(w) && id in w.swaps
    requires e.swap.terms == w.swaps[id].swap.terms && w.swaps[id].swap.phase.Rank() <= e.swap.phase.Rank()
    ensures Orderly(w.(swaps := w.swaps[id := e])) && Onward(w.swaps, w.swaps[id := e])
  {
    ReplaceKeepsLimits(w.swaps, id, e, w.peak);
  }

  lemma PerformIsOrderly(w: World, id: SwapId, p: Plan, e: Env)
    requires Orderly(w) && id in w.swaps && Advances(w.swaps[id].swap, p)
    ensures Orderly(Perform(w, 0, id, p, e)) && Onward(w.swaps, Perform(w, 0, id, p, e).swaps)
  {
    if e.done >= |p.effects| {
      match p.ending
      case Stay =>
      case Store => ReplaceIsOrderly(w, id, MakerRegistry.Store(w.swaps, id, p.next, e.now)[id]);
      case Finish =>
        RemovalKeepsLimits(w.swaps, id, w.peak);
        CompletedKeepsLimits(w.swaps - {id}, id, Entry(p.next, None, e.now), w.peak);
    }
  }

  lemma FinishIsCompletion(c: Config, log: Log, s: Swap, m: Message, e: Env)
    requires IsProtocolMessage(m) && PlanFor(c, log, s, m, e).Some?
    ensures PlanFor(c, log, s, m, e).value.ending == Finish ==> PlanFor(c, log, s, m, e).value.next.phase == Completed
  {
  }

  lemma OnwardThrough(r: Registry, q: Registry, t: Registry)
    requires Onward(r, q) && Onward(q, t) && q.Keys == r.Keys
    ensures Onward(r, t)
  {
  }

  lemma ConfirmationIsOrderly(c: Config, w: World, m: Message, e: Env)
    requires Orderly(w) && Hears(w, m)
    ensures var v := WithConfirmation(c, w, w.swaps[m.id].swap, m, e);
            && Orderly(v) && Onward(w.swaps, v.swaps) && v.swaps.Keys == w.swaps.Keys
            && v.swaps[m.id].swap == w.swaps[m.id].swap
  {
    ReplaceIsOrderly(w, m.id, w.swaps[m.id].(confirmed := e.confirmed));
  }

  /** An answer is the confirmation and, if there is one, a plan that keeps the terms and does not go back. */
  lemma AnswerForm(c: Config, w: World, m: Message, e: Env) returns (v: World, p: Option<Plan>)
    requires Sound(c, w) && Hears(w, m)
    ensures v == WithConfirmation(c, w, w.swaps[m.id].swap, m, e) && p == PlanFor(c, w.log, w.swaps[m.id].swap, m, e)
    ensures Answer(c, w, m, e) == Carried(v, 0, m.id, p, e).(conns := map[])
    ensures p.Some? ==> Advances(w.swaps[m.id].swap, p.value)
  {
    v, p := WithConfirmation(c, w, w.swaps[m.id].swap, m, e), PlanFor(c, w.log, w.swaps[m.id].swap, m, e);
    if p.Some? {
      assert GoodEntry(c, w.log, m.id, w.swaps[m.id]);
      PlansAreGood(c, w.log, w.swaps[m.id].swap, m, e, p.value);
      FinishIsCompletion(c, w.log, w.swaps[m.id].swap, m, e);
    }
  }

  predicate Advances(s: Swap, p: Plan) {
    && p.next.terms == s.terms && s.phase.Rank() <= p.next.phase.Rank()
    && (p.ending == Finish ==> p.next.phase == Completed)
  }

  lemma AnswerIsOrderly(c: Config, w: World, m: Message, e: Env)
    requires Sound(c, w) && Orderly(w) && Hears(w, m)
    ensures Orderly(Answer(c, w, m, e)) && Onward(w.swaps, Answer(c, w, m, e).swaps)
  {
    ConfirmationIsOrderly(c, w, m, e);
    var v, p := AnswerForm(c, w, m, e);
    if p.Some? {
      PlanIsOrderly(w, v, m.id, p.value, e);
    }
  }

  lemma PlanIsOrderly(w: World, v: World, id: SwapId, p: Plan, e: Env)
    requires Orderly(v) && Onward(w.swaps, v.swaps) && v.swaps.Keys == w.swaps.Keys && id in v.swaps
    requires Advances(v.swaps[id].swap, p)
    ensures Orderly(Perform(v, 0, id, p, e)) && Onward(w.swaps, Perform(v, 0, id, p, e).swaps)
  {
    PerformIsOrderly(v, id, p, e);
    OnwardThrough(w.swaps, v.swaps, Perform(v, 0, id, p, e).swaps);
  }

  lemma NegotiationIsOrderly(c: Config, w: World, id: SwapId, terms: Terms, e: Env)
    requires Orderly(w)
    ensures Orderly(Negotiation(c, w, id, terms, e)) && Onward(w.swaps, Negotiation(c, w, id, terms, e).swaps)
  {
    if Admitted(w.swaps, id, FreshOffer(c, terms), e.liquidity, e.now).Ok? {
      AdmissionKeepsLimits(w.swaps, id, FreshOffer(c, terms), e.liquidity, e.now, w.peak);
      if id in w.swaps {
        ReplaceIsOrderly(w, id, w.swaps[id].(active := e.now));
      }
    }
  }

  lemma PingIsOrderly(w: World, id: SwapId, e: Env)
    requires Orderly(w)
    ensures var q := KeptAlive(w.swaps, id, e.now, e.height);
            Orderly(w.(swaps := q)) && Onward(w.swaps, q)
  {
    if id in w.swaps {
      ReplaceIsOrderly(w, id, w.swaps[id].(active := e.now));
    }
  }

  lemma StepIsOrderly(c: Config, w: World, x: Exchange)
    requires Sound(c, w) && Orderly(w)
    ensures Orderly(Step(c, w, x)) && Onward(w.swaps, Step(c, w, x).swaps)
  {
    match x
    case Negotiate(id, terms, e) => NegotiationIsOrderly(c, w, id, terms, e);
    case Message(m, e) => if Hears(w, m) { AnswerIsOrderly(c, w, m, e); }
    case Ping(id, e) => PingIsOrderly(w, id, e);
    case DrainPass(now, height) => DrainKeepsLimits(w.swaps, now, height, w.peak);
    case RecoveryPass(id) =>
    case RecordLost(id) =>
  }

  /** In every run at most thirty swaps are under way, reserving no more than the greatest liquidity ever read. */
  lemma {:induction false} RunsAreOrderly(c: Config, xs: seq<Exchange>)
    ensures Sound(c, Steps(c, START, xs)) && Orderly(Steps(c, START, xs))
  {
    if xs != [] {
      var n := |xs| - 1;
      RunsAreOrderly(c, xs[..n]);
      StepIsSound(c, Steps(c, START, xs[..n]), xs[n]);
      StepIsOrderly(c, Steps(c, START, xs[..n]), xs[n]);
    }
  }

  /** The entry is there after every prefix of the run from the given one on. */
  ghost predicate LivesFrom(c: Config, xs: seq<Exchange>, id: SwapId, from: nat) {
    forall i | from <= i <= |xs| :: id in Steps(c, START, xs[..i]).swaps
  }

  lemma LastStepIsOnward(c: Config, xs: seq<Exchange>)
    requires xs != []
    ensures Onward(Steps(c, START, xs[..|xs| - 1]).swaps, Steps(c, START, xs).swaps)
  {
    RunsAreOrderly(c, xs[..|xs| - 1]);
    StepIsOrderly(c, Steps(c, START, xs[..|xs| - 1]), xs[|xs| - 1]);
  }

  lemma LivesBefore(c: Config, xs: seq<Exchange>, id: SwapId, from: nat)
    requires from < |xs| && LivesFrom(c, xs, id, from)
    ensures LivesFrom(c, xs[..|xs| - 1], id, from)
  {
    var init := xs[..|xs| - 1];
    forall i | from <= i <= |init|
      ensures id in Steps(c, START, init[..i]).swaps
    {
      assert init[..i] == xs[..i];
    }
  }

  /** While its entry lives, a swap's terms never change and its phase never goes back. */
  lemma {:induction false} LiveSwapsGoOnward(c: Config, xs: seq<Exchange>, id: SwapId, from: nat)
    requires from <= |xs| && LivesFrom(c, xs, id, from)
    ensures id in Steps(c, START, xs[..from]).swaps && id in Steps(c, START, xs).swaps
    ensures var was, now := Steps(c, START, xs[..from]).swaps[id].swap, Steps(c, START, xs).swaps[id].swap;
            now.terms == was.terms && was.phase.Rank() <= now.phase.Rank()
  {
    assert xs[..|xs|] == xs;
    if from < |xs| {
      LivesBefore(c, xs, id, from);
      LiveSwapsGoOnward(c, xs[..|xs| - 1], id, from);
      assert xs[..|xs| - 1][..from] == xs[..from];
      LastStepIsOnward(c, xs);
    }
  }
}
