/** Whole runs past a refund deadline: a swap with funds committed is handed to recovery, whatever else goes on. */
module DeadlineRuns {
  import opened Bytes
  import opened MakerState
  import opened MakerHandlers
  import opened MakerRegistry
  import opened MakerRuns
  import opened FreshRuns

  /** Funds are committed, the keys are not exchanged, and the deadline is past at the given height. */
  predicate Overdue(w: World, id: SwapId, height: nat) {
    && id in w.swaps && w.swaps[id].swap.phase == AwaitingHandover && w.swaps[id].swap.outgoing != []
    && PastDeadline(w.swaps[id], height)
  }

  predicate IsHandover(x: Exchange, id: SwapId) {
    x.Message? && x.message.Handover? && x.message.id == id
  }

  /** A drain that read a height at which the deadline is past. */
  predicate ReadsFrom(x: Exchange, height: nat) {
    x.DrainPass? && x.height.Some? && x.height.value >= height
  }

  /** The entry is the same but for its timer. */
  predicate SameBut(e: Entry, f: Entry) {
    f.swap == e.swap && f.confirmed == e.confirmed
  }

  /** Other messages find no plan, or change nothing. */
  lemma CommittedIsLeftAlone(c: Config, log: Log, s: Swap, m: Message, e: Env)
    requires IsProtocolMessage(m) && s.phase == AwaitingHandover && !m.Handover?
    ensures PlanFor(c, log, s, m, e).None? || PlanFor(c, log, s, m, e).value.ending == Stay
    ensures m.ProofOfFunding? ==> !ProofHolds(c, CacheOf(log), s, m.locktime, m.claims, e)
  {
  }

  lemma CarriedElsewhere(w: World, other: SwapId, plan: Option<Plan>, e: Env, id: SwapId)
    requires id in w.swaps && id != other
    ensures id in Carried(w, 0, other, plan, e).swaps && Carried(w, 0, other, plan, e).swaps[id] == w.swaps[id]
  {
  }

  lemma AnswerElsewhere(c: Config, w: World, m: Message, e: Env, id: SwapId)
    requires Hears(w, m) && m.id != id && id in w.swaps
    ensures id in Answer(c, w, m, e).swaps && Answer(c, w, m, e).swaps[id] == w.swaps[id]
  {
    var s := w.swaps[m.id].swap;
    var v := WithConfirmation(c, w, s, m, e);
    assert v.swaps[id] == w.swaps[id];
    CarriedElsewhere(v, m.id, PlanFor(c, w.log, s, m, e), e, id);
  }

  lemma AnswerHere(c: Config, w: World, m: Message, e: Env)
    requires Hears(w, m) && !m.Handover? && w.swaps[m.id].swap.phase == AwaitingHandover
    ensures Answer(c, w, m, e).swaps == w.swaps
  {
    CommittedIsLeftAlone(c, w.log, w.swaps[m.id].swap, m, e);
  }

  lemma MessageLeavesAlone(c: Config, w: World, m: Message, e: Env, id: SwapId, height: nat)
    requires Overdue(w, id, height) && !IsHandover(Message(m, e), id)
    ensures id in Step(c, w, Message(m, e)).swaps && SameBut(w.swaps[id], Step(c, w, Message(m, e)).swaps[id])
  {
    if Hears(w, m) {
      if m.id == id {
        AnswerHere(c, w, m, e);
      } else {
        AnswerElsewhere(c, w, m, e, id);
      }
    }
  }

  lemma StepLeavesAlone(c: Config, w: World, x: Exchange, id: SwapId, height: nat)
    requires Overdue(w, id, height) && !IsHandover(x, id) && !x.DrainPass?
    ensures id in Step(c, w, x).swaps && SameBut(w.swaps[id], Step(c, w, x).swaps[id])
    ensures x.Ping? && x.env.height >= height ==> Step(c, w, x).swaps[id] == w.swaps[id]
  {
    match x
    case Message(m, e) => MessageLeavesAlone(c, w, m, e, id, height);
    case Ping(_, e) => if e.height >= height { PastStaysPast(w.swaps[id], height, e.height); }
    case _ =>
  }

  lemma DrainRecovers(c: Config, w: World, x: Exchange, id: SwapId, height: nat)
    requires Overdue(w, id, height) && x.DrainPass?
    ensures var w' := Step(c, w, x);
            || (id in w'.swaps && w'.swaps[id] == w.swaps[id] && !ReadsFrom(x, height))
            || (id !in w'.swaps && id in w'.cases && w'.cases[id] == CaseOf(w.swaps[id]))
  {
    if ReadsFrom(x, height) {
      PastStaysPast(w.swaps[id], height, x.height.value);
    }
  }

  /** Out of the registry and into recovery with these coins. */
  predicate Passes(w: World, w': World, id: SwapId, k: Case) {
    id in w.swaps && id !in w'.swaps && id in w'.cases && w'.cases[id] == k
  }

  /** Some drain after the given point took the swap out of the registry and handed its coins to recovery. */
  ghost predicate HandedOver(c: Config, xs: seq<Exchange>, from: nat, id: SwapId, k: Case) {
    exists i: nat :: from <= i && PassesAt(c, xs, i, id, k)
  }

  ghost predicate PassesAt(c: Config, xs: seq<Exchange>, i: nat, id: SwapId, k: Case) {
    i < |xs| && Passes(Steps(c, START, xs[..i]), Steps(c, START, xs[..i + 1]), id, k)
  }

  lemma PassesBefore(c: Config, xs: seq<Exchange>, n: nat, i: nat, id: SwapId, k: Case)
    requires n <= |xs| && PassesAt(c, xs[..n], i, id, k)
    ensures PassesAt(c, xs, i, id, k)
  {
    assert xs[..n][..i] == xs[..i] && xs[..n][..i + 1] == xs[..i + 1];
  }

  /** Still in the registry, the same, and no drain has read a height past its deadline. */
  ghost predicate StillThere(c: Config, xs: seq<Exchange>, from: nat, id: SwapId, height: nat, e: Entry) {
    && Overdue(Steps(c, START, xs), id, height) && SameBut(e, Steps(c, START, xs).swaps[id])
    && forall i | from <= i < |xs| :: !ReadsFrom(xs[i], height)
  }

  lemma HandedOverEarlier(c: Config, xs: seq<Exchange>, from: nat, id: SwapId, k: Case)
    requires xs != [] && HandedOver(c, xs[..|xs| - 1], from, id, k)
    ensures HandedOver(c, xs, from, id, k)
  {
    var i: nat :| from <= i && PassesAt(c, xs[..|xs| - 1], i, id, k);
    PassesBefore(c, xs, |xs| - 1, i, id, k);
  }

  /** One more exchange. */
  lemma OneMore(c: Config, xs: seq<Exchange>, from: nat, id: SwapId, height: nat, e: Entry)
    requires from < |xs| && StillThere(c, xs[..|xs| - 1], from, id, height, e) && !IsHandover(xs[|xs| - 1], id)
    ensures StillThere(c, xs, from, id, height, e) || HandedOver(c, xs, from, id, CaseOf(e))
  {
    var n := |xs| - 1;
    var w, x := Steps(c, START, xs[..n]), xs[n];
    assert xs[..n + 1] == xs;
    assert forall i | from <= i < n :: xs[..n][i] == xs[i];
    if x.DrainPass? {
      DrainRecovers(c, w, x, id, height);
      assert Passes(w, Steps(c, START, xs), id, CaseOf(e)) ==> PassesAt(c, xs, n, id, CaseOf(e));
    } else {
      StepLeavesAlone(c, w, x, id, height);
    }
  }

  /**
   From a point where a committed swap is past its deadline, until a key handover for it: it stays as it was, however
   many keepalives and other messages come, until a drain hands its coins to recovery; and the first drain that reads
   a height past the deadline does.
   */
  lemma {:induction false} OverdueIsRecovered(c: Config, xs: seq<Exchange>, from: nat, id: SwapId, height: nat)
    requires from <= |xs| && Overdue(Steps(c, START, xs[..from]), id, height)
    requires forall i | from <= i < |xs| :: !IsHandover(xs[i], id)
    ensures var e := Steps(c, START, xs[..from]).swaps[id];
            StillThere(c, xs, from, id, height, e) || HandedOver(c, xs, from, id, CaseOf(e))
    decreases |xs|
  {
    var e := Steps(c, START, xs[..from]).swaps[id];
    if from == |xs| {
      assert xs[..from] == xs;
    } else {
      var init := xs[..|xs| - 1];
      assert init[..from] == xs[..from];
      OverdueIsRecovered(c, init, from, id, height);
      if HandedOver(c, init, from, id, CaseOf(e)) {
        HandedOverEarlier(c, xs, from, id, CaseOf(e));
      } else {
        OneMore(c, xs, from, id, height, e);
      }
    }
  }
}
