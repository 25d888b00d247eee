/** What a maker has paid over a whole run, all its swaps together, against the coins it has taken. */
module Ledger {
  import opened RouteFees
  import opened MakerState
  import opened MakerHandlers
  import opened MakerSafety
  import opened MakerRuns

  /** The deals whose keys were released, each once however often they were. */
  function Closed(log: Log): seq<Deal> {
    if log == [] then []
    else
      var before, e := Closed(log[..|log| - 1]), log[|log| - 1];
      if e.Release? && DealOf(e.batch.id, e.batch.swap) !in before then before + [DealOf(e.batch.id, e.batch.swap)] else before
  }

  /** The coins given away, and the fees on them. */
  function Paid(ds: seq<Deal>): nat {
    if ds == [] then 0
    else
      var d := ds[|ds| - 1];
      Paid(ds[..|ds| - 1]) + OutgoingTotal(d.outgoing) + d.service + FUNDING_FEE * |d.outgoing|
  }

  /** The coins taken for them. */
  function Taken(ds: seq<Deal>): seq<Incoming> {
    if ds == [] then [] else Taken(ds[..|ds| - 1]) + ds[|ds| - 1].incoming
  }

  predicate Holds(coins: seq<Incoming>, o: OutPoint) {
    exists i | 0 <= i < |coins| :: coins[i].outpoint == o
  }

  /** What the coins are worth, an outpoint counted once. */
  function Worth(coins: seq<Incoming>): nat {
    if coins == [] then 0
    else
      var n := |coins| - 1;
      Worth(coins[..n]) + if Holds(coins[..n], coins[n].outpoint) then 0 else coins[n].amount
  }

  /** Nothing of value among these coins is held already. */
  predicate AddsNew(held: seq<Incoming>, coins: seq<Incoming>) {
    forall j | 0 <= j < |coins| && Holds(held, coins[j].outpoint) :: coins[j].amount == 0
  }

  /** No deal takes a coin of value that an earlier one took. */
  predicate Disjoint(ds: seq<Deal>) {
    forall b | 0 <= b < |ds| :: AddsNew(Taken(ds[..b]), ds[b].incoming)
  }

  // --------------------------------------------------------------- counting once

  lemma {:induction false} TotalOfSum(a: seq<Incoming>, b: seq<Incoming>)
    ensures IncomingTotal(a + b) == IncomingTotal(a) + IncomingTotal(b)
  {
    if b == [] {
      assert a + b == a;
    } else {
      var n := |b| - 1;
      TotalOfSum(a, b[..n]);
      assert (a + b)[..|a| + n] == a + b[..n];
    }
  }

  lemma HoldsInSum(a: seq<Incoming>, b: seq<Incoming>, o: OutPoint)
    ensures Holds(a + b, o) <==> Holds(a, o) || Holds(b, o)
  {
    var all := a + b;
    assert forall i | 0 <= i < |a| :: all[i] == a[i];
    assert forall i | 0 <= i < |b| :: all[|a| + i] == b[i];
    if Holds(all, o) {
      var i :| 0 <= i < |all| && all[i].outpoint == o;
      if i >= |a| {
        assert b[i - |a|].outpoint == o;
      } else {
        assert a[i].outpoint == o;
      }
    }
  }

  /** The last of distinct coins is held after the others exactly if it was before. */
  lemma LastIsNew(a: seq<Incoming>, b: seq<Incoming>)
    requires b != [] && DistinctIncoming(b)
    ensures Holds(a + b[..|b| - 1], b[|b| - 1].outpoint) <==> Holds(a, b[|b| - 1].outpoint)
  {
    HoldsInSum(a, b[..|b| - 1], b[|b| - 1].outpoint);
  }

  lemma {:induction false} WorthOfSum(a: seq<Incoming>, b: seq<Incoming>)
    requires DistinctIncoming(b)
    ensures Worth(a + b) <= Worth(a) + IncomingTotal(b)
    ensures Worth(a + b) == Worth(a) + IncomingTotal(b) <==> AddsNew(a, b)
  {
    if b == [] {
      assert a + b == a;
    } else {
      var n := |b| - 1;
      WorthOfSum(a, b[..n]);
      LastIsNew(a, b);
      assert (a + b)[..|a| + n] == a + b[..n];
      assert AddsNew(a, b) <==> AddsNew(a, b[..n]) && (Holds(a, b[n].outpoint) ==> b[n].amount == 0);
    }
  }

  predicate AllAddUp(ds: seq<Deal>) {
    forall b | 0 <= b < |ds| :: AddsUp(ds[b], |ds[b].outgoing|)
  }

  /** The books balance over all deals together. */
  lemma {:induction false} PaidIsTaken(ds: seq<Deal>)
    requires AllAddUp(ds)
    ensures Paid(ds) == IncomingTotal(Taken(ds))
  {
    if ds != [] {
      var n := |ds| - 1;
      PaidIsTaken(ds[..n]);
      TotalOfSum(Taken(ds[..n]), ds[n].incoming);
    }
  }

  lemma DisjointLast(ds: seq<Deal>)
    requires ds != []
    ensures Disjoint(ds) <==> Disjoint(ds[..|ds| - 1]) && AddsNew(Taken(ds[..|ds| - 1]), ds[|ds| - 1].incoming)
  {
    var init := ds[..|ds| - 1];
    assert forall b | 0 <= b < |init| :: init[..b] == ds[..b];
    if Disjoint(init) && AddsNew(Taken(init), ds[|ds| - 1].incoming) {
      forall b | 0 <= b < |ds|
        ensures AddsNew(Taken(ds[..b]), ds[b].incoming)
      {
        assert b < |init| ==> AddsNew(Taken(init[..b]), init[b].incoming);
      }
    }
  }

  lemma {:induction false} WorthIsTotal(ds: seq<Deal>)
    requires AllAddUp(ds)
    ensures Worth(Taken(ds)) <= IncomingTotal(Taken(ds))
    ensures Worth(Taken(ds)) == IncomingTotal(Taken(ds)) <==> Disjoint(ds)
  {
    if ds != [] {
      var n := |ds| - 1;
      WorthIsTotal(ds[..n]);
      TotalOfSum(Taken(ds[..n]), ds[n].incoming);
      WorthOfSum(Taken(ds[..n]), ds[n].incoming);
      DisjointLast(ds);
    }
  }

  // ------------------------------------------------------------------- over every run

  lemma ReleasedDeal(c: Config, log: Log, e: Effect)
    requires Lawful(c, log) && Allowed(c, log, e) && e.Release?
    ensures Funded(log, DealOf(e.batch.id, e.batch.swap))
    ensures AddsUp(DealOf(e.batch.id, e.batch.swap), |DealOf(e.batch.id, e.batch.swap).outgoing|)
  {
    var d := DealOf(e.batch.id, e.batch.swap);
    FundedAddsUp(c, log, d, |d.outgoing|);
  }

  predicate NoneTwice(ds: seq<Deal>) {
    forall a, b | 0 <= a < b < |ds| :: ds[a] != ds[b]
  }

  /** Whatever was closed had been funded at an accepted proof, and adds up. */
  lemma {:induction false} ClosedWereFunded(c: Config, log: Log)
    requires Lawful(c, log)
    ensures AllAddUp(Closed(log)) && NoneTwice(Closed(log))
    ensures forall b | 0 <= b < |Closed(log)| :: Funded(log, Closed(log)[b])
  {
    if log != [] {
      var n := |log| - 1;
      LawfulPrefix(c, log, n);
      ClosedWereFunded(c, log[..n]);
      assert Allowed(c, log[..n], log[n]);
      if log[n].Release? {
        ReleasedDeal(c, log[..n], log[n]);
      }
    }
  }

  /**
   Over every run the maker has given away, fees included, as much as the coins it took add up to. This is no more than
   those coins are worth exactly if no two proofs that led to a release claimed a coin of value in common.
   */
  lemma ValueAcrossSwaps(c: Config, actions: seq<Action>)
    ensures var ds := Closed(After(c, START, actions).log);
            && Paid(ds) == IncomingTotal(Taken(ds))
            && (Paid(ds) <= Worth(Taken(ds)) <==> Disjoint(ds))
            && forall b | 0 <= b < |ds| :: Funded(After(c, START, actions).log, ds[b])
  {
    RunsAreSound(c, actions);
    ClosedWereFunded(c, After(c, START, actions).log);
    PaidIsTaken(Closed(After(c, START, actions).log));
    WorthIsTotal(Closed(After(c, START, actions).log));
  }

  predicate Shares(d: Deal, e: Deal) {
    exists i | 0 <= i < |d.incoming| :: Holds(e.incoming, d.incoming[i].outpoint)
  }

  /** Accepted proofs of different deals claim no outpoint in common. */
  predicate ProofsApart(log: Log) {
    forall i, j | 0 <= i < |log| && 0 <= j < |log| && log[i].Fund? && log[j].Fund? ::
      log[i].deal == log[j].deal || !Shares(log[i].deal, log[j].deal)
  }

  lemma {:induction false} NotTaken(ds: seq<Deal>, o: OutPoint)
    requires forall a | 0 <= a < |ds| :: !Holds(ds[a].incoming, o)
    ensures !Holds(Taken(ds), o)
  {
    if ds != [] {
      var n := |ds| - 1;
      NotTaken(ds[..n], o);
      HoldsInSum(Taken(ds[..n]), ds[n].incoming, o);
    }
  }

  lemma FundedApart(log: Log, d: Deal, e: Deal)
    requires ProofsApart(log) && Funded(log, d) && Funded(log, e) && d != e
    ensures !Shares(d, e)
  {
    var x :| 0 <= x < |log| && log[x] == Fund(d, |d.outgoing|);
    var y :| 0 <= y < |log| && log[y] == Fund(e, |e.outgoing|);
    assert !Shares(log[x].deal, log[y].deal);
  }

  lemma ApartIsDisjoint(log: Log, ds: seq<Deal>)
    requires ProofsApart(log) && NoneTwice(ds) && forall b | 0 <= b < |ds| :: Funded(log, ds[b])
    ensures Disjoint(ds)
  {
    forall b, j | 0 <= b < |ds| && 0 <= j < |ds[b].incoming|
      ensures !Holds(Taken(ds[..b]), ds[b].incoming[j].outpoint)
    {
      forall a | 0 <= a < b
        ensures !Holds(ds[a].incoming, ds[b].incoming[j].outpoint)
      {
        assert Funded(log, ds[a]) && Funded(log, ds[b]);
        FundedApart(log, ds[b], ds[a]);
      }
      NotTaken(ds[..b], ds[b].incoming[j].outpoint);
    }
  }

  /** It is enough to refuse, at the proof, every outpoint that another accepted proof has claimed. */
  lemma ProofsApartAreSafe(c: Config, actions: seq<Action>)
    requires ProofsApart(After(c, START, actions).log)
    ensures var ds := Closed(After(c, START, actions).log); Paid(ds) <= Worth(Taken(ds))
  {
    ValueAcrossSwaps(c, actions);
    RunsAreSound(c, actions);
    ClosedWereFunded(c, After(c, START, actions).log);
    ApartIsDisjoint(After(c, START, actions).log, Closed(After(c, START, actions).log));
  }
}
