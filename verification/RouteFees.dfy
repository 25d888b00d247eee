/** What each maker on a route keeps, and how the taker predicts it. */
module RouteFees {
  import opened Bytes

  /** Estimated virtual size of a funding and a sweep transaction, at two satoshis a unit. */
  const FUNDING_FEE: nat := 2 * ((11 + 68 + 31 + 43) + (11 + 68 + 43))

  /** A maker's service fee for each amount it may receive. */
  type Schedule = nat -> nat

  /** What a maker forwards of the amount it receives. */
  function HopNet(fee: Schedule, mining: nat, gross: nat): nat {
    if fee(gross) + mining <= gross then gross - (fee(gross) + mining) else 0
  }

  function RouteNet(hops: seq<Schedule>, mining: nat, gross: nat): nat {
    if hops == [] then gross
    else HopNet(hops[|hops| - 1], mining, RouteNet(hops[..|hops| - 1], mining, gross))
  }

  function Offers(offers: seq<Option<Schedule>>): seq<Schedule>
    requires forall i | 0 <= i < |offers| :: offers[i].Some?
  {
    seq(|offers|, i requires 0 <= i < |offers| => offers[i].value)
  }

  /** The taker's running amount after the hops up to and including the given one. */
  method ExpectedAmountForHop(offers: seq<Option<Schedule>>, contracts: nat, send: nat, hop: nat)
    returns (r: Option<nat>)
    requires hop < |offers|
    ensures r.Some? <==> forall i | 0 <= i <= hop :: offers[i].Some?
    ensures r.Some? ==> r.value == RouteNet(Offers(offers[..hop + 1]), FUNDING_FEE * contracts, send)
  {
    var amount := send;
    for i := 0 to hop + 1
      invariant forall j | 0 <= j < i :: offers[j].Some?
      invariant amount == RouteNet(Offers(offers[..i]), FUNDING_FEE * contracts, send)
    {
      if offers[i].None? {
        return None;
      }
      assert Offers(offers[..i + 1])[..i] == Offers(offers[..i]);
      amount := HopNet(offers[i].value, FUNDING_FEE * contracts, amount);
    }
    r := Some(amount);
  }

  lemma {:induction false} RouteNetAppend(a: seq<Schedule>, b: seq<Schedule>, mining: nat, gross: nat)
    ensures RouteNet(a + b, mining, gross) == RouteNet(b, mining, RouteNet(a, mining, gross))
  {
    if b == [] {
      assert a + b == a;
    } else {
      var n := |b| - 1;
      RouteNetAppend(a, b[..n], mining, gross);
      assert (a + b)[..|a + b| - 1] == a + b[..n];
    }
  }
}
