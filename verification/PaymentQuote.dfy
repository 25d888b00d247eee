/** How much a taker must send into a route so that an exact amount comes out of it. */
module PaymentQuote {
  import opened Bytes
  import opened Arithmetic
  import opened RouteFees

  const MAX_MONEY: nat := 2_100_000_000_000_000

  /** A maker's offer: a base fee and a rate, the amount's and the locktime's percentages taken together. */
  datatype FeeTerms = FeeTerms(base: nat, num: nat, den: nat)
  {
    predicate Valid() {
      den > 0
    }

    function Fee(): Schedule
      requires Valid()
    {
      (gross: nat) => base + Ceiling(gross * num, den)
    }
  }

  /** One satoshi more in gives the same or one satoshi more out. */
  ghost predicate Gentle(fee: Schedule, mining: nat) {
    forall g: nat :: GentleAt(fee, mining, g)
  }

  predicate GentleAt(fee: Schedule, mining: nat, g: nat) {
    HopNet(fee, mining, g) <= HopNet(fee, mining, g + 1) <= HopNet(fee, mining, g) + 1
  }

  lemma Within(c: nat, k: nat, d: nat)
    requires d > 0 && d * c < d * k + d
    ensures c <= k
  {
    assert d * (k + 1) == d * k + d;
    CancelBelow(c, k + 1, d);
  }

  lemma CeilingGrows(x: nat, y: nat, den: nat)
    requires den > 0 && x <= y
    ensures Ceiling(x, den) <= Ceiling(y, den)
  {
    CeilingBounds(x, den);
    CeilingBounds(y, den);
    Within(Ceiling(x, den), Ceiling(y, den), den);
  }

  lemma CeilingGrowsSlowly(x: nat, y: nat, den: nat)
    requires den > 0 && y <= x + den
    ensures Ceiling(y, den) <= Ceiling(x, den) + 1
  {
    var c := Ceiling(x, den);
    CeilingBounds(x, den);
    CeilingBounds(y, den);
    assert den * (c + 1) == den * c + den;
    Within(Ceiling(y, den), c + 1, den);
  }

  lemma CeilingStep(g: nat, num: nat, den: nat)
    requires den > 0
    ensures Ceiling(g * num, den) <= Ceiling((g + 1) * num, den)
    ensures num <= den ==> Ceiling((g + 1) * num, den) <= Ceiling(g * num, den) + 1
  {
    assert (g + 1) * num == g * num + num;
    CeilingGrows(g * num, (g + 1) * num, den);
    if num <= den {
      CeilingGrowsSlowly(g * num, (g + 1) * num, den);
    }
  }

  lemma CeilingSteep(g: nat, num: nat, den: nat)
    requires 0 < den < num
    ensures Ceiling(g * num, den) >= g
  {
    CeilingBounds(g * num, den);
    MulMonotone(den, num, g);
    AtMost(g, Ceiling(g * num, den), den);
  }

  /** Every offer is gentle, whatever its rate. */
  lemma OffersAreGentle(t: FeeTerms, mining: nat)
    requires t.Valid()
    ensures Gentle(t.Fee(), mining)
  {
    forall g: nat
      ensures GentleAt(t.Fee(), mining, g)
    {
      CeilingStep(g, t.num, t.den);
      if t.num > t.den {
        CeilingSteep(g, t.num, t.den);
        CeilingSteep(g + 1, t.num, t.den);
      }
    }
  }

  lemma {:induction false} HopIsMonotone(fee: Schedule, mining: nat, g: nat, h: nat)
    requires Gentle(fee, mining) && g <= h
    ensures HopNet(fee, mining, g) <= HopNet(fee, mining, h)
    decreases h - g
  {
    if g < h {
      assert GentleAt(fee, mining, g);
      HopIsMonotone(fee, mining, g + 1, h);
    }
  }

  /** The least amount of which a hop forwards at least the given one; it then forwards exactly that. */
  ghost predicate LeastGross(fee: Schedule, mining: nat, net: nat, gross: nat) {
    && HopNet(fee, mining, gross) == net
    && forall g: nat | g < gross :: HopNet(fee, mining, g) < net
  }

  lemma NoSkip(fee: Schedule, mining: nat, net: nat, gross: nat)
    requires Gentle(fee, mining) && HopNet(fee, mining, gross) >= net
    requires forall g: nat | g < gross :: HopNet(fee, mining, g) < net
    ensures LeastGross(fee, mining, net, gross)
  {
    if gross > 0 {
      assert GentleAt(fee, mining, gross - 1);
    }
  }

  function AtLeastOne(n: nat): (r: nat)
    ensures r >= 1
  {
    if n == 0 then 1 else n
  }

  /** The greatest amount the search doubles to. */
  function LastDoubling(h: nat): (r: nat)
    requires h >= 1
    ensures r >= h && 2 * r > MAX_MONEY
    decreases MAX_MONEY - h
  {
    if 2 * h > MAX_MONEY then h else LastDoubling(2 * h)
  }

  // ------------------------------------------------------- what can be reached at all

  /** Nothing gives nothing, and one more in gives the same or one more out. */
  ghost predicate Smooth(f: Schedule) {
    f(0) == 0 && forall g: nat :: f(g) <= f(g + 1) <= f(g) + 1
  }

  /** Some amount of existing money gives exactly this. */
  ghost predicate Attainable(f: Schedule, net: nat) {
    exists g: nat | g <= MAX_MONEY :: f(g) == net
  }

  lemma {:induction false} SmoothGrows(f: Schedule, g: nat, h: nat)
    requires Smooth(f) && g <= h
    ensures f(g) <= f(h)
    decreases h - g
  {
    if g < h {
      SmoothGrows(f, g + 1, h);
    }
  }

  /** A smooth function leaves nothing out on its way up. */
  lemma {:induction false} SmoothReaches(f: Schedule, net: nat, top: nat) returns (g: nat)
    requires Smooth(f) && f(top) >= net
    ensures g <= top && f(g) == net
    decreases top
  {
    if f(top) == net {
      g := top;
    } else {
      assert f(top - 1) <= f(top - 1 + 1) <= f(top - 1) + 1;
      g := SmoothReaches(f, net, top - 1);
    }
  }

  lemma AttainableExactly(f: Schedule, net: nat)
    requires Smooth(f)
    ensures Attainable(f, net) <==> net <= f(MAX_MONEY)
  {
    if net <= f(MAX_MONEY) {
      var g := SmoothReaches(f, net, MAX_MONEY);
    }
    if Attainable(f, net) {
      var g: nat :| g <= MAX_MONEY && f(g) == net;
      SmoothGrows(f, g, MAX_MONEY);
    }
  }

  function Through(fee: Schedule, mining: nat): Schedule {
    (g: nat) => HopNet(fee, mining, g)
  }

  lemma HopIsSmooth(fee: Schedule, mining: nat)
    requires Gentle(fee, mining)
    ensures Smooth(Through(fee, mining))
  {
    forall g: nat
      ensures Through(fee, mining)(g) <= Through(fee, mining)(g + 1) <= Through(fee, mining)(g) + 1
    {
      assert GentleAt(fee, mining, g);
    }
  }

  /** The search refuses an amount that could be paid. */
  lemma RefusedThoughAttainable()
    ensures var t, net := FeeTerms(0, 0, 1), 1_100_000_000_000_000;
            HopNet(t.Fee(), 1, LastDoubling(AtLeastOne(net))) < net && Attainable(Through(t.Fee(), 1), net)
  {
    var t, net := FeeTerms(0, 0, 1), 1_100_000_000_000_000;
    assert Through(t.Fee(), 1)(net + 1) == net;
  }

  /**
   Finds the least amount. It refuses exactly if its last doubling falls short, and wrongly, although some amount of
   existing money would do, exactly if all money together would not fall short.
   */
  method HopGrossForNet(t: FeeTerms, mining: nat, net: nat) returns (r: Option<nat>)
    requires t.Valid()
    ensures r.None? <==> HopNet(t.Fee(), mining, LastDoubling(AtLeastOne(net))) < net
    ensures r.None? && Attainable(Through(t.Fee(), mining), net) <==>
            HopNet(t.Fee(), mining, LastDoubling(AtLeastOne(net))) < net <= HopNet(t.Fee(), mining, MAX_MONEY)
    ensures r.Some? ==> LeastGross(t.Fee(), mining, net, r.value)
  {
    var fee := t.Fee();
    OffersAreGentle(t, mining);
    HopIsSmooth(fee, mining);
    AttainableExactly(Through(fee, mining), net);
    var hi := AtLeastOne(net);
    ghost var top := LastDoubling(hi);
    while HopNet(fee, mining, hi) < net
      invariant hi >= 1 && hi >= net && LastDoubling(hi) == top
      decreases MAX_MONEY - hi
    {
      if 2 * hi > MAX_MONEY {
        return None;
      }
      hi := 2 * hi;
    }
    HopIsMonotone(fee, mining, hi, top);

    var lo: nat := net;
    while lo < hi
      invariant lo <= hi
      invariant HopNet(fee, mining, hi) >= net
      invariant forall g: nat | g < lo :: HopNet(fee, mining, g) < net
    {
      var mid := lo + (hi - lo) / 2;
      if HopNet(fee, mining, mid) >= net {
        hi := mid;
      } else {
        forall g: nat | g <= mid
          ensures HopNet(fee, mining, g) < net
        {
          HopIsMonotone(fee, mining, g, mid);
        }
        lo := mid + 1;
      }
    }
    NoSkip(fee, mining, net, lo);
    r := Some(lo);
  }

  // ------------------------------------------------------------------ the route

  function Fees(hops: seq<FeeTerms>): seq<Schedule>
    requires forall i | 0 <= i < |hops| :: hops[i].Valid()
  {
    seq(|hops|, i requires 0 <= i < |hops| => hops[i].Fee())
  }

  ghost predicate LeastForRoute(hops: seq<Schedule>, mining: nat, net: nat, gross: nat) {
    && RouteNet(hops, mining, gross) == net
    && forall g: nat | g < gross :: RouteNet(hops, mining, g) < net
  }

  lemma RouteFromFirst(fee: Schedule, rest: seq<Schedule>, mining: nat, g: nat)
    ensures RouteNet([fee] + rest, mining, g) == RouteNet(rest, mining, HopNet(fee, mining, g))
  {
    RouteNetAppend([fee], rest, mining, g);
    assert RouteNet([fee], mining, g) == HopNet(fee, mining, g);
  }

  /** The least amount for the first hop to forward what the rest needs is the least for the whole route. */
  lemma LeastComposes(fee: Schedule, rest: seq<Schedule>, mining: nat, net: nat, mid: nat, gross: nat)
    requires LeastGross(fee, mining, mid, gross) && LeastForRoute(rest, mining, net, mid)
    ensures LeastForRoute([fee] + rest, mining, net, gross)
  {
    RouteFromFirst(fee, rest, mining, gross);
    forall g: nat | g < gross
      ensures RouteNet([fee] + rest, mining, g) < net
    {
      RouteFromFirst(fee, rest, mining, g);
    }
  }

  /** No amount up to half of all money gets the given one through the route. */
  ghost predicate OutOfReach(hops: seq<Schedule>, mining: nat, net: nat) {
    forall g: nat | 2 * g <= MAX_MONEY :: RouteNet(hops, mining, g) < net
  }

  lemma {:induction false} RouteKeepsNoMore(hops: seq<Schedule>, mining: nat, g: nat)
    ensures RouteNet(hops, mining, g) <= g
  {
    if hops != [] {
      RouteKeepsNoMore(hops[..|hops| - 1], mining, g);
    }
  }

  lemma StaysOutOfReach(front: seq<Schedule>, rest: seq<Schedule>, mining: nat, net: nat)
    requires OutOfReach(rest, mining, net)
    ensures OutOfReach(front + rest, mining, net)
  {
    forall g: nat | 2 * g <= MAX_MONEY
      ensures RouteNet(front + rest, mining, g) < net
    {
      RouteNetAppend(front, rest, mining, g);
      RouteKeepsNoMore(front, mining, g);
    }
  }

  lemma HopOutOfReach(fee: Schedule, rest: seq<Schedule>, mining: nat, net: nat, mid: nat)
    requires Gentle(fee, mining) && LeastForRoute(rest, mining, net, mid)
    requires HopNet(fee, mining, LastDoubling(AtLeastOne(mid))) < mid
    ensures OutOfReach([fee] + rest, mining, net)
  {
    forall g: nat | 2 * g <= MAX_MONEY
      ensures RouteNet([fee] + rest, mining, g) < net
    {
      HopIsMonotone(fee, mining, g, LastDoubling(AtLeastOne(mid)));
      RouteFromFirst(fee, rest, mining, g);
    }
  }

  function RouteThrough(hops: seq<Schedule>, mining: nat): Schedule {
    (g: nat) => RouteNet(hops, mining, g)
  }

  lemma {:induction false} RouteStep(hops: seq<Schedule>, mining: nat, g: nat)
    requires forall i | 0 <= i < |hops| :: Gentle(hops[i], mining)
    ensures RouteNet(hops, mining, g) <= RouteNet(hops, mining, g + 1) <= RouteNet(hops, mining, g) + 1
  {
    if hops != [] {
      var n := |hops| - 1;
      RouteStep(hops[..n], mining, g);
      assert GentleAt(hops[n], mining, RouteNet(hops[..n], mining, g));
    }
  }

  lemma RouteIsSmooth(hops: seq<Schedule>, mining: nat)
    requires forall i | 0 <= i < |hops| :: Gentle(hops[i], mining)
    ensures Smooth(RouteThrough(hops, mining))
  {
    RouteKeepsNoMore(hops, mining, 0);
    forall g: nat
      ensures RouteThrough(hops, mining)(g) <= RouteThrough(hops, mining)(g + 1) <= RouteThrough(hops, mining)(g) + 1
    {
      RouteStep(hops, mining, g);
    }
  }

  lemma RouteAttainable(hops: seq<FeeTerms>, mining: nat, net: nat)
    requires forall i | 0 <= i < |hops| :: hops[i].Valid()
    ensures Attainable(RouteThrough(Fees(hops), mining), net) <==> net <= RouteNet(Fees(hops), mining, MAX_MONEY)
  {
    forall i | 0 <= i < |hops|
      ensures Gentle(Fees(hops)[i], mining)
    {
      OffersAreGentle(hops[i], mining);
    }
    RouteIsSmooth(Fees(hops), mining);
    AttainableExactly(RouteThrough(Fees(hops), mining), net);
  }

  lemma LeastIsUnique(hops: seq<Schedule>, mining: nat, net: nat, a: nat, b: nat)
    requires LeastForRoute(hops, mining, net, a) && LeastForRoute(hops, mining, net, b)
    ensures a == b
  {
  }

  /** The hops after this one need the given amount at least, and this one's last doubling falls short of it. */
  ghost predicate FallsShort(hops: seq<Schedule>, mining: nat, net: nat, i: nat, mid: nat) {
    && i < |hops| && LeastForRoute(hops[i + 1..], mining, net, mid)
    && HopNet(hops[i], mining, LastDoubling(AtLeastOne(mid))) < mid
  }

  ghost predicate Refuses(hops: seq<Schedule>, mining: nat, net: nat) {
    exists i: nat, mid: nat :: FallsShort(hops, mining, net, i, mid)
  }

  /** No hop from the given one on falls short. */
  ghost predicate CarriesFrom(hops: seq<Schedule>, mining: nat, net: nat, from: nat) {
    forall i: nat, mid: nat | from <= i :: !FallsShort(hops, mining, net, i, mid)
  }

  lemma CarriesOneMore(hops: seq<Schedule>, mining: nat, net: nat, i: nat, mid: nat)
    requires i < |hops| && CarriesFrom(hops, mining, net, i + 1) && LeastForRoute(hops[i + 1..], mining, net, mid)
    requires HopNet(hops[i], mining, LastDoubling(AtLeastOne(mid))) >= mid
    ensures CarriesFrom(hops, mining, net, i)
  {
    forall j: nat, other: nat | i <= j
      ensures !FallsShort(hops, mining, net, j, other)
    {
      if j == i && LeastForRoute(hops[i + 1..], mining, net, other) {
        LeastIsUnique(hops[i + 1..], mining, net, mid, other);
      }
    }
  }

  /**
   Walks the route backward; the amount found nets exactly what is asked, and no smaller amount nets as much. It refuses
   exactly if some hop falls short, and wrongly exactly if all money together would still net the amount.
   */
  method SolveRouteGross(hops: seq<FeeTerms>, mining: nat, net: nat) returns (r: Option<nat>)
    requires forall i | 0 <= i < |hops| :: hops[i].Valid()
    ensures r.Some? ==> LeastForRoute(Fees(hops), mining, net, r.value)
    ensures r.None? ==> OutOfReach(Fees(hops), mining, net)
    ensures r.None? <==> Refuses(Fees(hops), mining, net)
    ensures r.None? && Attainable(RouteThrough(Fees(hops), mining), net) <==>
            Refuses(Fees(hops), mining, net) && net <= RouteNet(Fees(hops), mining, MAX_MONEY)
  {
    ghost var fees := Fees(hops);
    RouteAttainable(hops, mining, net);
    var required: nat := net;
    for i := |hops| downto 0
      invariant LeastForRoute(fees[i..], mining, net, required) && CarriesFrom(fees, mining, net, i)
    {
      assert fees[i..] == [fees[i]] + fees[i + 1..];
      var gross := HopGrossForNet(hops[i], mining, required);
      if gross.None? {
        OffersAreGentle(hops[i], mining);
        HopOutOfReach(fees[i], fees[i + 1..], mining, net, required);
        assert FallsShort(fees, mining, net, i, required);
        assert fees == fees[..i] + fees[i..];
        StaysOutOfReach(fees[..i], fees[i..], mining, net);
        return None;
      }
      CarriesOneMore(fees, mining, net, i, required);
      LeastComposes(fees[i], fees[i + 1..], mining, net, required, gross.value);
      required := gross.value;
    }
    assert fees[0..] == fees;

    var forward: nat := required;
    for i := 0 to |hops|
      invariant forward == RouteNet(fees[..i], mining, required)
    {
      assert fees[..i + 1][..i] == fees[..i];
      forward := HopNet(hops[i].Fee(), mining, forward);
    }
    assert fees[..|hops|] == fees;
    assert forward == net;
    r := Some(required);
  }
}
