/** A Taproot maker's split of its fee over the contracts of one hop. */
module FeeSplit {
  import opened Bytes
  import opened RouteFees
  import opened Arithmetic

  const U64_MAX: nat := 0xffff_ffff_ffff_ffff

  datatype Problem = AmountsOverflow | FeeExceedsIncoming | CorrectionUnderflows

  function Sum(a: seq<nat>): nat {
    if a == [] then 0 else Sum(a[..|a| - 1]) + a[|a| - 1]
  }

  /** An amount less its share of the fee, rounded in the contract's favour. */
  function Floored(a: nat, fee: nat, total: nat): (r: nat)
    requires a <= total && fee <= total && total > 0
  {
    ShareBounds(a, fee, total);
    a - Quotient(fee * a, total)
  }

  function FlooredAll(a: seq<nat>, fee: nat, total: nat): (f: seq<nat>)
    requires fee <= total && total > 0 && AllAtMost(a, total)
    ensures |f| == |a|
  {
    if a == [] then [] else FlooredAll(a[..|a| - 1], fee, total) + [Floored(a[|a| - 1], fee, total)]
  }

  lemma {:induction false} FlooredAt(a: seq<nat>, fee: nat, total: nat, i: nat)
    requires fee <= total && total > 0 && AllAtMost(a, total) && i < |a|
    ensures FlooredAll(a, fee, total)[i] == Floored(a[i], fee, total) <= a[i]
  {
    if i < |a| - 1 {
      FlooredAt(a[..|a| - 1], fee, total, i);
    }
  }

  predicate AllAtMost(a: seq<nat>, total: nat) {
    forall i | 0 <= i < |a| :: a[i] <= total
  }

  /** The last index holding the greatest value. */
  function LastMax(a: seq<nat>): (k: nat)
    requires a != []
    ensures k < |a|
    ensures forall i | 0 <= i < |a| :: a[i] <= a[k] && (i > k ==> a[i] < a[k])
  {
    var n := |a| - 1;
    if n == 0 then 0
    else
      var k := LastMax(a[..n]);
      assert forall i | 0 <= i < n :: a[..n][i] == a[i];
      if a[k] <= a[n] then n else k
  }

  // ---------------------------------------------------------- the arithmetic

  lemma ShareBounds(a: nat, fee: nat, total: nat)
    requires a <= total && fee <= total && total > 0
    ensures Quotient(fee * a, total) <= a
    ensures total * (Quotient(fee * a, total)) <= fee * a < total * (Quotient(fee * a, total)) + total
  {
    var q := Quotient(fee * a, total);
    QuotientBounds(fee * a, total);
    MulMonotone(fee, total, a);
    AtMost(q, a, total);
  }

  lemma {:induction false} SumAtLeast(a: seq<nat>, i: nat)
    requires i < |a|
    ensures a[i] <= Sum(a)
  {
    if i < |a| - 1 {
      SumAtLeast(a[..|a| - 1], i);
    }
  }

  lemma SumLast(a: seq<nat>, v: nat)
    ensures Sum(a + [v]) == Sum(a) + v
  {
    assert (a + [v])[..|a|] == a;
  }

  lemma AllWithinSum(a: seq<nat>)
    ensures AllAtMost(a, Sum(a))
  {
    forall i | 0 <= i < |a| {
      SumAtLeast(a, i);
    }
  }

  lemma SumStep(x: nat, y: nat, n: nat, v: nat, f: nat, net: nat, total: nat)
    requires x * net <= total * y <= x * net + total * n
    requires v * net <= total * f < v * net + total
    ensures (x + v) * net <= total * (y + f) < (x + v) * net + total * (n + 1)
  {
    assert (x + v) * net == x * net + v * net;
    assert total * (y + f) == total * y + total * f;
    assert total * (n + 1) == total * n + total;
  }

  /** Flooring leaves each contract less than one satoshi too much. */
  lemma {:induction false} FlooredSum(a: seq<nat>, fee: nat, total: nat)
    requires fee <= total && total > 0 && AllAtMost(a, total)
    ensures Sum(a) * (total - fee) <= total * Sum(FlooredAll(a, fee, total)) <= Sum(a) * (total - fee) + total * |a|
    ensures a != [] ==> total * Sum(FlooredAll(a, fee, total)) < Sum(a) * (total - fee) + total * |a|
  {
    if a != [] {
      var n := |a| - 1;
      var f := FlooredAll(a, fee, total);
      assert f[..n] == FlooredAll(a[..n], fee, total);
      FlooredSum(a[..n], fee, total);
      OneFloored(a[n], fee, total);
      SumStep(Sum(a[..n]), Sum(f[..n]), n, a[n], f[n], total - fee, total);
    }
  }

  lemma OneFloored(a: nat, fee: nat, total: nat)
    requires a <= total && fee <= total && total > 0
    ensures a * (total - fee) <= total * Floored(a, fee, total) < a * (total - fee) + total
  {
    ShareBounds(a, fee, total);
    var q := Quotient(fee * a, total);
    assert total * (a - q) == total * a - total * q;
    assert a * (total - fee) == a * total - a * fee;
  }

  /** What flooring leaves over the exact total is less than the number of contracts. */
  lemma RemainderBound(a: seq<nat>, fee: nat)
    requires a != [] && fee <= Sum(a) && Sum(a) > 0 && AllAtMost(a, Sum(a))
    ensures var net, floored := Sum(a) - fee, Sum(FlooredAll(a, fee, Sum(a)));
            net <= floored < net + |a|
  {
    FlooredSum(a, fee, Sum(a));
    CancelBetween(Sum(a), Sum(a) - fee, Sum(FlooredAll(a, fee, Sum(a))), |a|);
  }

  lemma {:induction false} SumAtMost(a: seq<nat>, m: nat)
    requires AllAtMost(a, m)
    ensures Sum(a) <= |a| * m
  {
    if a != [] {
      SumAtMost(a[..|a| - 1], m);
      assert |a| * m == (|a| - 1) * m + m;
    }
  }

  lemma {:induction false} SumUpdate(a: seq<nat>, i: nat, v: nat)
    requires i < |a|
    ensures Sum(a[i := v]) == Sum(a) - a[i] + v
  {
    var n := |a| - 1;
    if i < n {
      SumUpdate(a[..n], i, v);
      assert a[i := v][..n] == a[..n][i := v];
    } else {
      assert a[i := v][..n] == a[..n];
    }
  }

  /** With n contracts the largest one bears the remainder once the net total is at least (n - 1)(n - 2). */
  lemma LargestBears(f: seq<nat>, net: nat)
    requires f != [] && net <= Sum(f) < net + |f|
    requires net >= (|f| - 1) * (|f| - 2)
    ensures Sum(f) - net <= f[LastMax(f)]
  {
    var n, m, r := |f|, f[LastMax(f)], Sum(f) - net;
    SumAtMost(f, m);
    if n >= 2 && m < r {
      TooSmall(n, m, r, net);
    }
  }

  lemma TooSmall(n: nat, m: nat, r: nat, net: nat)
    requires m < r < n && net >= (n - 1) * (n - 2)
    ensures n * m < net + r
  {
    MulMonotone(m, r - 1, n);
    assert n * (r - 1) == (n - 1) * (r - 1) + r - 1;
    MulMonotone(r - 1, n - 2, n - 1);
  }

  // --------------------------------------------------------------- the split

  /** The amounts with what they hold beyond the net total taken off the last of the largest. */
  function Corrected(f: seq<nat>, net: nat): Result<seq<nat>, Problem>
    requires net <= Sum(f) && f != []
  {
    var k, remainder := LastMax(f), Sum(f) - net;
    if f[k] < remainder then Err(CorrectionUnderflows) else Ok(f[k := f[k] - remainder])
  }

  lemma CorrectedIsExact(f: seq<nat>, net: nat)
    requires net <= Sum(f) && f != [] && Corrected(f, net).Ok?
    ensures var out := Corrected(f, net).value;
            && |out| == |f| && Sum(out) == net
            && forall i | 0 <= i < |f| :: out[i] <= f[i] && (i != LastMax(f) ==> out[i] == f[i])
  {
    var k := LastMax(f);
    SumUpdate(f, k, f[k] - (Sum(f) - net));
  }

  function HopFee(a: seq<nat>, service: nat): nat {
    service + FUNDING_FEE * |a|
  }

  lemma FeeIsPositive(a: seq<nat>, service: nat)
    requires a != []
    ensures HopFee(a, service) > 0
  {
  }

  /** Every amount less its floored share of the fee, corrected to the net total. */
  function Shared(a: seq<nat>, fee: nat): Result<seq<nat>, Problem>
    requires a != [] && 0 < fee <= Sum(a)
  {
    AllWithinSum(a);
    RemainderBound(a, fee);
    Corrected(FlooredAll(a, fee, Sum(a)), Sum(a) - fee)
  }

  /** The outgoing amounts for the given incoming ones and service fee. */
  function Split(a: seq<nat>, service: nat): (r: Result<seq<nat>, Problem>)
  {
    if Sum(a) > U64_MAX then Err(AmountsOverflow)
    else if HopFee(a, service) > Sum(a) then Err(FeeExceedsIncoming)
    else if a == [] then Ok([])
    else
      FeeIsPositive(a, service);
      Shared(a, HopFee(a, service))
  }

  /** All amounts are at most their inputs and, but for the one at k, fair. */
  ghost predicate Follows(a: seq<nat>, out: seq<nat>, net: nat, k: nat) {
    && |out| == |a| && k < |a|
    && (forall i | 0 <= i < |a| :: out[i] <= a[i])
    && (forall i | 0 <= i < |a| && i != k :: Fair(a[i], out[i], net, Sum(a)))
  }

  /** At least the proportional share of the net total, and less than one satoshi above it. */
  predicate Fair(a: nat, out: nat, net: nat, total: nat) {
    a * net <= total * out < a * net + total
  }

  lemma FlooredFollows(a: seq<nat>, fee: nat, f: seq<nat>, net: nat, k: nat)
    requires fee <= Sum(a) && Sum(a) > 0 && AllAtMost(a, Sum(a)) && k < |a|
    requires f == FlooredAll(a, fee, Sum(a)) && net == Sum(a) - fee
    ensures Follows(a, f, net, k)
  {
    forall i | 0 <= i < |a|
      ensures f[i] <= a[i] && Fair(a[i], f[i], net, Sum(a))
    {
      FlooredAt(a, fee, Sum(a), i);
      OneFloored(a[i], fee, Sum(a));
    }
  }

  lemma CorrectedFollows(a: seq<nat>, f: seq<nat>, net: nat, out: seq<nat>, k: nat)
    requires f != [] && net <= Sum(f) && Corrected(f, net) == Ok(out) && k == LastMax(f) && Follows(a, f, net, k)
    ensures Sum(out) == net && Follows(a, out, net, k)
  {
    CorrectedIsExact(f, net);
    forall i | 0 <= i < |a| && i != k
      ensures Fair(a[i], out[i], net, Sum(a))
    {
      assert out[i] == f[i] && Fair(a[i], f[i], net, Sum(a));
    }
  }

  lemma SharedForm(a: seq<nat>, fee: nat) returns (f: seq<nat>)
    requires a != [] && 0 < fee <= Sum(a)
    ensures AllAtMost(a, Sum(a)) && f == FlooredAll(a, fee, Sum(a)) && Sum(a) - fee <= Sum(f) < Sum(a) - fee + |a|
    ensures Shared(a, fee) == Corrected(f, Sum(a) - fee)
  {
    AllWithinSum(a);
    RemainderBound(a, fee);
    f := FlooredAll(a, fee, Sum(a));
  }

  lemma SplitForm(a: seq<nat>, service: nat) returns (f: seq<nat>, fee: nat)
    requires a != [] && HopFee(a, service) <= Sum(a) <= U64_MAX
    ensures fee == HopFee(a, service) && 0 < fee <= Sum(a) && AllAtMost(a, Sum(a))
    ensures f == FlooredAll(a, fee, Sum(a)) && Sum(a) - fee <= Sum(f) < Sum(a) - fee + |a|
    ensures Split(a, service) == Corrected(f, Sum(a) - fee)
  {
    FeeIsPositive(a, service);
    fee := HopFee(a, service);
    f := SharedForm(a, fee);
  }

  /**
   Exact and fair: the outputs add up to the inputs less the fee, none exceeds its input, and every output but one
   is its proportional share or less than one satoshi above it.
   */
  lemma SplitIsExact(a: seq<nat>, service: nat) returns (out: seq<nat>, net: nat, corrected: nat)
    requires a != [] && Split(a, service).Ok?
    ensures Split(a, service) == Ok(out) && net == Sum(a) - HopFee(a, service)
    ensures Sum(out) == net && Follows(a, out, net, corrected)
  {
    var f, fee := SplitForm(a, service);
    net, out, corrected := Sum(a) - fee, Split(a, service).value, LastMax(f);
    CorrectedIsFair(a, fee, f, net, out, corrected);
  }

  lemma CorrectedIsFair(a: seq<nat>, fee: nat, f: seq<nat>, net: nat, out: seq<nat>, k: nat)
    requires a != [] && fee <= Sum(a) && Sum(a) > 0 && AllAtMost(a, Sum(a))
    requires f == FlooredAll(a, fee, Sum(a)) && net == Sum(a) - fee <= Sum(f) && k == LastMax(f)
    requires Corrected(f, net) == Ok(out)
    ensures Sum(out) == net && Follows(a, out, net, k)
  {
    FlooredFollows(a, fee, f, net, k);
    CorrectedFollows(a, f, net, out, k);
  }

  /** The split fails only on an overflow, a fee above the total, or a net total below (n - 1)(n - 2). */
  lemma SplitSucceeds(a: seq<nat>, service: nat)
    requires Sum(a) <= U64_MAX && HopFee(a, service) <= Sum(a)
    requires Sum(a) - HopFee(a, service) >= (|a| - 1) * (|a| - 2)
    ensures Split(a, service).Ok?
  {
    if a != [] {
      var f, fee := SplitForm(a, service);
      LargestBears(f, Sum(a) - fee);
    }
  }

  // -------------------------------------------------- the bound is the best one

  function Equal(n: nat, v: nat): seq<nat> {
    if n == 0 then [] else Equal(n - 1, v) + [v]
  }

  lemma {:induction false} EqualAll(n: nat, v: nat)
    ensures |Equal(n, v)| == n && forall i | 0 <= i < n :: Equal(n, v)[i] == v
  {
    if n > 0 {
      EqualAll(n - 1, v);
    }
  }

  lemma {:induction false} EqualSum(n: nat, v: nat)
    ensures Sum(Equal(n, v)) == n * v
  {
    if n > 0 {
      EqualSum(n - 1, v);
      SumLast(Equal(n - 1, v), v);
      assert (n - 1) * v + v == n * v;
    }
  }

  lemma FlooredLast(a: seq<nat>, v: nat, fee: nat, total: nat)
    requires fee <= total && total > 0 && AllAtMost(a, total) && v <= total
    ensures AllAtMost(a + [v], total)
    ensures FlooredAll(a + [v], fee, total) == FlooredAll(a, fee, total) + [Floored(v, fee, total)]
  {
    assert (a + [v])[..|a|] == a;
  }

  lemma {:induction false} EqualFloored(n: nat, v: nat, fee: nat, total: nat)
    requires fee <= total && total > 0 && v <= total
    ensures AllAtMost(Equal(n, v), total)
    ensures FlooredAll(Equal(n, v), fee, total) == Equal(n, Floored(v, fee, total))
  {
    if n > 0 {
      EqualFloored(n - 1, v, fee, total);
      FlooredLast(Equal(n - 1, v), v, fee, total);
    }
  }

  /** A fee of n q + n - 1 on n equal amounts floors to q each. */
  lemma EqualShare(n: nat, v: nat, q: nat)
    requires n >= 1 && v >= 1
    ensures Quotient((n * q + n - 1) * v, n * v) == q
  {
    assert (n * q + n - 1) * v == n * v * q + (n - 1) * v;
    assert (n - 1) * v + v == n * v;
    QuotientIs((n * q + n - 1) * v, n * v, q);
  }

  function Short(n: nat, q: nat): seq<nat>
    requires n >= 3
  {
    Equal(n, q + n - 2)
  }

  function ShortFee(n: nat, q: nat): nat
    requires n >= 3 && q >= FUNDING_FEE
  {
    n * (q - FUNDING_FEE) + n - 1
  }

  lemma ShortForm(n: nat, q: nat)
    requires n >= 3 && q >= FUNDING_FEE && n * (q + n) <= U64_MAX
    ensures |Short(n, q)| == n && Sum(Short(n, q)) == n * (q + n - 2) <= U64_MAX
    ensures HopFee(Short(n, q), ShortFee(n, q)) == n * q + n - 1
    ensures Sum(Short(n, q)) - HopFee(Short(n, q), ShortFee(n, q)) == (n - 1) * (n - 2) - 1
  {
    EqualAll(n, q + n - 2);
    EqualSum(n, q + n - 2);
    assert n * (q - FUNDING_FEE) + FUNDING_FEE * n == n * q;
    assert n * (q + n - 2) == n * q + n * (n - 2);
    assert n * (q + n) == n * (q + n - 2) + 2 * n;
    assert (n - 1) * (n - 2) == n * (n - 2) - (n - 2);
  }

  lemma ShortFloored(n: nat, q: nat)
    requires n >= 3 && n * (q + n - 2) > 0 && n * q + n - 1 <= n * (q + n - 2)
    ensures q + n - 2 <= n * (q + n - 2)
    ensures AllAtMost(Short(n, q), n * (q + n - 2))
    ensures FlooredAll(Short(n, q), n * q + n - 1, n * (q + n - 2)) == Equal(n, n - 2)
  {
    var v := q + n - 2;
    MulMonotone(1, n, v);
    EqualShare(n, v, q);
    EqualFloored(n, v, n * q + n - 1, n * v);
  }

  lemma EqualUnderflows(n: nat, net: nat)
    requires n >= 3 && net == (n - 1) * (n - 2) - 1
    ensures Equal(n, n - 2) != [] && net <= Sum(Equal(n, n - 2))
    ensures Corrected(Equal(n, n - 2), net) == Err(CorrectionUnderflows)
  {
    EqualAll(n, n - 2);
    EqualSum(n, n - 2);
    assert n * (n - 2) == (n - 1) * (n - 2) + n - 2;
  }

  /** One satoshi below the bound there are amounts, for every number of contracts from three on, that fail. */
  lemma ShortFails(n: nat, q: nat)
    requires n >= 3 && q >= FUNDING_FEE && n * (q + n) <= U64_MAX
    ensures Split(Short(n, q), ShortFee(n, q)) == Err(CorrectionUnderflows)
  {
    ShortForm(n, q);
    MulMonotone(1, n - 1, n - 2);
    EqualUnderflows(n, (n - 1) * (n - 2) - 1);
    ShortFloored(n, q);
  }

  ghost predicate AlwaysSplits(n: nat, bound: nat) {
    forall a: seq<nat>, service: nat ::
      |a| == n && Sum(a) <= U64_MAX && bound + HopFee(a, service) <= Sum(a) ==> Split(a, service).Ok?
  }

  /** A net total of (n - 1)(n - 2) is exactly what makes the correction safe for every n amounts. */
  lemma LeastBound(n: nat, bound: nat)
    requires n >= 3 && n * (FUNDING_FEE + n) <= U64_MAX
    ensures AlwaysSplits(n, bound) <==> bound >= (n - 1) * (n - 2)
  {
    if bound >= (n - 1) * (n - 2) {
      forall a: seq<nat>, service: nat | |a| == n && Sum(a) <= U64_MAX && bound + HopFee(a, service) <= Sum(a)
        ensures Split(a, service).Ok?
      {
        SplitSucceeds(a, service);
      }
    } else {
      var q := FUNDING_FEE;
      ShortForm(n, q);
      ShortFails(n, q);
      assert !Split(Short(n, q), ShortFee(n, q)).Ok?;
    }
  }

  // --------------------------------------------------------------- the handler

  /** The incoming total, unless it overflows. */
  method CheckedTotal(a: seq<nat>) returns (r: Option<nat>)
    ensures r == if Sum(a) <= U64_MAX then Some(Sum(a)) else None
  {
    var total := 0;
    for i := 0 to |a|
      invariant total == Sum(a[..i]) <= U64_MAX
    {
      assert a[..i + 1][..i] == a[..i];
      if total + a[i] > U64_MAX {
        PrefixSum(a, i + 1);
        return None;
      }
      total := total + a[i];
    }
    assert a[..|a|] == a;
    r := Some(total);
  }

  lemma {:induction false} PrefixSum(a: seq<nat>, i: nat)
    requires i <= |a|
    ensures Sum(a[..i]) <= Sum(a)
    decreases |a|
  {
    if i < |a| {
      PrefixSum(a[..|a| - 1], i);
      assert a[..|a| - 1][..i] == a[..i];
    } else {
      assert a[..i] == a;
    }
  }

  method FloorAmounts(a: seq<nat>, fee: nat, total: nat) returns (out: array<nat>)
    requires fee <= total && total > 0 && AllAtMost(a, total)
    ensures fresh(out) && out[..] == FlooredAll(a, fee, total)
  {
    out := new nat[|a|];
    for i := 0 to |a|
      invariant out[..i] == FlooredAll(a[..i], fee, total)
    {
      assert a[..i + 1][..i] == a[..i];
      ShareBounds(a[i], fee, total);
      out[i] := a[i] - Quotient(fee * a[i], total);
      assert out[..i + 1] == out[..i] + [out[i]];
    }
    assert a[..|a|] == a && out[..] == out[..|a|];
  }

  method FindLargest(out: array<nat>) returns (k: nat)
    requires out.Length > 0
    ensures k == LastMax(out[..])
  {
    k := 0;
    for i := 1 to out.Length
      invariant k == LastMax(out[..i])
    {
      assert out[..i + 1][..i] == out[..i];
      if out[k] <= out[i] {
        k := i;
      }
    }
    assert out[..] == out[..out.Length];
  }

  method Total(out: array<nat>) returns (sum: nat)
    ensures sum == Sum(out[..])
  {
    sum := 0;
    for i := 0 to out.Length
      invariant sum == Sum(out[..i])
    {
      assert out[..i + 1][..i] == out[..i];
      sum := sum + out[i];
    }
    assert out[..] == out[..out.Length];
  }

  /** Takes what the amounts hold beyond the net total off the largest, in place. */
  method CorrectLargest(out: array<nat>, net: nat) returns (ok: bool)
    requires out.Length > 0 && net <= Sum(out[..])
    modifies out
    ensures ok <==> Corrected(old(out[..]), net).Ok?
    ensures ok ==> out[..] == Corrected(old(out[..]), net).value
  {
    var sum := Total(out);
    var remainder := sum - net;
    if remainder > 0 {
      var k := FindLargest(out);
      if out[k] < remainder {
        return false;
      }
      out[k] := out[k] - remainder;
    }
    ok := true;
  }

  method SplitOutgoing(a: seq<nat>, service: nat) returns (r: Result<seq<nat>, Problem>)
    ensures r == Split(a, service)
  {
    var checked := CheckedTotal(a);
    if checked.None? {
      return Err(AmountsOverflow);
    }
    var total, fee := checked.value, HopFee(a, service);
    if fee > total {
      return Err(FeeExceedsIncoming);
    }
    if |a| == 0 {
      return Ok([]);
    }
    AllWithinSum(a);
    RemainderBound(a, fee);
    var out := FloorAmounts(a, fee, total);
    var ok := CorrectLargest(out, total - fee);
    r := if ok then Ok(out[..]) else Err(CorrectionUnderflows);
  }

  // ------------------------------------------------------------------ the route

  /** The contracts' amounts after every maker on the route has split its fee over them. */
  function RouteSplit(hops: seq<Schedule>, a: seq<nat>): Result<seq<nat>, Problem> {
    if hops == [] then Ok(a)
    else
      var before := RouteSplit(hops[..|hops| - 1], a);
      if before.Err? then before
      else Split(before.value, hops[|hops| - 1](Sum(before.value)))
  }

  lemma HopRefines(fee: Schedule, a: seq<nat>)
    requires Split(a, fee(Sum(a))).Ok?
    ensures var out := Split(a, fee(Sum(a))).value;
            |out| == |a| && Sum(out) == HopNet(fee, FUNDING_FEE * |a|, Sum(a))
  {
    if a != [] {
      var out, net, corrected := SplitIsExact(a, fee(Sum(a)));
    }
  }

  /** The sum over the contracts is the taker's running amount, whatever the amounts were split into. */
  lemma {:induction false} RouteRefines(hops: seq<Schedule>, a: seq<nat>)
    requires RouteSplit(hops, a).Ok?
    ensures var out := RouteSplit(hops, a).value;
            |out| == |a| && Sum(out) == RouteNet(hops, FUNDING_FEE * |a|, Sum(a))
  {
    if hops != [] {
      var n := |hops| - 1;
      RouteRefines(hops[..n], a);
      HopRefines(hops[n], RouteSplit(hops[..n], a).value);
    }
  }

  /** Every hop can pay its fee and leaves enough to correct the rounding. */
  ghost predicate Affordable(hops: seq<Schedule>, n: nat, gross: nat) {
    gross <= U64_MAX &&
    forall k | 0 <= k < |hops| ::
      var before := RouteNet(hops[..k], FUNDING_FEE * n, gross);
      hops[k](before) + FUNDING_FEE * n + (n - 1) * (n - 2) <= before
  }

  lemma AffordableInit(hops: seq<Schedule>, n: nat, gross: nat)
    requires Affordable(hops, n, gross) && hops != []
    ensures Affordable(hops[..|hops| - 1], n, gross)
  {
    var init := hops[..|hops| - 1];
    forall k | 0 <= k < |init|
      ensures init[..k] == hops[..k] && init[k] == hops[k]
    {
    }
  }

  /** A route every hop can afford succeeds, for every split of the amount. */
  lemma {:induction false} RouteSucceeds(hops: seq<Schedule>, a: seq<nat>)
    requires Affordable(hops, |a|, Sum(a))
    ensures RouteSplit(hops, a).Ok? && Sum(RouteSplit(hops, a).value) <= U64_MAX
  {
    if hops != [] {
      var n := |hops| - 1;
      AffordableInit(hops, |a|, Sum(a));
      RouteSucceeds(hops[..n], a);
      RouteRefines(hops[..n], a);
      LastHopSucceeds(hops[n], RouteSplit(hops[..n], a).value);
    }
  }

  lemma LastHopSucceeds(fee: Schedule, v: seq<nat>)
    requires Sum(v) <= U64_MAX && fee(Sum(v)) + FUNDING_FEE * |v| + (|v| - 1) * (|v| - 2) <= Sum(v)
    ensures Split(v, fee(Sum(v))).Ok? && Sum(Split(v, fee(Sum(v))).value) <= U64_MAX
  {
    var service, spare := fee(Sum(v)), (|v| - 1) * (|v| - 2);
    assert spare >= 0 && service + FUNDING_FEE * |v| + spare <= Sum(v);
    SplitSucceeds(v, service);
    HopRefines(fee, v);
  }
}
