/** Block heights, the indices of contracts, and the order in which transactions are sent. */
module Heights {
  function Max(a: nat, b: nat): nat {
    if a < b then b else a
  }

  function Highest(heights: seq<nat>): (h: nat)
    ensures forall i | 0 <= i < |heights| :: heights[i] <= h
    ensures heights != [] ==> h in heights
  {
    if heights == [] then 0
    else
      var n := |heights| - 1;
      var rest := Highest(heights[..n]);
      assert forall i | 0 <= i < n :: heights[i] == heights[..n][i];
      if rest < heights[n] then heights[n] else rest
  }

  function Below(n: nat): (s: set<nat>)
    ensures forall i: nat :: i in s <==> i < n
  {
    if n == 0 then {} else Below(n - 1) + {n - 1}
  }

  /** How long it takes until a transaction with so many before it confirms, each sent when the one before has. */
  function Turn(before: nat, delay: nat): nat {
    (before + 1) * delay
  }

  lemma TurnGrows(a: nat, b: nat, delay: nat)
    requires a <= b
    ensures Turn(a, delay) <= Turn(b, delay)
  {
    assert (b + 1) * delay == (a + 1) * delay + (b - a) * delay;
  }

  lemma TurnTakesTime(before: nat, delay: nat)
    requires delay >= 1
    ensures Turn(before, delay) >= 1
  {
    TurnGrows(0, before, delay);
  }

  function Turns(order: seq<nat>, delay: nat): seq<nat> {
    seq(|order|, k requires 0 <= k < |order| => Turn(order[k], delay))
  }

  /** The places of n transactions in a batch of these and some others. */
  predicate InTurn(order: seq<nat>, n: nat, others: nat) {
    && |order| == n
    && (forall i | 0 <= i < n :: order[i] < n + others)
    && forall i, j | 0 <= i < j < n :: order[i] != order[j]
  }

  lemma {:induction false} BelowSize(n: nat)
    ensures |Below(n)| == n
  {
    if n > 0 {
      BelowSize(n - 1);
    }
  }

  function Elements(order: seq<nat>): (s: set<nat>)
    ensures forall x :: x in s <==> x in order
  {
    set x | x in order
  }

  lemma {:induction false} ElementsSize(order: seq<nat>)
    requires forall i, j | 0 <= i < j < |order| :: order[i] != order[j]
    ensures |Elements(order)| == |order|
  {
    if order != [] {
      var n := |order| - 1;
      ElementsSize(order[..n]);
      assert Elements(order) == Elements(order[..n]) + {order[n]};
    }
  }

  /** One of n transactions comes last. */
  lemma LastInTurn(order: seq<nat>, n: nat)
    requires n > 0 && InTurn(order, n, 0)
    ensures Highest(order) == n - 1
  {
    if Highest(order) < n - 1 {
      ElementsSize(order);
      BelowSize(n - 1);
      Contained(Elements(order), Below(n - 1));
    }
  }

  lemma {:induction false} Contained(a: set<nat>, b: set<nat>)
    requires a <= b
    ensures |a| <= |b|
  {
    if a != {} {
      var x :| x in a;
      Contained(a - {x}, b - {x});
    }
  }
}
