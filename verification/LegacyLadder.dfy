/** The taker's march along the makers of a Legacy route, and the ladder of relative timelocks it leaves behind. */
module LegacyLadder {
  import opened Bytes
  import opened Deadline
  import opened Heights

  const REFUND_LOCKTIME_BASE: nat := 20
  const CONFIRMATION_HEIGHT_TOLERANCE: nat := 6
  const U16_RANGE: nat := 0x1_0000

  /** The offset of a hop with the given number of makers after it, in 16-bit arithmetic. */
  function Offset(after: nat): nat {
    (REFUND_LOCKTIME_BASE + REFUND_LOCKTIME_STEP * after) % U16_RANGE
  }

  /** Hop 0 is the taker's own contract; hop i + 1 is that of maker i. */
  function HopLocktime(makers: nat, hop: nat): nat
    requires hop <= makers
  {
    Offset(makers - hop)
  }

  /** The rungs are a whole step apart exactly for routes of up to 3275 makers. */
  lemma RungsAreStepsApart(makers: nat)
    ensures (forall hop: nat | hop < makers ::
               HopLocktime(makers, hop) == HopLocktime(makers, hop + 1) + REFUND_LOCKTIME_STEP) <==> makers <= 3275
  {
    if makers > 3275 {
      var hop := makers - 3276;
      assert Offset(3276) == 4 && Offset(3275) == 65520;
      assert HopLocktime(makers, hop) == Offset(3276) && HopLocktime(makers, hop + 1) == Offset(3275);
    }
  }

  // ------------------------------------------------------------------ the march

  /** What an attempt at the next maker comes to: it fails, its successor is replaced, or its funding is mined. */
  datatype Event = Fail | Substitute | Mined(heights: seq<nat>)

  /** The height a hop is recorded at. */
  function Recorded(confirms: nat, heights: seq<nat>): nat {
    if confirms == 0 then 0 else Highest(heights)
  }

  predicate TooLate(prev: nat, height: nat) {
    prev > 0 && height > 0 && height > prev + CONFIRMATION_HEIGHT_TOLERANCE
  }

  /** The recorded heights, from the previous hop's on, of a march that still has makers to go. */
  function March(confirms: nat, togo: nat, prev: nat, events: seq<Event>): Option<seq<nat>>
    decreases |events|
  {
    if togo == 0 then Some([prev])
    else if events == [] then None
    else
      match events[0]
      case Fail => None
      case Substitute => if togo == 1 then None else March(confirms, togo, prev, events[1..])
      case Mined(heights) =>
        var height := Recorded(confirms, heights);
        if TooLate(prev, height) then None
        else
          Prepend([prev], March(confirms, togo - 1, height, events[1..]))
  }

  function Prepend(front: seq<nat>, rest: Option<seq<nat>>): Option<seq<nat>> {
    if rest.None? then None else Some(front + rest.value)
  }

  lemma PrependTwice(front: seq<nat>, height: nat, rest: Option<seq<nat>>)
    ensures Prepend(front, Prepend([height], rest)) == Prepend(front + [height], rest)
  {
    if rest.Some? {
      assert front + ([height] + rest.value) == front + [height] + rest.value;
    }
  }

  method ExchangeLegacy(makers: nat, confirms: nat, own: seq<nat>, events: seq<Event>) returns (r: Option<seq<nat>>)
    ensures makers > 0 ==> r == March(confirms, makers, Recorded(confirms, own), events)
  {
    var makerIdx, prev, broadcast, i := 0, 0, false, 0;
    var recorded: seq<nat> := [];
    ghost var start := Recorded(confirms, own);
    assert events[0..] == events;
    assert March(confirms, makers, start, events).Some? ==>
        [] + March(confirms, makers, start, events).value == March(confirms, makers, start, events).value;
    while makerIdx < makers
      invariant makerIdx <= makers && i <= |events| && |recorded| == makerIdx
      invariant broadcast <==> i > 0
      invariant makerIdx > 0 ==> broadcast
      invariant broadcast && makerIdx == 0 ==> prev == start
      invariant March(confirms, makers, start, events) ==
                Prepend(recorded, March(confirms, makers - makerIdx, if broadcast then prev else start, events[i..]))
      decreases |events| - i
    {
      if makerIdx == 0 && !broadcast {
        broadcast := true;
        prev := Recorded(confirms, own);
      }
      if i == |events| {
        return None;
      }
      assert events[i..][0] == events[i] && events[i..][1..] == events[i + 1..];
      match events[i] {
        case Fail =>
          return None;
        case Substitute =>
          if makerIdx == makers - 1 {
            return None;
          }
        case Mined(heights) =>
          var height := Recorded(confirms, heights);
          if prev > 0 && height > 0 {
            var gap := if height < prev then 0 else height - prev;
            if gap > CONFIRMATION_HEIGHT_TOLERANCE {
              return None;
            }
          }
          PrependTwice(recorded, prev, March(confirms, makers - makerIdx - 1, height, events[i + 1..]));
          recorded := recorded + [prev];
          prev := height;
          makerIdx := makerIdx + 1;
      }
      i := i + 1;
    }
    r := Some(recorded + [prev]);
  }

  // ------------------------------------------------------- what a march leaves

  /** The heights each maker's funding was mined at, in the order of the hops. */
  function Confirmations(events: seq<Event>): seq<seq<nat>> {
    if events == [] then []
    else if events[0].Mined? then [events[0].heights] + Confirmations(events[1..])
    else Confirmations(events[1..])
  }

  /** Each hop is recorded at its own height, and none is too late after the one before. */
  lemma {:induction false} MarchRecords(confirms: nat, togo: nat, prev: nat, events: seq<Event>)
    requires March(confirms, togo, prev, events).Some?
    ensures var r, mined := March(confirms, togo, prev, events).value, Confirmations(events);
            && |r| == togo + 1 && togo <= |mined| && r[0] == prev
            && forall i | 0 <= i < togo :: r[i + 1] == Recorded(confirms, mined[i]) && !TooLate(r[i], r[i + 1])
    decreases |events|
  {
    if togo > 0 {
      match events[0] {
        case Substitute =>
          MarchRecords(confirms, togo, prev, events[1..]);
        case Mined(heights) =>
          var height := Recorded(confirms, heights);
          MarchRecords(confirms, togo - 1, height, events[1..]);
          var r, mined := March(confirms, togo, prev, events).value, Confirmations(events);
          var r', mined' := March(confirms, togo - 1, height, events[1..]).value, Confirmations(events[1..]);
          forall i | 0 <= i < togo
            ensures r[i + 1] == Recorded(confirms, mined[i]) && !TooLate(r[i], r[i + 1])
          {
            if i > 0 {
              assert r[i] == r'[i - 1] && r[i + 1] == r'[i] && mined[i] == mined'[i - 1];
            }
          }
      }
    }
  }

  /** The march with every substitution left out. */
  function Smooth(events: seq<Event>): seq<Event> {
    if events == [] then []
    else if events[0].Substitute? then Smooth(events[1..])
    else [events[0]] + Smooth(events[1..])
  }

  /** However often makers are replaced, a march that completes records what it would have without. */
  lemma {:induction false} RestartsAreHarmless(confirms: nat, togo: nat, prev: nat, events: seq<Event>)
    requires March(confirms, togo, prev, events).Some?
    ensures March(confirms, togo, prev, Smooth(events)) == March(confirms, togo, prev, events)
    decreases |events|
  {
    if togo > 0 {
      match events[0] {
        case Substitute =>
          RestartsAreHarmless(confirms, togo, prev, events[1..]);
        case Mined(heights) =>
          RestartsAreHarmless(confirms, togo - 1, Recorded(confirms, heights), events[1..]);
          assert Smooth(events)[1..] == Smooth(events[1..]);
      }
    }
  }

  /** Every hop has a contract, and no block is the first one. */
  predicate Funded(hops: seq<seq<nat>>) {
    forall i | 0 <= i < |hops| :: hops[i] != [] && forall j | 0 <= j < |hops[i]| :: hops[i][j] > 0
  }

  lemma RecordedIsPositive(confirms: nat, heights: seq<nat>)
    requires confirms > 0 && heights != [] && forall j | 0 <= j < |heights| :: heights[j] > 0
    ensures Recorded(confirms, heights) > 0
  {
    assert heights[0] <= Highest(heights);
  }

  function Hops(own: seq<nat>, events: seq<Event>): seq<seq<nat>> {
    [own] + Confirmations(events)
  }

  /** The ladder: between consecutive hops the recorded deadline drops by at least a step less the tolerance. */
  lemma LadderDescends(makers: nat, confirms: nat, own: seq<nat>, events: seq<Event>, hop: nat)
    requires hop < makers <= 3275 && confirms > 0 && Funded(Hops(own, events))
    requires March(confirms, makers, Recorded(confirms, own), events).Some?
    ensures var r := March(confirms, makers, Recorded(confirms, own), events).value;
            && |r| == makers + 1
            && r[hop] + HopLocktime(makers, hop) >= r[hop + 1] + HopLocktime(makers, hop + 1) + 14
            && 14 == REFUND_LOCKTIME_STEP - CONFIRMATION_HEIGHT_TOLERANCE >= MIN_CONTRACT_REACTION_TIME
  {
    MarchRecords(confirms, makers, Recorded(confirms, own), events);
    RungsAreStepsApart(makers);
    var hops := Hops(own, events);
    RecordedIsPositive(confirms, hops[hop]);
    RecordedIsPositive(confirms, hops[hop + 1]);
    assert hop > 0 ==> hops[hop] == Confirmations(events)[hop - 1];
    assert hops[hop + 1] == Confirmations(events)[hop];
  }

  /** The contracts of a hop are mined within the given number of blocks. */
  predicate Together(heights: seq<nat>, spread: nat) {
    forall i | 0 <= i < |heights| :: Highest(heights) <= heights[i] + spread
  }

  /** Contract by contract the drop is less by how far apart the earlier hop's contracts were mined. */
  lemma ContractsDescend(makers: nat, confirms: nat, own: seq<nat>, events: seq<Event>, hop: nat, a: nat, b: nat, spread: nat)
    requires hop < makers <= 3275 && confirms > 0 && Funded(Hops(own, events))
    requires March(confirms, makers, Recorded(confirms, own), events).Some?
    requires |Hops(own, events)| > makers
    requires a < |Hops(own, events)[hop]| && b < |Hops(own, events)[hop + 1]|
    requires Together(Hops(own, events)[hop], spread)
    ensures Hops(own, events)[hop][a] + spread + HopLocktime(makers, hop) >=
            Hops(own, events)[hop + 1][b] + HopLocktime(makers, hop + 1) + 14
  {
    MarchRecords(confirms, makers, Recorded(confirms, own), events);
    LadderDescends(makers, confirms, own, events, hop);
    var hops := Hops(own, events);
    assert hop > 0 ==> hops[hop] == Confirmations(events)[hop - 1];
    assert hops[hop + 1] == Confirmations(events)[hop];
  }

  /** In every completed march whose hops are mined together, every contract leaves the reaction time. */
  ghost predicate KeepsReaction(makers: nat, confirms: nat, spread: nat) {
    forall own: seq<nat>, events: seq<Event>, hop: nat, a: nat, b: nat ::
      Complete(makers, confirms, own, events, spread) && Contracts(makers, own, events, hop, a, b) ==>
        Hops(own, events)[hop][a] + HopLocktime(makers, hop) >=
        Hops(own, events)[hop + 1][b] + HopLocktime(makers, hop + 1) + MIN_CONTRACT_REACTION_TIME
  }

  predicate Complete(makers: nat, confirms: nat, own: seq<nat>, events: seq<Event>, spread: nat) {
    && Funded(Hops(own, events)) && March(confirms, makers, Recorded(confirms, own), events).Some?
    && forall i | 0 <= i < |Hops(own, events)| :: Together(Hops(own, events)[i], spread)
  }

  predicate Contracts(makers: nat, own: seq<nat>, events: seq<Event>, hop: nat, a: nat, b: nat) {
    && hop < makers < |Hops(own, events)|
    && a < |Hops(own, events)[hop]| && b < |Hops(own, events)[hop + 1]|
  }

  /** That is so exactly if no hop's contracts are mined more than four blocks apart. */
  lemma SpreadLimit(confirms: nat, makers: nat, spread: nat)
    requires confirms > 0 && 1 <= makers <= 3275
    ensures KeepsReaction(makers, confirms, spread) <==> spread <= 4
  {
    if spread <= 4 {
      forall own: seq<nat>, events: seq<Event>, hop: nat, a: nat, b: nat |
        Complete(makers, confirms, own, events, spread) && Contracts(makers, own, events, hop, a, b)
        ensures Hops(own, events)[hop][a] + HopLocktime(makers, hop) >=
                Hops(own, events)[hop + 1][b] + HopLocktime(makers, hop + 1) + MIN_CONTRACT_REACTION_TIME
      {
        ContractsDescend(makers, confirms, own, events, hop, a, b, spread);
      }
    } else {
      SpreadRun(confirms, makers, spread);
    }
  }

  function Repeat(e: Event, n: nat): seq<Event> {
    if n == 0 then [] else [e] + Repeat(e, n - 1)
  }

  lemma {:induction false} RepeatMarches(confirms: nat, n: nat, heights: seq<nat>)
    requires confirms > 0 && Highest(heights) > 0
    ensures March(confirms, n, Highest(heights), Repeat(Mined(heights), n)).Some?
    ensures Confirmations(Repeat(Mined(heights), n)) == seq(n, _ => heights)
  {
    if n > 0 {
      RepeatMarches(confirms, n - 1, heights);
      assert Repeat(Mined(heights), n)[1..] == Repeat(Mined(heights), n - 1);
      assert seq(n, _ => heights) == [heights] + seq(n - 1, _ => heights);
    }
  }

  lemma LaterMarches(confirms: nat, makers: nat, prev: nat, heights: seq<nat>)
    requires confirms > 0 && makers >= 1 && 0 < prev <= Highest(heights) <= prev + CONFIRMATION_HEIGHT_TOLERANCE
    ensures March(confirms, makers, prev, Repeat(Mined(heights), makers)).Some?
    ensures Confirmations(Repeat(Mined(heights), makers)) == seq(makers, _ => heights)
  {
    RepeatMarches(confirms, makers - 1, heights);
    RepeatMarches(confirms, makers, heights);
    assert Repeat(Mined(heights), makers)[1..] == Repeat(Mined(heights), makers - 1);
  }

  /** How far apart n contracts can be when they are mined within the spread. */
  function Apart(spread: nat, n: nat): nat {
    if n == 1 then 0 else spread
  }

  /** The first of n contracts is mined in the first block, the others as late as they may. */
  function Wide(spread: nat, n: nat): (heights: seq<nat>)
    requires n >= 1
    ensures |heights| == n && heights[0] == 1 && Highest(heights) == 1 + Apart(spread, n)
    ensures forall i | 0 <= i < n :: 0 < heights[i] && Together(heights, spread)
  {
    [1] + seq(n - 1, _ => 1 + spread)
  }

  /** A march of n contracts a hop: the taker's as far apart as they may be, the makers' six blocks after the last of them. */
  lemma WideMarch(confirms: nat, makers: nat, spread: nat, n: nat) returns (own: seq<nat>, events: seq<Event>)
    requires confirms > 0 && makers >= 1 && n >= 1
    ensures Complete(makers, confirms, own, events, spread) && |Hops(own, events)| == makers + 1
    ensures Hops(own, events)[0] == Wide(spread, n)
    ensures forall i | 1 <= i <= makers ::
              Hops(own, events)[i] == seq(n, _ => 1 + Apart(spread, n) + CONFIRMATION_HEIGHT_TOLERANCE)
  {
    own := Wide(spread, n);
    var later := seq(n, _ => 1 + Apart(spread, n) + CONFIRMATION_HEIGHT_TOLERANCE);
    assert Highest(later) == later[0];
    events := Repeat(Mined(later), makers);
    LaterMarches(confirms, makers, Highest(own), later);
    WideIsComplete(makers, confirms, own, later, events, spread);
  }

  lemma WideIsComplete(makers: nat, confirms: nat, own: seq<nat>, later: seq<nat>, events: seq<Event>, spread: nat)
    requires Confirmations(events) == seq(makers, _ => later) && March(confirms, makers, Recorded(confirms, own), events).Some?
    requires own != [] && (forall j | 0 <= j < |own| :: own[j] > 0) && Together(own, spread)
    requires later != [] && (forall j | 0 <= j < |later| :: later[j] > 0) && Together(later, spread)
    ensures Complete(makers, confirms, own, events, spread) && |Hops(own, events)| == makers + 1
    ensures forall i | 1 <= i <= makers :: Hops(own, events)[i] == later
  {
    var hops := Hops(own, events);
    assert forall i | 0 <= i < |hops| :: hops[i] == if i == 0 then own else later;
  }

  lemma SpreadRun(confirms: nat, makers: nat, spread: nat)
    requires confirms > 0 && 1 <= makers <= 3275 && spread > 4
    ensures !KeepsReaction(makers, confirms, spread)
  {
    var own, events := WideMarch(confirms, makers, spread, 2);
    RungsAreStepsApart(makers);
    assert Contracts(makers, own, events, 0, 0, 0);
  }

  /** Without confirmations nothing is recorded, and the march completes however late any funding is mined. */
  lemma {:induction false} UnconfirmedMarch(togo: nat, events: seq<Event>)
    requires togo <= |events| && forall i | 0 <= i < |events| :: events[i].Mined?
    ensures March(0, togo, 0, events) == Some(seq(togo + 1, _ => 0))
  {
    if togo > 0 {
      UnconfirmedMarch(togo - 1, events[1..]);
      assert seq(togo + 1, _ => 0) == [0] + seq(togo, _ => 0);
    } else {
      assert seq(1, _ => 0) == [0];
    }
  }
}
