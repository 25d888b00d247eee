/** The registry of ongoing swaps: admission, storage, keepalives and the drain of idle swaps. */
module MakerRegistry {
  import opened Bytes
  import opened Deadline
  import opened MakerState

  const MAX_CONCURRENT_SWAPS: nat := 30
  const IDLE_TIMEOUT: nat := 900

  type Registry = map<SwapId, Entry>

  // ------------------------------------------------------- sums over the registry

  ghost function Sum(r: Registry, weight: Entry -> nat): nat {
    if r == map[] then 0
    else
      var id :| id in r;
      weight(r[id]) + Sum(r - {id}, weight)
  }

  lemma {:induction false} SumAt(r: Registry, weight: Entry -> nat, id: SwapId)
    requires id in r
    ensures Sum(r, weight) == weight(r[id]) + Sum(r - {id}, weight)
    decreases |r|
  {
    var k :| k in r && Sum(r, weight) == weight(r[k]) + Sum(r - {k}, weight);
    if k != id {
      SumAt(r - {k}, weight, id);
      SumAt(r - {id}, weight, k);
      assert r - {k} - {id} == r - {id} - {k};
    }
  }

  lemma SumPut(r: Registry, weight: Entry -> nat, id: SwapId, e: Entry)
    ensures Sum(r[id := e], weight) == weight(e) + Sum(r - {id}, weight)
  {
    SumAt(r[id := e], weight, id);
    assert r[id := e] - {id} == r - {id};
  }

  lemma SumWithout(r: Registry, weight: Entry -> nat, id: SwapId)
    ensures Sum(r - {id}, weight) <= Sum(r, weight)
  {
    if id in r {
      SumAt(r, weight, id);
    } else {
      assert r - {id} == r;
    }
  }

  function Live(e: Entry): nat {
    if e.swap.phase == Completed then 0 else 1
  }

  function Booked(e: Entry): nat {
    if e.swap.phase == Completed then 0 else e.swap.terms.amount
  }

  /** How many swaps are under way, and how much they have reserved. */
  ghost function ActiveSwaps(r: Registry): nat {
    Sum(r, Live)
  }

  ghost function Reserved(r: Registry): nat {
    Sum(r, Booked)
  }

  // ------------------------------------------------------------------- admission

  datatype Refusal = TooManySwaps | InsufficientLiquidity | SwapParamMismatch

  function Store(r: Registry, id: SwapId, s: Swap, now: nat): Registry {
    r[id := Entry(s, if id in r then r[id].confirmed else None, now)]
  }

  /** A new swap needs a free slot and unreserved liquidity; a known one only the same terms again. */
  ghost function Admitted(r: Registry, id: SwapId, s: Swap, liquidity: nat, now: nat): Result<Registry, Refusal> {
    if id !in r then
      if ActiveSwaps(r) >= MAX_CONCURRENT_SWAPS then Err(TooManySwaps)
      else if liquidity < Reserved(r) + s.terms.amount then Err(InsufficientLiquidity)
      else Ok(Store(r, id, s, now))
    else if r[id].swap.terms != s.terms then Err(SwapParamMismatch)
    else Ok(r[id := r[id].(active := now)])
  }

  /** At most thirty swaps are under way, and together they reserve no more than the greatest liquidity ever read. */
  ghost predicate WithinLimits(r: Registry, peak: nat) {
    ActiveSwaps(r) <= MAX_CONCURRENT_SWAPS && Reserved(r) <= peak
  }

  lemma AdmissionKeepsLimits(r: Registry, id: SwapId, s: Swap, liquidity: nat, now: nat, peak: nat)
    requires WithinLimits(r, peak) && Admitted(r, id, s, liquidity, now).Ok?
    ensures WithinLimits(Admitted(r, id, s, liquidity, now).value, if peak < liquidity then liquidity else peak)
  {
    if id !in r {
      var e := Entry(s, None, now);
      assert r - {id} == r;
      SumPut(r, Live, id, e);
      SumPut(r, Booked, id, e);
    } else {
      ReplaceKeepsLimits(r, id, r[id].(active := now), peak);
    }
  }

  /** Replacing an entry by one with the same terms keeps the limits, as long as it does not revive a completed swap. */
  lemma ReplaceKeepsLimits(r: Registry, id: SwapId, e: Entry, peak: nat)
    requires WithinLimits(r, peak) && id in r && e.swap.terms == r[id].swap.terms
    requires r[id].swap.phase == Completed ==> e.swap.phase == Completed
    ensures WithinLimits(r[id := e], peak)
  {
    SumPut(r, Live, id, e); SumAt(r, Live, id);
    SumPut(r, Booked, id, e); SumAt(r, Booked, id);
  }

  lemma RemovalKeepsLimits(r: Registry, id: SwapId, peak: nat)
    requires WithinLimits(r, peak)
    ensures WithinLimits(r - {id}, peak)
  {
    SumWithout(r, Live, id);
    SumWithout(r, Booked, id);
  }

  /** A completed swap that could not be settled is kept, and counts for nothing. */
  lemma CompletedKeepsLimits(r: Registry, id: SwapId, e: Entry, peak: nat)
    requires WithinLimits(r, peak) && e.swap.phase == Completed
    ensures WithinLimits(r[id := e], peak)
  {
    SumPut(r, Live, id, e); SumWithout(r, Live, id);
    SumPut(r, Booked, id, e); SumWithout(r, Booked, id);
  }

  // ------------------------------------------------------- deadlines and keepalives

  predicate PastDeadline(e: Entry, height: nat) {
    PastRefundDeadline(e.swap.terms.protocol, e.swap.terms.timelock, e.confirmed, height)
  }

  lemma PastStaysPast(e: Entry, height: nat, later: nat)
    requires PastDeadline(e, height) && height <= later
    ensures PastDeadline(e, later)
  {
  }

  /** A keepalive refreshes a known swap's timer, unless its deadline is past. */
  function KeptAlive(r: Registry, id: SwapId, now: nat, height: nat): Registry {
    if id !in r || PastDeadline(r[id], height) then r else r[id := r[id].(active := now)]
  }

  datatype Keepalive = Keepalive(id: SwapId, now: nat, height: nat)

  function AllKeptAlive(r: Registry, ks: seq<Keepalive>): Registry {
    if ks == [] then r
    else
      var k := ks[|ks| - 1];
      KeptAlive(AllKeptAlive(r, ks[..|ks| - 1]), k.id, k.now, k.height)
  }

  // -------------------------------------------------------------------- the drain

  predicate Idle(e: Entry, now: nat) {
    now > e.active + IDLE_TIMEOUT
  }

  /** An accepted swap that nothing was built for yet. */
  predicate Unfunded(s: Swap) {
    s.phase == AwaitingContractData && s.incoming == [] && s.outgoing == [] && s.pending == [] && !s.broadcast
  }

  predicate Releases(e: Entry, now: nat) {
    Unfunded(e.swap) && Idle(e, now)
  }

  predicate Returns(e: Entry, now: nat, height: Option<nat>) {
    e.swap.outgoing != [] && ((height.Some? && PastDeadline(e, height.value)) || Idle(e, now))
  }

  function Kept(r: Registry, now: nat, height: Option<nat>): Registry {
    map id | id in r && !Releases(r[id], now) && !Returns(r[id], now, height) :: r[id]
  }

  function Released(r: Registry, now: nat): set<SwapId> {
    set id | id in r && Releases(r[id], now)
  }

  function Returned(r: Registry, now: nat, height: Option<nat>): Registry {
    map id | id in r && Returns(r[id], now, height) :: r[id]
  }

  /** Each drain sorts every entry into exactly one of kept, released and returned, and changes none. */
  lemma DrainPartitions(r: Registry, now: nat, height: Option<nat>)
    ensures Kept(r, now, height).Keys !! Released(r, now) !! Returned(r, now, height).Keys
    ensures Kept(r, now, height).Keys + Released(r, now) + Returned(r, now, height).Keys == r.Keys
    ensures forall id | id in Kept(r, now, height) :: Kept(r, now, height)[id] == r[id]
    ensures forall id | id in Returned(r, now, height) :: Returned(r, now, height)[id] == r[id]
  {
  }

  lemma {:induction false} SubsetSum(r: Registry, q: Registry, weight: Entry -> nat)
    requires forall id | id in q :: id in r && q[id] == r[id]
    ensures Sum(q, weight) <= Sum(r, weight)
    decreases |q|
  {
    if q != map[] {
      var id :| id in q;
      SumAt(q, weight, id);
      SumAt(r, weight, id);
      SubsetSum(r - {id}, q - {id}, weight);
    }
  }

  lemma DrainKeepsLimits(r: Registry, now: nat, height: Option<nat>, peak: nat)
    requires WithinLimits(r, peak)
    ensures WithinLimits(Kept(r, now, height), peak)
  {
    SubsetSum(r, Kept(r, now, height), Live);
    SubsetSum(r, Kept(r, now, height), Booked);
  }

  /**
   Once a swap is past its deadline it stays so, no keepalive at such a height touches it, and the next drain that
   can read the height hands it to recovery if it has paid anything out.
   */
  lemma {:induction false} DeadlineBeatsKeepalives(r: Registry, id: SwapId, height: nat, ks: seq<Keepalive>, now: nat, later: nat)
    requires id in r && PastDeadline(r[id], height) && height <= later
    requires forall i | 0 <= i < |ks| :: ks[i].height >= height
    ensures id in AllKeptAlive(r, ks) && AllKeptAlive(r, ks)[id] == r[id]
    ensures r[id].swap.outgoing != [] ==> id in Returned(AllKeptAlive(r, ks), now, Some(later))
  {
    if ks != [] {
      DeadlineBeatsKeepalives(r, id, height, ks[..|ks| - 1], now, later);
      PastStaysPast(r[id], height, ks[|ks| - 1].height);
    }
    PastStaysPast(r[id], height, later);
  }

  // ------------------------------------------------------------------- the object

  class MakerServer {
    var ongoingSwaps: Registry

    constructor ()
      ensures ongoingSwaps == map[]
    {
      ongoingSwaps := map[];
    }

    /** One pass over the swaps under way, counting them and adding up what they reserve. */
    method Commitments() returns (active: nat, reserved: nat)
      ensures active == ActiveSwaps(ongoingSwaps) && reserved == Reserved(ongoingSwaps)
    {
      active, reserved := 0, 0;
      var rest := ongoingSwaps;
      while rest.Keys != {}
        invariant active + ActiveSwaps(rest) == ActiveSwaps(ongoingSwaps)
        invariant reserved + Reserved(rest) == Reserved(ongoingSwaps)
        decreases |rest|
      {
        var id :| id in rest.Keys;
        SumAt(rest, Live, id);
        SumAt(rest, Booked, id);
        if rest[id].swap.phase != Completed {
          active, reserved := active + 1, reserved + rest[id].swap.terms.amount;
        }
        rest := rest - {id};
      }
      assert rest == map[];
    }

    method AdmitSwap(id: SwapId, s: Swap, liquidity: nat, now: nat) returns (refusal: Option<Refusal>)
      modifies this
      ensures var r := Admitted(old(ongoingSwaps), id, s, liquidity, now);
              match r
              case Ok(swaps) => refusal == None && ongoingSwaps == swaps
              case Err(why) => refusal == Some(why) && ongoingSwaps == old(ongoingSwaps)
    {
      if id !in ongoingSwaps {
        var active, reserved := Commitments();
        if active >= MAX_CONCURRENT_SWAPS {
          return Some(TooManySwaps);
        }
        if liquidity < reserved + s.terms.amount {
          return Some(InsufficientLiquidity);
        }
      } else {
        if ongoingSwaps[id].swap.terms != s.terms {
          return Some(SwapParamMismatch);
        }
        ongoingSwaps := ongoingSwaps[id := ongoingSwaps[id].(active := now)];
        return None;
      }
      ongoingSwaps := ongoingSwaps[id := Entry(s, None, now)];
      refusal := None;
    }

    method KeepAlive(id: SwapId, now: nat, height: nat)
      modifies this
      ensures ongoingSwaps == KeptAlive(old(ongoingSwaps), id, now, height)
    {
      if id in ongoingSwaps && !PastDeadline(ongoingSwaps[id], height) {
        ongoingSwaps := ongoingSwaps[id := ongoingSwaps[id].(active := now)];
      }
    }

    method ReleaseUnfunded(now: nat)
      modifies this
      ensures ongoingSwaps == map id | id in old(ongoingSwaps) && !Releases(old(ongoingSwaps)[id], now) :: old(ongoingSwaps)[id]
    {
      var todo := ongoingSwaps.Keys;
      ghost var all := ongoingSwaps;
      while todo != {}
        invariant todo <= ongoingSwaps.Keys
        invariant forall id | id in ongoingSwaps :: id in all && ongoingSwaps[id] == all[id]
        invariant forall id | id in all && id !in todo :: id in ongoingSwaps <==> !Releases(all[id], now)
        decreases |todo|
      {
        var id :| id in todo;
        todo := todo - {id};
        if Releases(ongoingSwaps[id], now) {
          ongoingSwaps := ongoingSwaps - {id};
        }
      }
    }

    method TakeStale(now: nat, height: Option<nat>) returns (idle: Registry)
      modifies this
      ensures ongoingSwaps == map id | id in old(ongoingSwaps) && !Returns(old(ongoingSwaps)[id], now, height) :: old(ongoingSwaps)[id]
      ensures idle == Returned(old(ongoingSwaps), now, height)
    {
      idle := map[];
      var todo := ongoingSwaps.Keys;
      ghost var all := ongoingSwaps;
      while todo != {}
        invariant todo <= ongoingSwaps.Keys && todo !! idle.Keys
        invariant forall id | id in ongoingSwaps :: id in all && ongoingSwaps[id] == all[id]
        invariant forall id | id in all && id !in todo :: id in ongoingSwaps <==> !Returns(all[id], now, height)
        invariant forall id | id in all && id !in todo :: id in idle <==> Returns(all[id], now, height)
        invariant forall id | id in idle :: id in all && idle[id] == all[id]
        decreases |todo|
      {
        var id :| id in todo;
        todo := todo - {id};
        if Returns(ongoingSwaps[id], now, height) {
          idle := idle[id := ongoingSwaps[id]];
          ongoingSwaps := ongoingSwaps - {id};
        }
      }
    }

    method DrainIdleSwaps(now: nat, height: Option<nat>) returns (idle: Registry)
      modifies this
      ensures ongoingSwaps == Kept(old(ongoingSwaps), now, height)
      ensures idle == Returned(old(ongoingSwaps), now, height)
    {
      ReleaseUnfunded(now);
      idle := TakeStale(now, height);
    }
  }
}
