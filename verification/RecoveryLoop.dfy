/**
 The maker's recovery of one swap: pass after pass it looks for preimages, sweeps the incoming contracts once it knows
 them, and refunds the outgoing ones once they have expired.
 */
module RecoveryLoop {
  type Txid = nat

  /** The contracts taken in before the attempt came to its end, and whether an error ended it. */
  datatype Attempt = Attempt(taken: set<Txid>, broken: bool)

  /** Unread: the spends could not be read. Broken: some other query failed. known: all preimages are known. */
  datatype Pass =
    | Unread
    | Broken
    | Read(height: nat, known: bool, sweep: Attempt, refund: Attempt, settled: bool)

  datatype Ending = Running | Aborted | ByHashlock | ByTimelock

  datatype Store = Store(incoming: set<Txid>, outgoing: set<Txid>)

  /** The coins of one swap and the height from which its outgoing contracts are looked at. */
  datatype Swap = Swap(incoming: set<Txid>, outgoing: set<Txid>, expiry: nat)

  // ---------------------------------------------------------------- specification

  /** All the swap's incoming coins are stored with their preimages. */
  predicate Sweeps(s: Swap, st: Store, p: Pass) {
    p.Read? && p.known && s.incoming != {} && s.incoming <= st.incoming
  }

  function Swept(s: Swap, st: Store, p: Pass): Store
    requires p.Read?
  {
    st.(incoming := st.incoming - p.sweep.taken * s.incoming)
  }

  /** The timelock half of a pass; refunds are not confined to the swap. */
  function Refunding(s: Swap, st: Store, p: Pass): (Store, Ending)
    requires p.Read?
  {
    if p.height < s.expiry then (st, Running)
    else
      var taken := p.refund.taken * st.outgoing;
      (st.(outgoing := st.outgoing - taken),
       if p.refund.broken then Aborted else if taken != {} && p.settled then ByTimelock else Running)
  }

  function OnePass(s: Swap, st: Store, p: Pass): (Store, Ending) {
    if p.Unread? then (st, Running)
    else if p.Broken? then (st, Aborted)
    else if !Sweeps(s, st, p) then Refunding(s, st, p)
    else if p.sweep.broken then (Swept(s, st, p), Aborted)
    else if p.sweep.taken * s.incoming != {} then (Swept(s, st, p).(outgoing := st.outgoing - s.outgoing), ByHashlock)
    else Refunding(s, st, p)
  }

  function Passes(s: Swap, st: Store, passes: seq<Pass>): (Store, Ending)
    decreases |passes|
  {
    if passes == [] then (st, Running)
    else
      var (st', end) := OnePass(s, st, passes[0]);
      if end == Running then Passes(s, st', passes[1..]) else (st', end)
  }

  /** Without an outgoing coin there is no timelock to read, and recovery does not start. */
  function Recovery(s: Swap, st: Store, passes: seq<Pass>): (Store, Ending) {
    if s.outgoing == {} then (st, Aborted) else Passes(s, st, passes)
  }

  // -------------------------------------------------------------------- algorithm

  class Wallet {
    var incoming: set<Txid>
    var outgoing: set<Txid>

    ghost function Stored(): Store
      reads this
    {
      Store(incoming, outgoing)
    }

    method SweepIncoming(swap: set<Txid>, a: Attempt) returns (swept: set<Txid>)
      requires swap <= incoming
      modifies this`incoming
      ensures swept == a.taken * swap && incoming == old(incoming) - swept
    {
      swept := {};
      var left := swap;
      while left != {}
        invariant left <= swap && swept == a.taken * (swap - left) && incoming == old(incoming) - swept
        decreases left
      {
        var coin :| coin in left;
        left := left - {coin};
        if coin in a.taken {
          swept := swept + {coin};
          incoming := incoming - {coin};
        }
      }
      assert swap - left == swap;
    }

    method RecoverTimelocked(a: Attempt) returns (recovered: set<Txid>)
      modifies this`outgoing
      ensures recovered == a.taken * old(outgoing) && outgoing == old(outgoing) - recovered
    {
      recovered := a.taken * outgoing;
      outgoing := outgoing - recovered;
    }

    method RecoverFromSwap(s: Swap, passes: seq<Pass>) returns (end: Ending)
      modifies this
      ensures (Stored(), end) == Recovery(s, old(Stored()), passes)
    {
      if s.outgoing == {} {
        return Aborted;
      }
      assert passes[0..] == passes;
      for i := 0 to |passes|
        invariant Passes(s, old(Stored()), passes) == Passes(s, Stored(), passes[i..])
      {
        var p := passes[i];
        assert passes[i..][0] == p && passes[i..][1..] == passes[i + 1..];
        ghost var before := Stored();
        match p {
          case Unread =>
          case Broken =>
            return Aborted;
          case Read(height, known, sweep, refund, settled) =>
            if known && s.incoming != {} && s.incoming <= incoming {
              var swept := SweepIncoming(s.incoming, sweep);
              if sweep.broken {
                return Aborted;
              }
              if swept != {} {
                outgoing := outgoing - s.outgoing;
                return ByHashlock;
              }
              assert Stored() == before;
            }
            if height >= s.expiry {
              var recovered := RecoverTimelocked(refund);
              if refund.broken {
                return Aborted;
              }
              if recovered != {} && settled {
                return ByTimelock;
              }
            }
        }
        assert OnePass(s, before, p) == (Stored(), Running);
      }
      end := Running;
    }
  }

  // ------------------------------------------------------------ what a sweep leaves behind

  /** Recovery ended here by a sweep, everything before having left the swap's incoming coins alone. */
  ghost predicate EndsBySweep(s: Swap, st: Store, passes: seq<Pass>, i: nat) {
    && i < |passes| && passes[i].Read? && !passes[i].sweep.broken && passes[i].sweep.taken * s.incoming != {}
    && s.incoming <= st.incoming
    && Passes(s, st, passes[..i]).1 == Running
  }

  /**
   A recovery that ends by the hashlock path took in, with its first sweep that took in any, exactly the coins it ever
   will: the swap's others stay, and none of its outgoing coins does.
   */
  lemma {:induction false} SweepEnds(s: Swap, st: Store, passes: seq<Pass>) returns (i: nat)
    requires Passes(s, st, passes).1 == ByHashlock
    ensures EndsBySweep(s, st, passes, i)
    ensures var after := Passes(s, st, passes).0;
            after.incoming == st.incoming - passes[i].sweep.taken * s.incoming && after.outgoing * s.outgoing == {}
    decreases |passes|
  {
    var (st', end) := OnePass(s, st, passes[0]);
    if end == Running {
      var j := SweepEnds(s, st', passes[1..]);
      i := j + 1;
      assert passes[..i][0] == passes[0] && passes[..i][1..] == passes[1..][..j];
    } else {
      i := 0;
    }
  }

  /** So it leaves one of the swap's incoming contracts unswept exactly if that sweep missed one. */
  lemma LeftUnswept(s: Swap, st: Store, passes: seq<Pass>) returns (i: nat)
    requires Passes(s, st, passes).1 == ByHashlock
    ensures EndsBySweep(s, st, passes, i)
    ensures Passes(s, st, passes).0.incoming * s.incoming == {} <==> s.incoming <= passes[i].sweep.taken
  {
    i := SweepEnds(s, st, passes);
    var after, taken := Passes(s, st, passes).0, passes[i].sweep.taken;
    if !(s.incoming <= taken) {
      var coin :| coin in s.incoming && coin !in taken;
      assert coin in after.incoming * s.incoming;
    }
  }

  /** After a restart the swap consists of what the wallet still holds of it. */
  function Restarted(s: Swap, st: Store): Swap {
    s.(incoming := s.incoming * st.incoming, outgoing := s.outgoing * st.outgoing)
  }

  function Restarts(s: Swap, st: Store, runs: seq<seq<Pass>>): Store {
    if runs == [] then st
    else
      var before := Restarts(s, st, runs[..|runs| - 1]);
      Recovery(Restarted(s, before), before, runs[|runs| - 1]).0
  }

  /** What that sweep missed no later recovery of the swap takes in either, however often the maker restarts. */
  lemma {:induction false} MissedForGood(s: Swap, st: Store, passes: seq<Pass>, runs: seq<seq<Pass>>)
    requires Passes(s, st, passes).1 == ByHashlock
    ensures Restarts(s, Passes(s, st, passes).0, runs) == Passes(s, st, passes).0
  {
    if runs != [] {
      MissedForGood(s, st, passes, runs[..|runs| - 1]);
      var i := SweepEnds(s, st, passes);
    }
  }

  /** A sweep that an error cuts off loses nothing: the swap's outgoing coins stay, and a restart goes on with the rest. */
  lemma CutOffSweepGoesOn(s: Swap, st: Store, p: Pass)
    requires s.outgoing != {} && s.outgoing <= st.outgoing && Sweeps(s, st, p) && p.sweep.broken
    ensures var (after, end) := OnePass(s, st, p);
            end == Aborted && Restarted(s, after) == s.(incoming := s.incoming - p.sweep.taken)
  {
    var after := OnePass(s, st, p).0;
    assert s.outgoing * after.outgoing == s.outgoing;
    assert s.incoming * after.incoming == s.incoming - p.sweep.taken;
  }

  /** Such a sweep is possible: two contracts, one of them missed, and recovery declared complete. */
  lemma OneMissed() returns (s: Swap, st: Store, passes: seq<Pass>)
    ensures Recovery(s, st, passes).1 == ByHashlock && Recovery(s, st, passes).0.incoming * s.incoming != {}
  {
    s, st := Swap({1, 2}, {3}, 0), Store({1, 2}, {3});
    var p := Read(0, true, Attempt({1}, false), Attempt({}, false), false);
    passes := [p];
    assert 1 in p.sweep.taken * s.incoming;
    assert OnePass(s, st, p).1 == ByHashlock;
    assert 2 in Recovery(s, st, passes).0.incoming * s.incoming;
  }
}
