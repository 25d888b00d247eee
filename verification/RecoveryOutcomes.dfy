/** How the taker's recovery loop records what became of each contract of a failed swap. */
module RecoveryOutcomes {
  import opened Bytes

  type Txid = nat

  datatype Resolution = Hashlock | Timelock | KeyPath | Discarded | Unresolved

  datatype Outcome = Outcome(contract: Txid, resolution: Resolution, spending: Option<Txid>)

  datatype Phase = NotStarted | PreimageStamped | SwapcoinsPersisted | IncomingRecovered | OutgoingRecovered | CleanedUp
  {
    function Rank(): nat {
      match this
      case NotStarted => 0
      case PreimageStamped => 1
      case SwapcoinsPersisted => 2
      case IncomingRecovered => 3
      case OutgoingRecovered => 4
      case CleanedUp => 5
    }
  }

  /** One contract a recovery pass has resolved; a discarded contract has no spending transaction. */
  datatype Report = Report(contract: Txid, resolution: Resolution, spending: Option<Txid>)

  /** What a pass reports about the incoming and the outgoing contracts of all swaps. */
  datatype Pass = Pass(incoming: seq<Report>, outgoing: seq<Report>)

  /** The incoming reports are hashlock sweeps; the outgoing ones timelock refunds, then discards. */
  function PassOf(swept: seq<(Txid, Txid)>, refunded: seq<(Txid, Txid)>, discarded: seq<Txid>): Pass {
    Pass(
      seq(|swept|, i requires 0 <= i < |swept| => Report(swept[i].0, Hashlock, Some(swept[i].1))),
      seq(|refunded|, i requires 0 <= i < |refunded| => Report(refunded[i].0, Timelock, Some(refunded[i].1))) +
      seq(|discarded|, i requires 0 <= i < |discarded| => Report(discarded[i], Discarded, None)))
  }

  predicate Resolves(p: Pass) {
    && (forall i | 0 <= i < |p.incoming| :: p.incoming[i].resolution != Unresolved)
    && (forall i | 0 <= i < |p.outgoing| :: p.outgoing[i].resolution != Unresolved)
  }

  // ----------------------------------------------------------- one list of outcomes

  /** The first outcome of a contract, or the length of the list. */
  function Find(list: seq<Outcome>, contract: Txid): (i: nat)
    ensures i <= |list| && (i < |list| ==> list[i].contract == contract)
    ensures forall j | 0 <= j < i :: list[j].contract != contract
  {
    if list == [] then 0
    else if list[0].contract == contract then 0
    else
      var i := Find(list[1..], contract);
      assert forall j | 1 <= j < |list| :: list[j] == list[1..][j - 1];
      i + 1
  }

  /** The outcome a report leaves in place of an unresolved one. */
  function Settled(o: Outcome, r: Report): Outcome {
    Outcome(o.contract, r.resolution, if r.resolution.Discarded? then o.spending else r.spending)
  }

  function Record(list: seq<Outcome>, ids: seq<Txid>, r: Report): seq<Outcome> {
    if r.contract !in ids then list
    else
      var i := Find(list, r.contract);
      if i == |list| then list + [Outcome(r.contract, r.resolution, r.spending)]
      else if list[i].resolution == Unresolved then list[i := Settled(list[i], r)]
      else list
  }

  function RecordAll(list: seq<Outcome>, ids: seq<Txid>, reports: seq<Report>): seq<Outcome> {
    if reports == [] then list
    else Record(RecordAll(list, ids, reports[..|reports| - 1]), ids, reports[|reports| - 1])
  }

  predicate Distinct(list: seq<Outcome>) {
    forall i, j | 0 <= i < j < |list| :: list[i].contract != list[j].contract
  }

  /** Later lists keep every entry at its place, and every resolution for good. */
  predicate Continues(list: seq<Outcome>, later: seq<Outcome>) {
    && |list| <= |later|
    && forall i | 0 <= i < |list| ::
         later[i].contract == list[i].contract && (list[i].resolution != Unresolved ==> later[i] == list[i])
  }

  predicate Mentions(list: seq<Outcome>, contract: Txid) {
    exists i | 0 <= i < |list| :: list[i].contract == contract
  }

  predicate IsSettled(list: seq<Outcome>, contract: Txid) {
    exists i | 0 <= i < |list| :: list[i].contract == contract && list[i].resolution != Unresolved
  }

  lemma RecordContinues(list: seq<Outcome>, ids: seq<Txid>, r: Report)
    requires Distinct(list)
    ensures Distinct(Record(list, ids, r)) && Continues(list, Record(list, ids, r))
  {
  }

  /** A reported contract of the swap is settled; nothing else becomes so. */
  lemma RecordSettles(list: seq<Outcome>, ids: seq<Txid>, r: Report, contract: Txid)
    requires Distinct(list) && r.resolution != Unresolved
    ensures IsSettled(Record(list, ids, r), contract) <==>
            IsSettled(list, contract) || (contract == r.contract && contract in ids)
  {
    var later := Record(list, ids, r);
    if IsSettled(list, contract) {
      var i :| 0 <= i < |list| && list[i].contract == contract && list[i].resolution != Unresolved;
      assert later[i] == list[i];
    }
    if contract == r.contract && contract in ids {
      var i := Find(list, contract);
      assert later[i].contract == contract && later[i].resolution != Unresolved;
    }
    if IsSettled(later, contract) {
      var i :| 0 <= i < |later| && later[i].contract == contract && later[i].resolution != Unresolved;
      assert i < |list| ==> later[i] == list[i] || i == Find(list, r.contract);
    }
  }

  lemma {:induction false} RecordAllContinues(list: seq<Outcome>, ids: seq<Txid>, reports: seq<Report>)
    requires Distinct(list)
    ensures Distinct(RecordAll(list, ids, reports)) && Continues(list, RecordAll(list, ids, reports))
  {
    if reports != [] {
      var n := |reports| - 1;
      RecordAllContinues(list, ids, reports[..n]);
      RecordContinues(RecordAll(list, ids, reports[..n]), ids, reports[n]);
    }
  }

  predicate Reported(reports: seq<Report>, contract: Txid) {
    exists i | 0 <= i < |reports| :: reports[i].contract == contract
  }

  lemma ReportedLast(reports: seq<Report>, contract: Txid)
    requires reports != []
    ensures Reported(reports, contract) <==>
            Reported(reports[..|reports| - 1], contract) || reports[|reports| - 1].contract == contract
  {
    var n := |reports| - 1;
    if Reported(reports[..n], contract) {
      var i :| 0 <= i < n && reports[..n][i].contract == contract;
      assert reports[i].contract == contract;
    }
    if Reported(reports, contract) && reports[n].contract != contract {
      var i :| 0 <= i < |reports| && reports[i].contract == contract;
      assert reports[..n][i].contract == contract;
    }
  }

  lemma {:induction false} RecordAllSettles(list: seq<Outcome>, ids: seq<Txid>, reports: seq<Report>, contract: Txid)
    requires Distinct(list) && forall i | 0 <= i < |reports| :: reports[i].resolution != Unresolved
    ensures IsSettled(RecordAll(list, ids, reports), contract) <==>
            IsSettled(list, contract) || (Reported(reports, contract) && contract in ids)
  {
    if reports != [] {
      var n := |reports| - 1;
      RecordAllSettles(list, ids, reports[..n], contract);
      RecordAllContinues(list, ids, reports[..n]);
      RecordSettles(RecordAll(list, ids, reports[..n]), ids, reports[n], contract);
      ReportedLast(reports, contract);
    }
  }

  /** A contract's outcome is the one first reported. */
  lemma {:induction false} FirstReportWins(list: seq<Outcome>, ids: seq<Txid>, reports: seq<Report>, k: nat)
    requires Distinct(list) && k < |reports| && reports[k].contract in ids && !Mentions(list, reports[k].contract)
    requires !Reported(reports[..k], reports[k].contract)
    requires forall i | 0 <= i < |reports| :: reports[i].resolution != Unresolved
    ensures Outcome(reports[k].contract, reports[k].resolution, reports[k].spending) in RecordAll(list, ids, reports)
  {
    var n := |reports| - 1;
    var before := RecordAll(list, ids, reports[..n]);
    RecordAllContinues(list, ids, reports[..n]);
    if k < n {
      assert reports[..n][..k] == reports[..k];
      FirstReportWins(list, ids, reports[..n], k);
      var i :| 0 <= i < |before| && before[i] == Outcome(reports[k].contract, reports[k].resolution, reports[k].spending);
      RecordContinues(before, ids, reports[n]);
      assert Record(before, ids, reports[n])[i] == before[i];
    } else {
      UnreportedIsUnmentioned(list, ids, reports[..n], reports[k].contract);
    }
  }

  lemma {:induction false} UnreportedIsUnmentioned(list: seq<Outcome>, ids: seq<Txid>, reports: seq<Report>, contract: Txid)
    requires !Mentions(list, contract) && !Reported(reports, contract)
    ensures !Mentions(RecordAll(list, ids, reports), contract)
  {
    if reports != [] {
      ReportedLast(reports, contract);
      UnreportedIsUnmentioned(list, ids, reports[..|reports| - 1], contract);
    }
  }

  // ------------------------------------------------------------ a swap's record

  datatype Swap = Swap(incomingIds: seq<Txid>, outgoingIds: seq<Txid>, incoming: seq<Outcome>, outgoing: seq<Outcome>, phase: Phase)

  predicate AllDone(list: seq<Outcome>) {
    forall i | 0 <= i < |list| :: list[i].resolution != Unresolved
  }

  function Advanced(phase: Phase, incoming: seq<Outcome>, outgoing: seq<Outcome>): Phase {
    if AllDone(outgoing) && phase.Rank() < OutgoingRecovered.Rank() then OutgoingRecovered
    else if AllDone(incoming) && phase.Rank() < IncomingRecovered.Rank() then IncomingRecovered
    else phase
  }

  function Apply(s: Swap, p: Pass): Swap {
    var incoming := RecordAll(s.incoming, s.incomingIds, p.incoming);
    var outgoing := RecordAll(s.outgoing, s.outgoingIds, p.outgoing);
    var changed := incoming != s.incoming || outgoing != s.outgoing;
    s.(incoming := incoming, outgoing := outgoing, phase := if changed then Advanced(s.phase, incoming, outgoing) else s.phase)
  }

  function ApplyAll(s: Swap, passes: seq<Pass>): Swap {
    if passes == [] then s else Apply(ApplyAll(s, passes[..|passes| - 1]), passes[|passes| - 1])
  }

  predicate Sound(s: Swap) {
    Distinct(s.incoming) && Distinct(s.outgoing)
  }

  /** Nothing settled is ever unsettled or settled otherwise, and the phase never goes back. */
  predicate Onward(s: Swap, t: Swap) {
    && t.incomingIds == s.incomingIds && t.outgoingIds == s.outgoingIds
    && Continues(s.incoming, t.incoming) && Continues(s.outgoing, t.outgoing)
    && s.phase.Rank() <= t.phase.Rank()
  }

  lemma ApplyGoesOnward(s: Swap, p: Pass)
    requires Sound(s)
    ensures Sound(Apply(s, p)) && Onward(s, Apply(s, p))
  {
    RecordAllContinues(s.incoming, s.incomingIds, p.incoming);
    RecordAllContinues(s.outgoing, s.outgoingIds, p.outgoing);
  }

  /** From any point of any sequence of passes to any later one. */
  lemma {:induction false} PassesGoOnward(s: Swap, passes: seq<Pass>, k: nat)
    requires Sound(s) && k <= |passes|
    ensures Sound(ApplyAll(s, passes))
    ensures Onward(ApplyAll(s, passes[..k]), ApplyAll(s, passes))
  {
    if k == |passes| {
      assert passes[..k] == passes;
      if passes != [] {
        PassesGoOnward(s, passes[..k - 1], 0);
        ApplyGoesOnward(ApplyAll(s, passes[..k - 1]), passes[k - 1]);
      }
    } else {
      var n := |passes| - 1;
      PassesGoOnward(s, passes[..n], k);
      assert passes[..n][..k] == passes[..k];
      ApplyGoesOnward(ApplyAll(s, passes[..n]), passes[n]);
    }
  }

  predicate ReportedIn(passes: seq<Pass>, contract: Txid, outgoing: bool) {
    exists i | 0 <= i < |passes| :: Reported(if outgoing then passes[i].outgoing else passes[i].incoming, contract)
  }

  lemma ReportedInLast(passes: seq<Pass>, contract: Txid, outgoing: bool)
    requires passes != []
    ensures var last := passes[|passes| - 1];
            ReportedIn(passes, contract, outgoing) <==>
            ReportedIn(passes[..|passes| - 1], contract, outgoing) ||
            Reported(if outgoing then last.outgoing else last.incoming, contract)
  {
    var n := |passes| - 1;
    var front, last := passes[..n], passes[n];
    if ReportedIn(front, contract, outgoing) {
      var i :| 0 <= i < n && Reported(if outgoing then front[i].outgoing else front[i].incoming, contract);
      assert passes[i] == front[i];
    }
    if ReportedIn(passes, contract, outgoing) && !Reported(if outgoing then last.outgoing else last.incoming, contract) {
      var i :| 0 <= i < |passes| && Reported(if outgoing then passes[i].outgoing else passes[i].incoming, contract);
      assert front[i] == passes[i];
    }
  }

  /** After any sequence of passes, the settled contracts are exactly the swap's own that some pass reported. */
  lemma {:induction false} SettledAreReported(s: Swap, passes: seq<Pass>, contract: Txid)
    requires s.incoming == [] && s.outgoing == [] && forall i | 0 <= i < |passes| :: Resolves(passes[i])
    ensures var t := ApplyAll(s, passes);
            && Sound(t) && t.incomingIds == s.incomingIds && t.outgoingIds == s.outgoingIds
            && (IsSettled(t.incoming, contract) <==> contract in s.incomingIds && ReportedIn(passes, contract, false))
            && (IsSettled(t.outgoing, contract) <==> contract in s.outgoingIds && ReportedIn(passes, contract, true))
  {
    if passes != [] {
      var n := |passes| - 1;
      SettledAreReported(s, passes[..n], contract);
      var t, p := ApplyAll(s, passes[..n]), passes[n];
      RecordAllSettles(t.incoming, t.incomingIds, p.incoming, contract);
      RecordAllSettles(t.outgoing, t.outgoingIds, p.outgoing, contract);
      ApplyGoesOnward(t, p);
      ReportedInLast(passes, contract, false);
      ReportedInLast(passes, contract, true);
    }
  }

  // ------------------------------------------------- what the phase says, and does not

  /** Every outgoing contract of the swap is settled. */
  predicate OutgoingDone(s: Swap) {
    forall i | 0 <= i < |s.outgoingIds| :: IsSettled(s.outgoing, s.outgoingIds[i])
  }

  lemma {:induction false} MentionedAfter(list: seq<Outcome>, ids: seq<Txid>, reports: seq<Report>, contract: Txid)
    requires Distinct(list) && contract in ids
    ensures Mentions(RecordAll(list, ids, reports), contract) <==> Mentions(list, contract) || Reported(reports, contract)
  {
    if reports != [] {
      var n := |reports| - 1;
      MentionedAfter(list, ids, reports[..n], contract);
      ReportedLast(reports, contract);
      var before := RecordAll(list, ids, reports[..n]);
      RecordAllContinues(list, ids, reports[..n]);
      RecordMentions(before, ids, reports[n], contract);
    }
  }

  lemma RecordMentions(list: seq<Outcome>, ids: seq<Txid>, r: Report, contract: Txid)
    requires Distinct(list) && contract in ids
    ensures Mentions(Record(list, ids, r), contract) <==> Mentions(list, contract) || r.contract == contract
  {
    var later := Record(list, ids, r);
    RecordContinues(list, ids, r);
    if Mentions(list, contract) {
      var i :| 0 <= i < |list| && list[i].contract == contract;
      assert later[i].contract == contract;
    }
    if r.contract == contract {
      assert later[Find(list, contract)].contract == contract;
    }
    if Mentions(later, contract) {
      var i :| 0 <= i < |later| && later[i].contract == contract;
      assert i < |list| ==> list[i].contract == contract;
    }
  }

  /** A pass that announces the outgoing side recovered is right exactly if every outgoing contract has been heard of. */
  lemma AnnouncedMeansDone(s: Swap, p: Pass)
    requires Sound(s) && s.phase.Rank() < OutgoingRecovered.Rank() && Apply(s, p).phase == OutgoingRecovered
    ensures OutgoingDone(Apply(s, p)) <==>
            forall i | 0 <= i < |s.outgoingIds| :: Mentions(s.outgoing, s.outgoingIds[i]) || Reported(p.outgoing, s.outgoingIds[i])
  {
    var t := Apply(s, p);
    forall i | 0 <= i < |s.outgoingIds|
      ensures IsSettled(t.outgoing, s.outgoingIds[i]) <==>
              Mentions(s.outgoing, s.outgoingIds[i]) || Reported(p.outgoing, s.outgoingIds[i])
    {
      MentionedAfter(s.outgoing, s.outgoingIds, p.outgoing, s.outgoingIds[i]);
      DoneMeansSettled(t.outgoing, s.outgoingIds[i]);
    }
  }

  lemma DoneMeansSettled(list: seq<Outcome>, contract: Txid)
    requires AllDone(list)
    ensures IsSettled(list, contract) <==> Mentions(list, contract)
  {
    if Mentions(list, contract) {
      var i :| 0 <= i < |list| && list[i].contract == contract;
      assert list[i].resolution != Unresolved;
    }
  }

  /** Sweeping the one incoming contract is enough to announce an outgoing side of which nothing is known. */
  lemma AnnouncedTooEarly(incoming: Txid, outgoing: Txid, spending: Txid)
    ensures var s := Swap([incoming], [outgoing], [], [], SwapcoinsPersisted);
            var t := Apply(s, PassOf([(incoming, spending)], [], []));
            t.phase == OutgoingRecovered && !IsSettled(t.outgoing, outgoing) && !OutgoingDone(t)
  {
    var s := Swap([incoming], [outgoing], [], [], SwapcoinsPersisted);
    var p := PassOf([(incoming, spending)], [], []);
    assert p.incoming == [Report(incoming, Hashlock, Some(spending))] && p.outgoing == [];
    assert RecordAll([], [incoming], p.incoming[..0]) == [];
    var t := Apply(s, p);
    assert t.incoming == [Outcome(incoming, Hashlock, Some(spending))] && t.outgoing == [];
    assert t.outgoingIds[0] == outgoing;
  }

  // -------------------------------------------------------------------- the update

  /** What has changed stays changed. */
  lemma StaysChanged(list: seq<Outcome>, ids: seq<Txid>, mid: seq<Outcome>, r: Report)
    requires Distinct(mid) && Continues(list, mid) && r.resolution != Unresolved
    ensures Record(mid, ids, r) == list ==> mid == list
  {
    RecordContinues(mid, ids, r);
  }

  method RecordReports(list: seq<Outcome>, ids: seq<Txid>, reports: seq<Report>)
    returns (later: seq<Outcome>, changed: bool)
    requires Distinct(list) && forall i | 0 <= i < |reports| :: reports[i].resolution != Unresolved
    ensures later == RecordAll(list, ids, reports)
    ensures changed <==> later != list
  {
    later, changed := list, false;
    for n := 0 to |reports|
      invariant later == RecordAll(list, ids, reports[..n])
      invariant changed <==> later != list
    {
      var r := reports[n];
      assert reports[..n + 1][..n] == reports[..n];
      RecordAllContinues(list, ids, reports[..n]);
      StaysChanged(list, ids, later, r);
      if r.contract in ids {
        var i := 0;
        while i < |later| && later[i].contract != r.contract
          invariant i <= |later| && forall j | 0 <= j < i :: later[j].contract != r.contract
        {
          i := i + 1;
        }
        assert i == Find(later, r.contract);
        if i == |later| {
          later, changed := later + [Outcome(r.contract, r.resolution, r.spending)], true;
        } else if later[i].resolution == Unresolved {
          later, changed := later[i := Settled(later[i], r)], true;
        }
      }
    }
    assert reports[..|reports|] == reports;
  }

  class SwapRecord {
    const incomingIds: seq<Txid>
    const outgoingIds: seq<Txid>
    var incoming: seq<Outcome>
    var outgoing: seq<Outcome>
    var phase: Phase

    function View(): Swap
      reads this
    {
      Swap(incomingIds, outgoingIds, incoming, outgoing, phase)
    }

    constructor (incomingIds: seq<Txid>, outgoingIds: seq<Txid>)
      ensures View() == Swap(incomingIds, outgoingIds, [], [], NotStarted)
    {
      this.incomingIds, this.outgoingIds := incomingIds, outgoingIds;
      incoming, outgoing, phase := [], [], NotStarted;
    }

    method UpdateOutcomes(p: Pass)
      requires Sound(View()) && Resolves(p)
      modifies this
      ensures View() == Apply(old(View()), p)
      ensures Sound(View()) && Onward(old(View()), View())
    {
      ApplyGoesOnward(View(), p);
      var incomingChanged, outgoingChanged;
      incoming, incomingChanged := RecordReports(incoming, incomingIds, p.incoming);
      outgoing, outgoingChanged := RecordReports(outgoing, outgoingIds, p.outgoing);
      if incomingChanged || outgoingChanged {
        if AllDone(outgoing) && phase.Rank() < OutgoingRecovered.Rank() {
          phase := OutgoingRecovered;
        } else if AllDone(incoming) && phase.Rank() < IncomingRecovered.Rank() {
          phase := IncomingRecovered;
        }
      }
    }
  }
}
