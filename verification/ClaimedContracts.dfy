/**
 From the maker's state machine down to the scripts: whatever claims an outgoing contract also opens every incoming one,
 and the incoming contracts' refunds come later.
 */
module ClaimedContracts {
  import opened Bytes
  import opened Script
  import opened Deadline
  import LegacyContract
  import TaprootContract
  import opened MakerState
  import opened MakerHandlers
  import opened MakerSafety
  import opened MakerRuns

  ghost predicate IsContract(script: Data) {
    exists t: LegacyContract.Terms :: t.Valid() && LegacyContract.CreateContractScript(t) == script
  }

  /** The terms a Legacy contract was built from. */
  ghost function TermsOf(script: Data): (t: LegacyContract.Terms)
    requires IsContract(script)
    ensures t.Valid() && LegacyContract.CreateContractScript(t) == script
  {
    var t: LegacyContract.Terms :| t.Valid() && LegacyContract.CreateContractScript(t) == script;
    t
  }

  /** The lock of a Legacy contract, or of a Taproot contract's two leaves. */
  ghost function Decode(p: Protocol, scripts: seq<Data>): Option<Lock> {
    match p
    case Legacy =>
      if |scripts| == 1 && IsContract(scripts[0])
      then Some(Lock(TermsOf(scripts[0]).hash, TermsOf(scripts[0]).locktime)) else None
    case Taproot =>
      if |scripts| != 2 then None
      else
        match (TaprootContract.VerifyHashlockScript(scripts[0]), TaprootContract.DecodeTimelockScript(scripts[1]))
        case (Ok((hash, _)), Ok((height, _))) => Some(Lock(hash, height))
        case _ => None
  }

  ghost predicate Real(c: Config) {
    forall p, scripts :: c.decode(p, scripts) == Decode(p, scripts)
  }

  /** On a Legacy contract this is what the maker's readers return. */
  lemma DecodeIsReading(script: Data, lock: Lock)
    requires Decode(Legacy, [script]) == Some(lock) && lock.delay > 0
    ensures LegacyContract.ReadHash(script) == Ok(lock.hash)
    ensures LegacyContract.ReadLocktime(script) == Ok(lock.delay)
  {
    LegacyContract.ReadersInvertBuilder(TermsOf(script), _ => true);
  }

  /** On built contracts the decoding is the terms they were built from. */
  lemma DecodeOfBuilt(t: LegacyContract.Terms)
    requires t.Valid()
    ensures Decode(Legacy, [LegacyContract.CreateContractScript(t)]) == Some(Lock(t.hash, t.locktime))
  {
    var script := LegacyContract.CreateContractScript(t);
    assert IsContract(script);
    LegacyContract.ScriptDeterminesTerms(t, TermsOf(script));
  }

  /** Two contracts that differ in a key alone: the maker signs both for one outpoint, if one request names them. */
  lemma TwoKeysOneOutpoint(c: Config, log: Log, s: Swap, o: OutPoint, t: LegacyContract.Terms, u: LegacyContract.Terms, e: Env)
    requires Real(c) && t.Valid() && u.Valid() && u == t.(timelockKey := u.timelockKey) && u.timelockKey != t.timelockKey
    requires s.terms.protocol == Legacy && s.phase == AwaitingContractData && e.verified && o !in CacheOf(log)
    requires t.locktime == s.terms.timelock + REFUND_LOCKTIME_STEP
    ensures var bs := [Binding(o, [LegacyContract.CreateContractScript(t)]), Binding(o, [LegacyContract.CreateContractScript(u)])];
            && SenderSigsPlan(c, CacheOf(log), s, s.terms.timelock, t.hash, bs, e) == Some(Plan([Bind(bs)], s, Ending.Store))
            && !OneContractEach(log + [Bind(bs)])
  {
    var a, b := LegacyContract.CreateContractScript(t), LegacyContract.CreateContractScript(u);
    DecodeOfBuilt(t);
    DecodeOfBuilt(u);
    if a == b {
      LegacyContract.ScriptDeterminesTerms(t, u);
    }
    assert c.decode(Legacy, [a]) == Decode(Legacy, [a]) && c.decode(Legacy, [b]) == Decode(Legacy, [b]);
    var first, second := [a], [b];
    assert first[0] != second[0];
    TwoContractsInOneRequest(c, log, s, t.hash, o, first, second, e);
  }

  /** A claim of any outgoing Legacy contract shows what opens every incoming one. */
  lemma LegacyClaimOpens(c: Config, s: Swap, k: nat, tx: Spend, sig: Data, x: Data, j: nat, tx2: Spend, sig2: Data)
    requires Real(c) && Chained(c, s) && s.terms.protocol == Legacy && k < |s.outgoing| && j < |s.incoming|
    requires |s.outgoing[k].scripts| == 1 && x != [] && Accepts(tx, s.outgoing[k].scripts[0], [sig, x])
    ensures |s.incoming[j].scripts| == 1 && IsContract(s.incoming[j].scripts[0])
    ensures tx2.hash160 == tx.hash160 && CsvOk(tx2, 0) && |sig2| <= MAX_ELEMENT &&
            tx2.sigOk(sig2, TermsOf(s.incoming[j].scripts[0]).hashlockKey) ==>
              Accepts(tx2, s.incoming[j].scripts[0], [sig2, x])
  {
    var hash :| (forall i | 0 <= i < |s.incoming| :: OpensLate(c, s.terms.protocol, s.incoming[i].scripts, hash, s.terms.timelock))
             && BuiltOn(c, s.terms.protocol, s.outgoing, hash, s.terms.timelock);
    assert c.decode(Legacy, s.outgoing[k].scripts) == Decode(Legacy, s.outgoing[k].scripts);
    assert OpensLate(c, s.terms.protocol, s.incoming[j].scripts, hash, s.terms.timelock);
    assert c.decode(Legacy, s.incoming[j].scripts) == Decode(Legacy, s.incoming[j].scripts);
    LegacyContract.ContractMeaning(tx, TermsOf(s.outgoing[k].scripts[0]), [sig, x]);
    LegacyContract.ContractMeaning(tx2, TermsOf(s.incoming[j].scripts[0]), [sig2, x]);
  }

  /** No incoming Legacy contract can be refunded before a lock that outlasts ours by the reaction time. */
  lemma LegacyRefundIsLater(c: Config, s: Swap, j: nat, tx: Spend, sig: Data)
    requires Real(c) && Chained(c, s) && s.terms.protocol == Legacy && j < |s.incoming|
    requires |s.incoming[j].scripts| == 1 && Accepts(tx, s.incoming[j].scripts[0], [sig, []])
    ensures exists d :: d >= s.terms.timelock + MIN_CONTRACT_REACTION_TIME && CsvOk(tx, d)
  {
    var hash :| (forall i | 0 <= i < |s.incoming| :: OpensLate(c, s.terms.protocol, s.incoming[i].scripts, hash, s.terms.timelock))
             && BuiltOn(c, s.terms.protocol, s.outgoing, hash, s.terms.timelock);
    assert OpensLate(c, s.terms.protocol, s.incoming[j].scripts, hash, s.terms.timelock);
    assert c.decode(Legacy, s.incoming[j].scripts) == Decode(Legacy, s.incoming[j].scripts);
    var t := TermsOf(s.incoming[j].scripts[0]);
    LegacyContract.ContractMeaning(tx, t, [sig, []]);
    assert CsvOk(tx, t.locktime);
  }

  /** A claim of any outgoing Taproot contract shows what opens every incoming one. */
  lemma TaprootClaimOpens(c: Config, s: Swap, k: nat, tx: Spend, wit: seq<Data>, j: nat, tx2: Spend, sig2: Data)
    requires Real(c) && Chained(c, s) && s.terms.protocol == Taproot && k < |s.outgoing| && j < |s.incoming|
    requires |s.outgoing[k].scripts| == 2 && Accepts(tx, s.outgoing[k].scripts[0], wit)
    ensures |wit| == 2 && |s.incoming[j].scripts| == 2 && TaprootContract.VerifyHashlockScript(s.incoming[j].scripts[0]).Ok?
    ensures tx2.sha256 == tx.sha256 && |sig2| <= MAX_ELEMENT &&
            tx2.sigOk(sig2, TaprootContract.VerifyHashlockScript(s.incoming[j].scripts[0]).value.1) ==>
              Accepts(tx2, s.incoming[j].scripts[0], [sig2, wit[1]])
  {
    var hash :| (forall i | 0 <= i < |s.incoming| :: OpensLate(c, s.terms.protocol, s.incoming[i].scripts, hash, s.terms.timelock))
             && BuiltOn(c, s.terms.protocol, s.outgoing, hash, s.terms.timelock);
    assert c.decode(Taproot, s.outgoing[k].scripts) == Decode(Taproot, s.outgoing[k].scripts);
    assert OpensLate(c, s.terms.protocol, s.incoming[j].scripts, hash, s.terms.timelock);
    assert c.decode(Taproot, s.incoming[j].scripts) == Decode(Taproot, s.incoming[j].scripts);
    var ours, theirs := s.outgoing[k].scripts[0], s.incoming[j].scripts[0];
    var key, key2 := TaprootContract.VerifyHashlockScript(ours).value.1, TaprootContract.VerifyHashlockScript(theirs).value.1;
    TaprootContract.HashlockMeaning(tx, ours, hash, key, wit);
    TaprootContract.HashlockMeaning(tx2, theirs, hash, key2, [sig2, wit[1]]);
  }

  /**
   In every run, for every transaction the maker has sent: whoever claims an outgoing contract with a preimage hands the
   maker what its own signature turns into a valid claim of each incoming contract.
   */
  lemma ClaimsPassOn(c: Config, actions: seq<Action>, i: nat, k: nat, tx: Spend, sig: Data, x: Data, j: nat, tx2: Spend, sig2: Data)
    requires Real(c) && i < |After(c, START, actions).log| && After(c, START, actions).log[i].Broadcast?
    requires var s := After(c, START, actions).log[i].batch.swap;
             && k < |s.outgoing| && j < |s.incoming| && s.outgoing[k].scripts != [] && s.incoming[j].scripts != []
             && Accepts(tx, s.outgoing[k].scripts[0], [sig, x]) && (s.terms.protocol == Legacy ==> x != [])
    requires tx2.hash160 == tx.hash160 && tx2.sha256 == tx.sha256 && CsvOk(tx2, 0) && |sig2| <= MAX_ELEMENT
    requires SignsFor(After(c, START, actions).log[i].batch.swap, j, tx2, sig2)
    ensures Accepts(tx2, After(c, START, actions).log[i].batch.swap.incoming[j].scripts[0], [sig2, x])
  {
    CommitOrder(c, actions, i);
    var s := After(c, START, actions).log[i].batch.swap;
    Decoded(c, s, k, j);
    match s.terms.protocol
    case Legacy => LegacyClaimOpens(c, s, k, tx, sig, x, j, tx2, sig2);
    case Taproot => TaprootClaimOpens(c, s, k, tx, [sig, x], j, tx2, sig2);
  }

  /** A signature under the hashlock key of an incoming contract. */
  ghost predicate SignsFor(s: Swap, j: nat, tx: Spend, sig: Data)
    requires j < |s.incoming| && s.incoming[j].scripts != []
  {
    var script := s.incoming[j].scripts[0];
    match s.terms.protocol
    case Legacy => IsContract(script) && tx.sigOk(sig, TermsOf(script).hashlockKey)
    case Taproot =>
      TaprootContract.VerifyHashlockScript(script).Ok? && tx.sigOk(sig, TaprootContract.VerifyHashlockScript(script).value.1)
  }

  lemma Decoded(c: Config, s: Swap, k: nat, j: nat)
    requires Real(c) && Chained(c, s) && k < |s.outgoing| && j < |s.incoming|
    ensures |s.outgoing[k].scripts| == |s.incoming[j].scripts| == if s.terms.protocol == Legacy then 1 else 2
  {
    var hash :| (forall i | 0 <= i < |s.incoming| :: OpensLate(c, s.terms.protocol, s.incoming[i].scripts, hash, s.terms.timelock))
             && BuiltOn(c, s.terms.protocol, s.outgoing, hash, s.terms.timelock);
    var p := s.terms.protocol;
    assert OpensLate(c, p, s.incoming[j].scripts, hash, s.terms.timelock);
    assert c.decode(p, s.incoming[j].scripts) == Decode(p, s.incoming[j].scripts);
    assert c.decode(p, s.outgoing[k].scripts) == Decode(p, s.outgoing[k].scripts);
  }
}
