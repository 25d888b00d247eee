/** Reading a preimage off a spent outgoing contract and storing it on the incoming coins it opens. */
module PreimageRecovery {
  import opened Bytes
  import opened Script
  import Legacy = LegacyContract
  import Taproot = TaprootContract

  const PREIMAGE_LEN: nat := 32

  type Txid = nat
  type OutPoint = (Txid, nat)

  datatype TxInput = TxInput(prev: OutPoint, wit: seq<Data>)

  /** The watcher's answer for one contract output. */
  datatype Answer = QueryFailed | Unspent | SpentBy(inputs: seq<TxInput>)

  datatype ContractScript = LegacyRedeem(script: Data) | TaprootHashlock(leaf: Option<Data>)

  datatype Coin = Coin(script: ContractScript, preimage: Option<Data>)

  /** The two hash functions. */
  datatype Hashes = Hashes(hash160: Data -> Data, sha256: Data -> Data)

  /** A witness from which a preimage is taken. */
  predicate Recognised(wit: seq<Data>) {
    |wit| >= 2 && |wit[1]| == PREIMAGE_LEN
  }

  predicate Matches(h: Hashes, script: ContractScript, preimage: Data) {
    match script
    case LegacyRedeem(s) => Legacy.ReadHash(s) == Ok(h.hash160(preimage))
    case TaprootHashlock(Some(s)) => |s| >= 34 && s[2..34] == h.sha256(preimage)
    case TaprootHashlock(None) => false
  }

  // ---------------------------------------------------------- specification

  function Inputs(answers: seq<Answer>): seq<TxInput> {
    if answers == [] then []
    else (if answers[0].SpentBy? then answers[0].inputs else []) + Inputs(answers[1..])
  }

  /** The outpoints spent so far. */
  function Spent(inputs: seq<TxInput>): set<OutPoint> {
    if inputs == [] then {}
    else Spent(inputs[..|inputs| - 1]) + {inputs[|inputs| - 1].prev}
  }

  /** The preimages shown, each outpoint counted at its first input only. */
  function Extracted(inputs: seq<TxInput>): seq<Data> {
    if inputs == [] then []
    else
      var before, last := inputs[..|inputs| - 1], inputs[|inputs| - 1];
      Extracted(before) + if last.prev !in Spent(before) && Recognised(last.wit) then [last.wit[1]] else []
  }

  function FirstMatch(h: Hashes, script: ContractScript, preimages: seq<Data>): Option<Data> {
    if preimages == [] then None
    else if Matches(h, script, preimages[0]) then Some(preimages[0])
    else FirstMatch(h, script, preimages[1..])
  }

  /** A coin after a pass: a known preimage stays, an unknown one becomes the first match. */
  function Stamp(h: Hashes, c: Coin, preimages: seq<Data>): Coin {
    if c.preimage.Some? then c else c.(preimage := FirstMatch(h, c.script, preimages))
  }

  function StampAll(h: Hashes, store: map<Txid, Coin>, swap: set<Txid>, preimages: seq<Data>): map<Txid, Coin> {
    map id | id in store :: if id in swap then Stamp(h, store[id], preimages) else store[id]
  }

  // -------------------------------------------------------------- algorithm

  lemma {:induction false} InputsAppend(a: seq<Answer>, b: seq<Answer>)
    ensures Inputs(a + b) == Inputs(a) + Inputs(b)
  {
    if a == [] {
      assert a + b == b;
    } else {
      assert (a + b)[1..] == a[1..] + b;
      InputsAppend(a[1..], b);
    }
  }

  lemma AppendInput(all: seq<TxInput>, input: TxInput)
    ensures Spent(all + [input]) == Spent(all) + {input.prev}
    ensures Extracted(all + [input])
         == Extracted(all) + if input.prev !in Spent(all) && Recognised(input.wit) then [input.wit[1]] else []
  {
    assert (all + [input])[..|all|] == all;
  }

  method ScanInputs(inputs: seq<TxInput>, ghost before: seq<TxInput>, seen: set<OutPoint>, found: seq<Data>)
    returns (seen': set<OutPoint>, found': seq<Data>)
    requires seen == Spent(before) && found == Extracted(before)
    ensures seen' == Spent(before + inputs) && found' == Extracted(before + inputs)
  {
    seen', found' := seen, found;
    ghost var all := before;
    for k := 0 to |inputs|
      invariant all == before + inputs[..k]
      invariant seen' == Spent(all) && found' == Extracted(all)
    {
      var input := inputs[k];
      AppendInput(all, input);
      var isNew := input.prev !in seen';
      seen' := seen' + {input.prev};
      if isNew && |input.wit| >= 2 && |input.wit[1]| == PREIMAGE_LEN {
        found' := found' + [input.wit[1]];
      }
      all := all + [input];
    }
    assert all == before + inputs;
  }

  class Wallet {
    var incoming: map<Txid, Coin>

    /** A failed query changes nothing; otherwise exactly the swap's coins are stamped. */
    method CheckForPreimage(h: Hashes, answers: seq<Answer>, swap: seq<(Txid, ContractScript)>) returns (ok: bool)
      requires forall i | 0 <= i < |swap| && swap[i].0 in incoming :: incoming[swap[i].0].script == swap[i].1
      modifies this
      ensures ok <==> QueryFailed !in answers
      ensures !ok ==> incoming == old(incoming)
      ensures ok ==> incoming == StampAll(h, old(incoming), set i | 0 <= i < |swap| :: swap[i].0, Extracted(Inputs(answers)))
    {
      var seen, preimages := {}, [];
      for k := 0 to |answers|
        invariant incoming == old(incoming)
        invariant QueryFailed !in answers[..k]
        invariant seen == Spent(Inputs(answers[..k]))
        invariant preimages == Extracted(Inputs(answers[..k]))
      {
        assert answers[..k + 1] == answers[..k] + [answers[k]];
        InputsAppend(answers[..k], [answers[k]]);
        assert Inputs([answers[k]]) == if answers[k].SpentBy? then answers[k].inputs else [] by {
          assert [answers[k]][1..] == [];
        }
        match answers[k]
        case QueryFailed => return false;
        case Unspent => assert Inputs(answers[..k + 1]) == Inputs(answers[..k]);
        case SpentBy(inputs) =>
          seen, preimages := ScanInputs(inputs, Inputs(answers[..k]), seen, preimages);
      }
      assert answers[..|answers|] == answers;
      Store(h, swap, preimages);
      return true;
    }

    method Store(h: Hashes, swap: seq<(Txid, ContractScript)>, preimages: seq<Data>)
      requires forall i | 0 <= i < |swap| && swap[i].0 in incoming :: incoming[swap[i].0].script == swap[i].1
      modifies this
      ensures incoming == StampAll(h, old(incoming), set i | 0 <= i < |swap| :: swap[i].0, preimages)
    {
      ghost var before := incoming;
      for k := 0 to |swap|
        invariant incoming == StampAll(h, before, set i | 0 <= i < k :: swap[i].0, preimages)
      {
        var (id, script) := swap[k];
        var hit := FindMatch(h, script, preimages);
        if hit.Some? && id in incoming && incoming[id].preimage.None? {
          incoming := incoming[id := incoming[id].(preimage := hit)];
        }
        assert (set i | 0 <= i < k + 1 :: swap[i].0) == (set i | 0 <= i < k :: swap[i].0) + {id};
      }
    }
  }

  /** The inner loop stops at the first preimage that matches. */
  method FindMatch(h: Hashes, script: ContractScript, preimages: seq<Data>) returns (hit: Option<Data>)
    ensures hit == FirstMatch(h, script, preimages)
  {
    hit := None;
    for i := 0 to |preimages|
      invariant FirstMatch(h, script, preimages) == FirstMatch(h, script, preimages[i..])
    {
      assert preimages[i..][1..] == preimages[i + 1..];
      if Matches(h, script, preimages[i]) {
        return Some(preimages[i]);
      }
    }
  }

  // ------------------------------------------------------------- properties

  lemma {:induction false} FirstMatchMatches(h: Hashes, script: ContractScript, preimages: seq<Data>)
    ensures var r := FirstMatch(h, script, preimages);
            && (r.Some? ==> Matches(h, script, r.value) && r.value in preimages)
            && (r.None? ==> forall p | p in preimages :: !Matches(h, script, p))
  {
    if preimages != [] {
      FirstMatchMatches(h, script, preimages[1..]);
    }
  }

  /** One outpoint has one spender: inputs that name it carry the same witness. */
  predicate OneSpender(inputs: seq<TxInput>) {
    forall i, j | 0 <= i < |inputs| && 0 <= j < |inputs| && inputs[i].prev == inputs[j].prev :: inputs[i].wit == inputs[j].wit
  }

  lemma {:induction false} SpentAt(inputs: seq<TxInput>, op: OutPoint)
    requires op in Spent(inputs)
    ensures exists j | 0 <= j < |inputs| :: inputs[j].prev == op
  {
    var last := |inputs| - 1;
    if inputs[last].prev != op {
      SpentAt(inputs[..last], op);
      var j :| 0 <= j < last && inputs[..last][j].prev == op;
      assert inputs[j].prev == op;
    }
  }

  /** The preimage shown by any recognised input is found, although only an outpoint's first input is looked at. */
  lemma {:induction false} RecognisedIsExtracted(inputs: seq<TxInput>, i: nat)
    requires OneSpender(inputs)
    requires i < |inputs| && Recognised(inputs[i].wit)
    ensures inputs[i].wit[1] in Extracted(inputs)
  {
    var last := |inputs| - 1;
    var before := inputs[..last];
    assert OneSpender(before);
    if i < last {
      RecognisedIsExtracted(before, i);
    } else if inputs[i].prev in Spent(before) {
      SpentAt(before, inputs[i].prev);
      var j :| 0 <= j < last && before[j].prev == inputs[i].prev;
      assert before[j].wit == inputs[i].wit;
      RecognisedIsExtracted(before, j);
    }
  }

  /**
   Legacy recovery is complete and has no false alarms: among the spends the
   contract script accepts, the recognised ones are exactly the hashlock spends,
   and their preimage matches every contract on the same hash.
   */
  lemma LegacyRecoveryComplete(tx: Spend, out: Legacy.Terms, sig: Data, x: Data, inc: Legacy.Terms)
    requires out.Valid() && inc.Valid() && inc.hash == out.hash
    requires Accepts(tx, Legacy.CreateContractScript(out), [sig, x])
    ensures var wit := [sig, x, Legacy.CreateContractScript(out)];
            && (Recognised(wit) <==> Legacy.HashlockSpend(tx, out, [sig, x]))
            && (Recognised(wit) ==>
                 Matches(Hashes(tx.hash160, tx.sha256), LegacyRedeem(Legacy.CreateContractScript(inc)), wit[1]))
  {
    Legacy.ContractMeaning(tx, out, [sig, x]);
    Legacy.ReadersInvertBuilder(inc, _ => true);
  }

  // ------------------------------------------------ what a stored preimage is worth

  /** With the preimage, every signature by the claim key makes a spend the script accepts. */
  ghost predicate OpensWith(h: Hashes, script: Data, key: Data, x: Data) {
    forall tx: Spend, sig: Data | ClaimsAs(h, tx, sig, key) :: Accepts(tx, script, [sig, x])
  }

  /** A claim transaction with a valid signature. */
  ghost predicate ClaimsAs(h: Hashes, tx: Spend, sig: Data, key: Data) {
    tx.hash160 == h.hash160 && tx.sha256 == h.sha256 && CsvOk(tx, 0) && |sig| <= MAX_ELEMENT && tx.sigOk(sig, key)
  }

  ghost predicate Opens(h: Hashes, script: ContractScript, x: Data) {
    match script
    case LegacyRedeem(s) =>
      exists t: Legacy.Terms :: t.Valid() && Legacy.CreateContractScript(t) == s && OpensWith(h, s, t.hashlockKey, x)
    case TaprootHashlock(Some(s)) =>
      Taproot.VerifyHashlockScript(s).Ok? && OpensWith(h, s, Taproot.VerifyHashlockScript(s).value.1, x)
    case TaprootHashlock(None) => false
  }

  /** A claim whose signature oracle accepts everything but the empty string. */
  function AnyClaim(h: Hashes): Spend {
    Spend(2, 0, 0, h.hash160, h.sha256, (s, k) => s != [])
  }

  lemma LegacyOpens(h: Hashes, t: Legacy.Terms, x: Data)
    requires t.Valid()
    ensures h.hash160(x) == t.hash && |x| == 32 ==> OpensWith(h, Legacy.CreateContractScript(t), t.hashlockKey, x)
  {
    forall tx: Spend, sig: Data | ClaimsAs(h, tx, sig, t.hashlockKey)
      ensures h.hash160(x) == t.hash && |x| == 32 ==> Accepts(tx, Legacy.CreateContractScript(t), [sig, x])
    {
      Legacy.ContractMeaning(tx, t, [sig, x]);
    }
  }

  lemma TaprootOpens(h: Hashes, script: Data, hash: Data, key: Data, x: Data)
    requires Taproot.VerifyHashlockScript(script) == Ok((hash, key))
    ensures OpensWith(h, script, key, x) <==> h.sha256(x) == hash && |x| <= MAX_ELEMENT
  {
    forall tx: Spend, sig: Data | ClaimsAs(h, tx, sig, key)
      ensures Accepts(tx, script, [sig, x]) <==> h.sha256(x) == hash && |x| <= MAX_ELEMENT
    {
      Taproot.HashlockMeaning(tx, script, hash, key, [sig, x]);
    }
    assert ClaimsAs(h, AnyClaim(h), [1], key);
  }

  /** The hash of an accepted leaf lies where the matcher looks for it. */
  predicate HashInPlace(script: Data) {
    |script| >= 34 && Taproot.VerifyHashlockScript(script).Ok? && script[2..34] == Taproot.VerifyHashlockScript(script).value.0
  }

  /** A contract the code builds itself, or an accepted leaf with its hash in place. */
  ghost predicate Readable(script: ContractScript) {
    match script
    case LegacyRedeem(s) => exists t: Legacy.Terms :: t.Valid() && Legacy.CreateContractScript(t) == s
    case TaprootHashlock(Some(s)) => HashInPlace(s)
    case TaprootHashlock(None) => false
  }

  /** On a readable contract the matcher's test is the interpreter's. */
  lemma MatchOpens(h: Hashes, script: ContractScript, x: Data)
    requires Readable(script) && |x| == 32 && Matches(h, script, x)
    ensures Opens(h, script, x)
  {
    match script
    case LegacyRedeem(s) =>
      var t: Legacy.Terms :| t.Valid() && Legacy.CreateContractScript(t) == s;
      Legacy.ReadersInvertBuilder(t, _ => true);
      LegacyOpens(h, t, x);
    case TaprootHashlock(Some(s)) =>
      var (hash, key) := Taproot.VerifyHashlockScript(s).value;
      TaprootOpens(h, s, hash, key, x);
    case _ =>
  }

  /** On an accepted leaf, whatever matches opens, for every hash function, exactly if the hash is in place. */
  lemma LeafMatchesExactly(script: Data)
    requires Taproot.VerifyHashlockScript(script).Ok?
    ensures (forall h: Hashes, x: Data | |x| == 32 && Matches(h, TaprootHashlock(Some(script)), x) ::
               Opens(h, TaprootHashlock(Some(script)), x))
       <==> HashInPlace(script)
  {
    var (hash, key) := Taproot.VerifyHashlockScript(script).value;
    LeafLength(script);
    if HashInPlace(script) {
      forall h: Hashes, x: Data | |x| == 32 && Matches(h, TaprootHashlock(Some(script)), x)
        ensures Opens(h, TaprootHashlock(Some(script)), x)
      {
        MatchOpens(h, TaprootHashlock(Some(script)), x);
      }
    } else {
      var h, x := Hashes(d => d, d => script[2..34]), seq(32, _ => 0);
      TaprootOpens(h, script, hash, key, x);
      assert Matches(h, TaprootHashlock(Some(script)), x) && !Opens(h, TaprootHashlock(Some(script)), x);
    }
  }

  // ------------------------------------------------------------ any sequence of passes

  datatype Pass = Pass(inputs: seq<TxInput>, swap: set<Txid>)

  function AfterPasses(h: Hashes, store: map<Txid, Coin>, passes: seq<Pass>): map<Txid, Coin> {
    if passes == [] then store
    else
      var p := passes[|passes| - 1];
      StampAll(h, AfterPasses(h, store, passes[..|passes| - 1]), p.swap, Extracted(p.inputs))
  }

  /** Every stored preimage has 32 bytes and opens its coin, if that is readable. */
  ghost predicate Sound(h: Hashes, store: map<Txid, Coin>) {
    forall id | id in store && store[id].preimage.Some? ::
      |store[id].preimage.value| == 32 && (Readable(store[id].script) ==> Opens(h, store[id].script, store[id].preimage.value))
  }

  lemma {:induction false} ExtractedLength(inputs: seq<TxInput>)
    ensures forall x | x in Extracted(inputs) :: |x| == 32
  {
    if inputs != [] {
      ExtractedLength(inputs[..|inputs| - 1]);
    }
  }

  lemma StampIsSound(h: Hashes, c: Coin, inputs: seq<TxInput>)
    requires c.preimage.None? && Stamp(h, c, Extracted(inputs)).preimage.Some?
    ensures var x := Stamp(h, c, Extracted(inputs)).preimage.value;
            |x| == 32 && (Readable(c.script) ==> Opens(h, c.script, x))
  {
    FirstMatchMatches(h, c.script, Extracted(inputs));
    ExtractedLength(inputs);
    if Readable(c.script) {
      MatchOpens(h, c.script, Stamp(h, c, Extracted(inputs)).preimage.value);
    }
  }

  /** Over any sequence of passes, a stored preimage opens its coin and is never replaced. */
  lemma {:induction false} StoredPreimagesOpen(h: Hashes, store: map<Txid, Coin>, passes: seq<Pass>)
    requires Sound(h, store)
    ensures Sound(h, AfterPasses(h, store, passes)) && AfterPasses(h, store, passes).Keys == store.Keys
    ensures forall id | id in store ::
              && AfterPasses(h, store, passes)[id].script == store[id].script
              && (store[id].preimage.Some? ==> AfterPasses(h, store, passes)[id] == store[id])
  {
    if passes != [] {
      var n := |passes| - 1;
      StoredPreimagesOpen(h, store, passes[..n]);
      var before, p := AfterPasses(h, store, passes[..n]), passes[n];
      forall id | id in before && before[id].preimage.None? && Stamp(h, before[id], Extracted(p.inputs)).preimage.Some?
        ensures var x := Stamp(h, before[id], Extracted(p.inputs)).preimage.value;
                |x| == 32 && (Readable(before[id].script) ==> Opens(h, before[id].script, x))
      {
        StampIsSound(h, before[id], p.inputs);
      }
    }
  }

  // --------------------------------------------------------------- claims are learnt

  /** However many spends are scanned, a coin the claimed preimage matches ends up with one, which opens it. */
  lemma MatchedIsStored(h: Hashes, inputs: seq<TxInput>, i: nat, store: map<Txid, Coin>, swap: set<Txid>, id: Txid)
    requires OneSpender(inputs) && i < |inputs| && Recognised(inputs[i].wit)
    requires Sound(h, store) && id in store && id in swap && Readable(store[id].script)
    requires Matches(h, store[id].script, inputs[i].wit[1])
    ensures var c := StampAll(h, store, swap, Extracted(inputs))[id];
            c.preimage.Some? && Opens(h, c.script, c.preimage.value)
  {
    RecognisedIsExtracted(inputs, i);
    FirstMatchMatches(h, store[id].script, Extracted(inputs));
    if store[id].preimage.None? {
      StampIsSound(h, store[id], inputs);
    }
  }

  /** After a hashlock claim of a Legacy contract, every coin of the same hash holds a preimage that opens it. */
  lemma LegacyClaimIsStored(tx: Spend, out: Legacy.Terms, sig: Data, x: Data, inc: Legacy.Terms,
                            inputs: seq<TxInput>, i: nat, store: map<Txid, Coin>, swap: set<Txid>, id: Txid)
    requires out.Valid() && inc.Valid() && inc.hash == out.hash
    requires Legacy.HashlockSpend(tx, out, [sig, x]) && Accepts(tx, Legacy.CreateContractScript(out), [sig, x])
    requires OneSpender(inputs) && i < |inputs| && inputs[i].wit == [sig, x, Legacy.CreateContractScript(out)]
    requires Sound(Hashes(tx.hash160, tx.sha256), store)
    requires id in store && id in swap && store[id].script == LegacyRedeem(Legacy.CreateContractScript(inc))
    ensures var c := StampAll(Hashes(tx.hash160, tx.sha256), store, swap, Extracted(inputs))[id];
            c.preimage.Some? && Opens(Hashes(tx.hash160, tx.sha256), c.script, c.preimage.value)
  {
    LegacyRecoveryComplete(tx, out, sig, x, inc);
    MatchedIsStored(Hashes(tx.hash160, tx.sha256), inputs, i, store, swap, id);
  }

  /** A pass over one claim that shows x stores it on a coin with the given leaf. */
  predicate Learns(h: Hashes, leaf: Data, x: Data, claim: TxInput)
    requires |claim.wit| >= 2 && claim.wit[1] == x
  {
    Stamp(h, Coin(TaprootHashlock(Some(leaf)), None), Extracted([claim])).preimage == Some(x)
  }

  lemma ExtractedOne(claim: TxInput)
    ensures Extracted([claim]) == if Recognised(claim.wit) then [claim.wit[1]] else []
  {
    AppendInput([], claim);
    assert [] + [claim] == [claim];
  }

  lemma MatchOfOne(h: Hashes, script: ContractScript, x: Data)
    ensures FirstMatch(h, script, [x]) == if Matches(h, script, x) then Some(x) else None
  {
    assert FirstMatch(h, script, [x][1..]) == None;
  }

  lemma LearnsExactly(h: Hashes, leaf: Data, x: Data, claim: TxInput)
    requires Taproot.VerifyHashlockScript(leaf).Ok? && h.sha256(x) == Taproot.VerifyHashlockScript(leaf).value.0
    requires |claim.wit| >= 2 && claim.wit[1] == x
    ensures Learns(h, leaf, x, claim) <==> |x| == 32 && HashInPlace(leaf)
  {
    ExtractedOne(claim);
    LeafLength(leaf);
    MatchOfOne(h, TaprootHashlock(Some(leaf)), x);
  }

  /**
   Taproot recovery, for any accepted incoming leaf on the hash of the claimed contract: the claimed preimage opens it,
   and a pass learns it exactly if it has 32 bytes and the leaf has its hash in place.
   */
  lemma TaprootRecovery(tx: Spend, hash: Data, key: Data, claim: TxInput, leaf: Data, inc: Data)
    requires Taproot.VerifyHashlockScript(leaf) == Ok((hash, key))
    requires Taproot.VerifyHashlockScript(inc).Ok? && Taproot.VerifyHashlockScript(inc).value.0 == hash
    requires |claim.wit| >= 2 && Accepts(tx, leaf, claim.wit[..2])
    ensures var h, x := Hashes(tx.hash160, tx.sha256), claim.wit[1];
            && Opens(h, TaprootHashlock(Some(inc)), x)
            && (Learns(h, inc, x, claim) <==> |x| == 32 && HashInPlace(inc))
  {
    var h, x := Hashes(tx.hash160, tx.sha256), claim.wit[1];
    Taproot.HashlockMeaning(tx, leaf, hash, key, claim.wit[..2]);
    TaprootOpens(h, inc, hash, Taproot.VerifyHashlockScript(inc).value.1, x);
    assert h.sha256(x) == hash && |x| <= MAX_ELEMENT by { assert claim.wit[..2][1] == x; }
    LearnsExactly(h, inc, x, claim);
  }

  /** A refund spend of a built leaf shows nothing. */
  lemma RefundShowsNothing(height: nat, key: Data, sig: Data, control: Data)
    requires |key| == 32
    ensures !Recognised([sig, Taproot.CreateTimelockScript(height, key), control])
  {
    var p := Taproot.TimelockLeaf(PushInt(height), key);
    assert |Build(p.tail.tail.tail)| >= 33 && |Build(p.tail)| >= 35;
  }

  /** The witness of the maker's own refund, in either protocol. */
  ghost predicate IsRefund(wit: seq<Data>) {
    || (exists t: Legacy.Terms, sig: Data :: t.Valid() && wit == [sig, [], Legacy.CreateContractScript(t)])
    || (exists height: nat, key: Data, sig: Data, control: Data ::
          |key| == 32 && wit == [sig, Taproot.CreateTimelockScript(height, key), control])
  }

  lemma RefundIsUnrecognised(wit: seq<Data>)
    requires IsRefund(wit)
    ensures !Recognised(wit)
  {
    if !(exists t: Legacy.Terms, sig: Data :: t.Valid() && wit == [sig, [], Legacy.CreateContractScript(t)]) {
      var height: nat, key: Data, sig: Data, control: Data :|
        |key| == 32 && wit == [sig, Taproot.CreateTimelockScript(height, key), control];
      RefundShowsNothing(height, key, sig, control);
    }
  }

  lemma {:induction false} NothingExtracted(inputs: seq<TxInput>)
    requires forall i | 0 <= i < |inputs| :: IsRefund(inputs[i].wit)
    ensures Extracted(inputs) == []
  {
    if inputs != [] {
      NothingExtracted(inputs[..|inputs| - 1]);
      RefundIsUnrecognised(inputs[|inputs| - 1].wit);
    }
  }

  /** Passes that see only the maker's own refunds leave every coin as it was. */
  lemma {:induction false} RefundsTeachNothing(h: Hashes, store: map<Txid, Coin>, passes: seq<Pass>)
    requires forall p, i | p in passes && 0 <= i < |p.inputs| :: IsRefund(p.inputs[i].wit)
    ensures AfterPasses(h, store, passes) == store
  {
    if passes != [] {
      var n := |passes| - 1;
      RefundsTeachNothing(h, store, passes[..n]);
      assert passes[n] in passes;
      NothingExtracted(passes[n].inputs);
    }
  }

  /** An accepted claim with a preimage of any other length teaches the maker nothing. */
  lemma OddPreimage(hash: Data, key: Data, x: Data)
    requires |hash| == 32 && |key| == 32 && |x| <= MAX_ELEMENT && |x| != 32
    ensures var tx := AnyClaim(Hashes(d => d, d => hash));
            && Accepts(tx, Taproot.CreateHashlockScript(hash, key), [[1], x])
            && !Recognised([[1], x, Taproot.CreateHashlockScript(hash, key)])
  {
    Taproot.ChecksInvertBuilders(hash, 0, key);
    var tx := AnyClaim(Hashes(d => d, d => hash));
    Taproot.HashlockMeaning(tx, Taproot.CreateHashlockScript(hash, key), hash, key, [[1], x]);
  }

  // ------------------------------------------------------------------ the fixed offset

  /** The bytes that give a push of 32 its length after the given opcode, over and over. */
  function Periodic(code: Byte): Data {
    var w := LengthBytes(code);
    seq(32, i requires 0 <= i < 32 => if w == 0 || i % w == 0 then 0x20 else 0)
  }

  /** How an accepted leaf pushes its hash. */
  lemma LeafPush(script: Data, hash: Data, key: Data) returns (w: nat)
    requires Taproot.VerifyHashlockScript(script) == Ok((hash, key))
    ensures |script| >= 34 + w && w == LengthBytes(script[1])
    ensures script[2 + w..34 + w] == hash
    ensures if w == 0 then script[1] == 0x20 else LittleEndian(script[2..2 + w]) == 32
  {
    var rest := script[1..];
    assert Parse(script).instrs == Parse(rest).After(Op(OpcodeOf(script[0]))).instrs;
    w := LengthBytes(rest[0]);
    var n := if w == 0 then rest[0] else LittleEndian(rest[1..1 + w]);
    assert Parse(rest).instrs.head == Push(rest[1 + w..1 + w + n]);
    assert script[2 + w..34 + w] == rest[1 + w..33 + w];
    assert script[2..2 + w] == rest[1..1 + w];
  }

  lemma LeafLength(script: Data)
    requires Taproot.VerifyHashlockScript(script).Ok?
    ensures |script| >= 34
  {
    var (hash, key) := Taproot.VerifyHashlockScript(script).value;
    var w := LeafPush(script, hash, key);
  }

  /** A push of 32 bytes by one of the longer opcodes: the length bytes, then the data. */
  predicate LongPushed(u: Data, hash: Data, w: nat) {
    && w in {1, 2, 4} && |u| >= 32 + w && |hash| == 32 && u[w..w + 32] == hash
    && forall j | 0 <= j < w :: u[j] == if j == 0 then 0x20 else 0
  }

  lemma LengthBytesOf32(d: Data)
    requires |d| in {1, 2, 4} && LittleEndian(d) == 32
    ensures forall j | 0 <= j < |d| :: d[j] == if j == 0 then 0x20 else 0
  {
    var e := d[1..];
    assert LittleEndian(d) == d[0] as int + 256 * LittleEndian(e) && LittleEndian(e) == 0;
    AllZero(e);
    assert forall j | 1 <= j < |d| :: d[j] == e[j - 1];
  }

  lemma {:induction false} AllZero(d: Data)
    requires LittleEndian(d) == 0
    ensures forall j | 0 <= j < |d| :: d[j] == 0
  {
    if d != [] {
      AllZero(d[1..]);
      assert forall j | 1 <= j < |d| :: d[j] == d[1..][j - 1];
    }
  }

  lemma {:induction false} ShiftedRepeats(u: Data, hash: Data, w: nat, i: nat)
    requires LongPushed(u, hash, w) && u[..32] == hash && i < 32
    ensures hash[i] == if i % w == 0 then 0x20 else 0
  {
    assert hash[i] == u[..32][i] == u[i];
    if i >= w {
      ShiftedRepeats(u, hash, w, i - w);
      assert u[i] == u[w..w + 32][i - w];
      assert i % w == (i - w) % w;
    }
  }

  lemma RepeatsShifted(u: Data, hash: Data, w: nat, i: nat)
    requires LongPushed(u, hash, w) && i < 32 && forall j | 0 <= j < 32 :: hash[j] == if j % w == 0 then 0x20 else 0
    ensures u[i] == hash[i]
  {
    if i >= w {
      assert u[i] == u[w..w + 32][i - w] == hash[i - w];
      assert i % w == (i - w) % w;
    }
  }

  /** The data starts at its length bytes exactly if it repeats them. */
  lemma PeriodicExactly(u: Data, hash: Data, code: Byte)
    requires code in {76, 77, 78} && LongPushed(u, hash, LengthBytes(code))
    ensures u[..32] == hash <==> hash == Periodic(code)
  {
    var w := LengthBytes(code);
    if u[..32] == hash {
      forall i | 0 <= i < 32
        ensures hash[i] == Periodic(code)[i]
      {
        ShiftedRepeats(u, hash, w, i);
      }
    }
    if hash == Periodic(code) {
      forall i | 0 <= i < 32
        ensures u[i] == hash[i]
      {
        RepeatsShifted(u, hash, w, i);
      }
    }
  }

  lemma SliceOfRest(script: Data, from: nat, to: nat)
    requires from <= to && 2 + to <= |script|
    ensures script[2..][from..to] == script[2 + from..2 + to]
  {
  }

  /** The fixed offset finds an accepted leaf's hash exactly if the push is direct, or the hash repeats its length bytes. */
  lemma FixedOffsetExact(script: Data, hash: Data, key: Data)
    requires Taproot.VerifyHashlockScript(script) == Ok((hash, key))
    ensures |script| >= 34 && (HashInPlace(script) <==> script[1] == 0x20 || hash == Periodic(script[1]))
  {
    var w := LeafPush(script, hash, key);
    if w > 0 {
      var u := script[2..];
      LengthBytesOf32(script[2..2 + w]);
      SliceOfRest(script, 0, w);
      SliceOfRest(script, w, w + 32);
      SliceOfRest(script, 0, 32);
      assert forall j | 0 <= j < w :: u[j] == u[0..w][j];
      PeriodicExactly(u, hash, script[1]);
    }
  }

  /** The hashlock leaf with its hash pushed by the opcode that takes a length byte. */
  function LongLeaf(hash: Data, key: Data): Data {
    [0xa8] + ([76, 32] + hash + Build(Taproot.HashlockLeaf(hash, key).tail.tail))
  }

  /** It is accepted, and a preimage of its hash opens it but does not match. */
  lemma LongPush(h: Hashes, hash: Data, key: Data, x: Data)
    requires |hash| == 32 && |key| == 32 && hash != Periodic(76) && h.sha256(x) == hash && |x| == 32
    ensures var script := LongLeaf(hash, key);
            && Taproot.VerifyHashlockScript(script) == Ok((hash, key))
            && Opens(h, TaprootHashlock(Some(script)), x) && !Matches(h, TaprootHashlock(Some(script)), x)
  {
    var script := LongLeaf(hash, key);
    LongPushParses(hash, key);
    Taproot.LeafItems(Op(Sha256), Push(hash), Op(EqualVerify), key);
    FixedOffsetExact(script, hash, key);
    TaprootOpens(h, script, hash, key, x);
  }

  lemma ParseLongPush(d: Data, rest: Data)
    requires |d| == 32
    ensures Parse([76, 32] + d + rest) == Parse(rest).After(Push(d))
  {
    var s := [76, 32] + d + rest;
    assert s[1..2] == [32] && LittleEndian(s[1..2]) == 32;
    assert s[2..34] == d && s[34..] == rest;
  }

  lemma LongPushParses(hash: Data, key: Data)
    requires |hash| == 32 && |key| == 32
    ensures Parse(LongLeaf(hash, key)) == Parsed(Taproot.HashlockLeaf(hash, key), true)
  {
    var rest := Taproot.HashlockLeaf(hash, key).tail.tail;
    AddFive(Op(Sha256), Push(hash), Op(EqualVerify), Push(key), Op(CheckSig), Nil);
    ParseInvertsBuild(rest);
    ParseLongPush(hash, Build(rest));
    ParseOne(Op(Sha256), [76, 32] + hash + Build(rest));
  }
}
