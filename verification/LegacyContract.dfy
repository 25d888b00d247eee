/** The Legacy hash-time-locked contract: its script, what the script means, and its readers. */
module LegacyContract {
  import opened Bytes
  import opened Script

  const MIN_HASHV_LEN: nat := 25

  datatype ReadError = TooShort | BadScript | NotAHash | BadLocktime | BadKey

  /** The terms of one contract; keys are compressed and the locktime is a 16-bit number of blocks. */
  datatype Terms = Terms(hashlockKey: Data, timelockKey: Data, hash: Data, locktime: nat)
  {
    predicate Valid() {
      |hashlockKey| == 33 && |timelockKey| == 33 && |hash| == 20 && locktime < 0x1_0000
    }
  }

  // The script, from its last section to its first.

  function Tail(): Program {
    Cons(Op(CheckSequence), Cons(Op(Drop), Cons(Op(Rot), Cons(Op(EqualVerify), Cons(Op(CheckSig), Nil)))))
  }

  function TimelockBranch(t: Terms): Program {
    Cons(Op(Else), Cons(Push(t.timelockKey), Cons(PushInt(0), Cons(PushInt(t.locktime), Cons(Op(EndIf), Tail())))))
  }

  function HashlockBranch(t: Terms): Program {
    Cons(Push(t.hashlockKey), Cons(PushInt(32), Cons(PushInt(0), TimelockBranch(t))))
  }

  function Contract(t: Terms): Program {
    Cons(Op(Size), Cons(Op(Swap), Cons(Op(Hash160), Cons(Push(t.hash), Cons(Op(Equal), Cons(Op(If), HashlockBranch(t)))))))
  }

  function CreateContractScript(t: Terms): Data {
    Build(Contract(t))
  }

  lemma RefundEncodable(t: Terms)
    requires t.Valid()
    ensures AllEncodable(TimelockBranch(t))
  {
    ScriptNumLength(t.locktime);
    AddFive(Op(CheckSequence), Op(Drop), Op(Rot), Op(EqualVerify), Op(CheckSig), Nil);
    AddFive(Op(Else), Push(t.timelockKey), PushInt(0), PushInt(t.locktime), Op(EndIf), Tail());
  }

  lemma ContractEncodable(t: Terms)
    requires t.Valid()
    ensures AllEncodable(Contract(t))
  {
    RefundEncodable(t);
    AddFive(Op(Equal), Op(If), Push(t.hashlockKey), PushInt(32), PushInt(0), TimelockBranch(t));
    var c := Cons(Op(Equal), Cons(Op(If), HashlockBranch(t)));
    AddEncodable(Push(t.hash), c);
    AddEncodable(Op(Hash160), Cons(Push(t.hash), c));
    AddEncodable(Op(Swap), Cons(Op(Hash160), Cons(Push(t.hash), c)));
    AddEncodable(Op(Size), Cons(Op(Swap), Cons(Op(Hash160), Cons(Push(t.hash), c))));
  }

  lemma ParseContract(t: Terms)
    requires t.Valid()
    ensures Parse(CreateContractScript(t)) == Parsed(Contract(t), true)
  {
    ContractEncodable(t);
    ParseInvertsBuild(Contract(t));
  }

  // ---------------------------------------------------------------- readers

  function ReadHash(script: Data): Result<Data, ReadError> {
    var p := Parse(script).instrs;
    if |script| < MIN_HASHV_LEN then Err(TooShort)
    else
      match (p.Nth(2), p.Nth(3))
      case (None, _) => Err(TooShort)
      case (Some(Op(Hash160)), None) => Err(TooShort)
      case (Some(Op(Hash160)), Some(Push(d))) => if |d| == 20 then Ok(d) else Err(BadScript)
      case (Some(Op(Hash160)), Some(Op(_))) => Err(BadScript)
      case (Some(_), _) => Err(NotAHash)
  }

  function ReadLocktime(script: Data): Result<nat, ReadError> {
    match Parse(script).instrs.Nth(12)
    case None => Err(TooShort)
    case Some(Push(d)) =>
      if |d| == 1 then Ok(LittleEndian(d))
      else if |d| == 2 || (|d| == 3 && d[2] == 0) then Ok(LittleEndian(d[..2]))
      else Err(BadLocktime)
    case Some(Op(PushNum(n))) => Ok(n)
    case Some(Op(_)) => Err(BadLocktime)
  }

  /** `onCurve` stands for the point check of `PublicKey::from_slice`. */
  function ReadHashlockKey(script: Data, onCurve: Data -> bool): Result<Data, ReadError> {
    if |script| < 61 then Err(TooShort)
    else if !onCurve(script[27..60]) then Err(BadKey)
    else Ok(script[27..60])
  }

  /** The hashlock key occupies fixed byte positions. */
  lemma Layout(t: Terms)
    requires t.Valid()
    ensures |CreateContractScript(t)| >= 61
    ensures CreateContractScript(t)[27..60] == t.hashlockKey
  {
    var c := Contract(t);
    var rest := Build(HashlockBranch(t));
    assert rest == [33] + t.hashlockKey + Build(HashlockBranch(t).tail);
    assert Build(c.tail.tail.tail.tail) == [0x87, 0x63] + rest;
    HeadBytes(t.hash, c.tail.tail.tail.tail);
    var head := [0x82, 0x7c, 0xa9, 20] + t.hash + [0x87, 0x63];
    assert Build(c) == head + rest;
    assert |Build(HashlockBranch(t).tail)| >= 1;
  }

  lemma Assoc(b: Data)
    ensures [0x82 as Byte] + ([0x7c] + ([0xa9] + b)) == [0x82, 0x7c, 0xa9] + b
  {
  }

  lemma HeadBytes(hash: Data, p: Program)
    requires |hash| == 20
    ensures Build(Cons(Op(Size), Cons(Op(Swap), Cons(Op(Hash160), Cons(Push(hash), p)))))
         == [0x82, 0x7c, 0xa9] + ([20] + hash + Build(p))
  {
    var q := Cons(Push(hash), p);
    var r := Cons(Op(Hash160), q);
    assert Build(r) == [0xa9] + Build(q);
    Assoc(Build(q));
  }

  lemma LocktimeBytes(n: nat)
    requires 0 < n < 0x1_0000
    ensures var d := ScriptNum(n);
            && 1 <= |d| <= 3
            && (|d| == 3 ==> d[2] == 0)
            && n == LittleEndian(if |d| == 3 then d[..2] else d)
  {
    ScriptNumLength(n);
    ScriptNumReadsBack(n);
    var d := ScriptNum(n);
    if |d| == 3 {
      assert d[1..] == ScriptNum(n / 256) == [n / 256, 0];
      assert d[..2] == [n % 256, n / 256];
      assert d[..2][1..] == [n / 256] && d[..2][1..][1..] == [];
      assert LittleEndian(d[..2][1..]) == n / 256;
    }
  }

  /**
   Every reader inverts the builder. The locktime comes back from all four
   encodings of the integer push; a zero locktime, an empty push, is refused.
   */
  lemma ReadersInvertBuilder(t: Terms, onCurve: Data -> bool)
    requires t.Valid()
    ensures ReadHash(CreateContractScript(t)) == Ok(t.hash)
    ensures ReadLocktime(CreateContractScript(t)) == if t.locktime == 0 then Err(BadLocktime) else Ok(t.locktime)
    ensures ReadHashlockKey(CreateContractScript(t), onCurve)
         == if onCurve(t.hashlockKey) then Ok(t.hashlockKey) else Err(BadKey)
  {
    ParseContract(t);
    Layout(t);
    if t.locktime > 0 {
      LocktimeBytes(t.locktime);
    }
    var d := ScriptNum(t.locktime);
    assert |d| == 2 ==> d[..2] == d;
    var c := Contract(t);
    assert c.Nth(12) == HashlockBranch(t).Nth(6) == TimelockBranch(t).Nth(3);
  }

  /** Two contracts with the same script have the same terms, so a script commits to all of them. */
  lemma ScriptDeterminesTerms(a: Terms, b: Terms)
    requires a.Valid() && b.Valid()
    requires CreateContractScript(a) == CreateContractScript(b)
    ensures a == b
  {
    ParseContract(a);
    ParseContract(b);
    assert HashlockBranch(a) == HashlockBranch(b) && TimelockBranch(a) == TimelockBranch(b);
    ScriptNumReadsBack(a.locktime);
    ScriptNumReadsBack(b.locktime);
  }

  // ---------------------------------------------------------------- meaning

  /** The two ways to spend, as the design intends them. */
  predicate HashlockSpend(tx: Spend, t: Terms, wit: seq<Data>) {
    && |wit| == 2
    && tx.hash160(wit[1]) == t.hash
    && |wit[1]| == 32
    && CsvOk(tx, 0)
    && tx.sigOk(wit[0], t.hashlockKey)
  }

  predicate TimelockSpend(tx: Spend, t: Terms, wit: seq<Data>) {
    && |wit| == 2
    && tx.hash160(wit[1]) != t.hash
    && wit[1] == []
    && CsvOk(tx, t.locktime)
    && tx.sigOk(wit[0], t.timelockKey)
  }

  /** Up to IF: the size is kept and the hash comparison chooses the branch. */
  lemma RunToBranch(tx: Spend, t: Terms, x: Data, base: Stack)
    ensures Run(tx, Contract(t), Machine(Cons(x, base), Nil))
         == Run(tx, HashlockBranch(t), Machine(Cons(ScriptNum(|x|), base), Cons(tx.hash160(x) == t.hash, Nil)))
  {
    var p := Contract(t);
    var p3 := p.tail.tail.tail;
    var kept := Cons(ScriptNum(|x|), base);
    var h := tx.hash160(x);
    var m3 := Machine(Cons(h, kept), Nil);
    var m5 := Machine(Cons(FromBool(t.hash == h), kept), Nil);
    assert Run(tx, p, Machine(Cons(x, base), Nil)) == Run(tx, p.tail.tail, Machine(Cons(x, kept), Nil)) == Run(tx, p3, m3);
    assert Run(tx, p3, m3) == Run(tx, p3.tail, Machine(Cons(t.hash, m3.stack), Nil)) == Run(tx, p3.tail.tail, m5);
    TruthyOfBool(t.hash == h);
  }

  /** Through the branch: the key, the expected size and the lock of the branch taken are pushed. */
  lemma RunBranch(tx: Spend, t: Terms, base: Stack, hit: bool)
    ensures Run(tx, HashlockBranch(t), Machine(base, Cons(hit, Nil)))
         == Run(tx, Tail(), Machine(if hit then Cons(ScriptNum(0), Cons(ScriptNum(32), Cons(t.hashlockKey, base)))
                                    else Cons(ScriptNum(t.locktime), Cons(ScriptNum(0), Cons(t.timelockKey, base))), Nil))
  {
    var on, off := Cons(true, Nil), Cons(false, Nil);
    var a, b := HashlockBranch(t), TimelockBranch(t);
    if hit {
      var key := Machine(Cons(t.hashlockKey, base), on);
      var st := Cons(ScriptNum(0), Cons(ScriptNum(32), key.stack));
      PushIntPushes(tx, 32, key);
      assert Run(tx, a, Machine(base, on)) == Run(tx, a.tail, key) == Run(tx, b, Machine(st, on));
      assert Run(tx, b, Machine(st, on)) == Run(tx, b.tail, Machine(st, off)) == Run(tx, b.tail.tail, Machine(st, off));
      assert Run(tx, b.tail.tail, Machine(st, off)) == Run(tx, b.tail.tail.tail.tail, Machine(st, off));
    } else {
      assert Run(tx, a, Machine(base, off)) == Run(tx, a.tail.tail, Machine(base, off)) == Run(tx, b, Machine(base, off));
      var key := Machine(Cons(t.timelockKey, base), on);
      var size := Machine(Cons(ScriptNum(0), key.stack), on);
      assert Run(tx, b, Machine(base, off)) == Run(tx, b.tail, Machine(base, on)) == Run(tx, b.tail.tail, key);
      PushIntPushes(tx, t.locktime, size);
      assert Run(tx, b.tail.tail, key) == Run(tx, b.tail.tail.tail, size);
    }
  }

  /** After ENDIF: the lock is checked, the size compared and the signature verified. */
  lemma RunTail(tx: Spend, base: Stack, size: Data, key: Data, want: Data, lock: Data)
    requires |lock| <= 5
    ensures Run(tx, Tail(), Machine(Cons(lock, Cons(want, Cons(key, Cons(size, base)))), Nil))
         == if !CsvOk(tx, ScriptInt(lock)) || want != size then None else SigResult(tx, key, base)
  {
    var check := Cons(Op(EqualVerify), Cons(Op(CheckSig), Nil));
    var st := Cons(want, Cons(key, Cons(size, base)));
    var m := Machine(Cons(lock, st), Nil);
    RunCons(tx, Op(CheckSequence), Cons(Op(Drop), Cons(Op(Rot), check)), m);
    assert Step(tx, Op(CheckSequence), m) == if CsvOk(tx, ScriptInt(lock)) then Some(m) else None;
    RunCons(tx, Op(Drop), Cons(Op(Rot), check), m);
    RunCons(tx, Op(Rot), check, Machine(st, Nil));
    RunSizeCheck(tx, base, size, key, want);
  }

  lemma RunSizeCheck(tx: Spend, base: Stack, size: Data, key: Data, want: Data)
    ensures Run(tx, Cons(Op(EqualVerify), Cons(Op(CheckSig), Nil)), Machine(Cons(size, Cons(want, Cons(key, base))), Nil))
         == if want != size then None else SigResult(tx, key, base)
  {
    RunCons(tx, Op(EqualVerify), Cons(Op(CheckSig), Nil), Machine(Cons(size, Cons(want, Cons(key, base))), Nil));
    RunCheckSig(tx, key, base);
  }

  /** The result of a whole run, on a stack with the preimage candidate on top. */
  function Outcome(tx: Spend, t: Terms, x: Data, base: Stack): Option<Machine> {
    var hit := tx.hash160(x) == t.hash;
    if !CsvOk(tx, if hit then 0 else t.locktime) || |x| != (if hit then 32 else 0) then None
    else SigResult(tx, if hit then t.hashlockKey else t.timelockKey, base)
  }

  lemma RunContract(tx: Spend, t: Terms, x: Data, base: Stack)
    requires t.locktime < 0x1_0000
    ensures Run(tx, Contract(t), Machine(Cons(x, base), Nil)) == Outcome(tx, t, x, base)
  {
    var hit := tx.hash160(x) == t.hash;
    var locktime := if hit then 0 else t.locktime;
    var want := if hit then 32 else 0;
    var key := if hit then t.hashlockKey else t.timelockKey;
    RunToBranch(tx, t, x, base);
    RunBranch(tx, t, Cons(ScriptNum(|x|), base), hit);
    ScriptNumLength(locktime);
    RunTail(tx, base, ScriptNum(|x|), key, ScriptNum(want), ScriptNum(locktime));
    ScriptNumReadsBack(|x|);
    ScriptNumReadsBack(want);
    ScriptNumReadsBack(locktime);
  }

  /**
   What the script means, for every witness stack and transaction: it succeeds
   exactly on the two intended spends.
   */
  lemma ContractMeaning(tx: Spend, t: Terms, wit: seq<Data>)
    requires t.Valid()
    ensures Accepts(tx, CreateContractScript(t), wit)
       <==> (HashlockSpend(tx, t, wit) || TimelockSpend(tx, t, wit)) && |wit[0]| <= MAX_ELEMENT
  {
    ParseContract(t);
    var n := |wit|;
    if n > 0 {
      RunContract(tx, t, wit[n - 1], ToStack(wit[..n - 1]));
    }
    if n > 1 {
      assert wit[..n - 1][n - 2] == wit[n - 2];
      assert ToStack(wit[..n - 1]).tail.Nil? <==> n == 2;
      TruthyOfBool(tx.sigOk(wit[n - 2], t.hashlockKey));
      TruthyOfBool(tx.sigOk(wit[n - 2], t.timelockKey));
    }
  }
}
