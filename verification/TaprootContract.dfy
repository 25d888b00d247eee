/**
 The two leaves of a Taproot contract: their builders, the template checks and
 the timelock decoder a maker applies to a peer's scripts, and what the leaves mean.
 */
module TaprootContract {
  import opened Bytes
  import opened Script
  import Deadline

  datatype TemplateError =
    | Unparsable | WrongShape | EmptyLocktime | LongLocktime | NotALocktime | ZeroLocktime | WrongLocktime

  // ---------------------------------------------------------------- builders

  function HashlockLeaf(hash: Data, key: Data): Program {
    Cons(Op(Sha256), Cons(Push(hash), Cons(Op(EqualVerify), Cons(Push(key), Cons(Op(CheckSig), Nil)))))
  }

  function TimelockLeaf(lock: Instruction, key: Data): Program {
    Cons(lock, Cons(Op(CheckLockTime), Cons(Op(Drop), Cons(Push(key), Cons(Op(CheckSig), Nil)))))
  }

  function CreateHashlockScript(hash: Data, key: Data): Data {
    Build(HashlockLeaf(hash, key))
  }

  function CreateTimelockScript(lockTime: nat, key: Data): Data {
    Build(TimelockLeaf(PushInt(lockTime), key))
  }

  lemma ParseLeaves(hash: Data, lockTime: nat, key: Data)
    requires |hash| == 32 && |key| == 32 && lockTime < 0x1_0000_0000
    ensures Parse(CreateHashlockScript(hash, key)) == Parsed(HashlockLeaf(hash, key), true)
    ensures Parse(CreateTimelockScript(lockTime, key)) == Parsed(TimelockLeaf(PushInt(lockTime), key), true)
  {
    ScriptNumLength(lockTime);
    var h, t := HashlockLeaf(hash, key), TimelockLeaf(PushInt(lockTime), key);
    AddFive(Op(Sha256), Push(hash), Op(EqualVerify), Push(key), Op(CheckSig), Nil);
    AddFive(PushInt(lockTime), Op(CheckLockTime), Op(Drop), Push(key), Op(CheckSig), Nil);
    ParseInvertsBuild(h);
    ParseInvertsBuild(t);
  }

  // ------------------------------------------------- checks on a peer's leaf

  function ExtractHash(script: Data): Result<Data, TemplateError> {
    var p := Parse(script);
    if p.ItemCount() < 5 then Err(WrongShape)
    else
      match p.instrs.Nth(1)
      case Some(Push(d)) => if |d| == 32 then Ok(d) else Err(WrongShape)
      case _ => Err(WrongShape)
  }

  /** The maker's check of a peer's hashlock leaf; the result is the hash and the key it commits to. */
  function VerifyHashlockScript(script: Data): Result<(Data, Data), TemplateError> {
    var p := Parse(script);
    if ExtractHash(script).Err? then Err(WrongShape)
    else if !p.complete then Err(Unparsable)
    else
      match (p.instrs.Nth(1), p.instrs.Nth(3))
      case (Some(Push(h)), Some(Push(k))) =>
        if p.instrs == HashlockLeaf(h, k) && |h| == 32 && |k| == 32 then Ok((h, k)) else Err(WrongShape)
      case _ => Err(WrongShape)
  }

  /** The height the decoder reads from the first instruction of a timelock leaf. */
  function DecodeLock(first: Instruction): Result<nat, TemplateError> {
    match first
    case Push(d) =>
      if d == [] then Err(EmptyLocktime)
      else if |d| > 4 then Err(LongLocktime)
      else if LittleEndian(d) == 0 then Err(ZeroLocktime)
      else Ok(LittleEndian(d))
    case Op(PushNum(n)) => Ok(n)
    case Op(_) => Err(NotALocktime)
  }

  /** The maker's check of a peer's timelock leaf: its shape, and the height and key it commits to. */
  function DecodeTimelockScript(script: Data): Result<(nat, Data), TemplateError> {
    var p := Parse(script);
    if !p.complete then Err(Unparsable)
    else
      match (p.instrs.Nth(0), p.instrs.Nth(3))
      case (Some(first), Some(Push(k))) => (
        if p.instrs != TimelockLeaf(first, k) || |k| != 32 then Err(WrongShape)
        else
          match DecodeLock(first)
          case Err(e) => Err(e)
          case Ok(v) => Ok((v, k)))
      case _ => Err(WrongShape)
  }

  /** A peer's incoming contract must expire exactly one step after ours. */
  function VerifyTimelockScript(script: Data, ourTimelock: nat): Result<(nat, Data), TemplateError> {
    match DecodeTimelockScript(script)
    case Err(e) => Err(e)
    case Ok((v, k)) => if v == ourTimelock + Deadline.REFUND_LOCKTIME_STEP then Ok((v, k)) else Err(WrongLocktime)
  }

  /** The checks return exactly what the builders were given; the decoder fails on zero and beyond four bytes. */
  lemma ChecksInvertBuilders(hash: Data, lockTime: nat, key: Data)
    requires |hash| == 32 && |key| == 32 && lockTime < 0x1_0000_0000
    ensures ExtractHash(CreateHashlockScript(hash, key)) == Ok(hash)
    ensures VerifyHashlockScript(CreateHashlockScript(hash, key)) == Ok((hash, key))
    ensures DecodeTimelockScript(CreateTimelockScript(lockTime, key))
         == if lockTime == 0 then Err(EmptyLocktime)
            else if lockTime >= 0x8000_0000 then Err(LongLocktime)
            else Ok((lockTime, key))
  {
    ParseLeaves(hash, lockTime, key);
    ScriptNumReadsBack(lockTime);
    ScriptNumLength(lockTime);
    LeafItems(Op(Sha256), Push(hash), Op(EqualVerify), key);
    LeafItems(PushInt(lockTime), Op(CheckLockTime), Op(Drop), key);
  }

  lemma LeafItems(a: Instruction, b: Instruction, c: Instruction, key: Data)
    ensures var p := Cons(a, Cons(b, Cons(c, Cons(Push(key), Cons(Op(CheckSig), Nil)))));
            p.Length() == 5 && p.Nth(0) == Some(a) && p.Nth(1) == Some(b) && p.Nth(3) == Some(Push(key))
  {
    var q := Cons(c, Cons(Push(key), Cons(Op(CheckSig), Nil)));
    assert q.tail.tail.Length() == 1 && q.Length() == 3 && q.Nth(1) == Some(Push(key));
  }

  // ---------------------------------------------------------------- meaning

  /** For every witness, a leaf that passes the hashlock check succeeds exactly on its preimage and a valid signature. */
  lemma HashlockMeaning(tx: Spend, script: Data, hash: Data, key: Data, wit: seq<Data>)
    requires VerifyHashlockScript(script) == Ok((hash, key))
    ensures Accepts(tx, script, wit)
       <==> && |wit| == 2
            && tx.sha256(wit[1]) == hash
            && tx.sigOk(wit[0], key)
            && |wit[0]| <= MAX_ELEMENT && |wit[1]| <= MAX_ELEMENT
  {
    var p := HashlockLeaf(hash, key);
    assert Parse(script) == Parsed(p, true);
    var n := |wit|;
    if n > 0 {
      var x, base := wit[n - 1], ToStack(wit[..n - 1]);
      RunHashlock(tx, hash, key, x, base);
      if n > 1 {
        assert wit[..n - 1][n - 2] == wit[n - 2];
        assert base == Cons(wit[n - 2], ToStack(wit[..n - 1][..n - 2]));
        TruthyOfBool(tx.sigOk(wit[n - 2], key));
      }
    }
  }

  lemma RunHashlock(tx: Spend, hash: Data, key: Data, x: Data, base: Stack)
    ensures Run(tx, HashlockLeaf(hash, key), Machine(Cons(x, base), Nil))
         == if tx.sha256(x) != hash then None else SigResult(tx, key, base)
  {
    var p := HashlockLeaf(hash, key);
    var h := tx.sha256(x);
    var q := p.tail.tail;
    assert Run(tx, p, Machine(Cons(x, base), Nil)) == Run(tx, q, Machine(Cons(hash, Cons(h, base)), Nil));
    if h == hash {
      assert Run(tx, q, Machine(Cons(hash, Cons(h, base)), Nil)) == Run(tx, q.tail, Machine(base, Nil));
      RunKeyCheck(tx, key, base);
    }
  }

  /** Both leaves end in the key and a signature check. */
  lemma RunKeyCheck(tx: Spend, key: Data, base: Stack)
    ensures Run(tx, Cons(Push(key), Cons(Op(CheckSig), Nil)), Machine(base, Nil))
         == SigResult(tx, key, base)
  {
    RunCons(tx, Push(key), Cons(Op(CheckSig), Nil), Machine(base, Nil));
    RunCheckSig(tx, key, base);
  }

  /** The stack element an integer push leaves. */
  function Operand(first: Instruction): Option<Data> {
    match first
    case Push(d) => Some(d)
    case Op(PushNum(n)) => Some(ScriptNum(n))
    case Op(_) => None
  }

  predicate LockHolds(tx: Spend, first: Instruction) {
    Operand(first).Some? && |Operand(first).value| <= 5 && CltvOk(tx, ScriptInt(Operand(first).value))
  }

  /** For every witness, a timelock leaf succeeds exactly on one valid signature once its operand's lock holds. */
  lemma TimelockMeaning(tx: Spend, first: Instruction, key: Data, wit: seq<Data>)
    requires Operand(first).Some?
    ensures ProgramAccepts(tx, TimelockLeaf(first, key), wit)
       <==> |wit| == 1 && LockHolds(tx, first) && tx.sigOk(wit[0], key) && |wit[0]| <= MAX_ELEMENT
  {
    var p := TimelockLeaf(first, key);
    var base := ToStack(wit);
    var m := Machine(Cons(Operand(first).value, base), Nil);
    assert Run(tx, p, Machine(base, Nil)) == Run(tx, p.tail, m);
    assert Run(tx, p.tail, m) == if LockHolds(tx, first) then Run(tx, p.tail.tail, m) else None;
    assert Run(tx, p.tail.tail, m) == Run(tx, p.tail.tail.tail, Machine(base, Nil));
    RunKeyCheck(tx, key, base);
    var n := |wit|;
    if n > 0 {
      assert base == Cons(wit[n - 1], ToStack(wit[..n - 1]));
      TruthyOfBool(tx.sigOk(wit[n - 1], key));
    }
  }

  /** A refund leaf built for a height is spendable exactly from that height on, by its key. */
  lemma BuiltTimelockMeaning(tx: Spend, height: nat, key: Data, wit: seq<Data>)
    requires |key| == 32 && height < LOCKTIME_THRESHOLD
    ensures Accepts(tx, CreateTimelockScript(height, key), wit)
       <==> && |wit| == 1 && tx.sigOk(wit[0], key) && |wit[0]| <= MAX_ELEMENT
            && height <= tx.lockTime < LOCKTIME_THRESHOLD && tx.sequence != 0xffff_ffff
  {
    ParseLeaves(seq(32, _ => 0), height, key);
    ScriptNumReadsBack(height);
    ScriptNumLength(height);
    TimelockMeaning(tx, PushInt(height), key, wit);
  }

  /** The operand is a negative zero: its magnitude is the sign bit alone. */
  predicate NegativeZero(first: Instruction) {
    first.Push? && SignBit(first.data) && ScriptInt(first.data) == 0
  }

  lemma {:induction false} DecodedOperand(first: Instruction, v: nat)
    requires DecodeLock(first) == Ok(v)
    ensures Operand(first).Some? && |Operand(first).value| <= 4 && v > 0
    ensures ScriptInt(Operand(first).value) == v || ScriptInt(Operand(first).value) < 0 || NegativeZero(first)
  {
    match first
    case Op(PushNum(n)) => ScriptNumReadsBack(n); ScriptNumLength(n);
    case Push(d) => if SignBit(d) { SignedIsBelow(d); }
    case _ =>
  }

  lemma {:induction false} SignedIsBelow(d: Data)
    requires SignBit(d)
    ensures ScriptInt(d) <= 0
    ensures LittleEndian(d) >= 128 * Pow256(|d| - 1)
  {
    if |d| > 1 {
      SignedIsBelow(d[1..]);
    }
  }

  /** A signature oracle that accepts everything but the empty string, at height zero. */
  function AnySignature(): Spend {
    Spend(2, 0, 0, x => x, x => x, (s, k) => s != [])
  }

  function FirstOf(script: Data): Instruction {
    match Parse(script).instrs
    case Nil => Push([])
    case Cons(i, _) => i
  }

  /**
   What the decoder's answer is worth: a leaf decoded as height v cannot be spent
   before v, whatever its bytes, if and only if its push is not a negative zero.
   */
  lemma DecodedHeightBinds(script: Data, v: nat, key: Data)
    requires DecodeTimelockScript(script) == Ok((v, key))
    ensures (forall tx: Spend, wit: seq<Data> | Accepts(tx, script, wit) :: CltvOk(tx, v))
       <==> !NegativeZero(FirstOf(script))
  {
    var first := FirstOf(script);
    assert Parse(script) == Parsed(TimelockLeaf(first, key), true);
    DecodedOperand(first, v);
    forall tx: Spend, wit: seq<Data> | Accepts(tx, script, wit)
      ensures CltvOk(tx, v) || NegativeZero(first)
    {
      TimelockMeaning(tx, first, key, wit);
    }
    if NegativeZero(first) {
      var tx := AnySignature();
      TimelockMeaning(tx, first, key, [[1]]);
      assert Accepts(tx, script, [[1]]) && !CltvOk(tx, v);
    }
  }

  /** Only four decoded heights can come from a negative zero. */
  lemma NegativeZeroHeights(first: Instruction, v: nat)
    requires DecodeLock(first) == Ok(v) && NegativeZero(first)
    ensures v in {0x80, 0x8000, 0x80_0000, 0x8000_0000}
  {
    var n := |first.data|;
    assert v == 128 * Pow256(n - 1);
    assert Pow256(1) == 256 && Pow256(2) == 0x1_0000 && Pow256(3) == 0x100_0000;
  }

  /** A peer's leaf that spells its height as a negative zero passes the maker's check. */
  lemma NegativeZeroPasses(key: Data)
    requires |key| == 32
    ensures var script := Build(TimelockLeaf(Push([0x80]), key));
            VerifyTimelockScript(script, 108) == Ok((128, key)) && NegativeZero(FirstOf(script))
  {
    AddFive(Push([0x80]), Op(CheckLockTime), Op(Drop), Push(key), Op(CheckSig), Nil);
    ParseInvertsBuild(TimelockLeaf(Push([0x80]), key));
    LeafItems(Push([0x80]), Op(CheckLockTime), Op(Drop), key);
    assert LittleEndian([0x80]) == 128 && Pow256(0) == 1;
  }

  // ------------------------------------------------------ the stored refund

  /** The height the wallet reads from its own leaf by byte position; a five-byte push overflows its shift. */
  function StoredTimelock(script: Data): Option<nat> {
    if |script| < 6 then None
    else
      var n := script[0];
      if n == 0 || n > 4 || |script| < n + 1 then None
      else Some(LittleEndian(script[1..n + 1]))
  }

  /** The byte-position reader agrees with the builder exactly for heights above 16, which are pushed as data. */
  lemma StoredTimelockExact(height: nat, key: Data)
    requires |key| == 32 && height < LOCKTIME_THRESHOLD
    ensures StoredTimelock(CreateTimelockScript(height, key)) == Some(height) <==> height > 16
  {
    var p := TimelockLeaf(PushInt(height), key);
    var rest := Build(p.tail);
    var s := CreateTimelockScript(height, key);
    assert |rest| >= 35 by {
      assert |Build(p.tail.tail.tail)| >= 33 && |Build(p.tail.tail)| >= 34;
    }
    if height > 16 {
      var d := ScriptNum(height);
      ScriptNumLength(height);
      ScriptNumReadsBack(height);
      assert s == [|d|] + d + rest;
      assert s[1..|d| + 1] == d;
    }
  }
}
