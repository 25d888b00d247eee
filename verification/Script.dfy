/**
 Bitcoin Script as the swap contracts use it: the byte-level builder, the
 instruction iterator the readers use, and an interpreter for the opcodes that
 occur in the contracts. Hashes and signature checks are parameters of the
 spending context, so every statement holds for all of them.
 */
module Script {
  import opened Bytes

  type SmallNum = n: nat | 1 <= n <= 16 witness 1

  /** The opcodes above the data pushes; those the contracts do not use are `Other`. */
  datatype Opcode =
    | PushNum(n: SmallNum)
    | If | Else | EndIf | Drop | Rot | Swap | Size | Equal | EqualVerify
    | Sha256 | Hash160 | CheckSig | CheckMultisig | CheckLockTime | CheckSequence
    | Other(code: Byte)

  function OpcodeOf(b: Byte): Opcode {
    if 0x51 <= b <= 0x60 then PushNum(b - 0x50)
    else if b == 0x63 then If
    else if b == 0x67 then Else
    else if b == 0x68 then EndIf
    else if b == 0x75 then Drop
    else if b == 0x7b then Rot
    else if b == 0x7c then Swap
    else if b == 0x82 then Size
    else if b == 0x87 then Equal
    else if b == 0x88 then EqualVerify
    else if b == 0xa8 then Sha256
    else if b == 0xa9 then Hash160
    else if b == 0xac then CheckSig
    else if b == 0xae then CheckMultisig
    else if b == 0xb1 then CheckLockTime
    else if b == 0xb2 then CheckSequence
    else Other(b)
  }

  function ByteOf(o: Opcode): Byte {
    match o
    case PushNum(n) => 0x50 + n
    case If => 0x63
    case Else => 0x67
    case EndIf => 0x68
    case Drop => 0x75
    case Rot => 0x7b
    case Swap => 0x7c
    case Size => 0x82
    case Equal => 0x87
    case EqualVerify => 0x88
    case Sha256 => 0xa8
    case Hash160 => 0xa9
    case CheckSig => 0xac
    case CheckMultisig => 0xae
    case CheckLockTime => 0xb1
    case CheckSequence => 0xb2
    case Other(b) => b
  }

  datatype Instruction = Push(data: Data) | Op(op: Opcode)

  // ---------------------------------------------------------------- builder

  /** What `push_int` appends. */
  function PushInt(n: nat): Instruction {
    if n == 0 then Push([]) else if n <= 16 then Op(PushNum(n)) else Push(ScriptNum(n))
  }

  /** The opcode and length bytes `push_slice` writes before the data. */
  function PushPrefix(n: nat): Data {
    if n <= 75 then [n]
    else if n < 0x100 then [76, n]
    else if n < 0x1_0000 then [77, n % 256, n / 256]
    else [78, n % 256, n / 0x100 % 256, n / 0x1_0000 % 256, n / 0x100_0000 % 256]
  }

  function Encode(i: Instruction): Data {
    match i
    case Push(d) => PushPrefix(|d|) + d
    case Op(o) => [ByteOf(o)]
  }

  type Program = List<Instruction>

  function Build(prog: Program): Data {
    match prog
    case Nil => []
    case Cons(i, rest) => Encode(i) + Build(rest)
  }

  // --------------------------------------------------------------- iterator

  /** The items `instructions()` yields: the good ones, then one error if the script ends early. */
  datatype Parsed = Parsed(instrs: Program, complete: bool)
  {
    function ItemCount(): nat {
      instrs.Length() + if complete then 0 else 1
    }

    function After(i: Instruction): Parsed {
      Parsed(Cons(i, instrs), complete)
    }
  }

  /** How many bytes after the opcode give the length of the push. */
  function LengthBytes(code: Byte): nat {
    if code == 76 then 1 else if code == 77 then 2 else if code == 78 then 4 else 0
  }

  function Parse(s: Data): Parsed
    decreases |s|
  {
    if s == [] then Parsed(Nil, true)
    else
      var code := s[0];
      if 78 < code then Parse(s[1..]).After(Op(OpcodeOf(code)))
      else
        var w := LengthBytes(code);
        if |s| < 1 + w then Parsed(Nil, false)
        else
          var n := if w == 0 then code else LittleEndian(s[1..1 + w]);
          if |s| < 1 + w + n then Parsed(Nil, false)
          else Parse(s[1 + w + n..]).After(Push(s[1 + w..1 + w + n]))
  }

  /** What the builder can write and the iterator give back: pushes under 64 KiB, opcodes by their names. */
  predicate Encodable(i: Instruction) {
    match i
    case Push(d) => |d| < 0x1_0000
    case Op(o) => o == OpcodeOf(ByteOf(o)) && 78 < ByteOf(o)
  }

  lemma PrefixLength(n: nat)
    requires n < 0x1_0000
    ensures |PushPrefix(n)| == 1 + LengthBytes(PushPrefix(n)[0])
    ensures PushPrefix(n)[0] <= 78
    ensures n == if |PushPrefix(n)| == 1 then PushPrefix(n)[0] else LittleEndian(PushPrefix(n)[1..])
  {
    var p := PushPrefix(n);
    if |p| == 2 {
      assert p[1..] == [n] && p[1..][1..] == [];
    } else if |p| == 3 {
      assert p[1..][1..] == [n / 256] && [(n / 256) as Byte][1..] == [];
      assert LittleEndian(p[1..][1..]) == n / 256;
    }
  }

  lemma ParseOne(i: Instruction, rest: Data)
    requires Encodable(i)
    ensures Parse(Encode(i) + rest) == Parse(rest).After(i)
  {
    var s := Encode(i) + rest;
    match i
    case Op(o) =>
      assert s[1..] == rest;
    case Push(d) =>
      var p := PushPrefix(|d|);
      PrefixLength(|d|);
      var w := |p| - 1;
      assert s == p + d + rest;
      assert s[0] == p[0] && s[1..1 + w] == p[1..];
      assert s[1 + w..1 + w + |d|] == d && s[1 + w + |d|..] == rest;
  }

  predicate AllEncodable(prog: Program) {
    prog.Cons? ==> Encodable(prog.head) && AllEncodable(prog.tail)
  }

  lemma AddEncodable(i: Instruction, prog: Program)
    requires Encodable(i) && AllEncodable(prog)
    ensures AllEncodable(Cons(i, prog))
  {
  }

  /** The templates of the contracts are made of pieces of five instructions. */
  lemma AddFive(a: Instruction, b: Instruction, c: Instruction, d: Instruction, e: Instruction, prog: Program)
    requires Encodable(a) && Encodable(b) && Encodable(c) && Encodable(d) && Encodable(e) && AllEncodable(prog)
    ensures AllEncodable(Cons(a, Cons(b, Cons(c, Cons(d, Cons(e, prog))))))
  {
    AddEncodable(e, prog);
    AddEncodable(d, Cons(e, prog));
    AddEncodable(c, Cons(d, Cons(e, prog)));
    AddEncodable(b, Cons(c, Cons(d, Cons(e, prog))));
    AddEncodable(a, Cons(b, Cons(c, Cons(d, Cons(e, prog)))));
  }

  /** The iterator yields exactly the instructions the builder wrote. */
  lemma {:induction false} ParseInvertsBuild(prog: Program)
    requires AllEncodable(prog)
    ensures Parse(Build(prog)) == Parsed(prog, true)
  {
    if prog.Cons? {
      ParseInvertsBuild(prog.tail);
      ParseOne(prog.head, Build(prog.tail));
    }
  }

  // ------------------------------------------------------------ interpreter

  const MAX_ELEMENT: nat := 520

  const SEQUENCE_TYPE_FLAG: nat := 0x40_0000
  const LOCKTIME_THRESHOLD: nat := 500_000_000

  /** The spending transaction as far as scripts can see it, and its oracles. */
  datatype Spend = Spend(
    version: nat,
    lockTime: nat,
    sequence: nat,
    hash160: Data -> Data,
    sha256: Data -> Data,
    sigOk: (Data, Data) -> bool)

  predicate Bit(x: nat, weight: nat)
    requires weight > 0
  {
    x / weight % 2 == 1
  }

  /** A sequence value under the type flag and the 16-bit mask of BIP 112. */
  function SequenceMasked(x: nat): nat {
    (if Bit(x, SEQUENCE_TYPE_FLAG) then SEQUENCE_TYPE_FLAG else 0) + x % 0x1_0000
  }

  /** BIP 112, section "Specification": CHECKSEQUENCEVERIFY does not fail on operand n. */
  predicate CsvOk(tx: Spend, n: int) {
    0 <= n &&
    (Bit(n, 0x8000_0000) ||
     (&& tx.version >= 2
      && !Bit(tx.sequence, 0x8000_0000)
      && (SequenceMasked(n) < SEQUENCE_TYPE_FLAG <==> SequenceMasked(tx.sequence) < SEQUENCE_TYPE_FLAG)
      && SequenceMasked(n) <= SequenceMasked(tx.sequence)))
  }

  /** BIP 65, section "Specification": CHECKLOCKTIMEVERIFY does not fail on operand n. */
  predicate CltvOk(tx: Spend, n: int) {
    && 0 <= n
    && (n < LOCKTIME_THRESHOLD <==> tx.lockTime < LOCKTIME_THRESHOLD)
    && n <= tx.lockTime
    && tx.sequence != 0xffff_ffff
  }

  /** A stack element counts as true unless it is a zero, negative zero included. */
  predicate Truthy(d: Data) {
    exists i | 0 <= i < |d| :: d[i] != 0 && !(i == |d| - 1 && d[i] == 0x80)
  }

  function FromBool(b: bool): Data {
    if b then [1] else []
  }

  /** A stack, its top first. */
  type Stack = List<Data>

  /** The stack a witness leaves, its last item on top. */
  function ToStack(wit: seq<Data>): Stack {
    if wit == [] then Nil
    else Cons(wit[|wit| - 1], ToStack(wit[..|wit| - 1]))
  }

  /** Signatures are matched to keys in order, from the top of each. */
  predicate SigsMatch(tx: Spend, sigs: Stack, keys: Stack)
    decreases keys
  {
    match (sigs, keys)
    case (Nil, _) => true
    case (Cons(_, _), Nil) => false
    case (Cons(s, sr), Cons(k, kr)) =>
      if tx.sigOk(s, k) then SigsMatch(tx, sr, kr) else SigsMatch(tx, sigs, kr)
  }

  function ExecuteMultisig(tx: Spend, st: Stack): Option<Stack> {
    if st.Nil? || |st.head| > 4 || !(0 <= ScriptInt(st.head) <= 20) then None
    else
      match st.tail.Take(ScriptInt(st.head))
      case None => None
      case Some((keys, below)) =>
        if below.Nil? || |below.head| > 4 || !(0 <= ScriptInt(below.head) <= ScriptInt(st.head)) then None
        else
          match below.tail.Take(ScriptInt(below.head))
          case None => None
          case Some((sigs, under)) =>
            if under.Nil? || under.head != [] then None
            else Some(Cons(FromBool(SigsMatch(tx, sigs, keys)), under.tail))
  }

  /** Opcodes on the stack alone; `None` is a script failure. */
  function Execute(tx: Spend, o: Opcode, st: Stack): Option<Stack> {
    match (o, st)
    case (PushNum(n), _) => Some(Cons(ScriptNum(n), st))
    case (CheckMultisig, _) => ExecuteMultisig(tx, st)
    case (Drop, Cons(_, r)) => Some(r)
    case (Size, Cons(x, _)) => Some(Cons(ScriptNum(|x|), st))
    case (Sha256, Cons(x, r)) => Some(Cons(tx.sha256(x), r))
    case (Hash160, Cons(x, r)) => Some(Cons(tx.hash160(x), r))
    case (CheckSequence, Cons(x, _)) => if |x| <= 5 && CsvOk(tx, ScriptInt(x)) then Some(st) else None
    case (CheckLockTime, Cons(x, _)) => if |x| <= 5 && CltvOk(tx, ScriptInt(x)) then Some(st) else None
    case (Swap, Cons(x, Cons(y, r))) => Some(Cons(y, Cons(x, r)))
    case (Equal, Cons(x, Cons(y, r))) => Some(Cons(FromBool(x == y), r))
    case (EqualVerify, Cons(x, Cons(y, r))) => if x == y then Some(r) else None
    case (CheckSig, Cons(key, Cons(sig, r))) => Some(Cons(FromBool(tx.sigOk(sig, key)), r))
    case (Rot, Cons(x, Cons(y, Cons(z, r)))) => Some(Cons(z, Cons(x, Cons(y, r))))
    case _ => None
  }

  /** The stack, and the pending IF conditions, innermost first. */
  datatype Machine = Machine(stack: Stack, conds: List<bool>)

  predicate AllTrue(conds: List<bool>) {
    conds.Cons? ==> conds.head && AllTrue(conds.tail)
  }

  function Step(tx: Spend, i: Instruction, m: Machine): Option<Machine> {
    match i
    case Push(d) => Some(if AllTrue(m.conds) then m.(stack := Cons(d, m.stack)) else m)
    case Op(If) =>
      if !AllTrue(m.conds) then Some(m.(conds := Cons(false, m.conds)))
      else if m.stack.Nil? then None
      else Some(Machine(m.stack.tail, Cons(Truthy(m.stack.head), m.conds)))
    case Op(Else) =>
      if m.conds.Nil? then None else Some(m.(conds := Cons(!m.conds.head, m.conds.tail)))
    case Op(EndIf) =>
      if m.conds.Nil? then None else Some(m.(conds := m.conds.tail))
    case Op(o) =>
      if !AllTrue(m.conds) then Some(m)
      else
        match Execute(tx, o, m.stack)
        case None => None
        case Some(st) => Some(m.(stack := st))
  }

  function Run(tx: Spend, prog: Program, m: Machine): Option<Machine> {
    match prog
    case Nil => Some(m)
    case Cons(i, rest) =>
      match Step(tx, i, m)
      case None => None
      case Some(next) => Run(tx, rest, next)
  }

  lemma RunCons(tx: Spend, i: Instruction, rest: Program, m: Machine)
    ensures Step(tx, i, m).None? ==> Run(tx, Cons(i, rest), m) == None
    ensures Step(tx, i, m).Some? ==> Run(tx, Cons(i, rest), m) == Run(tx, rest, Step(tx, i, m).value)
  {
  }

  /** All the contracts end in a signature check. */
  lemma RunCheckSig(tx: Spend, key: Data, base: Stack)
    ensures Run(tx, Cons(Op(CheckSig), Nil), Machine(Cons(key, base), Nil)) == SigResult(tx, key, base)
  {
    var m := Machine(Cons(key, base), Nil);
    RunCons(tx, Op(CheckSig), Nil, m);
    if base.Cons? {
      assert Execute(tx, CheckSig, m.stack) == Some(Cons(FromBool(tx.sigOk(base.head, key)), base.tail));
    }
  }

  function SigResult(tx: Spend, key: Data, base: Stack): Option<Machine> {
    if base.Nil? then None else Some(Machine(Cons(FromBool(tx.sigOk(base.head, key)), base.tail), Nil))
  }

  predicate ProgramAccepts(tx: Spend, prog: Program, stack: seq<Data>) {
    && (forall i | 0 <= i < |stack| :: |stack[i]| <= MAX_ELEMENT)
    && var end := Run(tx, prog, Machine(ToStack(stack), Nil));
       && end.Some?
       && end.value.conds == Nil
       && end.value.stack.Cons? && end.value.stack.tail.Nil?
       && Truthy(end.value.stack.head)
  }

  /** A witness program's script succeeds: it parses and leaves exactly one true element (BIP 141, BIP 342). */
  predicate Accepts(tx: Spend, script: Data, stack: seq<Data>) {
    var p := Parse(script);
    p.complete && ProgramAccepts(tx, p.instrs, stack)
  }

  /** An integer push leaves the same stack element whichever of its encodings is used. */
  lemma PushIntPushes(tx: Spend, n: nat, m: Machine)
    requires AllTrue(m.conds)
    ensures Step(tx, PushInt(n), m) == Some(m.(stack := Cons(ScriptNum(n), m.stack)))
  {
  }

  /** The truth values the comparison opcodes leave. */
  lemma TruthyOfBool(b: bool)
    ensures Truthy(FromBool(b)) == b
  {
    if b {
      assert [1][0] != 0;
    }
  }
}
