/** The 2-of-2 multisig that holds a Legacy swap's funds before a contract is broadcast. */
module Multisig {
  import opened Bytes
  import opened Script

  const KEY_LEN: nat := 33
  const SCRIPT_LEN: nat := 71

  datatype KeyError = OutOfBounds | NotAKey

  /** Byte-wise lexicographic order, the order of serialized keys. */
  predicate Less(a: Data, b: Data) {
    if b == [] then false
    else if a == [] then true
    else if a[0] != b[0] then a[0] < b[0]
    else Less(a[1..], b[1..])
  }

  lemma {:induction false} LessIsTotal(a: Data, b: Data)
    ensures Less(a, b) && Less(b, a) ==> false
    ensures Less(a, b) || Less(b, a) || a == b
  {
    if a != [] && b != [] && a[0] == b[0] {
      LessIsTotal(a[1..], b[1..]);
      assert a == [a[0]] + a[1..] && b == [b[0]] + b[1..];
    }
  }

  function TwoOfTwo(a: Data, b: Data): Program {
    Cons(Op(PushNum(2)), Cons(Push(a), Cons(Push(b), Cons(Op(PushNum(2)), Cons(Op(CheckMultisig), Nil)))))
  }

  function CreateMultisigScript(key1: Data, key2: Data): Data {
    Build(if Less(key1, key2) then TwoOfTwo(key1, key2) else TwoOfTwo(key2, key1))
  }

  /** `onCurve` stands for the point check of `PublicKey::from_slice`; a slice out of range panics. */
  function ReadKeys(script: Data, onCurve: Data -> bool): Result<(Data, Data), KeyError> {
    if |script| < 69 then Err(OutOfBounds)
    else if !onCurve(script[2..35]) || !onCurve(script[36..69]) then Err(NotAKey)
    else Ok((script[2..35], script[36..69]))
  }

  /** What the template check is for: the script is `2 <33 bytes> <33 bytes> 2 CHECKMULTISIG`. */
  ghost predicate IsTwoOfTwo(script: Data) {
    exists a: Data, b: Data :: |a| == KEY_LEN && |b| == KEY_LEN && script == Build(TwoOfTwo(a, b))
  }

  lemma TwoOfTwoBytes(a: Data, b: Data)
    requires |a| == KEY_LEN && |b| == KEY_LEN
    ensures Build(TwoOfTwo(a, b)) == [0x52, 33] + a + [33] + b + [0x52, 0xae]
  {
    var p := TwoOfTwo(a, b);
    assert Build(p.tail.tail.tail) == [0x52, 0xae];
    assert Build(p.tail.tail) == [33] + b + [0x52, 0xae];
    assert Build(p.tail) == [33] + a + Build(p.tail.tail);
  }

  const PLACEHOLDER: Data := seq(KEY_LEN, _ => 2)

  /** The template check overwrites both keys and compares with a template: it accepts exactly the 2-of-2 scripts. */
  method CheckIsMultisig(script: Data) returns (ok: bool)
    ensures ok <==> IsTwoOfTwo(script)
  {
    var template := CreateMultisigScript(PLACEHOLDER, PLACEHOLDER);
    TwoOfTwoBytes(PLACEHOLDER, PLACEHOLDER);
    if |script| != |template| {
      forall a: Data, b: Data | |a| == KEY_LEN && |b| == KEY_LEN
        ensures script != Build(TwoOfTwo(a, b))
      {
        TwoOfTwoBytes(a, b);
      }
      return false;
    }
    var bytes := script;
    bytes := bytes[..2] + PLACEHOLDER + bytes[35..];
    bytes := bytes[..36] + PLACEHOLDER + bytes[69..];
    ok := bytes == template;
    TemplateIsShape(script);
    assert forall i | i in {0, 1, 35, 69, 70} :: bytes[i] == script[i];
    if SameFrame(script) {
      assert bytes == template;
    }
  }

  /** The bytes outside the two keys. */
  predicate SameFrame(s: Data)
    requires |s| == SCRIPT_LEN
  {
    s[0] == 0x52 && s[1] == 33 && s[35] == 33 && s[69] == 0x52 && s[70] == 0xae
  }

  lemma TemplateIsShape(script: Data)
    requires |script| == SCRIPT_LEN
    ensures IsTwoOfTwo(script) <==> SameFrame(script)
  {
    if SameFrame(script) {
      var a, b := script[2..35], script[36..69];
      TwoOfTwoBytes(a, b);
      assert script == [0x52, 33] + a + [33] + b + [0x52, 0xae];
    } else {
      forall a: Data, b: Data | |a| == KEY_LEN && |b| == KEY_LEN
        ensures script != Build(TwoOfTwo(a, b))
      {
        TwoOfTwoBytes(a, b);
      }
    }
  }

  /** The script does not depend on the order of its keys, passes the check, and reads back as the sorted pair. */
  lemma ScriptOfSortedKeys(key1: Data, key2: Data, onCurve: Data -> bool)
    requires |key1| == KEY_LEN && |key2| == KEY_LEN
    requires onCurve(key1) && onCurve(key2)
    ensures CreateMultisigScript(key1, key2) == CreateMultisigScript(key2, key1)
    ensures IsTwoOfTwo(CreateMultisigScript(key1, key2))
    ensures var keys := ReadKeys(CreateMultisigScript(key1, key2), onCurve);
            && keys.Ok?
            && !Less(keys.value.1, keys.value.0)
            && multiset{keys.value.0, keys.value.1} == multiset{key1, key2}
  {
    LessIsTotal(key1, key2);
    var (a, b) := if Less(key1, key2) then (key1, key2) else (key2, key1);
    TwoOfTwoBytes(a, b);
    var s := CreateMultisigScript(key1, key2);
    assert s[2..35] == a && s[36..69] == b;
  }

  // ---------------------------------------------------------------- meaning

  /** For every witness, a 2-of-2 script succeeds exactly on the empty dummy and one signature per key, in key order. */
  lemma MultisigMeaning(tx: Spend, a: Data, b: Data, wit: seq<Data>)
    requires |a| == KEY_LEN && |b| == KEY_LEN
    ensures Accepts(tx, Build(TwoOfTwo(a, b)), wit)
       <==> && |wit| == 3 && wit[0] == []
            && tx.sigOk(wit[1], a) && tx.sigOk(wit[2], b)
            && |wit[1]| <= MAX_ELEMENT && |wit[2]| <= MAX_ELEMENT
  {
    var p := TwoOfTwo(a, b);
    AddFive(Op(PushNum(2)), Push(a), Push(b), Op(PushNum(2)), Op(CheckMultisig), Nil);
    ParseInvertsBuild(p);
    var st := ToStack(wit);
    RunTwoOfTwo(tx, a, b, st);
    ToStackOfThree(wit);
    if st.Cons? && st.tail.Cons? {
      TruthyOfBool(tx.sigOk(st.tail.head, a) && tx.sigOk(st.head, b));
    }
  }

  lemma ToStackOfThree(wit: seq<Data>)
    ensures var st := ToStack(wit);
            && (|wit| == 3 <==> st.Cons? && st.tail.Cons? && st.tail.tail.Cons? && st.tail.tail.tail.Nil?)
            && (|wit| == 3 ==> st.head == wit[2] && st.tail.head == wit[1] && st.tail.tail.head == wit[0])
  {
    if |wit| > 0 {
      var w := wit[..|wit| - 1];
      if |w| > 0 {
        var v := w[..|w| - 1];
        assert |v| > 0 ==> ToStack(v) == Cons(v[|v| - 1], ToStack(v[..|v| - 1]));
      }
    }
  }

  lemma RunTwoOfTwo(tx: Spend, a: Data, b: Data, st: Stack)
    ensures Run(tx, TwoOfTwo(a, b), Machine(st, Nil))
         == match st
            case Cons(s2, Cons(s1, Cons(dummy, r))) =>
              if dummy != [] then None
              else Some(Machine(Cons(FromBool(tx.sigOk(s1, a) && tx.sigOk(s2, b)), r), Nil))
            case _ => None
  {
    var p := TwoOfTwo(a, b);
    var two := ScriptNum(2);
    var m := Machine(Cons(two, Cons(b, Cons(a, Cons(two, st)))), Nil);
    assert Run(tx, p, Machine(st, Nil)) == Run(tx, p.tail.tail, Machine(Cons(a, Cons(two, st)), Nil)) == Run(tx, p.tail.tail.tail.tail, m);
    ScriptNumReadsBack(2);
    var keys := Cons(b, Cons(a, Nil));
    assert Cons(b, Cons(a, Cons(two, st))).Take(2) == Some((keys, Cons(two, st)));
    TakeTwo(st);
    if st.Cons? && st.tail.Cons? {
      TwoSigs(tx, st.tail.head, st.head, a, b);
    }
    var end := ExecuteMultisig(tx, m.stack);
    assert Run(tx, p.tail.tail.tail.tail, m) == if end.None? then None else Run(tx, Nil, Machine(end.value, Nil));
  }

  lemma TwoSigs(tx: Spend, s1: Data, s2: Data, a: Data, b: Data)
    ensures SigsMatch(tx, Cons(s2, Cons(s1, Nil)), Cons(b, Cons(a, Nil))) <==> tx.sigOk(s1, a) && tx.sigOk(s2, b)
  {
    assert SigsMatch(tx, Cons(s1, Nil), Cons(a, Nil)) <==> tx.sigOk(s1, a) by {
      assert SigsMatch(tx, Nil, Nil) && !SigsMatch(tx, Cons(s1, Nil), Nil);
    }
    assert !SigsMatch(tx, Cons(s2, Cons(s1, Nil)), Cons(a, Nil)) by {
      assert !SigsMatch(tx, Cons(s1, Nil), Nil) && !SigsMatch(tx, Cons(s2, Cons(s1, Nil)), Nil);
    }
  }

  lemma TakeTwo(st: Stack)
    ensures st.Take(2) == match st
                          case Cons(x, Cons(y, r)) => Some((Cons(x, Cons(y, Nil)), r))
                          case _ => None
  {
  }

  // ---------------------------------------------------------------- witness

  /** The witness items the spend appends: dummy, two signatures in key order, the script. */
  function MultisigWitness(key1: Data, key2: Data, sig1: Data, sig2: Data, script: Data): seq<Data> {
    if Less(key1, key2) then [[], sig1, sig2, script] else [[], sig2, sig1, script]
  }

  class TxIn {
    var wit: seq<Data>

    method ApplyTwoSignatures(key1: Data, key2: Data, sig1: Data, sig2: Data, script: Data)
      modifies this
      ensures wit == old(wit) + MultisigWitness(key1, key2, sig1, sig2, script)
    {
      var first, second := sig1, sig2;
      if !Less(key1, key2) {
        first, second := sig2, sig1;
      }
      wit := wit + [[]];
      wit := wit + [first];
      wit := wit + [second];
      wit := wit + [script];
    }
  }

  /**
   The witness built for a pair of keys spends the script built for them exactly
   when each signature is valid for its own key, and for distinct keys it does
   not depend on the order the pair is given in.
   */
  lemma WitnessSpends(tx: Spend, key1: Data, key2: Data, sig1: Data, sig2: Data)
    requires |key1| == KEY_LEN && |key2| == KEY_LEN
    requires |sig1| <= MAX_ELEMENT && |sig2| <= MAX_ELEMENT
    ensures var script := CreateMultisigScript(key1, key2);
            var wit := MultisigWitness(key1, key2, sig1, sig2, script);
            && (Accepts(tx, script, wit[..3]) <==> tx.sigOk(sig1, key1) && tx.sigOk(sig2, key2))
            && (key1 != key2 ==> wit == MultisigWitness(key2, key1, sig2, sig1, script))
  {
    LessIsTotal(key1, key2);
    var script := CreateMultisigScript(key1, key2);
    var wit := MultisigWitness(key1, key2, sig1, sig2, script);
    if Less(key1, key2) {
      MultisigMeaning(tx, key1, key2, wit[..3]);
    } else {
      MultisigMeaning(tx, key2, key1, wit[..3]);
    }
  }
}
