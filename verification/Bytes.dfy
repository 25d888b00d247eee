/** Byte strings, little-endian integers and Bitcoin script numbers. */
module Bytes {

  datatype Option<+T> = None | Some(value: T)

  datatype Result<+T, +E> = Ok(value: T) | Err(error: E)

  datatype List<+T> = Nil | Cons(head: T, tail: List<T>)
  {
    function Length(): nat {
      if Nil? then 0 else 1 + tail.Length()
    }

    /** The n-th element, as an iterator's `nth` gives it. */
    function Nth(n: nat): Option<T>
      decreases n
    {
      if Nil? then None else if n == 0 then Some(head) else tail.Nth(n - 1)
    }

    /** The first n elements and the others, if there are n. */
    function Take(n: nat): Option<(List<T>, List<T>)>
      decreases n
    {
      if n == 0 then Some((Nil, this))
      else if Nil? then None
      else
        match tail.Take(n - 1)
        case None => None
        case Some((taken, left)) => Some((Cons(head, taken), left))
    }
  }

  type Byte = b: int | 0 <= b < 256

  type Data = seq<Byte>

  function LittleEndian(s: Data): nat {
    if s == [] then 0 else s[0] + 256 * LittleEndian(s[1..])
  }

  function Pow256(k: nat): nat {
    if k == 0 then 1 else 256 * Pow256(k - 1)
  }

  /** Minimal script-number encoding of a non-negative integer. */
  function ScriptNum(n: nat): Data {
    if n == 0 then []
    else if n < 128 then [n]
    else if n < 256 then [n, 0]
    else [n % 256] + ScriptNum(n / 256)
  }

  /** Whether the top bit of the last byte, the sign bit of a script number, is set. */
  predicate SignBit(s: Data) {
    s != [] && s[|s| - 1] >= 128
  }

  /** How the interpreter reads a stack element as an integer. */
  function ScriptInt(s: Data): int {
    if SignBit(s) then 128 * Pow256(|s| - 1) - LittleEndian(s) else LittleEndian(s)
  }

  /** The encoding is read back, unsigned or signed, as the number it was made from. */
  lemma {:induction false} ScriptNumReadsBack(n: nat)
    ensures LittleEndian(ScriptNum(n)) == n
    ensures !SignBit(ScriptNum(n))
    ensures ScriptInt(ScriptNum(n)) == n
  {
    if n >= 256 {
      ScriptNumReadsBack(n / 256);
      var t := ScriptNum(n / 256);
      assert t != [];
      assert ScriptNum(n)[1..] == t;
    } else if 128 <= n {
      assert [n, 0][1..] == [0] && [0 as Byte][1..] == [];
      assert LittleEndian([0]) == 0;
    } else if n > 0 {
      assert [n][1..] == [];
    }
  }

  /** Length classes of the encoding. */
  lemma ScriptNumLength(n: nat)
    ensures |ScriptNum(n)| == 0 <==> n == 0
    ensures |ScriptNum(n)| <= 1 <==> n < 0x80
    ensures |ScriptNum(n)| <= 2 <==> n < 0x8000
    ensures |ScriptNum(n)| <= 3 <==> n < 0x80_0000
    ensures |ScriptNum(n)| <= 4 <==> n < 0x8000_0000
    ensures |ScriptNum(n)| <= 5 <==> n < 0x80_0000_0000
  {
    if n >= 256 {
      ScriptNumLength(n / 256);
    }
  }
}
