/**
 * The byte chunk of include/bytecode.hpp and src/bytecode.cpp: an opcode set with
 * fixed byte values and an append-only 1024-byte buffer `code` with a cursor `pos`.
 * The generic `write<T>` of the header stores the value's object representation;
 * the overloads of bytecode.cpp store one byte each, except that the `int32_t`
 * overload stores only the low byte yet moves the cursor by four.
 */
module Bytecode {
  import opened Base
  import Util

  const MAX_INSTRUCTIONS: nat := 1024

  newtype int8 = x: int | -0x80 <= x < 0x80
  newtype int32 = x: int | -0x8000_0000 <= x < 0x8000_0000

  /** The object representation of a `double`: eight bytes. */
  type Bytes8 = s: seq<byte> | |s| == 8 witness [0, 0, 0, 0, 0, 0, 0, 0]

  datatype OpCode =
    | RETURN | MOVE | ADD | SUB | MUL | DIV | POW | L_AND | L_OR
    | B_AND | B_OR | B_XOR | B_NOT | NOT | NEGATE | LOAD | STORE
    | RANGE_EXCL | RANGE_L_IN | RANGE_R_IN | RANGE_INCL | FX_ENTRY | FX_EXIT

  /**
   * The byte each opcode is stored as. POW is used by the code generator and the VM
   * but its value lives in a header that is not part of this model; it is given 'p',
   * a byte no other opcode uses.
   */
  function OpByte(op: OpCode): byte
  {
    match op
    case RETURN => 'r' as byte
    case MOVE => 'm' as byte
    case ADD => '+' as byte
    case SUB => '-' as byte
    case MUL => '*' as byte
    case DIV => '/' as byte
    case POW => 'p' as byte
    case L_AND => 'a' as byte
    case L_OR => 'o' as byte
    case B_AND => '&' as byte
    case B_OR => '|' as byte
    case B_XOR => '^' as byte
    case B_NOT => '~' as byte
    case NOT => '!' as byte
    case NEGATE => 'n' as byte
    case LOAD => 'l' as byte
    case STORE => 's' as byte
    case RANGE_EXCL => 0x80
    case RANGE_L_IN => 0x81
    case RANGE_R_IN => 0x82
    case RANGE_INCL => 0x83
    case FX_ENTRY => 0x90
    case FX_EXIT => 0x91
  }

  /** The opcode a byte stands for, as the VM's `switch` reads it. */
  function Decode(b: byte): (r: Option<OpCode>)
    ensures r.Some? ==> OpByte(r.value) == b
  {
    if b == 'r' as byte then Some(RETURN)
    else if b == 'm' as byte then Some(MOVE)
    else if b == '+' as byte then Some(ADD)
    else if b == '-' as byte then Some(SUB)
    else if b == '*' as byte then Some(MUL)
    else if b == '/' as byte then Some(DIV)
    else if b == 'p' as byte then Some(POW)
    else if b == 'a' as byte then Some(L_AND)
    else if b == 'o' as byte then Some(L_OR)
    else if b == '&' as byte then Some(B_AND)
    else if b == '|' as byte then Some(B_OR)
    else if b == '^' as byte then Some(B_XOR)
    else if b == '~' as byte then Some(B_NOT)
    else if b == '!' as byte then Some(NOT)
    else if b == 'n' as byte then Some(NEGATE)
    else if b == 'l' as byte then Some(LOAD)
    else if b == 's' as byte then Some(STORE)
    else if b == 0x80 then Some(RANGE_EXCL)
    else if b == 0x81 then Some(RANGE_L_IN)
    else if b == 0x82 then Some(RANGE_R_IN)
    else if b == 0x83 then Some(RANGE_INCL)
    else if b == 0x90 then Some(FX_ENTRY)
    else if b == 0x91 then Some(FX_EXIT)
    else None
  }

  /** Decoding recovers every opcode from its byte. */
  lemma DecodeOpByte(op: OpCode)
    ensures Decode(OpByte(op)) == Some(op)
  {
  }

  /** The opcode byte values are pairwise distinct. */
  lemma OpBytesDistinct(a: OpCode, b: OpCode)
    ensures OpByte(a) == OpByte(b) ==> a == b
  {
    DecodeOpByte(a);
    DecodeOpByte(b);
  }

  /** `code` with `bytes` stored from index `at` on. */
  function Store(code: seq<byte>, at: nat, bytes: seq<byte>): (r: seq<byte>)
    requires at + |bytes| <= |code|
    ensures |r| == |code|
    ensures r[at..at + |bytes|] == bytes
    ensures forall i :: 0 <= i < |code| && !(at <= i < at + |bytes|) ==> r[i] == code[i]
  {
    code[..at] + bytes + code[at + |bytes|..]
  }

  /** The little-endian object representation of an `int32_t`. */
  function I32Bytes(v: int32): (r: seq<byte>)
    ensures |r| == 4 && r[0] == LowByte(v as int)
  {
    var u := (v as int) % 0x1_0000_0000;
    var q1 := u / 0x100;
    var q2 := q1 / 0x100;
    var q3 := q2 / 0x100;
    [(u % 0x100) as byte, (q1 % 0x100) as byte, (q2 % 0x100) as byte, q3 as byte]
  }

  /** The `int32_t` four little-endian bytes stand for. */
  function I32Value(b: seq<byte>): int
    requires |b| == 4
  {
    var u := b[0] as int + 0x100 * (b[1] as int + 0x100 * (b[2] as int + 0x100 * (b[3] as int)));
    if u < 0x8000_0000 then u else u - 0x1_0000_0000
  }

  /** Reading back the four bytes of the generic `write<int32_t>` gives the value. */
  lemma I32RoundTrip(v: int32)
    ensures I32Value(I32Bytes(v)) == v as int
  {
    var u := (v as int) % 0x1_0000_0000;
    var q1 := u / 0x100;
    var q2 := q1 / 0x100;
    var q3 := q2 / 0x100;
    assert u == u % 0x100 + 0x100 * q1;
    assert q1 == q1 % 0x100 + 0x100 * q2;
    assert q2 == q2 % 0x100 + 0x100 * q3;
  }

  /** The low byte of a signed value, as an assignment to a `uint8_t` keeps it. */
  function LowByte(v: int): (b: byte)
    ensures (b as int - v) % 0x100 == 0
  {
    (v % 0x100) as byte
  }

  class Chunk {
    var pos: nat
    const code: array<byte>

    ghost predicate Valid()
      reads this
    {
      code.Length == MAX_INSTRUCTIONS && pos <= MAX_INSTRUCTIONS
    }

    /** The bytes written so far. */
    ghost function Contents(): seq<byte>
      reads this, code
      requires Valid()
    {
      code[..pos]
    }

    /** A zero-filled chunk with the cursor at 0. */
    constructor ()
      ensures Valid() && fresh(code) && pos == 0
      ensures forall i :: 0 <= i < code.Length ==> code[i] == 0
    {
      pos := 0;
      code := new byte[MAX_INSTRUCTIONS](_ => 0);
    }

    /**
     * The generic `write<T>`: stores the value's object representation at `pos` and
     * moves `pos` past it. There is no bounds check in the source, so the bytes must
     * fit in the buffer.
     */
    method WriteBytes(bytes: seq<byte>)
      requires Valid() && pos + |bytes| <= MAX_INSTRUCTIONS
      modifies this, code
      ensures Valid()
      ensures pos == old(pos) + |bytes|
      ensures code[..] == Store(old(code[..]), old(pos), bytes)
    {
      var i := 0;
      while i < |bytes|
        invariant 0 <= i <= |bytes| && pos == old(pos) + i
        invariant code[..] == Store(old(code[..]), old(pos), bytes[..i])
      {
        code[pos] := bytes[i];
        pos := pos + 1;
        i := i + 1;
        assert code[..] == Store(old(code[..]), old(pos), bytes[..i]);
      }
      assert bytes[..i] == bytes;
    }

    /** `write<T>` with `T = char *`: the C string's bytes without its NUL. */
    method WriteCString(s: array<char>)
      requires Valid()
      requires exists i :: 0 <= i < s.Length && s[i] == '\0'
      requires pos + Util.StrLen(s[..]) <= MAX_INSTRUCTIONS
      modifies this, code
      ensures Valid()
      ensures pos == old(pos) + Util.StrLen(s[..])
      ensures code[..] == Store(old(code[..]), old(pos), CStringBytes(s[..]))
    {
      var len := Util.StrLenOf(s);
      var i := 0;
      while i < len
        invariant 0 <= i <= len && pos == old(pos) + i
        invariant code[..] == Store(old(code[..]), old(pos), CStringBytes(s[..])[..i])
      {
        code[pos] := CharByte(s[i]);
        pos := pos + 1;
        i := i + 1;
        assert code[..] == Store(old(code[..]), old(pos), CStringBytes(s[..])[..i]);
      }
      assert CStringBytes(s[..])[..i] == CStringBytes(s[..]);
    }

    /** `write(Opcode)`: one byte. */
    method WriteOp(op: OpCode)
      requires Valid() && pos + 1 <= MAX_INSTRUCTIONS
      modifies this, code
      ensures Valid() && pos == old(pos) + 1
      ensures code[..] == Store(old(code[..]), old(pos), [OpByte(op)])
    {
      code[pos] := OpByte(op);
      pos := pos + 1;
    }

    /** `write(uint8_t)`: one byte. */
    method WriteU8(v: byte)
      requires Valid() && pos + 1 <= MAX_INSTRUCTIONS
      modifies this, code
      ensures Valid() && pos == old(pos) + 1
      ensures code[..] == Store(old(code[..]), old(pos), [v])
    {
      code[pos] := v;
      pos := pos + 1;
    }

    /** `write(int8_t)`: one byte, the value's two's complement. */
    method WriteI8(v: int8)
      requires Valid() && pos + 1 <= MAX_INSTRUCTIONS
      modifies this, code
      ensures Valid() && pos == old(pos) + 1
      ensures code[..] == Store(old(code[..]), old(pos), [LowByte(v as int)])
    {
      code[pos] := LowByte(v as int);
      pos := pos + 1;
    }

    /** `write(char)`: one byte. */
    method WriteChar(c: char)
      requires Valid() && pos + 1 <= MAX_INSTRUCTIONS
      modifies this, code
      ensures Valid() && pos == old(pos) + 1
      ensures code[..] == Store(old(code[..]), old(pos), [CharByte(c)])
    {
      code[pos] := CharByte(c);
      pos := pos + 1;
    }

    /**
     * `write(int32_t)` of bytecode.cpp as written: only the low byte reaches
     * `code[pos]`, the next three bytes keep their old values, `pos` moves by 4.
     */
    method WriteI32(v: int32)
      requires Valid() && pos + 4 <= MAX_INSTRUCTIONS
      modifies this, code
      ensures Valid() && pos == old(pos) + 4
      ensures code[..] == Store(old(code[..]), old(pos), I32Overload(old(code[..]), old(pos), v))
    {
      code[pos] := LowByte(v as int);
      pos := pos + 4;
    }

    /** The generic `write<int32_t>` of the header: all four bytes. */
    method WriteI32Full(v: int32)
      requires Valid() && pos + 4 <= MAX_INSTRUCTIONS
      modifies this, code
      ensures Valid() && pos == old(pos) + 4
      ensures code[..] == Store(old(code[..]), old(pos), I32Bytes(v))
    {
      WriteBytes(I32Bytes(v));
    }

    /** `write(double)`: the eight bytes of the value. */
    method WriteDouble(bits: Bytes8)
      requires Valid() && pos + 8 <= MAX_INSTRUCTIONS
      modifies this, code
      ensures Valid() && pos == old(pos) + 8
      ensures code[..] == Store(old(code[..]), old(pos), bits)
    {
      WriteBytes(bits);
    }
  }

  /** The bytes the `char *` write stores: the C string up to its NUL. */
  function CStringBytes(s: seq<char>): (r: seq<byte>)
    requires exists i :: 0 <= i < |s| && s[i] == '\0'
    ensures |r| == Util.StrLen(s)
    ensures forall i :: 0 <= i < |r| ==> r[i] == CharByte(s[i])
  {
    seq(Util.StrLen(s), i requires 0 <= i < Util.StrLen(s) => CharByte(s[i]))
  }

  /** The four bytes the `int32_t` overload leaves at `code[at..at+4]`. */
  function I32Overload(code: seq<byte>, at: nat, v: int32): (r: seq<byte>)
    requires at + 4 <= |code|
    ensures |r| == 4 && r[0] == LowByte(v as int) && r[1..] == code[at + 1..at + 4]
  {
    [LowByte(v as int)] + code[at + 1..at + 4]
  }

  /** A write only changes the bytes of its own window, so bytes before `pos` never change. */
  lemma {:induction false} StoreAppendOnly(code: seq<byte>, at: nat, bytes: seq<byte>)
    requires at + |bytes| <= |code|
    ensures Store(code, at, bytes)[..at] == code[..at]
    ensures Store(code, at, bytes)[at + |bytes|..] == code[at + |bytes|..]
  {
    var r := Store(code, at, bytes);
    assert forall i :: 0 <= i < at ==> r[..at][i] == code[..at][i];
    assert forall i :: at + |bytes| <= i < |code| ==> r[i] == code[i];
  }

  /** After a write, the buffer up to the new cursor is the old prefix followed by the bytes. */
  lemma StoreExtends(code: seq<byte>, at: nat, bytes: seq<byte>)
    requires at + |bytes| <= |code|
    ensures Store(code, at, bytes)[..at + |bytes|] == code[..at] + bytes
  {
  }

  /** Two writes in a row store the concatenation of their bytes. */
  lemma {:induction false} StoreThenStore(code: seq<byte>, at: nat, a: seq<byte>, b: seq<byte>)
    requires at + |a| + |b| <= |code|
    ensures Store(Store(code, at, a), at + |a|, b) == Store(code, at, a + b)
  {
    var r1 := Store(Store(code, at, a), at + |a|, b);
    var r2 := Store(code, at, a + b);
    forall i | 0 <= i < |code| ensures r1[i] == r2[i] {
      if at <= i < at + |a| {
        assert r2[at..at + |a + b|][i - at] == (a + b)[i - at];
        assert Store(code, at, a)[at..at + |a|][i - at] == a[i - at];
      } else if at + |a| <= i < at + |a| + |b| {
        assert r2[at..at + |a + b|][i - at] == (a + b)[i - at];
        assert r1[at + |a|..at + |a| + |b|][i - at - |a|] == b[i - at - |a|];
      }
    }
  }

  /**
   * The `int32_t` overload loses the upper bytes: on a zeroed buffer, writing 256
   * reads back as 0, where the generic write reads back as 256.
   */
  lemma I32OverloadLosesHighBytes()
    ensures var zeros := seq(4, _ => 0 as byte);
      I32Value(I32Overload(zeros, 0, 256)) == 0 && I32Value(I32Bytes(256)) == 256
  {
    var zeros := seq(4, _ => 0 as byte);
    assert I32Overload(zeros, 0, 256) == [0, 0, 0, 0];
    I32RoundTrip(256);
  }
}
