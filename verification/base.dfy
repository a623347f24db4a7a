/** Small shared vocabulary: bytes, optional values and the C view of text. */
module Base {

  /** An unsigned 8-bit value, the element type of every byte buffer. */
  newtype byte = x: int | 0 <= x < 256

  datatype Option<T> = None | Some(value: T)

  /** The low byte of a character, as a `static_cast<uint8_t>` of a C `char` gives. */
  function CharByte(c: char): (b: byte)
    ensures b as int == (c as int) % 256
  {
    ((c as int) % 256) as byte
  }

  /** The byte as a C `char`. */
  function ByteChar(b: byte): (c: char)
    ensures CharByte(c) == b
  {
    b as int as char
  }

  /** Text holds no NUL: it is the content of a C string. */
  predicate NoNul(s: seq<char>)
  {
    forall i :: 0 <= i < |s| ==> s[i] != '\0'
  }

  /** The C string stored at the start of a buffer: everything before the first NUL. */
  function CStr(s: seq<char>): (r: seq<char>)
    ensures |r| <= |s| && r == s[..|r|] && NoNul(r)
    ensures |r| < |s| ==> s[|r|] == '\0'
  {
    if s == [] || s[0] == '\0' then [] else [s[0]] + CStr(s[1..])
  }

  lemma {:induction false} CStrOfTerminated(t: seq<char>, rest: seq<char>)
    requires NoNul(t)
    ensures CStr(t + ['\0'] + rest) == t
  {
    if t != [] {
      assert (t + ['\0'] + rest)[1..] == t[1..] + ['\0'] + rest;
      CStrOfTerminated(t[1..], rest);
    }
  }

  /** A buffer whose first NUL is at `n` holds the C string of its first `n` characters. */
  lemma {:induction false} CStrOfPrefix(s: seq<char>, n: nat)
    requires n < |s| && s[n] == '\0' && NoNul(s[..n])
    ensures CStr(s) == s[..n]
  {
    if n > 0 {
      assert s[1..][..n - 1] == s[..n][1..];
      CStrOfPrefix(s[1..], n - 1);
      assert s[..n] == [s[0]] + s[1..][..n - 1];
    }
  }

  /** The character at index `i` of a NUL-padded text: past the end every read gives NUL. */
  function At(s: seq<char>, i: int): char
  {
    if 0 <= i < |s| then s[i] else '\0'
  }

  function Min(a: int, b: int): int { if a < b then a else b }
}
