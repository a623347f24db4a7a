/**
 * The string-backed character source of src/input.cpp (declared in include/input.h):
 * a cursor `index` over a C string of `length` characters and the last character it
 * handed out. The file-backed branch only delegates to the file reader and is not
 * part of this model.
 */
module Input {
  import opened Base
  import Util

  class StringInput {
    /**
     * The buffer `source` points to: the text, its NUL, and whatever follows; null
     * for a NULL source, which reads as the empty text.
     */
    const source: array?<char>
    /** `h_strlen(source)`, fixed at construction. */
    const length: nat
    /** The text the cursor walks over: the buffer up to its first NUL. */
    ghost const text: seq<char>
    var index: nat
    var currentChar: char

    ghost predicate Valid()
      reads this, source
    {
      (source == null ==> text == []) &&
      (source != null ==> length < source.Length && source[length] == '\0' && source[..length] == text) &&
      |text| == length && NoNul(text) && index <= length &&
      currentChar == (if index == 0 then '\0' else text[index - 1])
    }

    /**
     * `Input(const char *source)`: the length is `h_strlen` of the C string, 0 for a
     * NULL source.
     */
    constructor (buf: array?<char>)
      requires buf != null ==> exists i :: 0 <= i < buf.Length && buf[i] == '\0'
      ensures Valid() && source == buf && index == 0 && currentChar == '\0'
      ensures buf == null ==> length == 0 && text == []
      ensures buf != null ==> length == Util.StrLen(buf[..])
    {
      source := buf;
      var n := Util.StrLenOf(buf);
      length := n;
      text := if buf == null then [] else buf[..n];
      index := 0;
      currentChar := '\0';
      new;
      assert buf != null ==> forall k :: 0 <= k < n ==> buf[..][k] != '\0';
    }

    /** `peek`: the character under the cursor, NUL once the text is exhausted. */
    function Peek(): (c: char)
      reads this, source
      requires Valid()
      ensures c == At(text, index)
      ensures c == '\0' <==> index == length
    {
      if index >= length then '\0' else source[index]
    }

    /**
     * `current`: the character the last successful `next` returned, the one just
     * behind the cursor, and NUL exactly when nothing was read yet.
     */
    function Current(): (c: char)
      reads this, source
      requires Valid()
      ensures index > 0 ==> c == text[index - 1]
      ensures c == '\0' <==> index == 0
    {
      currentChar
    }

    /**
     * `next`: returns what `peek` showed. Inside the text it moves the cursor by one
     * and remembers the character; at the end it returns NUL and changes nothing.
     */
    method Next() returns (c: char)
      requires Valid()
      modifies this
      ensures Valid()
      ensures c == old(Peek())
      ensures old(index) < length ==> index == old(index) + 1 && currentChar == c
      ensures old(index) == length ==> index == old(index) && currentChar == old(currentChar)
    {
      if index >= length {
        return '\0';
      }
      c := source[index];
      currentChar := c;
      index := index + 1;
    }

    /**
     * `read_chunk`: copies `n` characters of the buffer from `start` into `dest` and
     * terminates the copy with a NUL at `dest[n]`; the rest of `dest` is untouched.
     */
    method ReadChunk(dest: array<char>, start: nat, n: nat)
      requires Valid()
      requires source != null || n == 0
      requires source != null ==> start + n <= source.Length
      requires n < dest.Length && dest != source
      modifies dest
      ensures source != null ==> dest[..n] == source[start..start + n]
      ensures start + n <= length ==> dest[..n] == text[start..start + n]
      ensures dest[n] == '\0'
      ensures dest[n + 1..] == old(dest[n + 1..])
    {
      if n > 0 {
        Util.MemCpy(dest, 0, source, start, n);
        assert start + n <= length ==> source[start..start + n] == text[start..start + n];
      }
      dest[n] := '\0';
    }
  }
}
