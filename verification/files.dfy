/**
 * The path helpers and the `.hbc` header record of src/file.cpp (class and record in
 * include/file.h). The file name is the C string the `File` was opened with; the
 * stream is reduced to the bytes it holds (reading) or the bytes sent to it
 * (writing), so the header and name readers are byte copies at `position`.
 */
module Files {
  import opened Base

  datatype FileMode = FILE_MODE_READ | FILE_MODE_WRITE

  datatype FileResult = FILE_STATUS_OK | FILE_MODE_INVALID | FILE_READ_DONE | FILE_READ_FAILURE | FILE_WRITE_FAILURE

  const FILE_HEADER_MAGIC_SIZE: nat := 4
  /** `sizeof(FileHeader)`: four magic chars and four `uint8_t` fields, no padding. */
  const HEADER_SIZE: nat := 8
  /** The magic `'\x7F' 'H' 'B' 'C'`. */
  const MAGIC: seq<byte> := [0x7F, 0x48, 0x42, 0x43]

  /** `FileHeader`: the magic, the format version, flags and the base-name length. */
  datatype Header = Header(magic: seq<byte>, major: byte, minor: byte, flags: byte, name: byte)

  /** How `read_header` ends: a refusal with its status, a `Logger::fatal` abort, or the header. */
  datatype HeaderRead = Refused(status: FileResult) | BadMagic | Read(header: Header)

  // ---------------------------------------------------------------- path text

  /** Index of the last `c` in `s`, or -1 when `s` holds none. */
  function LastOf(s: seq<char>, c: char): (r: int)
    ensures -1 <= r < |s|
    ensures r >= 0 ==> s[r] == c
    ensures forall k :: r < k < |s| ==> s[k] != c
  {
    if s == [] then -1
    else if s[|s| - 1] == c then |s| - 1
    else LastOf(s[..|s| - 1], c)
  }

  /** One more character either becomes the last `c` or leaves the last `c` where it was. */
  lemma LastOfSnoc(s: seq<char>, i: nat, c: char)
    requires i < |s|
    ensures LastOf(s[..i + 1], c) == if s[i] == c then i else LastOf(s[..i], c)
  {
    assert s[..i + 1][..i] == s[..i];
  }

  /** `k` of `get_dir`: the index of the last '/', or 0 when there is none. */
  function DirEnd(f: seq<char>): nat
  {
    if LastOf(f, '/') < 0 then 0 else LastOf(f, '/')
  }

  /** `j` of `get_name`/`name_length`: the index just after the last '/', or 0. */
  function NameStart(f: seq<char>): nat
  {
    LastOf(f, '/') + 1
  }

  /** `k` of `get_name`/`name_length`: the index of the last '.', or 0 when there is none. */
  function DotAt(f: seq<char>): nat
  {
    if LastOf(f, '.') < 0 then 0 else LastOf(f, '.')
  }

  /** `j` of `get_ext`: the index just after the last '.', or 0. */
  function ExtStart(f: seq<char>): nat
  {
    LastOf(f, '.') + 1
  }

  /** The directory part: everything before the last '/', empty without one. */
  function Dir(f: seq<char>): (d: seq<char>)
    ensures d <= f
    ensures '/' in f ==> |d| < |f| && f[|d|] == '/'
  {
    f[..DirEnd(f)]
  }

  /** The base name without its extension; defined when the last '.' follows the last '/'. */
  function Name(f: seq<char>): (n: seq<char>)
    requires NameStart(f) <= DotAt(f)
    ensures '/' !in n
  {
    f[NameStart(f)..DotAt(f)]
  }

  /** The extension: the text after the last '.', or the whole name when it has none. */
  function Ext(f: seq<char>): (e: seq<char>)
    ensures '.' !in e
    ensures '.' !in f ==> e == f
  {
    f[ExtStart(f)..]
  }

  /** A name with a '/' is its directory, the '/', and the text after the last '/'. */
  lemma DirSplits(f: seq<char>)
    requires '/' in f
    ensures f == Dir(f) + ['/'] + f[NameStart(f)..]
    ensures '/' !in f[NameStart(f)..]
  {
    var k := LastOf(f, '/');
    assert k >= 0 by {
      var i :| 0 <= i < |f| && f[i] == '/';
    }
  }

  /** A name without '/' has the empty directory, as `path[0] = '\0'` leaves it. */
  lemma NoSlashNoDir(f: seq<char>)
    requires '/' !in f
    ensures Dir(f) == [] && NameStart(f) == 0
  {
  }

  /**
   * When the last '.' follows the last '/', the text after the last '/' is the base
   * name, the '.', and the extension.
   */
  lemma BaseSplits(f: seq<char>)
    requires LastOf(f, '/') < LastOf(f, '.')
    ensures NameStart(f) <= DotAt(f)
    ensures f[NameStart(f)..] == Name(f) + ['.'] + Ext(f)
  {
    var j, k := NameStart(f), LastOf(f, '.');
    assert DotAt(f) == k && ExtStart(f) == k + 1;
    assert f[j..] == f[j..k] + [f[k]] + f[k + 1..];
  }

  // ---------------------------------------------------------------- the header record

  /** The bytes `fwrite(&header, sizeof(FileHeader), 1, fp)` sends, in field order. */
  function EncodeHeader(h: Header): (b: seq<byte>)
    requires |h.magic| == FILE_HEADER_MAGIC_SIZE
    ensures |b| == HEADER_SIZE && b[..4] == h.magic
  {
    h.magic + [h.major, h.minor, h.flags, h.name]
  }

  /** The header `fread(header, sizeof(FileHeader), 1, fp)` fills from eight bytes. */
  function DecodeHeader(b: seq<byte>): (h: Header)
    requires |b| == HEADER_SIZE
    ensures |h.magic| == FILE_HEADER_MAGIC_SIZE
  {
    Header(b[..4], b[4], b[5], b[6], b[7])
  }

  lemma DecodeEncode(h: Header)
    requires |h.magic| == FILE_HEADER_MAGIC_SIZE
    ensures DecodeHeader(EncodeHeader(h)) == h
  {
    assert EncodeHeader(h)[..4] == h.magic;
  }

  lemma EncodeDecode(b: seq<byte>)
    requires |b| == HEADER_SIZE
    ensures EncodeHeader(DecodeHeader(b)) == b
  {
  }

  /** The header `write_header` fills for a base name of `nameLength` characters. */
  function WrittenHeader(nameLength: byte): (h: Header)
    ensures |h.magic| == FILE_HEADER_MAGIC_SIZE && h.magic == MAGIC
    ensures h.major == 0 && h.minor == 1 && h.flags == 0 && h.name == nameLength
  {
    Header(MAGIC, 0, 1, 0, nameLength)
  }

  /**
   * What `read_header` makes of the stream bytes at `position`: a wrong mode or a
   * position other than 0 refuses, a magic that differs from `MAGIC` aborts, and
   * otherwise the decoded header.
   */
  function ReadHeaderOf(mode: FileMode, position: nat, bytes: seq<byte>): (r: HeaderRead)
    requires mode == FILE_MODE_READ && position == 0 ==> |bytes| >= HEADER_SIZE
    ensures r.Refused? <==> mode != FILE_MODE_READ || position != 0
    ensures r.Refused? ==> r.status == if mode != FILE_MODE_READ then FILE_MODE_INVALID else FILE_READ_FAILURE
    ensures r.BadMagic? <==> !r.Refused? && bytes[..4] != MAGIC
    ensures r.Read? ==> r.header.magic == MAGIC && EncodeHeader(r.header) == bytes[..HEADER_SIZE]
  {
    if mode != FILE_MODE_READ then Refused(FILE_MODE_INVALID)
    else if position != 0 then Refused(FILE_READ_FAILURE)
    else if bytes[..4] != MAGIC then BadMagic
    else
      assert bytes[..HEADER_SIZE][..4] == bytes[..4];
      Read(DecodeHeader(bytes[..HEADER_SIZE]))
  }

  /**
   * A header written by `write_header` reads back, from a file that starts with it,
   * past the magic check and with every field as written.
   */
  lemma HeaderRoundTrip(nameLength: byte, rest: seq<byte>)
    ensures ReadHeaderOf(FILE_MODE_READ, 0, EncodeHeader(WrittenHeader(nameLength)) + rest)
            == Read(WrittenHeader(nameLength))
  {
    var b := EncodeHeader(WrittenHeader(nameLength));
    assert (b + rest)[..HEADER_SIZE] == b;
    assert (b + rest)[..4] == MAGIC;
    DecodeEncode(WrittenHeader(nameLength));
  }

  /** The bytes of a stream as the C `char`s `fread` stores. */
  function Chars(b: seq<byte>): (s: seq<char>)
    ensures |s| == |b| && forall i :: 0 <= i < |b| ==> CharByte(s[i]) == b[i]
  {
    seq(|b|, i requires 0 <= i < |b| => ByteChar(b[i]))
  }

  class File {
    /** The C string the file was opened with. */
    const fileName: seq<char>
    const mode: FileMode
    /** The bytes the stream holds, read from the start. */
    const content: seq<byte>
    /** Bytes consumed by the header and name readers. */
    var position: nat
    /** Bytes sent to the stream by `write_header`. */
    var written: seq<byte>

    /** The name is a C string. */
    ghost predicate Valid()
    {
      NoNul(fileName)
    }

    /** `File(file_name, mode)` with the stream already open; `position` starts at 0. */
    constructor (name: seq<char>, m: FileMode, bytes: seq<byte>)
      requires NoNul(name)
      ensures Valid() && fileName == name && mode == m && content == bytes
      ensures position == 0 && written == []
    {
      fileName := name;
      mode := m;
      content := bytes;
      position := 0;
      written := [];
    }

    /**
     * `get_dir`: copies the name into `path` and cuts it with a NUL at the last '/',
     * so the C string left in `path` is the directory part.
     */
    method GetDir(path: array<char>)
      requires Valid() && |fileName| <= path.Length && 0 < path.Length
      modifies path
      ensures path[..] == (fileName + old(path[|fileName|..]))[DirEnd(fileName) := '\0']
      ensures CStr(path[..]) == Dir(fileName)
    {
      var k := 0;
      var i := 0;
      while i < |fileName|
        invariant 0 <= i <= |fileName|
        invariant k == if LastOf(fileName[..i], '/') < 0 then 0 else LastOf(fileName[..i], '/')
        invariant forall m :: 0 <= m < i ==> path[m] == fileName[m]
        invariant forall m :: i <= m < path.Length ==> path[m] == old(path[m])
      {
        LastOfSnoc(fileName, i, '/');
        path[i] := fileName[i];
        if fileName[i] == '/' {
          k := i;
        }
        i := i + 1;
      }
      assert fileName[..i] == fileName;
      ghost var copied := path[..];
      assert copied == fileName + old(path[|fileName|..]);
      path[k] := '\0';
      assert path[..] == copied[k := '\0'];
      assert path[..k] == fileName[..k];
      CStrOfPrefix(path[..], k);
    }

    /**
     * The scan `name_length` and `get_name` share: `j` just after the last '/' and
     * `k` at the last '.', each 0 when the name has none.
     */
    method Marks() returns (j: nat, k: nat)
      requires Valid()
      ensures j == NameStart(fileName) && k == DotAt(fileName)
    {
      j, k := 0, 0;
      var i := 0;
      while i < |fileName|
        invariant 0 <= i <= |fileName|
        invariant j == LastOf(fileName[..i], '/') + 1
        invariant k == if LastOf(fileName[..i], '.') < 0 then 0 else LastOf(fileName[..i], '.')
      {
        LastOfSnoc(fileName, i, '/');
        LastOfSnoc(fileName, i, '.');
        if fileName[i] == '/' {
          j := i + 1;
        }
        if fileName[i] == '.' {
          k := i;
        }
        i := i + 1;
      }
      assert fileName[..i] == fileName;
    }

    /**
     * `name_length`: the index of the last '.' minus the index after the last '/',
     * cut to `uint8_t`, which wraps when the '.' comes before the '/'.
     */
    method NameLength() returns (n: byte)
      requires Valid()
      ensures n as int == (DotAt(fileName) - NameStart(fileName)) % 256
      ensures NameStart(fileName) <= DotAt(fileName) ==> n as int == |Name(fileName)| % 256
    {
      var j, k := Marks();
      n := ((k as int - j as int) % 256) as byte;
    }

    /**
     * The copy loop of `get_name` and `get_ext`: the characters `fileName[lo..hi]` go
     * to the front of `dst`, followed by a NUL; the rest of `dst` is untouched.
     */
    method CopyTerminated(dst: array<char>, lo: nat, hi: nat)
      requires Valid() && lo <= hi <= |fileName| && hi - lo < dst.Length
      modifies dst
      ensures dst[..] == fileName[lo..hi] + ['\0'] + old(dst[hi - lo + 1..])
      ensures CStr(dst[..]) == fileName[lo..hi]
    {
      var i := lo;
      while i < hi
        invariant lo <= i <= hi
        invariant forall m :: 0 <= m < i - lo ==> dst[m] == fileName[lo + m]
        invariant forall m :: i - lo <= m < dst.Length ==> dst[m] == old(dst[m])
      {
        dst[i - lo] := fileName[i];
        i := i + 1;
      }
      dst[hi - lo] := '\0';
      assert dst[..hi - lo] == fileName[lo..hi];
      assert dst[..] == dst[..hi - lo] + [dst[hi - lo]] + dst[hi - lo + 1..];
      CStrOfPrefix(dst[..], hi - lo);
    }

    /**
     * `get_name`: copies the characters from just after the last '/' up to the last
     * '.' to the front of `name` and terminates them. A '.' before the last '/'
     * makes the C code write before `name`, so the model demands the opposite order.
     */
    method GetName(name: array<char>)
      requires Valid() && NameStart(fileName) <= DotAt(fileName)
      requires DotAt(fileName) - NameStart(fileName) < name.Length
      modifies name
      ensures name[..] == Name(fileName) + ['\0'] + old(name[|Name(fileName)| + 1..])
      ensures CStr(name[..]) == Name(fileName)
    {
      var j, k := Marks();
      CopyTerminated(name, j, k);
    }

    /** The scan of `get_ext`: just after the last '.', or 0 when the name has none. */
    method ExtMark() returns (j: nat)
      requires Valid()
      ensures j == ExtStart(fileName)
    {
      j := 0;
      var i := 0;
      while i < |fileName|
        invariant 0 <= i <= |fileName|
        invariant j == LastOf(fileName[..i], '.') + 1
      {
        LastOfSnoc(fileName, i, '.');
        if fileName[i] == '.' {
          j := i + 1;
        }
        i := i + 1;
      }
      assert fileName[..i] == fileName;
    }

    /**
     * `get_ext`: copies the text after the last '.' (the whole name when there is no
     * '.') to the front of `extension` and terminates it.
     */
    method GetExt(extension: array<char>)
      requires Valid() && |fileName| - ExtStart(fileName) < extension.Length
      modifies extension
      ensures extension[..] == Ext(fileName) + ['\0'] + old(extension[|Ext(fileName)| + 1..])
      ensures CStr(extension[..]) == Ext(fileName)
    {
      var j := ExtMark();
      CopyTerminated(extension, j, |fileName|);
    }

    /**
     * `write_header`: refused outside write mode; otherwise the magic, version 0.1,
     * no flags and the base-name length go to the stream.
     */
    method WriteHeader() returns (r: FileResult)
      requires Valid()
      modifies this
      ensures position == old(position)
      ensures mode != FILE_MODE_WRITE ==> r == FILE_MODE_INVALID && written == old(written)
      ensures mode == FILE_MODE_WRITE ==> r == FILE_STATUS_OK
      ensures mode == FILE_MODE_WRITE ==>
        written == old(written) + EncodeHeader(WrittenHeader(((DotAt(fileName) - NameStart(fileName)) % 256) as byte))
    {
      if mode != FILE_MODE_WRITE {
        return FILE_MODE_INVALID;
      }
      var n := NameLength();
      var header := Header(MAGIC, 0, 1, 0, n);
      written := written + EncodeHeader(header);
      return FILE_STATUS_OK;
    }

    /**
     * `read_header`: refused outside read mode or after anything was read; aborts on
     * a wrong magic; otherwise decodes the first eight bytes and moves past them.
     */
    method ReadHeader() returns (r: HeaderRead)
      requires mode == FILE_MODE_READ && position == 0 ==> |content| >= HEADER_SIZE
      modifies this
      ensures r == ReadHeaderOf(mode, old(position), content)
      ensures written == old(written)
      ensures position == if r.Read? then old(position) + HEADER_SIZE else old(position)
    {
      if mode != FILE_MODE_READ {
        return Refused(FILE_MODE_INVALID);
      }
      if position != 0 {
        return Refused(FILE_READ_FAILURE);
      }
      var bytes := content[..HEADER_SIZE];
      var header := DecodeHeader(bytes);
      if header.magic != MAGIC {
        return BadMagic;
      }
      position := position + HEADER_SIZE;
      return Read(header);
    }

    /**
     * `read_name`: refused outside read mode; otherwise `fread` fills the front of
     * `name`, a NUL goes to `name[length]` and `position` moves by `length`, whether
     * or not the stream still held `length` bytes. The bytes are the stream's when it
     * did; after a short read C leaves the partly read element indeterminate, and the
     * model copies what was left and promises nothing about the front of `name`.
     */
    method ReadName(name: array<char>, length: nat) returns (r: FileResult)
      requires mode == FILE_MODE_READ ==> length < name.Length
      modifies this, name
      ensures written == old(written)
      ensures mode != FILE_MODE_READ ==> r == FILE_MODE_INVALID && position == old(position) && name[..] == old(name[..])
      ensures mode == FILE_MODE_READ ==> r == FILE_STATUS_OK && position == old(position) + length
      ensures mode == FILE_MODE_READ ==> name[length] == '\0' && name[length + 1..] == old(name[length + 1..])
      ensures mode == FILE_MODE_READ && old(position) + length <= |content| ==>
        name[..length] == Chars(content[old(position)..old(position) + length])
    {
      if mode != FILE_MODE_READ {
        return FILE_MODE_INVALID;
      }
      var got := if position + length <= |content| then length
                 else if position <= |content| then |content| - position else 0;
      var i := 0;
      while i < got
        invariant 0 <= i <= got <= length
        invariant position == old(position) && written == old(written)
        invariant got > 0 ==> position + got <= |content| && name[..i] == Chars(content[position..position + i])
        invariant forall m :: i <= m < name.Length ==> name[m] == old(name[m])
      {
        name[i] := ByteChar(content[position + i]);
        assert Chars(content[position..position + i + 1]) == Chars(content[position..position + i]) + [ByteChar(content[position + i])];
        i := i + 1;
      }
      name[length] := '\0';
      position := position + length;
      return FILE_STATUS_OK;
    }
  }
}
