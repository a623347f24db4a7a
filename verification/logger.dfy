/**
 * The pure parts of src/logger.cpp: `getData`, the spelling of each token kind, and the
 * chunk disassembler with its `print_bytes` helper. Console output is modelled as the
 * text that would be printed; colours and `Logger::info/warn/error/fatal` are not part
 * of this model.
 */
module Logger {
  import opened Base
  import opened Tokens
  import opened Bytecode

  /**
   * `getData`: the source spelling of operator, keyword and punctuation kinds and a
   * tag for the others. The DEC case returns a pointer into a destroyed temporary;
   * the model has no value for it.
   */
  function GetData(kind: Type): (r: Option<string>)
    ensures r.None? <==> kind == DEC
  {
    match kind
    case CMP_EQ => Some("==")
    case CMP_NEQ => Some("!=")
    case CMP_GT => Some(">")
    case CMP_GEQ => Some(">=")
    case CMP_LT => Some("<")
    case CMP_LEQ => Some("<=")
    case CST_EQ => Some("#=")
    case SET_EQ => Some("$=")
    case EQ => Some("=")
    case ADD_EQ => Some("+=")
    case SUB_EQ => Some("-=")
    case MUL_EQ => Some("*=")
    case DIV_EQ => Some("/=")
    case INCR => Some("++")
    case DECR => Some("--")
    case L_AND_EQ => Some("&&=")
    case L_OR_EQ => Some("||=")
    case B_AND_EQ => Some("&=")
    case B_OR_EQ => Some("|=")
    case B_XOR_EQ => Some("^=")
    case POW_EQ => Some("**=")
    case REM_EQ => Some("%=")
    case R_SHIFT_EQ => Some(">>=")
    case L_SHIFT_EQ => Some("<<=")
    case AS => Some("as")
    case ASYNC => Some("async")
    case AWAIT => Some("await")
    case CASE => Some("case")
    case CLASS => Some("class")
    case DEFAULT => Some("default")
    case DO => Some("do")
    case ELSE => Some("else")
    case FALSE => Some("false")
    case FOR => Some("for")
    case FROM => Some("from")
    case FX => Some("fx")
    case IF => Some("if")
    case IMPORT => Some("import")
    case NEW => Some("new")
    case RETURN => Some("return")
    case SELECT => Some("select")
    case SWITCH => Some("switch")
    case TRUE => Some("true")
    case WHILE => Some("while")
    case NUL => Some("null")
    case STR => Some("STR")
    case NAME => Some("NAME")
    case DEC => None
    case DOT => Some(".")
    case RANGE_EXCL => Some("..")
    case RANGE_R_IN => Some("..=")
    case RANGE_L_IN => Some("=..")
    case RANGE_INCL => Some("=..=")
    case SEMICOLON => Some(";")
    case NEWLINE => Some("\\n")
    case COMMA => Some(",")
    case AT => Some("@")
    case HASH => Some("#")
    case DOLLAR => Some("$")
    case QUERY => Some("?")
    case L_BRACKET => Some("[")
    case R_BRACKET => Some("]")
    case L_PAREN => Some("(")
    case R_PAREN => Some(")")
    case L_CURLY => Some("{")
    case R_CURLY => Some("}")
    case HEX => Some("HEX")
    case OCTAL => Some("OCT")
    case BINARY => Some("BIN")
    case COLON => Some(":")
    case END => Some("\\0")
    case ADD => Some("+")
    case SUB => Some("-")
    case MUL => Some("*")
    case DIV => Some("/")
    case L_AND => Some("&&")
    case L_OR => Some("||")
    case B_AND => Some("&")
    case B_OR => Some("|")
    case CARET => Some("^")
    case B_NOT => Some("~")
    case L_NOT => Some("!")
    case L_SHIFT => Some("<<")
    case R_SHIFT => Some(">>")
    case POW => Some("**")
    case REM => Some("%")
    case MAX_TOKENS => Some("MAX")
    case ERROR => Some("ERROR")
  }

  // ---------------------------------------------------------------------------------
  // printf formatting

  const HEX_DIGITS: string := "0123456789abcdef"

  function Pow16(w: nat): (p: nat)
    ensures p >= 1
  {
    if w == 0 then 1 else 16 * Pow16(w - 1)
  }

  /** `%0<w>x`: the value in `w` lower-case hex digits, most significant first. */
  function Hex(n: nat, w: nat): (r: string)
    ensures |r| == w
    ensures forall i :: 0 <= i < |r| ==> r[i] in HEX_DIGITS
  {
    if w == 0 then [] else Hex(n / 16, w - 1) + [HEX_DIGITS[n % 16]]
  }

  /** The value of a string of hex digits. */
  function HexValue(s: string): nat
  {
    if s == [] then 0 else 16 * HexValue(s[..|s| - 1]) + HexDigitValue(s[|s| - 1])
  }

  function HexDigitValue(c: char): nat
  {
    if '0' <= c <= '9' then c as nat - '0' as nat
    else if 'a' <= c <= 'f' then c as nat - 'a' as nat + 10
    else 0
  }

  /** `%0<w>x` loses nothing when the value has at most `w` hex digits. */
  lemma {:induction false} HexRoundTrip(n: nat, w: nat)
    requires n < Pow16(w)
    ensures HexValue(Hex(n, w)) == n
  {
    if w > 0 {
      var r := Hex(n, w);
      assert r[..|r| - 1] == Hex(n / 16, w - 1);
      HexRoundTrip(n / 16, w - 1);
      var d := n % 16;
      assert HEX_DIGITS[d] == "0123456789abcdef"[d];
      assert HexDigitValue(HEX_DIGITS[d]) == d;
    }
  }

  /** The decimal digits of a natural number, most significant first. */
  function Digits(n: nat): (r: string)
    ensures |r| >= 1
    ensures forall i :: 0 <= i < |r| ==> '0' <= r[i] <= '9'
    decreases n
  {
    if n < 10 then [('0' as int + n) as char]
    else Digits(n / 10) + [('0' as int + n % 10) as char]
  }

  function DigitsValue(s: string): nat
  {
    if s == [] then 0
    else 10 * DigitsValue(s[..|s| - 1]) + (if '0' <= s[|s| - 1] <= '9' then s[|s| - 1] as nat - '0' as nat else 0)
  }

  /** `%d`: a minus sign for negative values, then the digits. */
  function Decimal(n: int): (r: string)
  {
    if n < 0 then "-" + Digits(-n) else Digits(n)
  }

  lemma {:induction false} DigitsRoundTrip(n: nat)
    ensures DigitsValue(Digits(n)) == n
    decreases n
  {
    if n >= 10 {
      var r := Digits(n);
      assert r[..|r| - 1] == Digits(n / 10);
      DigitsRoundTrip(n / 10);
    }
  }

  /** The `char` value of a byte, as `static_cast<char>` gives it where `char` is signed. */
  function SignedByte(b: byte): (v: int)
    ensures -128 <= v < 128 && (v - b as int) % 256 == 0
  {
    if b < 128 then b as int else b as int - 256
  }

  // ---------------------------------------------------------------------------------
  // print_bytes

  /** One `"%02x "` cell per byte. */
  function Cells(bs: seq<byte>): (r: string)
    ensures |r| == 3 * |bs|
  {
    if bs == [] then [] else Cells(bs[..|bs| - 1]) + Hex(bs[|bs| - 1] as nat, 2) + " "
  }

  /** `k` empty cells of three blanks. */
  function Padding(k: nat): (r: string)
    ensures |r| == 3 * k
    ensures forall i :: 0 <= i < |r| ==> r[i] == ' '
  {
    if k == 0 then [] else Padding(k - 1) + "   "
  }

  /** What `print_bytes` prints: the bytes, padding up to ten cells, and the description. */
  function BytesLine(bs: seq<byte>, desc: string): string
  {
    Cells(bs) + Padding(if |bs| < 10 then 10 - |bs| else 0) + desc + "\n"
  }

  /** The description column starts at the same place whatever the width, up to ten bytes. */
  lemma BytesLineAligned(bs: seq<byte>, desc: string)
    requires |bs| <= 10
    ensures |BytesLine(bs, desc)| == 30 + |desc| + 1
    ensures BytesLine(bs, desc)[30..30 + |desc|] == desc
  {
  }

  /** Each cell is the byte in two hex digits and a blank. */
  lemma {:induction false} CellsHoldBytes(bs: seq<byte>, i: nat)
    requires i < |bs|
    ensures Cells(bs)[3 * i..3 * i + 3] == Hex(bs[i] as nat, 2) + " "
    ensures HexValue(Cells(bs)[3 * i..3 * i + 2]) == bs[i] as nat
  {
    var n := |bs| - 1;
    if i < n {
      CellsHoldBytes(bs[..n], i);
      assert bs[..n][i] == bs[i];
      assert Cells(bs)[3 * i..3 * i + 3] == Cells(bs[..n])[3 * i..3 * i + 3];
    } else {
      assert Cells(bs)[3 * i..3 * i + 3] == Hex(bs[i] as nat, 2) + " ";
    }
    var c := Cells(bs);
    assert c[3 * i..3 * i + 2] == c[3 * i..3 * i + 3][..2] by {
      assert c[3 * i..3 * i + 2][0] == c[3 * i] == c[3 * i..3 * i + 3][0];
      assert c[3 * i..3 * i + 2][1] == c[3 * i + 1] == c[3 * i..3 * i + 3][1];
    }
    HexRoundTrip(bs[i] as nat, 2);
  }

  /**
   * `print_bytes`: prints `bytes` bytes of the chunk from `offset` on, moves `offset`
   * past them, pads to ten cells and prints the description.
   */
  method PrintBytes(bytes: nat, chunk: Chunk, offset: nat, desc: string) returns (text: string, next: nat)
    requires chunk.Valid() && offset + bytes <= MAX_INSTRUCTIONS
    ensures next == offset + bytes
    ensures text == BytesLine(chunk.code[offset..offset + bytes], desc)
  {
    text := [];
    next := offset;
    var i := 0;
    while i < bytes
      invariant 0 <= i <= bytes && next == offset + i
      invariant text == Cells(chunk.code[offset..next])
    {
      assert chunk.code[offset..next + 1][..i] == chunk.code[offset..next];
      text := text + Hex(chunk.code[next] as nat, 2) + " ";
      next := next + 1;
      i := i + 1;
    }
    i := bytes;
    ghost var pad := if bytes < 10 then 10 - bytes else 0;
    while i < 10
      invariant bytes <= i && (i <= 10 || i == bytes)
      invariant text == Cells(chunk.code[offset..next]) + Padding(if bytes < i then i - bytes else 0)
    {
      text := text + "   ";
      i := i + 1;
    }
    assert (if bytes < i then i - bytes else 0) == pad;
    text := text + desc + "\n";
  }

  // ---------------------------------------------------------------------------------
  // disassemble

  /** The width and name the disassembler lists an opcode byte with, if it knows it. */
  function Listed(b: byte): (r: Option<(nat, string)>)
    ensures r.Some? ==> r.value.0 in {1, 2, 10}
  {
    match Decode(b)
    case Some(RETURN) => Some((1, "RET"))
    case Some(ADD) => Some((1, "ADD"))
    case Some(SUB) => Some((1, "SUB"))
    case Some(MUL) => Some((1, "MUL"))
    case Some(DIV) => Some((1, "DIV"))
    case Some(NEGATE) => Some((1, "NEG"))
    case Some(NOT) => Some((1, "NOT"))
    case Some(B_NOT) => Some((1, "B_NOT"))
    case Some(MOVE) => Some((10, "MOVE"))
    case Some(LOAD) => Some((2, "LOAD"))
    case Some(STORE) => Some((2, "STORE"))
    case _ => None
  }

  /** How far one listed instruction moves `offset`: its width, or one for an unknown byte. */
  function Stride(b: byte): (n: nat)
    ensures n >= 1
  {
    if Listed(b).Some? then Listed(b).value.0 else 1
  }

  /** Text before a possibly undefined rest: undefined when the rest is. */
  function Then(a: string, r: Option<string>): Option<string>
  {
    if r.None? then None else Some(a + r.value)
  }

  lemma ThenThen(a: string, b: string, r: Option<string>)
    ensures Then(a, Then(b, r)) == Then(a + b, r)
  {
    if r.Some? {
      assert a + (b + r.value) == (a + b) + r.value;
    }
  }

  /** The line for the instruction at `offset`, its address first. */
  function LineAt(code: seq<byte>, offset: nat): string
    requires offset < |code| && offset + Stride(code[offset]) <= |code|
  {
    var head := " " + Hex(offset, 4) + ": ";
    match Listed(code[offset])
    case None => head + "Unknown opcode " + Decimal(SignedByte(code[offset])) + "\n"
    case Some((w, desc)) => head + BytesLine(code[offset..offset + w], desc)
  }

  /**
   * The listing from `offset` to the end of the written code. A listed instruction that
   * runs past the end of the 1024-byte buffer would read outside it: undefined.
   */
  function Listing(code: seq<byte>, pos: nat, offset: nat): (r: Option<string>)
    requires pos <= |code|
    decreases pos - offset
  {
    if offset >= pos then Some([])
    else if offset + Stride(code[offset]) > |code| then None
    else Then(LineAt(code, offset), Listing(code, pos, offset + Stride(code[offset])))
  }

  /** The instruction starts the disassembler visits from `offset` on. */
  function Starts(code: seq<byte>, pos: nat, offset: nat): (r: seq<nat>)
    requires pos <= |code|
    ensures forall i :: 0 <= i < |r| ==> offset <= r[i] < pos
    decreases pos - offset
  {
    if offset >= pos then [] else [offset] + Starts(code, pos, offset + Stride(code[offset]))
  }

  /** The starts strictly increase, so there are at most `pos - offset` of them: the walk ends. */
  lemma {:induction false} StartsIncrease(code: seq<byte>, pos: nat, offset: nat)
    requires pos <= |code|
    ensures var r := Starts(code, pos, offset);
      (forall i, j :: 0 <= i < j < |r| ==> r[i] < r[j]) &&
      |r| <= if offset < pos then pos - offset else 0
    decreases pos - offset
  {
    if offset < pos {
      StartsIncrease(code, pos, offset + Stride(code[offset]));
    }
  }

  /** Consecutive starts are one instruction width apart. */
  lemma {:induction false} StartsStride(code: seq<byte>, pos: nat, offset: nat, i: nat)
    requires pos <= |code|
    requires i + 1 < |Starts(code, pos, offset)|
    ensures var r := Starts(code, pos, offset);
      r[i + 1] == r[i] + Stride(code[r[i]])
    decreases pos - offset
  {
    if i > 0 {
      StartsStride(code, pos, offset + Stride(code[offset]), i - 1);
    }
  }

  /** Every visited start has its whole instruction inside the buffer. */
  predicate Fits(code: seq<byte>, starts: seq<nat>)
  {
    forall i :: 0 <= i < |starts| ==> starts[i] < |code| && starts[i] + Stride(code[starts[i]]) <= |code|
  }

  /** The lines for the given starts, in order. */
  function Lines(code: seq<byte>, starts: seq<nat>): string
    requires Fits(code, starts)
  {
    if starts == [] then [] else LineAt(code, starts[0]) + Lines(code, starts[1..])
  }

  lemma FitsCons(code: seq<byte>, o: nat, rest: seq<nat>)
    requires o < |code| && o + Stride(code[o]) <= |code|
    ensures Fits(code, [o] + rest) <==> Fits(code, rest)
    ensures Fits(code, rest) ==> Lines(code, [o] + rest) == LineAt(code, o) + Lines(code, rest)
  {
    var st := [o] + rest;
    assert forall i :: 0 < i < |st| ==> st[i] == rest[i - 1];
    assert st[1..] == rest;
  }

  /**
   * The listing is one line per visited start, in order, and is undefined exactly when
   * some visited instruction runs past the end of the buffer.
   */
  lemma {:induction false} ListingLines(code: seq<byte>, pos: nat, offset: nat)
    requires pos <= |code|
    ensures var st := Starts(code, pos, offset);
      Listing(code, pos, offset) == if Fits(code, st) then Some(Lines(code, st)) else None
    decreases pos - offset
  {
    if offset < pos {
      var next := offset + Stride(code[offset]);
      var st := Starts(code, pos, offset);
      if next <= |code| {
        var rest := Starts(code, pos, next);
        assert st == [offset] + rest;
        assert Listing(code, pos, offset) == Then(LineAt(code, offset), Listing(code, pos, next));
        ListingLines(code, pos, next);
        FitsCons(code, offset, rest);
        if Fits(code, rest) {
          assert Listing(code, pos, offset) == Some(LineAt(code, offset) + Lines(code, rest));
        }
      } else {
        assert !Fits(code, st) by {
          assert st[0] == offset;
        }
      }
    }
  }

  /** `Logger::disassemble`: a banner, then one line per instruction while `offset < pos`. */
  function Disassembly(code: seq<byte>, pos: nat, name: string): Option<string>
    requires pos <= |code|
  {
    Then("=== " + name + " ===\n", Listing(code, pos, 0))
  }

  method Disassemble(chunk: Chunk, name: string) returns (out: Option<string>)
    requires chunk.Valid()
    ensures out == Disassembly(chunk.code[..], chunk.pos, name)
  {
    ghost var code := chunk.code[..];
    var text := "=== " + name + " ===\n";
    var offset := 0;
    while offset < chunk.pos
      invariant Disassembly(code, chunk.pos, name) == Then(text, Listing(code, chunk.pos, offset))
      decreases chunk.pos - offset
    {
      var line, next, ok := ListOne(chunk, offset);
      if !ok {
        assert Listing(code, chunk.pos, offset) == None;
        return None;
      }
      ThenThen(text, line, Listing(code, chunk.pos, next));
      text := text + line;
      offset := next;
    }
    assert text + [] == text;
    out := Some(text);
  }

  /** One pass of the loop: the address, then the instruction's bytes or the unknown byte. */
  method ListOne(chunk: Chunk, offset: nat) returns (line: string, next: nat, ok: bool)
    requires chunk.Valid() && offset < chunk.pos
    ensures var code := chunk.code[..];
      ok == (offset + Stride(code[offset]) <= |code|) &&
      (ok ==> line == LineAt(code, offset) && next == offset + Stride(code[offset]))
  {
    line := " " + Hex(offset, 4) + ": ";
    next := offset;
    var b := chunk.code[offset];
    var listed := Listed(b);
    ok := true;
    if listed.None? {
      line := line + "Unknown opcode " + Decimal(SignedByte(b)) + "\n";
      next := offset + 1;
    } else {
      var (w, desc) := listed.value;
      if offset + w > MAX_INSTRUCTIONS {
        ok := false;
        return;
      }
      var cells;
      cells, next := PrintBytes(w, chunk, offset, desc);
      line := line + cells;
    }
  }
}
