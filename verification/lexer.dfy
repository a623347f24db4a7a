/**
 * The scanner of src/lexer.cpp, with the fields of include/lexer.hpp and the string
 * input of include/input.h.
 *
 * The first half of the module is the scanner as functions of its state (`LexState`):
 * `current_char` is the character at `iterator`, `next_char` the one after it, and the
 * input's own `peek` the one after that. The second half is the `Lexer` class, whose
 * methods update the same fields in place and are proved to follow those functions.
 */
module Lexing {
  import opened Base
  import opened Tokens
  import Halloc
  import Input

  /** `char buffer[0xFF]`, the buffer an identifier is copied into. */
  const NAME_BUFFER: nat := 0xFF

  predicate IsDec(c: char) { '0' <= c <= '9' }

  predicate IsHex(c: char) { ('0' <= c <= '9') || ('a' <= c <= 'f') || ('A' <= c <= 'F') }

  predicate IsAlpha(c: char) { ('a' <= c <= 'z') || ('A' <= c <= 'Z') || c == '$' || c == '_' }

  /**
   * `keyword`: the first character selects a group of reserved words, and each word is
   * compared character by character up to the terminating NUL, so a kind other than
   * NAME comes only from the whole word.
   */
  function Keyword(k: seq<char>): (t: Type)
    ensures t == NAME || IsKeyword(t)
  {
    var c := At(k, 0);
    if c == 'a' then
      if k == "as" then AS else if k == "async" then ASYNC else if k == "await" then AWAIT else NAME
    else if c == 'c' then
      if k == "case" then CASE else if k == "class" then CLASS else NAME
    else if c == 'd' then
      if k == "default" then DEFAULT else if k == "do" then DO else NAME
    else if c == 'e' then
      if k == "else" then ELSE else NAME
    else if c == 'f' then
      if k == "false" then FALSE else if k == "for" then FOR else if k == "from" then FROM
      else if k == "fx" then FX else NAME
    else if c == 'i' then
      if k == "if" then IF else if k == "import" then IMPORT else NAME
    else if c == 'n' then
      if k == "new" then NEW else if k == "null" then NUL else NAME
    else if c == 'r' then
      if k == "return" then RETURN else NAME
    else if c == 's' then
      if k == "select" then SELECT else if k == "switch" then SWITCH else NAME
    else if c == 't' then
      if k == "true" then TRUE else NAME
    else if c == 'w' then
      if k == "while" then WHILE else NAME
    else NAME
  }

  // ---------------------------------------------------------------------------------
  // The scanner as functions of its state

  /**
   * The scanner's fields. `it` is `iterator`; `heap` is the allocation counter of
   * include/halloc.h and `constIndex` the file-level `constant_index`, both shared by
   * every token the scanner emits.
   */
  datatype LexState = LexState(
    text: seq<char>,
    end: bool,
    hadFloat: bool,
    it: int,
    character: int,
    line: int,
    start: int,
    absStart: int,
    constIndex: byte,
    heap: nat)

  /** The text holds no NUL, the cursor is inside it, and `end` is set exactly at its end. */
  ghost predicate Inv(s: LexState)
  {
    NoNul(s.text) && -1 <= s.it <= |s.text| && (s.end <==> s.it == |s.text|)
  }

  /** The state `reset` leaves: before the first character. */
  function Start(text: seq<char>, constIndex: byte, heap: nat): (s: LexState)
    requires NoNul(text)
    ensures Inv(s) && PeekOf(s) == At(text, 0)
  {
    LexState(text, false, false, -1, 1, 1, 0, 0, constIndex, heap)
  }

  /** `current()`: the character last consumed, NUL before the first. */
  function CurrentOf(s: LexState): char { At(s.text, s.it) }

  /** `peek()`: `next_char`. */
  function PeekOf(s: LexState): char { At(s.text, s.it + 1) }

  /** `peek2()`: the input's own lookahead, one past `next_char`. */
  function Peek2Of(s: LexState): char { At(s.text, s.it + 2) }

  /**
   * `next()`: once `end` is set, NUL and no change. Otherwise the lookahead shifts by one
   * (the old `peek()` becomes `current()` and the old `peek2()` becomes `peek()`),
   * the column grows by one, and a newline moves to column 1 of the next line.
   */
  function NextOf(s: LexState): (r: (char, LexState))
    requires Inv(s)
    ensures Inv(r.1) && r.0 == PeekOf(s)
    ensures s.end ==> r.1 == s
    ensures !s.end ==> r.1.it == s.it + 1 && CurrentOf(r.1) == PeekOf(s) && PeekOf(r.1) == Peek2Of(s)
    ensures !s.end ==> r.1.line == s.line + (if r.0 == '\n' then 1 else 0)
    ensures !s.end ==> r.1.character == if r.0 == '\n' then 1 else s.character + 1
    ensures r.1 == s.(end := r.1.end, it := r.1.it, line := r.1.line, character := r.1.character)
  {
    if s.end then ('\0', s)
    else
      var it := s.it + 1;
      var c := At(s.text, it);
      if c == '\0' then (c, s.(it := it, character := s.character + 1, end := true))
      else if c == '\n' then (c, s.(it := it, character := 1, line := s.line + 1))
      else (c, s.(it := it, character := s.character + 1))
  }

  /** `match(c)`: consumes one character exactly when it is `c`. */
  function MatchOf(s: LexState, c: char): (r: (bool, LexState))
    requires Inv(s)
    ensures Inv(r.1)
    ensures r.0 <==> PeekOf(s) == c
    ensures r.1 == if r.0 then NextOf(s).1 else s
  {
    if PeekOf(s) == c then (true, NextOf(s).1) else (false, s)
  }

  /** `n` calls of `next()`. */
  function Run(s: LexState, n: nat): (r: LexState)
    requires Inv(s)
    ensures Inv(r)
    decreases n
  {
    if n == 0 then s else Run(NextOf(s).1, n - 1)
  }

  /** How many newlines `t` holds. */
  function Newlines(t: seq<char>): nat
  {
    if t == [] then 0 else (if t[0] == '\n' then 1 else 0) + Newlines(t[1..])
  }

  /**
   * `line` counts the newlines consumed and `iterator` the characters: after `n` calls
   * of `next()` that stay inside the text, `iterator` has moved by `n` and `line` has
   * grown by the newlines among the consumed characters.
   */
  lemma {:induction false} RunCountsLines(s: LexState, n: nat)
    requires Inv(s) && s.it + n < |s.text|
    ensures Run(s, n).it == s.it + n
    ensures Run(s, n).line == s.line + Newlines(s.text[s.it + 1..s.it + 1 + n])
    decreases n
  {
    if n > 0 {
      var s1 := NextOf(s).1;
      RunCountsLines(s1, n - 1);
      var t := s.text[s.it + 1..s.it + 1 + n];
      assert t[1..] == s.text[s1.it + 1..s1.it + 1 + (n - 1)];
    }
  }

  /** How `advance` ends: a token, a `Logger::fatal` abort, a scan that never returns, or undefined behaviour. */
  datatype Lexed = Tok(token: Token) | Fatal(msg: string) | Hang | Undefined

  /** The position `emit` records: the token's first character through `iterator`. */
  function Pos(s: LexState): Position
  {
    Position(s.line, s.start, s.character, s.absStart, s.it + 1)
  }

  /** What an `emit` may be asked to emit: its DEC and OCTAL branches are never reached. */
  predicate Emittable(s: LexState, kind: Type)
  {
    kind != DEC && kind != OCTAL &&
    (kind == STR ==> 0 <= s.absStart && s.absStart + 1 <= s.it < |s.text|) &&
    (kind == NAME ==> 0 <= s.absStart <= s.it < |s.text|)
  }

  /**
   * `emit(type)`. Strings and names take an arena block (see `EmitString` and
   * `EmitName`); every other kind is a bare token and clears `had_float`.
   */
  function EmitOf(s: LexState, kind: Type): (r: (Lexed, LexState))
    requires Inv(s) && Emittable(s, kind)
    ensures Inv(r.1) && r.1.text == s.text && r.1.it == s.it && r.1.line == s.line
    ensures r.0.Tok? || r.0.Fatal?
    ensures r.0.Tok? ==> r.0.token.kind == kind && r.0.token.pos == Pos(s)
    ensures r.1.hadFloat == if kind == STR || kind == NAME then s.hadFloat else false
  {
    if kind == STR then EmitString(s)
    else if kind == NAME then EmitName(s)
    else Bare(s, kind)
  }

  /** The kinds `emit` turns into a token with no value. */
  predicate Plain(kind: Type)
  {
    kind !in {DEC, OCTAL, STR, NAME}
  }

  /** The default branch of `emit(type)`: a zeroed value and `had_float` cleared. */
  function Bare(s: LexState, kind: Type): (r: (Lexed, LexState))
    requires Inv(s) && Plain(kind)
    ensures Inv(r.1) && r.1 == s.(hadFloat := false)
    ensures r.0.Tok? && r.0.token.kind == kind && r.0.token.value == NoValue
  {
    (Tok(Token(kind, Pos(s), NoValue, 0)), s.(hadFloat := false))
  }

  /**
   * The STR branch: a block of the token's length minus one, holding the text between
   * the quotes, and the next constant index, which wraps at 256. The arena aborts past
   * 0x800 bytes.
   */
  function EmitString(s: LexState): (r: (Lexed, LexState))
    requires Inv(s) && 0 <= s.absStart && s.absStart + 1 <= s.it < |s.text|
    ensures r.1 == s.(heap := r.1.heap, constIndex := r.1.constIndex)
    ensures r.1.heap == s.heap + (s.it - s.absStart)
    ensures r.0.Fatal? <==> r.1.heap > Halloc.MAX_ALLOCATIONS
    ensures !r.0.Fatal? ==> r.0 == Tok(Token(STR, Pos(s), Text(s.heap, s.text[s.absStart + 1..s.it]), s.constIndex))
    ensures !r.0.Fatal? ==> r.1.constIndex as int == (s.constIndex as int + 1) % 256
  {
    var pos := Pos(s);
    var len := pos.absEnd - pos.absStart;
    var heap := s.heap + (len - 1);
    if heap > Halloc.MAX_ALLOCATIONS then (Fatal("Too many allocations"), s.(heap := heap))
    else
      var s' := s.(heap := heap, constIndex := ((s.constIndex as int + 1) % 256) as byte);
      (Tok(Token(STR, pos, Text(s.heap, s.text[pos.absStart + 1..pos.absStart + 1 + (len - 2)]), s.constIndex)), s')
  }

  /** The NAME branch: a block of the token's length plus one, holding the name. */
  function EmitName(s: LexState): (r: (Lexed, LexState))
    requires Inv(s) && 0 <= s.absStart <= s.it < |s.text|
    ensures r.1 == s.(heap := r.1.heap)
    ensures r.1.heap == s.heap + (s.it + 1 - s.absStart) + 1
    ensures r.0.Fatal? <==> r.1.heap > Halloc.MAX_ALLOCATIONS
    ensures !r.0.Fatal? ==> r.0 == Tok(Token(NAME, Pos(s), Text(s.heap, s.text[s.absStart..s.it + 1]), 0))
  {
    var pos := Pos(s);
    var len := pos.absEnd - pos.absStart;
    var heap := s.heap + (len + 1);
    if heap > Halloc.MAX_ALLOCATIONS then (Fatal("Too many allocations"), s.(heap := heap))
    else (Tok(Token(NAME, pos, Text(s.heap, s.text[pos.absStart..pos.absStart + len]), 0)), s.(heap := heap))
  }

  /** `emit(type, value)`: the number as the value; no other field changes. */
  function EmitValueOf(s: LexState, kind: Type, n: Num): (Lexed, LexState)
  {
    (Tok(Token(kind, Pos(s), Numeric(n), 0)), s)
  }

  // ---------------------------------------------------------------------------------
  // Numeric literals

  type Radix = b: nat | 1 <= b witness 10

  /** The locals of `number()`. */
  datatype NumVars = NumVars(
    value: real,
    loose: nat,
    exponent: nat,
    base: Radix,
    floatIdx: byte,
    hadExp: bool,
    isHex: bool,
    isBinary: bool,
    isOctal: bool,
    octLoose: bool,
    setType: bool,
    hadValue: bool,
    hadUnder: bool,
    expNeg: bool)

  const NUM_START := NumVars(0.0, 0, 0, 10, 0, false, false, false, false, false, false, false, false, false)

  function RPow(b: real, n: nat): (r: real)
    requires b >= 1.0
    ensures r >= 1.0
  {
    if n == 0 then 1.0 else b * RPow(b, n - 1)
  }

  function Digit(c: char): nat requires IsDec(c) { c as int - '0' as int }

  /** `++float_idx` on a `uint8_t`. */
  function Bump(i: byte): byte { ((i as int + 1) % 256) as byte }

  /** The `insert(x)` macro: a digit of the value, of the exponent, or of the fraction. */
  function Insert(v: NumVars, hadFloat: bool, x: nat): NumVars
  {
    if v.isBinary || v.isOctal then v.(value := v.value * v.base as real + x as real)
    else if v.hadExp then v.(exponent := v.exponent * v.base + x)
    else if hadFloat then
      var i := Bump(v.floatIdx);
      v.(floatIdx := i, value := v.value + x as real / RPow(v.base as real, i as nat))
    else v.(value := v.value * v.base as real + x as real)
  }

  /** The `insert_hex(x)` macro. */
  function InsertHex(v: NumVars, hadFloat: bool, x: nat): NumVars
  {
    if hadFloat then
      var i := Bump(v.floatIdx);
      v.(floatIdx := i, value := v.value + x as real / RPow(v.base as real, i as nat))
    else v.(value := v.value * 16.0 + x as real)
  }

  /** The `insert_octal(x)` macro: the digits of a literal that may still be a loose octal. */
  function InsertOctal(v: NumVars, x: nat): NumVars
  {
    if v.octLoose then v.(loose := v.loose * 8 + x) else v
  }

  /** `if (match('+') || match('-')) is_exp_neg = current() == '-';` */
  function Sign(s: LexState, neg: bool): (r: (bool, LexState))
    requires Inv(s)
    ensures Inv(r.1) && r.1.text == s.text && s.it <= r.1.it <= s.it + 1
  {
    var (plus, s1) := MatchOf(s, '+');
    if plus then (false, s1)
    else
      var (minus, s2) := MatchOf(s, '-');
      if minus then (true, s2) else (neg, s)
  }

  /** The hex digits that are letters, except `e` and `b`, which have cases of their own. */
  predicate IsHexLetter(c: char)
  {
    c == 'a' || c == 'c' || c == 'd' || c == 'f' || c == 'A' || c == 'C' || c == 'D' || c == 'F'
  }

  /** The letters of a literal other than the exponent markers: hex digits and base prefixes. */
  predicate IsLetter(c: char)
  {
    IsHexLetter(c) || c == 'b' || c == 'B' || c == 'o' || c == 'O' || c == 'x' || c == 'X'
  }

  predicate IsExponent(c: char) { c == 'e' || c == 'E' || c == 'p' || c == 'P' }

  /** One pass of the `for(;;)` of `number()`: go on, leave the loop, or `return emit(ERROR)`. */
  datatype NumScan = More(s: LexState, v: NumVars) | Done(s: LexState, v: NumVars) | Reject(s: LexState)

  /** What every pass of the loop keeps: the text, the line, and progress on `More`. */
  ghost predicate Scanned(s: LexState, r: NumScan)
  {
    Inv(r.s) && r.s.text == s.text && r.s.it >= s.it && r.s.line == s.line &&
    (r.More? ==> r.s.it > s.it) && (r.Done? ==> r.s == s)
  }

  /** One pass of the `for(;;)` of `number()`, on the character `peek()` shows. */
  function NumStep(s: LexState, v: NumVars): (r: NumScan)
    requires Inv(s)
    ensures Scanned(s, r)
  {
    var c := PeekOf(s);
    if IsDec(c) then NumDigit(s, v, c)
    else if IsLetter(c) then NumLetter(s, v, c)
    else if c == '.' then NumDot(s, v)
    else if IsExponent(c) then NumExponent(s, v, c)
    else if c == '_' || c == '\'' then
      if v.hadUnder then Reject(s) else More(NextOf(s).1, v.(hadUnder := true))
    else Done(s, v)
  }

  /** A decimal digit: `2`-`7` are refused in binary, `8` and `9` in binary and octal. */
  function NumDigit(s: LexState, v: NumVars, c: char): (r: NumScan)
    requires Inv(s) && c == PeekOf(s) && IsDec(c)
    ensures Scanned(s, r)
  {
    var d := Digit(c);
    var s1 := NextOf(s).1;
    if c == '0' then
      More(s1, InsertOctal(Insert(v.(hadValue := true), s.hadFloat, 0), 0))
    else if c == '1' then
      More(s1, InsertOctal(Insert(v.(hadValue := true, hadUnder := false), s.hadFloat, 1), 1))
    else if c <= '7' then
      if v.isBinary then Reject(s)
      else More(s1, InsertOctal(Insert(v.(hadValue := true, hadUnder := false), s.hadFloat, d), d))
    else
      if v.isBinary || v.isOctal then Reject(s)
      else More(s1, Insert(v.(hadValue := true, hadUnder := false, octLoose := false), s.hadFloat, d))
  }

  /** A hex letter other than `e`, or a `b`, `o` or `x` base prefix. */
  function NumLetter(s: LexState, v: NumVars, c: char): (r: NumScan)
    requires Inv(s) && c == PeekOf(s) && IsLetter(c)
    ensures Scanned(s, r)
  {
    if IsHexLetter(c) || ((c == 'b' || c == 'B') && v.isHex) then NumHexLetter(s, v, c)
    else NumPrefix(s, v, c)
  }

  /** A hex digit written as a letter: refused outside hex and in a hex exponent. */
  function NumHexLetter(s: LexState, v: NumVars, c: char): (r: NumScan)
    requires Inv(s) && c == PeekOf(s) && (IsHexLetter(c) || ((c == 'b' || c == 'B') && v.isHex))
    ensures Scanned(s, r)
  {
    var s1 := NextOf(s).1;
    if c == 'b' || c == 'B' then More(s1, InsertHex(v.(hadValue := true, hadUnder := false), s.hadFloat, 11))
    else if !v.isHex || v.hadExp then Reject(s)
    else
      var x := if 'a' <= c <= 'f' then c as int - 'a' as int + 10 else c as int - 'A' as int + 10;
      More(s1, InsertHex(v.(hadValue := true, hadUnder := false), s.hadFloat, x))
  }

  /**
   * A base prefix `b`, `o` or `x`, allowed only right after a leading `0`. Binary and
   * octal set `had_float` and `had_exp`, so that `insert` accumulates their digits as
   * an integer; `x` must be followed by a hex digit or a `.`.
   */
  function NumPrefix(s: LexState, v: NumVars, c: char): (r: NumScan)
    requires Inv(s) && c == PeekOf(s) && c in {'b', 'B', 'o', 'O', 'x', 'X'}
    ensures Scanned(s, r)
  {
    var s1 := NextOf(s).1;
    if !v.setType then Reject(s)
    else if c == 'b' || c == 'B' then
      More(NextOf(s.(hadFloat := true)).1, v.(setType := false, octLoose := false, isBinary := true, base := 2, hadExp := true))
    else if c == 'o' || c == 'O' then
      More(NextOf(s.(hadFloat := true)).1, v.(setType := false, octLoose := false, isOctal := true, base := 8, hadExp := true))
    else if !IsHex(PeekOf(s1)) && PeekOf(s1) != '.' then Reject(s1)
    else More(s1, v.(setType := false, octLoose := false, isHex := true, base := 16))
  }

  /** A `.`: the start of a range ends the literal; otherwise a fraction point. */
  function NumDot(s: LexState, v: NumVars): (r: NumScan)
    requires Inv(s) && PeekOf(s) == '.'
    ensures Scanned(s, r)
  {
    var s1 := NextOf(s).1;
    if Peek2Of(s) == '.' then Done(s, v)
    else if v.isBinary || s.hadFloat then Reject(s)
    else if !v.hadValue && !IsHex(PeekOf(s1)) then Reject(s1)
    else More(s1.(hadFloat := true), v.(octLoose := false))
  }

  /** An `e` (a hex digit in hex, an exponent otherwise) or a `p` (a hex exponent). */
  function NumExponent(s: LexState, v: NumVars, c: char): (r: NumScan)
    requires Inv(s) && c == PeekOf(s) && IsExponent(c)
    ensures Scanned(s, r)
  {
    var s1 := NextOf(s).1;
    if c == 'e' || c == 'E' then
      if v.isHex then More(s1, InsertHex(v.(hadValue := true), s.hadFloat, 14))
      else if v.hadExp then Reject(s)
      else
        var (neg, s2) := Sign(s1, v.expNeg);
        if !IsDec(PeekOf(s2)) then Reject(s2)
        else More(s2, v.(expNeg := neg, hadExp := true, octLoose := false))
    else
      if !v.isHex || v.hadExp then Reject(s)
      else
        var (neg, s2) := Sign(s1, v.expNeg);
        if !IsDec(PeekOf(s2)) then Reject(s2)
        else More(s2, v.(expNeg := neg, hadExp := true))
  }

  /** The literal's kind once the loop has ended: HEX, BINARY, OCTAL (prefixed or loose) or DEC. */
  function NumKind(v: NumVars): Type
  {
    if v.isHex then HEX else if v.isBinary then BINARY else if v.isOctal || v.octLoose then OCTAL else DEC
  }

  /** The checks after the loop, and the emit of the literal. */
  function NumFinish(s: LexState, v: NumVars): (r: (Lexed, LexState))
    requires Inv(s)
    ensures Inv(r.1) && r.1.text == s.text && r.1.it == s.it && r.1.line == s.line
    ensures r.0.Tok?
    ensures r.0.token.kind == ERROR <==> v.hadUnder || (v.isHex && s.hadFloat && !v.hadExp)
    ensures r.0.token.kind != ERROR ==> r.0.token.kind == NumKind(v) && r.1 == s
  {
    if v.hadUnder then Bare(s, ERROR)
    else if v.isHex && s.hadFloat && !v.hadExp then Bare(s, ERROR)
    else
      var n := Num(v.value, if v.isHex then 2 else 10, v.exponent, v.expNeg);
      if v.isHex then EmitValueOf(s, HEX, n)
      else if v.isBinary then EmitValueOf(s, BINARY, n)
      else if v.isOctal then EmitValueOf(s, OCTAL, n)
      else if v.octLoose then EmitValueOf(s, OCTAL, Num(v.loose as real, 10, 0, false))
      else EmitValueOf(s, DEC, n)
  }

  /** The `for(;;)` of `number()` from the given locals on. */
  function NumLoop(s: LexState, v: NumVars): (r: (Lexed, LexState))
    requires Inv(s)
    ensures Inv(r.1) && r.1.text == s.text && r.1.line == s.line && r.0.Tok?
    decreases |s.text| - s.it
  {
    match NumStep(s, v)
    case More(s', v') => NumLoop(s', v')
    case Done(s', v') => NumFinish(s', v')
    case Reject(s') => Bare(s', ERROR)
  }

  /** The locals as the switch on the first character leaves them, or nothing for ERROR. */
  function NumInit(s: LexState, first: char): Option<(LexState, NumVars)>
  {
    if first == '.' then Some((s.(hadFloat := true), NUM_START))
    else if first == '0' then Some((s, NUM_START.(setType := true, octLoose := true, hadUnder := IsDec(PeekOf(s)))))
    else if '1' <= first <= '9' then Some((s, NUM_START.(hadValue := true, value := Digit(first) as real)))
    else None
  }

  /** `number(first_char)`. */
  function NumberOf(s: LexState, first: char): (r: (Lexed, LexState))
    requires Inv(s)
    ensures Inv(r.1) && r.1.text == s.text && r.1.line == s.line && r.0.Tok?
  {
    match NumInit(s, first)
    case None => Bare(s, ERROR)
    case Some((s', v)) => NumLoop(s', v)
  }

  // ---------------------------------------------------------------------------------
  // advance()

  /** The `//` loop: consume up to, not including, the next newline or the end. */
  function SkipLine(s: LexState): (r: LexState)
    requires Inv(s) && !s.end
    ensures Inv(r) && !r.end && r.text == s.text && r.line == s.line && r.it >= s.it
    ensures PeekOf(r) == '\n' || PeekOf(r) == '\0'
    ensures forall k :: s.it < k <= r.it ==> s.text[k] != '\n'
    ensures r == s.(it := r.it, character := r.character)
    decreases |s.text| - s.it
  {
    if PeekOf(s) != '\0' && PeekOf(s) != '\n' then SkipLine(NextOf(s).1) else s
  }

  /** The block-comment loop: consume through the first `*` or `/`, or up to the end. */
  function SkipBlock(s: LexState): (r: LexState)
    requires Inv(s) && !s.end
    ensures Inv(r) && !r.end && r.text == s.text && r.it >= s.it
    ensures PeekOf(r) == '\0' || (r.it > s.it && (CurrentOf(r) == '*' || CurrentOf(r) == '/'))
    ensures forall k :: s.it < k < r.it ==> s.text[k] != '*' && s.text[k] != '/'
    decreases |s.text| - s.it
  {
    if PeekOf(s) == '\0' then s
    else if PeekOf(s) == '*' || PeekOf(s) == '/' then NextOf(s).1
    else SkipBlock(NextOf(s).1)
  }

  /**
   * The loop of a quoted string opened at `absStart`: a backslash makes the next
   * character part of the string, a newline aborts a `"` or `'` string, and the end of
   * the text leaves the loop spinning (`next()` no longer moves).
   */
  function Quoted(s: LexState, q: char, multiline: bool): (r: (Lexed, LexState))
    requires Inv(s) && q != '\0' && q != '\n' && 0 <= s.absStart <= s.it < |s.text|
    ensures Inv(r.1) && r.1.text == s.text
    decreases |s.text| - s.it
  {
    var p := PeekOf(s);
    if p == q then EmitString(NextOf(s).1)
    else if !multiline && p == '\n' then (Fatal("Unterminated string"), s)
    else if p == '\0' then (Hang, s)
    else
      var s1 := if p == '\\' then NextOf(s).1 else s;
      var s2 := NextOf(s1).1;
      if s2.end then (Hang, s2) else Quoted(s2, q, multiline)
  }

  /** The identifier loop, then the copy into `buffer[0xFF]` and the keyword check. */
  function Identifier(s: LexState): (r: (Lexed, LexState))
    requires Inv(s) && 0 <= s.absStart <= s.it < |s.text|
    ensures Inv(r.1) && r.1.text == s.text
    decreases |s.text| - s.it
  {
    var p := PeekOf(s);
    if IsAlpha(p) || IsDec(p) then Identifier(NextOf(s).1) else Word(s)
  }

  /** After the identifier loop: the copy into `buffer[0xFF]`, then `emit(keyword(buffer))`. */
  function Word(s: LexState): (r: (Lexed, LexState))
    requires Inv(s) && 0 <= s.absStart <= s.it < |s.text|
    ensures Inv(r.1) && r.1.text == s.text
  {
    if s.it + 1 - s.absStart >= NAME_BUFFER then (Undefined, s)
    else WordAs(s, WordKind(s))
  }

  /** `keyword` of the text from the token's start through `iterator`. */
  function WordKind(s: LexState): (t: Type)
    requires 0 <= s.absStart <= s.it < |s.text|
    ensures t == NAME || IsKeyword(t)
  {
    Keyword(s.text[s.absStart..s.it + 1])
  }

  /** `emit(keyword(buffer))`: a NAME token holding the word, or the bare keyword kind. */
  function WordAs(s: LexState, kind: Type): (r: (Lexed, LexState))
    requires Inv(s) && 0 <= s.absStart <= s.it < |s.text| && (kind == NAME || IsKeyword(kind))
    ensures Inv(r.1) && r.1.text == s.text
  {
    if kind == NAME then EmitName(s) else Bare(s, kind)
  }

  /** `c` then optionally `=`: the longer kind when the `=` follows. */
  function OrAssign(s: LexState, long: Type, short: Type): (r: (Lexed, LexState))
    requires Inv(s) && Plain(long) && Plain(short)
    ensures Inv(r.1) && r.1.text == s.text
  {
    var (m, s1) := MatchOf(s, '=');
    if m then Bare(s1, long) else Bare(s, short)
  }

  /** `cc=`, `cc`, `c=` or `c`, tried in that order. */
  function Doubled(s: LexState, c: char, doubleEq: Type, double: Type, eq: Type, single: Type): (r: (Lexed, LexState))
    requires Inv(s) && Plain(doubleEq)
    requires Plain(double) && Plain(eq) && Plain(single)
    ensures Inv(r.1) && r.1.text == s.text
  {
    var (m, s1) := MatchOf(s, c);
    var (e, s2) := MatchOf(s1, '=');
    if m then
      if e then Bare(s2, doubleEq) else Bare(s2, double)
    else
      if e then Bare(s2, eq) else Bare(s2, single)
  }

  /** The characters `advance` skips: blanks, newlines and the line-continuation backslash. */
  predicate IsBlank(c: char) { c == '\\' || c == '\n' || c == ' ' || c == '\t' || c == '\r' }

  /** The characters that are a token by themselves whatever follows. */
  function SingleKind(c: char): (r: Option<Type>)
    ensures r.Some? ==> Plain(r.value)
  {
    if c == '@' then Some(AT) else if c == ',' then Some(COMMA) else if c == '~' then Some(B_NOT)
    else if c == ';' then Some(SEMICOLON) else if c == ':' then Some(COLON)
    else if c == '\0' then Some(END) else if c == '(' then Some(L_PAREN)
    else if c == ')' then Some(R_PAREN) else if c == '[' then Some(L_BRACKET)
    else if c == ']' then Some(R_BRACKET) else if c == '{' then Some(L_CURLY)
    else if c == '}' then Some(R_CURLY) else if c == '?' then Some(QUERY)
    else None
  }

  /** The characters that start an operator of one to three characters. */
  predicate IsOperatorStart(c: char) { c in "#$+-*!|&^><%" }

  /** The operators: the longest spelling the branches of `advance` accept. */
  function Operator(s: LexState, c: char): (r: (Lexed, LexState))
    requires Inv(s) && IsOperatorStart(c)
    ensures Inv(r.1) && r.1.text == s.text
  {
    if c == '#' then OrAssign(s, CST_EQ, HASH)
    else if c == '$' then OrAssign(s, SET_EQ, DOLLAR)
    else if c == '+' then AssignOrDouble(s, '+', ADD_EQ, INCR, ADD)
    else if c == '-' then AssignOrDouble(s, '-', SUB_EQ, DECR, SUB)
    else if c == '*' then AssignOrDouble(s, '*', MUL_EQ, POW, MUL)
    else if c == '!' then OrAssign(s, CMP_NEQ, L_NOT)
    else if c == '|' then Doubled(s, '|', L_OR_EQ, L_OR, B_OR_EQ, B_OR)
    else if c == '&' then Doubled(s, '&', L_AND_EQ, L_AND, B_AND_EQ, B_AND)
    else if c == '^' then OrAssign(s, B_XOR_EQ, CARET)
    else if c == '>' then Doubled(s, '>', R_SHIFT_EQ, R_SHIFT, CMP_GEQ, CMP_GT)
    else if c == '<' then Doubled(s, '<', L_SHIFT_EQ, L_SHIFT, CMP_LEQ, CMP_LT)
    else OrAssign(s, REM_EQ, REM)
  }

  /** After a `.`: a number, `..=`, `..`, the `...` error, or DOT. */
  function Dots(s: LexState): (r: (Lexed, LexState))
    requires Inv(s)
    ensures Inv(r.1) && r.1.text == s.text
  {
    if IsDec(PeekOf(s)) then NumberOf(s, '.')
    else
      var (dot, s2) := MatchOf(s, '.');
      if !dot then Bare(s, DOT)
      else
        var (eq, s3) := MatchOf(s2, '=');
        if eq then Bare(s3, RANGE_R_IN)
        else if PeekOf(s2) == '.' && (Peek2Of(s2) == '.' || !s2.hadFloat) then Bare(NextOf(NextOf(s2).1).1, ERROR)
        else Bare(s2, RANGE_EXCL)
  }

  /** After a `=`: `==`, `=..=`, `=..`, or `=`. */
  function Equals(s: LexState): (r: (Lexed, LexState))
    requires Inv(s)
    ensures Inv(r.1) && r.1.text == s.text
  {
    var (eq, s2) := MatchOf(s, '=');
    if eq then Bare(s2, CMP_EQ)
    else if PeekOf(s) == '.' && Peek2Of(s) == '.' then OrAssign(NextOf(NextOf(s).1).1, RANGE_INCL, RANGE_L_IN)
    else Bare(s, EQ)
  }

  /** What one pass of the `for(;;)` of `advance()` comes to: a token, or another pass. */
  datatype Outcome = Emitted(r: Lexed) | Skipped

  function Emitted1(p: (Lexed, LexState)): (Outcome, LexState)
  {
    (Emitted(p.0), p.1)
  }

  /** The `for(;;)` of `advance()`: one character per pass, skipping blanks and comments. */
  function AdvLoop(s0: LexState): (r: (Lexed, LexState))
    requires Inv(s0) && !s0.end
    ensures Inv(r.1) && r.1.text == s0.text
    decreases |s0.text| - s0.it
  {
    var (o, s2) := Take(s0);
    match o
    case Emitted(r) => (r, s2)
    case Skipped => AdvLoop(s2)
  }

  /** One pass: take a character, mark the token's start there, and dispatch on it. */
  function Take(s0: LexState): (r: (Outcome, LexState))
    requires Inv(s0) && !s0.end
    ensures Inv(r.1) && r.1.text == s0.text
    ensures r.0.Skipped? ==> !r.1.end && r.1.it > s0.it
  {
    Dispatch(Mark(NextOf(s0).1), NextOf(s0).0)
  }

  /** The token starts at the character just taken. */
  function Mark(s: LexState): LexState
  {
    s.(start := s.character - 1, absStart := s.it)
  }

  /** The switch of `advance()` on the character just taken, which starts the token. */
  function Dispatch(s: LexState, c: char): (r: (Outcome, LexState))
    requires Inv(s) && c == CurrentOf(s) && 0 <= s.absStart == s.it
    ensures Inv(r.1) && r.1.text == s.text
    ensures r.0.Skipped? ==> !r.1.end && r.1.it >= s.it
  {
    if SingleKind(c).Some? then Emitted1(Bare(s, SingleKind(c).value))
    else if c == '.' then Emitted1(Dots(s))
    else if IsBlank(c) then (Skipped, s)
    else if IsOperatorStart(c) then Emitted1(Operator(s, c))
    else if c == '/' then Slash(s)
    else Dispatch2(s, c)
  }

  /** A `/`: a line comment, a block comment, or DIV. */
  function Slash(s: LexState): (r: (Outcome, LexState))
    requires Inv(s) && !s.end
    ensures Inv(r.1) && r.1.text == s.text
    ensures r.0.Skipped? ==> !r.1.end && r.1.it >= s.it
  {
    var (line, s2) := MatchOf(s, '/');
    if line then (Skipped, SkipLine(s2))
    else
      var (block, s3) := MatchOf(s, '*');
      if block then (Skipped, SkipBlock(s3)) else Emitted1(Bare(s, DIV))
  }

  /** The rest of the switch: `=`, quotes, numbers, names, and anything else. */
  function Dispatch2(s: LexState, c: char): (r: (Outcome, LexState))
    requires Inv(s) && c == CurrentOf(s) && 0 <= s.absStart == s.it && c != '\0'
    ensures Inv(r.1) && r.1.text == s.text && r.0.Emitted?
  {
    if c == '=' then Emitted1(Equals(s))
    else if c == '"' || c == '\'' then Emitted1(Quoted(s, c, false))
    else if c == '`' then Emitted1(Quoted(s, '`', true))
    else if IsDec(c) then Emitted1(NumberOf(s, c))
    else if IsAlpha(c) then Emitted1(Identifier(s))
    else (Emitted(Fatal("Unexpected token")), s)
  }

  /** `c=`, `cc` or `c`, tried in that order. */
  function AssignOrDouble(s: LexState, c: char, eq: Type, double: Type, single: Type): (r: (Lexed, LexState))
    requires Inv(s) && Plain(eq)
    requires Plain(double) && Plain(single)
    ensures Inv(r.1) && r.1.text == s.text
  {
    var (m, s2) := MatchOf(s, '=');
    if m then Bare(s2, eq) else OrDouble(s, c, double, single)
  }

  /** `cc` or `c`, once `c=` has been ruled out. */
  function OrDouble(s: LexState, c: char, double: Type, single: Type): (r: (Lexed, LexState))
    requires Inv(s) && Plain(double) && Plain(single)
    ensures Inv(r.1) && r.1.text == s.text
  {
    var (m, s1) := MatchOf(s, c);
    if m then Bare(s1, double) else Bare(s, single)
  }

  /** `advance()`: END once the text is exhausted, otherwise the scanning loop. */
  function AdvanceOf(s: LexState): (r: (Lexed, LexState))
    requires Inv(s)
    ensures Inv(r.1) && r.1.text == s.text
  {
    if s.end then Bare(s, END) else AdvLoop(s)
  }

  // ---------------------------------------------------------------------------------
  // The Lexer class

  /** One pass of the `number()` loop as the class runs it: go on, `done`, or `emit(ERROR)`. */
  datatype Pass = Go(v: NumVars) | Stop(v: NumVars) | Bad

  function Lift(p: Pass, s: LexState): NumScan
  {
    match p
    case Go(v) => More(s, v)
    case Stop(v) => Done(s, v)
    case Bad => Reject(s)
  }

  /** `read_chunk` of a name into `char buffer[0xFF]`: the C string the buffer then holds. */
  method ReadName(input: Input.StringInput, start: nat, len: nat, ghost s: LexState) returns (name: seq<char>)
    requires input.Valid() && s.text == input.text
    requires 0 <= s.absStart <= s.it < |s.text| && start == s.absStart && len == s.it + 1 - start
    requires len < NAME_BUFFER
    ensures name == s.text[s.absStart..s.it + 1]
  {
    var buffer := new char[NAME_BUFFER];
    input.ReadChunk(buffer, start, len);
    buffer[len] := '\0';
    CStrOfPrefix(buffer[..], len);
    name := CStr(buffer[..]);
  }

  /** `keyword(buffer)` once the name has been read into the buffer. */
  method ReadKeyword(input: Input.StringInput, start: nat, len: nat, ghost s: LexState) returns (kind: Type)
    requires input.Valid() && s.text == input.text
    requires 0 <= s.absStart <= s.it < |s.text| && start == s.absStart && len == s.it + 1 - start
    requires len < NAME_BUFFER
    ensures kind == WordKind(s)
  {
    var name := ReadName(input, start, len, s);
    kind := Keyword(name);
  }

  /**
   * `class Lexer` over a string input. The file-level `constant_index` and the arena of
   * include/halloc.h are statics in the source; here the lexer holds them.
   */
  class Lexer {
    var end: bool
    var hadFloat: bool
    var currentChar: char
    var nextChar: char
    var iter: int
    var character: int
    var line: int
    var start: int
    var absStart: int
    var constantIndex: byte
    const input: Input.StringInput
    const arena: Halloc.Arena
    /** The fields as a scanner state, for the specifications. */
    ghost var st: LexState

    /**
     * The input has handed out one character more than the lexer consumed, and the two
     * characters the lexer holds are the ones at `iter` and after it.
     */
    ghost predicate Valid()
      reads this, input, input.source, arena
    {
      input.Valid() && arena.Valid() &&
      -1 <= iter <= |input.text| && (end <==> iter == |input.text|) &&
      input.index == Min(iter + 2, |input.text|) &&
      currentChar == At(input.text, iter) && nextChar == At(input.text, iter + 1) &&
      st == Fields() && Inv(st)
    }

    ghost function Fields(): LexState
      reads this, arena
    {
      LexState(input.text, end, hadFloat, iter, character, line, start, absStart,
               constantIndex, arena.allocations)
    }

    /** `reset`: take the input and load the first character into `next_char`. */
    constructor (input: Input.StringInput, arena: Halloc.Arena, constantIndex: byte)
      requires input.Valid() && input.index == 0 && arena.Valid()
      modifies input
      ensures Valid() && this.input == input && this.arena == arena
      ensures st == Start(input.text, constantIndex, arena.allocations)
    {
      this.input := input;
      this.arena := arena;
      end := false;
      hadFloat := false;
      currentChar := '\0';
      iter := -1;
      character := 1;
      line := 1;
      start := 0;
      absStart := 0;
      this.constantIndex := constantIndex;
      new;
      nextChar := input.Next();
      st := Fields();
    }

    /** `next()`. */
    method Next() returns (c: char)
      requires Valid()
      modifies this, input
      ensures Valid() && (c, st) == NextOf(old(st))
    {
      if end {
        return '\0';
      }
      currentChar := nextChar;
      nextChar := input.Next();
      character := character + 1;
      iter := iter + 1;
      if currentChar == '\0' {
        end := true;
      } else if currentChar == '\n' {
        line := line + 1;
        character := 1;
      }
      st := Fields();
      return currentChar;
    }

    /** `current()`. */
    function Current(): (c: char)
      reads this, input, input.source, arena
      requires Valid()
      ensures c == CurrentOf(st)
    {
      currentChar
    }

    /** `peek()`. */
    function Peek(): (c: char)
      reads this, input, input.source, arena
      requires Valid()
      ensures c == PeekOf(st)
    {
      nextChar
    }

    /** `peek2()`: the input's own `peek`. */
    function Peek2(): (c: char)
      reads this, input, input.source, arena
      requires Valid()
      ensures c == Peek2Of(st)
    {
      input.Peek()
    }

    /** `match(c)`. */
    method Match(c: char) returns (m: bool)
      requires Valid()
      modifies this, input
      ensures Valid() && (m, st) == MatchOf(old(st), c)
    {
      if Peek() == c {
        var _ := Next();
        return true;
      }
      return false;
    }

    /** `emit(type)`: the arena block of a string or name is a fresh array here. */
    method Emit(kind: Type) returns (r: Lexed)
      requires Valid() && Emittable(st, kind)
      modifies this, arena
      ensures Valid() && (r, st) == EmitOf(old(st), kind)
    {
      if kind == STR {
        r := StoreString();
      } else if kind == NAME {
        r := StoreName();
      } else {
        r := EmitBare(kind);
      }
    }

    /** The STR branch of `emit(type)`. */
    method StoreString() returns (r: Lexed)
      requires Valid() && 0 <= absStart && absStart + 1 <= iter < input.length
      modifies this, arena
      ensures Valid() && (r, st) == EmitString(old(st))
    {
      var pos := Position(line, start, character, absStart, iter + 1);
      var len := pos.absEnd - pos.absStart;
      var block := arena.Halloc(len - 1);
      if block.TooMany? {
        st := Fields();
        return Fatal("Too many allocations");
      }
      var index := constantIndex;
      constantIndex := ((constantIndex as int + 1) % 256) as byte;
      st := Fields();
      var dest := new char[len - 1];
      input.ReadChunk(dest, pos.absStart + 1, len - 2);
      return Tok(Token(STR, pos, Text(block.offset, dest[..len - 2]), index));
    }

    /** The NAME branch of `emit(type)`. */
    method StoreName() returns (r: Lexed)
      requires Valid() && 0 <= absStart <= iter < input.length
      modifies this, arena
      ensures Valid() && (r, st) == EmitName(old(st))
    {
      var pos := Position(line, start, character, absStart, iter + 1);
      var len := pos.absEnd - pos.absStart;
      var block := arena.Halloc(len + 1);
      if block.TooMany? {
        st := Fields();
        return Fatal("Too many allocations");
      }
      st := Fields();
      var dest := new char[len + 1];
      input.ReadChunk(dest, pos.absStart, len);
      return Tok(Token(NAME, pos, Text(block.offset, dest[..len]), 0));
    }

    /** The default branch of `emit(type)`. */
    method EmitBare(kind: Type) returns (r: Lexed)
      requires Valid() && Plain(kind)
      modifies this
      ensures Valid() && (r, st) == Bare(old(st), kind)
    {
      hadFloat := false;
      st := Fields();
      return Tok(Token(kind, Position(line, start, character, absStart, iter + 1), NoValue, 0));
    }

    /** `emit(type, value)`. */
    function EmitValue(kind: Type, n: Num): (r: Lexed)
      reads this, input, input.source, arena
      requires Valid()
      ensures (r, st) == EmitValueOf(st, kind, n)
    {
      Tok(Token(kind, Position(line, start, character, absStart, iter + 1), Numeric(n), 0))
    }

    /** `if (match('+') || match('-')) is_exp_neg = current() == '-';` */
    method ExponentSign(neg: bool) returns (r: bool)
      requires Valid()
      modifies this, input
      ensures Valid() && (r, st) == Sign(old(st), neg)
    {
      var m := Match('+');
      if !m {
        m := Match('-');
      }
      r := if m then Current() == '-' else neg;
    }

    /** One pass of the `for(;;)` of `number()`. */
    method NumberPass(v: NumVars) returns (p: Pass)
      requires Valid()
      modifies this, input
      ensures Valid() && Lift(p, st) == NumStep(old(st), v)
    {
      var c := Peek();
      if IsDec(c) {
        p := NumberDigit(v, c);
      } else if IsLetter(c) {
        p := NumberLetter(v, c);
      } else if c == '.' {
        p := NumberDot(v);
      } else if IsExponent(c) {
        p := NumberExponent(v, c);
      } else if c == '_' || c == '\'' {
        if v.hadUnder {
          return Bad;
        }
        var _ := Next();
        p := Go(v.(hadUnder := true));
      } else {
        p := Stop(v);
      }
    }

    /** A decimal digit inside a literal. */
    method NumberDigit(v: NumVars, c: char) returns (p: Pass)
      requires Valid() && c == Peek() && IsDec(c)
      modifies this, input
      ensures Valid() && Lift(p, st) == NumDigit(old(st), v, c)
    {
      var d := Digit(c);
      if c == '0' {
        p := Go(InsertOctal(Insert(v.(hadValue := true), hadFloat, 0), 0));
      } else if c == '1' {
        p := Go(InsertOctal(Insert(v.(hadValue := true, hadUnder := false), hadFloat, 1), 1));
      } else if c <= '7' {
        if v.isBinary {
          return Bad;
        }
        p := Go(InsertOctal(Insert(v.(hadValue := true, hadUnder := false), hadFloat, d), d));
      } else {
        if v.isBinary || v.isOctal {
          return Bad;
        }
        p := Go(Insert(v.(hadValue := true, hadUnder := false, octLoose := false), hadFloat, d));
      }
      var _ := Next();
    }

    /** A hex letter or a base prefix inside a literal. */
    method NumberLetter(v: NumVars, c: char) returns (p: Pass)
      requires Valid() && c == Peek() && IsLetter(c)
      modifies this, input
      ensures Valid() && Lift(p, st) == NumLetter(old(st), v, c)
    {
      if IsHexLetter(c) || ((c == 'b' || c == 'B') && v.isHex) {
        p := NumberHexLetter(v, c);
      } else {
        p := NumberPrefix(v, c);
      }
    }

    /** A hex digit written as a letter. */
    method NumberHexLetter(v: NumVars, c: char) returns (p: Pass)
      requires Valid() && c == Peek() && (IsHexLetter(c) || ((c == 'b' || c == 'B') && v.isHex))
      modifies this, input
      ensures Valid() && Lift(p, st) == NumHexLetter(old(st), v, c)
    {
      var x: int;
      if c == 'b' || c == 'B' {
        x := 11;
      } else {
        if !v.isHex || v.hadExp {
          return Bad;
        }
        x := if 'a' <= c <= 'f' then c as int - 'a' as int + 10 else c as int - 'A' as int + 10;
      }
      p := Go(InsertHex(v.(hadValue := true, hadUnder := false), hadFloat, x));
      var _ := Next();
    }

    /** A base prefix after a leading `0`. */
    method NumberPrefix(v: NumVars, c: char) returns (p: Pass)
      requires Valid() && c == Peek() && c in {'b', 'B', 'o', 'O', 'x', 'X'}
      modifies this, input
      ensures Valid() && Lift(p, st) == NumPrefix(old(st), v, c)
    {
      if !v.setType {
        return Bad;
      }
      if c == 'b' || c == 'B' {
        hadFloat := true;
        st := Fields();
        var _ := Next();
        p := Go(v.(setType := false, octLoose := false, isBinary := true, base := 2, hadExp := true));
      } else if c == 'o' || c == 'O' {
        hadFloat := true;
        st := Fields();
        var _ := Next();
        p := Go(v.(setType := false, octLoose := false, isOctal := true, base := 8, hadExp := true));
      } else {
        var _ := Next();
        if !IsHex(Peek()) && Peek() != '.' {
          return Bad;
        }
        p := Go(v.(setType := false, octLoose := false, isHex := true, base := 16));
      }
    }

    /** A `.` inside a literal. */
    method NumberDot(v: NumVars) returns (p: Pass)
      requires Valid() && Peek() == '.'
      modifies this, input
      ensures Valid() && Lift(p, st) == NumDot(old(st), v)
    {
      if Peek2() == '.' {
        return Stop(v);
      }
      if v.isBinary || hadFloat {
        return Bad;
      }
      var _ := Next();
      if !v.hadValue && !IsHex(Peek()) {
        return Bad;
      }
      hadFloat := true;
      st := Fields();
      p := Go(v.(octLoose := false));
    }

    /** An `e` or `p` inside a literal. */
    method NumberExponent(v: NumVars, c: char) returns (p: Pass)
      requires Valid() && c == Peek() && IsExponent(c)
      modifies this, input
      ensures Valid() && Lift(p, st) == NumExponent(old(st), v, c)
    {
      if c == 'e' || c == 'E' {
        if v.isHex {
          p := Go(InsertHex(v.(hadValue := true), hadFloat, 14));
          var _ := Next();
          return;
        }
        if v.hadExp {
          return Bad;
        }
      } else if !v.isHex || v.hadExp {
        return Bad;
      }
      var _ := Next();
      var neg := ExponentSign(v.expNeg);
      if !IsDec(Peek()) {
        return Bad;
      }
      if c == 'e' || c == 'E' {
        p := Go(v.(expNeg := neg, hadExp := true, octLoose := false));
      } else {
        p := Go(v.(expNeg := neg, hadExp := true));
      }
    }

    /** The checks after the loop of `number()` and the emit of the literal. */
    method NumberFinish(v: NumVars) returns (r: Lexed)
      requires Valid()
      modifies this, arena
      ensures Valid() && (r, st) == NumFinish(old(st), v)
    {
      if v.hadUnder {
        r := EmitBare(ERROR);
        return;
      }
      if v.isHex && hadFloat && !v.hadExp {
        r := EmitBare(ERROR);
        return;
      }
      var n := Num(v.value, if v.isHex then 2 else 10, v.exponent, v.expNeg);
      if v.isHex {
        r := EmitValue(HEX, n);
      } else if v.isBinary {
        r := EmitValue(BINARY, n);
      } else if v.isOctal {
        r := EmitValue(OCTAL, n);
      } else if v.octLoose {
        r := EmitValue(OCTAL, Num(v.loose as real, 10, 0, false));
      } else {
        r := EmitValue(DEC, n);
      }
    }

    /** `number(first_char)`. */
    method Number(first: char) returns (r: Lexed)
      requires Valid()
      modifies this, input, arena
      ensures Valid() && (r, st) == NumberOf(old(st), first)
    {
      var v := NUM_START;
      if first == '.' {
        hadFloat := true;
        st := Fields();
      } else if first == '0' {
        v := v.(setType := true, octLoose := true, hadUnder := IsDec(Peek()));
      } else if '1' <= first <= '9' {
        v := v.(hadValue := true, value := Digit(first) as real);
      } else {
        r := EmitBare(ERROR);
        return;
      }
      r := NumberLoop(v);
    }

    /** The `for(;;)` of `number()`. */
    method NumberLoop(v0: NumVars) returns (r: Lexed)
      requires Valid()
      modifies this, input, arena
      ensures Valid()
      ensures r == NumLoop(old(st), v0).0
      ensures st == NumLoop(old(st), v0).1
    {
      var v := v0;
      while true
        invariant Valid() && NumLoop(st, v) == NumLoop(old(st), v0)
        decreases input.length - iter
      {
        ghost var prev := st;
        var pass := NumberPass(v);
        match pass {
          case Go(v') =>
            assert NumStep(prev, v) == More(st, v');
            v := v';
          case Stop(v') =>
            assert NumStep(prev, v) == Done(st, v');
            r := NumberFinish(v');
            return;
          case Bad =>
            assert NumStep(prev, v) == Reject(st);
            r := EmitBare(ERROR);
            return;
        }
      }
    }

    /** The `//` loop. */
    method SkipLineComment()
      requires Valid() && !end
      modifies this, input
      ensures Valid() && st == SkipLine(old(st))
    {
      while Peek() != '\0' && Peek() != '\n'
        invariant Valid() && !end && SkipLine(st) == SkipLine(old(st))
        decreases input.length - iter
      {
        var _ := Next();
      }
    }

    /** The block-comment loop: `while (peek() != 0 && !match('*') && !match('/')) next();` */
    method SkipBlockComment()
      requires Valid() && !end
      modifies this, input
      ensures Valid() && st == SkipBlock(old(st))
    {
      while true
        invariant Valid() && !end && SkipBlock(st) == SkipBlock(old(st))
        decreases input.length - iter
      {
        if Peek() == '\0' {
          return;
        }
        var star := Match('*');
        if star {
          return;
        }
        var slash := Match('/');
        if slash {
          return;
        }
        var _ := Next();
      }
    }

    /** A quoted string; where the source would spin forever at the end of the text, `Hang`. */
    method ScanQuoted(q: char, multiline: bool) returns (r: Lexed)
      requires Valid() && q != '\0' && q != '\n' && 0 <= absStart <= iter < input.length
      modifies this, input, arena
      ensures Valid() && (r, st) == Quoted(old(st), q, multiline)
    {
      while Peek() != q
        invariant Valid() && 0 <= absStart <= iter < input.length
        invariant Quoted(st, q, multiline) == Quoted(old(st), q, multiline)
        decreases input.length - iter
      {
        if !multiline && Peek() == '\n' {
          return Fatal("Unterminated string");
        }
        if Peek() == '\0' {
          return Hang;
        }
        if Peek() == '\\' {
          var _ := Next();
        }
        var _ := Next();
        if end {
          return Hang;
        }
      }
      var _ := Next();
      r := StoreString();
    }

    /** An identifier or keyword: the scan, then `EmitWord`. */
    method ScanIdentifier() returns (r: Lexed)
      requires Valid() && 0 <= absStart <= iter < input.length
      modifies this, input, arena
      ensures Valid()
      ensures r == Identifier(old(st)).0
      ensures st == Identifier(old(st)).1
    {
      while IsAlpha(Peek()) || IsDec(Peek())
        invariant Valid() && 0 <= absStart <= iter < input.length
        invariant Identifier(st) == Identifier(old(st))
        decreases input.length - iter
      {
        var _ := Next();
      }
      r := EmitWord();
    }

    /** The copy into `buffer[0xFF]` and `emit(keyword(buffer))`. */
    method EmitWord() returns (r: Lexed)
      requires Valid() && 0 <= absStart <= iter < input.length
      modifies this, arena
      ensures Valid() && (r, st) == Word(old(st))
    {
      var len := iter + 1 - absStart;
      if len >= NAME_BUFFER {
        return Undefined;
      }
      var kind := ReadKeyword(input, absStart, len, st);
      r := EmitKeyword(kind);
    }

    /** `emit(keyword(buffer))`. */
    method EmitKeyword(kind: Type) returns (r: Lexed)
      requires Valid() && 0 <= absStart <= iter < input.length && (kind == NAME || IsKeyword(kind))
      modifies this, arena
      ensures Valid() && (r, st) == WordAs(old(st), kind)
    {
      if kind == NAME {
        r := StoreName();
      } else {
        r := EmitBare(kind);
      }
    }

    /** `c` then optionally `=`. */
    method ScanOrAssign(long: Type, short: Type) returns (r: Lexed)
      requires Valid() && Plain(long) && Plain(short)
      modifies this, input, arena
      ensures Valid()
      ensures r == OrAssign(old(st), long, short).0
      ensures st == OrAssign(old(st), long, short).1
    {
      var m := Match('=');
      if m {
        r := EmitBare(long);
      } else {
        r := EmitBare(short);
      }
    }

    /** `cc` or `c`. */
    method ScanOrDouble(c: char, double: Type, single: Type) returns (r: Lexed)
      requires Valid() && Plain(double) && Plain(single)
      modifies this, input, arena
      ensures Valid()
      ensures r == OrDouble(old(st), c, double, single).0
      ensures st == OrDouble(old(st), c, double, single).1
    {
      var m := Match(c);
      if m {
        r := EmitBare(double);
      } else {
        r := EmitBare(single);
      }
    }

    /** `c=`, `cc` or `c`. */
    method ScanAssignOrDouble(c: char, eq: Type, double: Type, single: Type) returns (r: Lexed)
      requires Valid() && Plain(eq)
      requires Plain(double) && Plain(single)
      modifies this, input, arena
      ensures Valid()
      ensures r == AssignOrDouble(old(st), c, eq, double, single).0
      ensures st == AssignOrDouble(old(st), c, eq, double, single).1
    {
      var m := Match('=');
      if m {
        r := EmitBare(eq);
      } else {
        r := ScanOrDouble(c, double, single);
      }
    }

    /** `cc=`, `cc`, `c=` or `c`. */
    method ScanDoubled(c: char, doubleEq: Type, double: Type, eq: Type, single: Type) returns (r: Lexed)
      requires Valid() && Plain(doubleEq)
      requires Plain(double) && Plain(eq) && Plain(single)
      modifies this, input, arena
      ensures Valid()
      ensures r == Doubled(old(st), c, doubleEq, double, eq, single).0
      ensures st == Doubled(old(st), c, doubleEq, double, eq, single).1
    {
      var m := Match(c);
      var e := Match('=');
      if m {
        if e {
          r := EmitBare(doubleEq);
        } else {
          r := EmitBare(double);
        }
      } else {
        if e {
          r := EmitBare(eq);
        } else {
          r := EmitBare(single);
        }
      }
    }

    /** The operator cases of the switch in `advance()`. */
    method ScanOperator(c: char) returns (r: Lexed)
      requires Valid() && IsOperatorStart(c)
      modifies this, input, arena
      ensures Valid() && (r, st) == Operator(old(st), c)
    {
      if c == '#' {
        r := ScanOrAssign(CST_EQ, HASH);
      } else if c == '$' {
        r := ScanOrAssign(SET_EQ, DOLLAR);
      } else if c == '+' {
        r := ScanAssignOrDouble('+', ADD_EQ, INCR, ADD);
      } else if c == '-' {
        r := ScanAssignOrDouble('-', SUB_EQ, DECR, SUB);
      } else if c == '*' {
        r := ScanAssignOrDouble('*', MUL_EQ, POW, MUL);
      } else if c == '!' {
        r := ScanOrAssign(CMP_NEQ, L_NOT);
      } else if c == '|' {
        r := ScanDoubled('|', L_OR_EQ, L_OR, B_OR_EQ, B_OR);
      } else if c == '&' {
        r := ScanDoubled('&', L_AND_EQ, L_AND, B_AND_EQ, B_AND);
      } else if c == '^' {
        r := ScanOrAssign(B_XOR_EQ, CARET);
      } else if c == '>' {
        r := ScanDoubled('>', R_SHIFT_EQ, R_SHIFT, CMP_GEQ, CMP_GT);
      } else if c == '<' {
        r := ScanDoubled('<', L_SHIFT_EQ, L_SHIFT, CMP_LEQ, CMP_LT);
      } else {
        r := ScanOrAssign(REM_EQ, REM);
      }
    }

    /** The `.` case of `advance()`. */
    method ScanDots() returns (r: Lexed)
      requires Valid()
      modifies this, input, arena
      ensures Valid() && (r, st) == Dots(old(st))
    {
      if IsDec(Peek()) {
        r := Number('.');
        return;
      }
      var dot := Match('.');
      if !dot {
        r := EmitBare(DOT);
        return;
      }
      var eq := Match('=');
      if eq {
        r := EmitBare(RANGE_R_IN);
      } else if Peek() == '.' && (Peek2() == '.' || !hadFloat) {
        var _ := Next();
        var _ := Next();
        r := EmitBare(ERROR);
      } else {
        r := EmitBare(RANGE_EXCL);
      }
    }

    /** The `=` case of `advance()`. */
    method ScanEquals() returns (r: Lexed)
      requires Valid()
      modifies this, input, arena
      ensures Valid() && (r, st) == Equals(old(st))
    {
      var eq := Match('=');
      if eq {
        r := EmitBare(CMP_EQ);
      } else if Peek() == '.' && Peek2() == '.' {
        var _ := Next();
        var _ := Next();
        r := ScanOrAssign(RANGE_INCL, RANGE_L_IN);
      } else {
        r := EmitBare(EQ);
      }
    }

    /** `advance()`. */
    method Advance() returns (r: Lexed)
      requires Valid()
      modifies this, input, arena
      ensures Valid()
      ensures r == AdvanceOf(old(st)).0
      ensures st == AdvanceOf(old(st)).1
    {
      if end {
        r := EmitBare(END);
        return;
      }
      while true
        invariant Valid() && !end && AdvLoop(st) == AdvanceOf(old(st))
        decreases input.length - iter
      {
        var o := TakeChar();
        if o.Emitted? {
          return o.r;
        }
      }
    }

    /** One pass of the `for(;;)` of `advance()`. */
    method TakeChar() returns (o: Outcome)
      requires Valid() && !end
      modifies this, input, arena
      ensures Valid() && (o, st) == Take(old(st))
    {
      var c := Next();
      start := character - 1;
      absStart := iter;
      st := Fields();
      assert st == Mark(NextOf(old(st)).1) && c == NextOf(old(st)).0;
      o := Scan(c);
    }

    /** The switch of `advance()` on the character just taken. */
    method Scan(c: char) returns (o: Outcome)
      requires Valid() && c == currentChar && 0 <= absStart == iter
      modifies this, input, arena
      ensures Valid() && (o, st) == Dispatch(old(st), c)
    {
      var single := SingleKind(c);
      if single.Some? {
        var r := EmitBare(single.value);
        return Emitted(r);
      } else if c == '.' {
        var r := ScanDots();
        return Emitted(r);
      } else if IsBlank(c) {
        return Skipped;
      } else if IsOperatorStart(c) {
        var r := ScanOperator(c);
        return Emitted(r);
      } else if c == '/' {
        o := ScanSlash();
      } else {
        o := Scan2(c);
      }
    }

    /** A `/`: skip a comment, or DIV. */
    method ScanSlash() returns (o: Outcome)
      requires Valid() && !end
      modifies this, input, arena
      ensures Valid() && (o, st) == Slash(old(st))
    {
      var lineComment := Match('/');
      if lineComment {
        SkipLineComment();
        return Skipped;
      }
      var blockComment := Match('*');
      if blockComment {
        SkipBlockComment();
        return Skipped;
      }
      var r := EmitBare(DIV);
      return Emitted(r);
    }

    /** The rest of the switch of `advance()`. */
    method Scan2(c: char) returns (o: Outcome)
      requires Valid() && c == currentChar && 0 <= absStart == iter && c != '\0'
      modifies this, input, arena
      ensures Valid() && (o, st) == Dispatch2(old(st), c)
    {
      var r: Lexed;
      if c == '=' {
        r := ScanEquals();
      } else if c == '"' || c == '\'' {
        r := ScanQuoted(c, false);
      } else if c == '`' {
        r := ScanQuoted('`', true);
      } else if IsDec(c) {
        r := Number(c);
      } else if IsAlpha(c) {
        r := ScanIdentifier();
      } else {
        r := Fatal("Unexpected token");
      }
      return Emitted(r);
    }
  }
}
