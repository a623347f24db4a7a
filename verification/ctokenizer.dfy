/**
 * The scanner of the older C front end, src/tokenizer.c.
 *
 * The first half is the scanner as functions: a `Cursor` (the global `iterator`, `line`
 * and `character`), the cursor primitives `next`, `peekNext` and `match`, what one pass
 * of the scanning loop reads after its first character (`Scan`), the loop itself (`Run`)
 * and the two bracket checks. The second half is the `Tokenizer` class, whose methods
 * update the same fields in place and are proved to follow those functions.
 */
module CTokenizer {
  import opened Base
  import opened CTypes
  import PtrArray

  const SYNTAX := "Syntax"
  const UNTERMINATED := "unterminated string"
  const UNEXPECTED := "unexpected token"
  const UNMATCHED := "unmatched token"

  predicate IsDec(c: char) { '0' <= c <= '9' }

  predicate IsBin(c: char) { c == '0' || c == '1' }

  predicate IsOct(c: char) { '0' <= c <= '7' }

  predicate IsHex(c: char) { ('0' <= c <= '9') || ('a' <= c <= 'f') || ('A' <= c <= 'F') }

  predicate IsAlpha(c: char) { ('a' <= c <= 'z') || ('A' <= c <= 'Z') || c == '$' || c == '_' }

  // ---------------------------------------------------------------------------------
  // Keywords

  /** The kinds `keyword` can give besides NAME. */
  predicate IsKeywordKind(t: Type)
  {
    t == AS || t == ASYNC || t == AWAIT || t == CASE || t == CLASS || t == DEFAULT || t == DO ||
    t == ELSE || t == FALSE || t == FOR || t == FROM || t == FUNC || t == FX || t == FXN ||
    t == IF || t == IMPORT || t == NEW || t == NULL || t == RETURN || t == SWITCH || t == TRUE ||
    t == WHILE
  }

  /**
   * `keyword` on a NUL-terminated text: the first character selects a group, and each
   * reserved word is compared character by character through its terminating NUL
   * (`At` gives NUL past the end of `k`).
   */
  function Keyword(k: seq<char>): Type
  {
    var c := At(k, 0);
    if c == 'a' then KeywordA(k)
    else if c == 'c' then KeywordC(k)
    else if c == 'd' then KeywordD(k)
    else if c == 'e' then KeywordE(k)
    else if c == 'f' then KeywordF(k)
    else if c == 'i' then KeywordI(k)
    else if c == 'n' then KeywordN(k)
    else if c == 'r' then KeywordR(k)
    else if c == 's' then KeywordS(k)
    else if c == 't' then KeywordT(k)
    else if c == 'w' then KeywordW(k)
    else NAME
  }

  /** `case 'a'`. */
  function KeywordA(k: seq<char>): Type
  {
    if At(k, 1) == 's' && At(k, 2) == '\0' then AS
    else if At(k, 1) == 's' && At(k, 2) == 'y' && At(k, 3) == 'n' && At(k, 4) == 'c' && At(k, 5) == '\0' then ASYNC
    else if At(k, 1) == 'w' && At(k, 2) == 'a' && At(k, 3) == 'i' && At(k, 4) == 't' && At(k, 5) == '\0' then AWAIT
    else NAME
  }

  /** `case 'c'`. */
  function KeywordC(k: seq<char>): Type
  {
    if At(k, 1) == 'a' && At(k, 2) == 's' && At(k, 3) == 'e' && At(k, 4) == '\0' then CASE
    else if At(k, 1) == 'l' && At(k, 2) == 'a' && At(k, 3) == 's' && At(k, 4) == 's' && At(k, 5) == '\0' then CLASS
    else NAME
  }

  /** `case 'd'`. */
  function KeywordD(k: seq<char>): Type
  {
    if At(k, 1) == 'e' && At(k, 2) == 'f' && At(k, 3) == 'a' && At(k, 4) == 'u' && At(k, 5) == 'l' && At(k, 6) == 't' && At(k, 7) == '\0' then DEFAULT
    else if At(k, 1) == 'o' && At(k, 2) == '\0' then DO
    else NAME
  }

  /** `case 'e'`. */
  function KeywordE(k: seq<char>): Type
  {
    if At(k, 1) == 'l' && At(k, 2) == 's' && At(k, 3) == 'e' && At(k, 4) == '\0' then ELSE else NAME
  }

  /** `case 'f'`. */
  function KeywordF(k: seq<char>): Type
  {
    if At(k, 1) == 'a' && At(k, 2) == 'l' && At(k, 3) == 's' && At(k, 4) == 'e' && At(k, 5) == '\0' then FALSE
    else if At(k, 1) == 'o' && At(k, 2) == 'r' && At(k, 3) == '\0' then FOR
    else if At(k, 1) == 'r' && At(k, 2) == 'o' && At(k, 3) == 'm' && At(k, 4) == '\0' then FROM
    else if At(k, 1) == 'u' && At(k, 2) == 'n' && At(k, 3) == 'c' && At(k, 4) == '\0' then FUNC
    else if At(k, 1) == 'x' && At(k, 2) == '\0' then FX
    else if At(k, 1) == 'x' && At(k, 2) == 'n' && At(k, 3) == '\0' then FXN
    else NAME
  }

  /** `case 'i'`. */
  function KeywordI(k: seq<char>): Type
  {
    if At(k, 1) == 'f' && At(k, 2) == '\0' then IF
    else if At(k, 1) == 'm' && At(k, 2) == 'p' && At(k, 3) == 'o' && At(k, 4) == 'r' && At(k, 5) == 't' && At(k, 6) == '\0' then IMPORT
    else NAME
  }

  /** `case 'n'`. */
  function KeywordN(k: seq<char>): Type
  {
    if At(k, 1) == 'e' && At(k, 2) == 'w' && At(k, 3) == '\0' then NEW
    else if At(k, 1) == 'u' && At(k, 2) == 'l' && At(k, 3) == 'l' && At(k, 4) == '\0' then NULL
    else NAME
  }

  /** `case 'r'`. */
  function KeywordR(k: seq<char>): Type
  {
    if At(k, 1) == 'e' && At(k, 2) == 't' && At(k, 3) == 'u' && At(k, 4) == 'r' && At(k, 5) == 'n' && At(k, 6) == '\0' then RETURN else NAME
  }

  /** `case 's'`. */
  function KeywordS(k: seq<char>): Type
  {
    if At(k, 1) == 'w' && At(k, 2) == 'i' && At(k, 3) == 't' && At(k, 4) == 'c' && At(k, 5) == 'h' && At(k, 6) == '\0' then SWITCH else NAME
  }

  /** `case 't'`. */
  function KeywordT(k: seq<char>): Type
  {
    if At(k, 1) == 'r' && At(k, 2) == 'u' && At(k, 3) == 'e' && At(k, 4) == '\0' then TRUE else NAME
  }

  /** `case 'w'`. */
  function KeywordW(k: seq<char>): Type
  {
    if At(k, 1) == 'h' && At(k, 2) == 'i' && At(k, 3) == 'l' && At(k, 4) == 'e' && At(k, 5) == '\0' then WHILE else NAME
  }

  /**
   * The spelling of each reserved word: the word list of scripts/keyword.js, which
   * generates `keyword`.
   */
  function Spelling(t: Type): (w: string)
    requires IsKeywordKind(t)
    ensures |w| >= 2
  {
    match t
    case AS => "as"
    case ASYNC => "async"
    case AWAIT => "await"
    case CASE => "case"
    case CLASS => "class"
    case DEFAULT => "default"
    case DO => "do"
    case ELSE => "else"
    case FALSE => "false"
    case FOR => "for"
    case FROM => "from"
    case FUNC => "func"
    case FX => "fx"
    case FXN => "fxn"
    case IF => "if"
    case IMPORT => "import"
    case NEW => "new"
    case RETURN => "return"
    case SWITCH => "switch"
    case TRUE => "true"
    case WHILE => "while"
    case NULL => "null"
  }

  /**
   * A NUL-free text that agrees with `w` on its first `|w|` characters and has its
   * terminator right after them is `w` itself.
   */
  lemma SpelledOut(k: seq<char>, w: string)
    requires NoNul(k) && NoNul(w)
    requires forall i :: 0 <= i < |w| ==> At(k, i) == w[i]
    requires At(k, |w|) == '\0'
    ensures k == w
  {
    if |w| > 0 {
      assert At(k, |w| - 1) == w[|w| - 1];
    }
    assert |k| == |w|;
  }

  /**
   * `keyword` gives a kind other than NAME only for that kind's own spelling. The
   * text must be NUL-free: a C string ends at its first NUL.
   */
  lemma KeywordSound(k: seq<char>)
    requires NoNul(k)
    ensures Keyword(k) != NAME ==> k == Spelling(Keyword(k))
  {
    var c := At(k, 0);
    if c == 'a' {
      KeywordSoundA(k);
    } else if c == 'c' {
      KeywordSoundC(k);
    } else if c == 'd' {
      KeywordSoundD(k);
    } else if c == 'e' {
      KeywordSoundE(k);
    } else if c == 'f' {
      KeywordSoundF(k);
    } else if c == 'i' {
      KeywordSoundI(k);
    } else if c == 'n' {
      KeywordSoundN(k);
    } else if c == 'r' {
      KeywordSoundR(k);
    } else if c == 's' {
      KeywordSoundS(k);
    } else if c == 't' {
      KeywordSoundT(k);
    } else if c == 'w' {
      KeywordSoundW(k);
    }
  }

  lemma KeywordSoundA(k: seq<char>)
    requires NoNul(k) && At(k, 0) == 'a'
    ensures KeywordA(k) != NAME ==> IsKeywordKind(KeywordA(k)) && k == Spelling(KeywordA(k))
  {
    if KeywordA(k) != NAME {
      SpelledOut(k, Spelling(KeywordA(k)));
    }
  }

  lemma KeywordSoundC(k: seq<char>)
    requires NoNul(k) && At(k, 0) == 'c'
    ensures KeywordC(k) != NAME ==> IsKeywordKind(KeywordC(k)) && k == Spelling(KeywordC(k))
  {
    if KeywordC(k) != NAME {
      SpelledOut(k, Spelling(KeywordC(k)));
    }
  }

  lemma KeywordSoundD(k: seq<char>)
    requires NoNul(k) && At(k, 0) == 'd'
    ensures KeywordD(k) != NAME ==> IsKeywordKind(KeywordD(k)) && k == Spelling(KeywordD(k))
  {
    if KeywordD(k) != NAME {
      SpelledOut(k, Spelling(KeywordD(k)));
    }
  }

  lemma KeywordSoundE(k: seq<char>)
    requires NoNul(k) && At(k, 0) == 'e'
    ensures KeywordE(k) != NAME ==> IsKeywordKind(KeywordE(k)) && k == Spelling(KeywordE(k))
  {
    if KeywordE(k) != NAME {
      SpelledOut(k, Spelling(KeywordE(k)));
    }
  }

  lemma KeywordSoundF(k: seq<char>)
    requires NoNul(k) && At(k, 0) == 'f'
    ensures KeywordF(k) != NAME ==> IsKeywordKind(KeywordF(k)) && k == Spelling(KeywordF(k))
  {
    if KeywordF(k) != NAME {
      SpelledOut(k, Spelling(KeywordF(k)));
    }
  }

  lemma KeywordSoundI(k: seq<char>)
    requires NoNul(k) && At(k, 0) == 'i'
    ensures KeywordI(k) != NAME ==> IsKeywordKind(KeywordI(k)) && k == Spelling(KeywordI(k))
  {
    if KeywordI(k) != NAME {
      SpelledOut(k, Spelling(KeywordI(k)));
    }
  }

  lemma KeywordSoundN(k: seq<char>)
    requires NoNul(k) && At(k, 0) == 'n'
    ensures KeywordN(k) != NAME ==> IsKeywordKind(KeywordN(k)) && k == Spelling(KeywordN(k))
  {
    if KeywordN(k) != NAME {
      SpelledOut(k, Spelling(KeywordN(k)));
    }
  }

  lemma KeywordSoundR(k: seq<char>)
    requires NoNul(k) && At(k, 0) == 'r'
    ensures KeywordR(k) != NAME ==> IsKeywordKind(KeywordR(k)) && k == Spelling(KeywordR(k))
  {
    if KeywordR(k) != NAME {
      SpelledOut(k, Spelling(KeywordR(k)));
    }
  }

  lemma KeywordSoundS(k: seq<char>)
    requires NoNul(k) && At(k, 0) == 's'
    ensures KeywordS(k) != NAME ==> IsKeywordKind(KeywordS(k)) && k == Spelling(KeywordS(k))
  {
    if KeywordS(k) != NAME {
      SpelledOut(k, Spelling(KeywordS(k)));
    }
  }

  lemma KeywordSoundT(k: seq<char>)
    requires NoNul(k) && At(k, 0) == 't'
    ensures KeywordT(k) != NAME ==> IsKeywordKind(KeywordT(k)) && k == Spelling(KeywordT(k))
  {
    if KeywordT(k) != NAME {
      SpelledOut(k, Spelling(KeywordT(k)));
    }
  }

  lemma KeywordSoundW(k: seq<char>)
    requires NoNul(k) && At(k, 0) == 'w'
    ensures KeywordW(k) != NAME ==> IsKeywordKind(KeywordW(k)) && k == Spelling(KeywordW(k))
  {
    if KeywordW(k) != NAME {
      SpelledOut(k, Spelling(KeywordW(k)));
    }
  }

  lemma KeywordsA()
    ensures Keyword("as") == AS && Keyword("async") == ASYNC && Keyword("await") == AWAIT
  {
  }

  lemma KeywordsCD()
    ensures Keyword("case") == CASE && Keyword("class") == CLASS && Keyword("default") == DEFAULT
    ensures Keyword("do") == DO
  {
  }

  lemma KeywordsEF()
    ensures Keyword("else") == ELSE && Keyword("false") == FALSE && Keyword("for") == FOR
  {
  }

  lemma KeywordsFX()
    ensures Keyword("from") == FROM && Keyword("func") == FUNC && Keyword("fx") == FX && Keyword("fxn") == FXN
  {
  }

  lemma KeywordsI()
    ensures Keyword("if") == IF && Keyword("import") == IMPORT
  {
  }

  lemma KeywordsNR()
    ensures Keyword("new") == NEW && Keyword("return") == RETURN
  {
  }

  lemma KeywordsST()
    ensures Keyword("switch") == SWITCH && Keyword("true") == TRUE
  {
  }

  lemma KeywordsWN()
    ensures Keyword("while") == WHILE && Keyword("null") == NULL
  {
  }

  /** Every reserved word gets its own kind: with `KeywordSound`, NAME exactly for the other texts. */
  lemma KeywordComplete(t: Type)
    requires IsKeywordKind(t)
    ensures Keyword(Spelling(t)) == t
  {
    if t == AS || t == ASYNC || t == AWAIT || t == CASE || t == CLASS || t == DEFAULT || t == DO {
      KeywordCompleteAD(t);
    } else if t == ELSE || t == FALSE || t == FOR || t == FROM || t == FUNC || t == FX || t == FXN {
      KeywordCompleteEF(t);
    } else {
      KeywordCompleteIW(t);
    }
  }

  lemma KeywordCompleteAD(t: Type)
    requires t == AS || t == ASYNC || t == AWAIT || t == CASE || t == CLASS || t == DEFAULT || t == DO
    ensures Keyword(Spelling(t)) == t
  {
    KeywordsA();
    KeywordsCD();
  }

  lemma KeywordCompleteEF(t: Type)
    requires t == ELSE || t == FALSE || t == FOR || t == FROM || t == FUNC || t == FX || t == FXN
    ensures Keyword(Spelling(t)) == t
  {
    KeywordsEF();
    KeywordsFX();
  }

  lemma KeywordCompleteIW(t: Type)
    requires t == IF || t == IMPORT || t == NEW || t == NULL || t == RETURN || t == SWITCH || t == TRUE || t == WHILE
    ensures Keyword(Spelling(t)) == t
  {
    KeywordsI();
    KeywordsNR();
    KeywordsST();
    KeywordsWN();
  }

  // ---------------------------------------------------------------------------------
  // The cursor

  /** `iterator`, `line` and `character`. */
  datatype Cursor = Cursor(it: int, line: int, character: int)

  /** `iterator` runs from -1 (before the text) to the index of its terminating NUL. */
  predicate Inside(code: seq<char>, c: Cursor)
  {
    -1 <= c.it <= |code|
  }

  /** `end()`: the cursor has consumed the terminating NUL. */
  predicate EndOf(code: seq<char>, c: Cursor)
  {
    c.it > |code| - 1
  }

  /** `current()`: the character last consumed. */
  function CurrentOf(code: seq<char>, c: Cursor): char
  {
    At(code, c.it)
  }

  /** `peekNext()`: the character after the cursor, NUL once at the end. */
  function PeekOf(code: seq<char>, c: Cursor): char
  {
    if EndOf(code, c) then '\0' else At(code, c.it + 1)
  }

  /**
   * `next()`: it returns what `peekNext()` shows and moves onto it, except at the end,
   * where it stays; the column grows by one either way, and a newline moves to column 1
   * of the next line.
   */
  function NextOf(code: seq<char>, c: Cursor): (r: (char, Cursor))
    requires Inside(code, c)
    ensures Inside(code, r.1) && r.0 == PeekOf(code, c)
    ensures r.1.it == if EndOf(code, c) then c.it else c.it + 1
    ensures !EndOf(code, c) ==> r.0 == CurrentOf(code, r.1)
    ensures r.1.line == c.line + (if r.0 == '\n' then 1 else 0)
    ensures r.1.character == if r.0 == '\n' then 1 else c.character + 1
  {
    var ch := if !EndOf(code, c) then At(code, c.it + 1) else '\0';
    var it := if !EndOf(code, c) then c.it + 1 else c.it;
    if ch == '\n' then (ch, Cursor(it, c.line + 1, 1)) else (ch, Cursor(it, c.line, c.character + 1))
  }

  /** `match(ch)`: consumes one character exactly when `peekNext()` shows `ch`. */
  function MatchOf(code: seq<char>, c: Cursor, ch: char): (r: (bool, Cursor))
    requires Inside(code, c)
    ensures Inside(code, r.1)
    ensures r.0 <==> PeekOf(code, c) == ch
    ensures r.1 == if r.0 then NextOf(code, c).1 else c
  {
    if PeekOf(code, c) == ch then (true, NextOf(code, c).1) else (false, c)
  }

  /** `consume(n)`: `n` calls of `next()`. */
  function ConsumeOf(code: seq<char>, c: Cursor, n: nat): (r: Cursor)
    requires Inside(code, c)
    ensures Inside(code, r) && c.it <= r.it
    decreases n
  {
    if n == 0 then c else ConsumeOf(code, NextOf(code, c).1, n - 1)
  }

  // ---------------------------------------------------------------------------------
  // One pass of the scanning loop

  /**
   * What the rest of one pass does after `next()` has read its first character: a token
   * of some kind, with the error recorded against it if any (`Lexeme`); nothing
   * (`Blank`: blanks and comments); or the endless loop of a string left open at the
   * end of the text (`Hangs`). `after` is the cursor once the pass is over.
   */
  datatype Scan = Lexeme(kind: Type, err: Option<string>, after: Cursor) | Blank(after: Cursor) | Hangs

  /** The scan neither moves the cursor back nor leaves the text. */
  predicate Forward(code: seq<char>, c: Cursor, s: Scan)
  {
    s.Hangs? || (c.it <= s.after.it && Inside(code, s.after))
  }

  /** The characters that make a token on their own. */
  function Single(ch: char): Option<Type>
  {
    if ch == '@' then Some(AT)
    else if ch == '.' then Some(DOT)
    else if ch == ',' then Some(SEP)
    else if ch == '~' then Some(BNOT)
    else if ch == ';' then Some(DELMT)
    else if ch == ':' then Some(COLON)
    else if ch == '\0' then Some(EOF)
    else if ch == '(' then Some(LPAREN)
    else if ch == ')' then Some(RPAREN)
    else if ch == '[' then Some(LBRACKET)
    else if ch == ']' then Some(RBRACKET)
    else if ch == '{' then Some(LCURLY)
    else if ch == '}' then Some(RCURLY)
    else if ch == '?' then Some(QUERY)
    else None
  }

  /** The characters skipped without a token: backslash, newline, space and tab. */
  predicate IsBlank(ch: char)
  {
    ch == '\\' || ch == '\n' || ch == ' ' || ch == '\t'
  }

  /** The operator characters whose token depends on what follows them. */
  predicate IsCompound(ch: char)
  {
    ch == '#' || ch == '$' || ch == '+' || ch == '-' || ch == '*' || ch == '!' || ch == '|' ||
    ch == '&' || ch == '^' || ch == '=' || ch == '>' || ch == '<' || ch == '%'
  }

  /** `if (match('=')) yes else no`. */
  function WithEq(code: seq<char>, c: Cursor, yes: Type, no: Type): (s: Scan)
    requires Inside(code, c)
    ensures s.Lexeme? && Forward(code, c, s) && s.err.None?
    ensures s.kind == yes <==> PeekOf(code, c) == '=' || yes == no
  {
    var (m, c1) := MatchOf(code, c, '=');
    Lexeme(if m then yes else no, None, c1)
  }

  /**
   * `|`, `&`, `>` and `<`: a second character `second` first, then `=` after either
   * one or two characters.
   */
  function Doubled(code: seq<char>, c: Cursor, second: char, twoEq: Type, two: Type, oneEq: Type, one: Type): (s: Scan)
    requires Inside(code, c)
    ensures s.Lexeme? && Forward(code, c, s) && s.err.None?
  {
    var (m, c1) := MatchOf(code, c, second);
    if m then WithEq(code, c1, twoEq, two) else WithEq(code, c, oneEq, one)
  }

  /** `+` and `-`: `=` is tried before the doubled character. */
  function EqThenDoubled(code: seq<char>, c: Cursor, second: char, eq: Type, two: Type, one: Type): (s: Scan)
    requires Inside(code, c)
    ensures s.Lexeme? && Forward(code, c, s) && s.err.None?
  {
    var (m, c1) := MatchOf(code, c, '=');
    if m then Lexeme(eq, None, c1)
    else
      var (m2, c2) := MatchOf(code, c, second);
      Lexeme(if m2 then two else one, None, c2)
  }

  /**
   * `*`: `=` gives MUL_EQ, and the branch meant for `**` tests `=` a second time, so it
   * can never be taken.
   */
  function Star(code: seq<char>, c: Cursor): (s: Scan)
    requires Inside(code, c)
    ensures s.Lexeme? && Forward(code, c, s) && s.err.None?
  {
    var (m, c1) := MatchOf(code, c, '=');
    if m then Lexeme(MUL_EQ, None, c1)
    else
      var (m2, c2) := MatchOf(code, c1, '=');
      if m2 then Lexeme(POW, None, c2) else Lexeme(MUL, None, c2)
  }

  /** The operator cases of the scanning loop (src/tokenizer.c:80-89, 127-185, 196-225). */
  function Compound(code: seq<char>, ch: char, c: Cursor): (s: Scan)
    requires Inside(code, c) && IsCompound(ch)
    ensures s.Lexeme? && Forward(code, c, s) && s.err.None?
  {
    if ch == '#' then WithEq(code, c, CST_EQ, HASH)
    else if ch == '$' then WithEq(code, c, SET_EQ, DOLLAR)
    else if ch == '+' then EqThenDoubled(code, c, '+', ADD_EQ, INCR, ADD)
    else if ch == '-' then EqThenDoubled(code, c, '-', SUB_EQ, DECR, SUB)
    else if ch == '*' then Star(code, c)
    else if ch == '!' then WithEq(code, c, CMP_NEQ, LNOT)
    else if ch == '|' then Doubled(code, c, '|', LOR_EQ, LOR, BOR_EQ, BOR)
    else if ch == '&' then Doubled(code, c, '&', LAND_EQ, LAND, BAND_EQ, BAND)
    else if ch == '^' then WithEq(code, c, BXOR_EQ, BXOR)
    else if ch == '=' then WithEq(code, c, CMP_EQ, EQ)
    else if ch == '>' then Doubled(code, c, '>', RSHIFT_EQ, RSHIFT, CMP_GEQ, CMP_GT)
    else if ch == '<' then Doubled(code, c, '>', LSHIFT_EQ, LSHIFT, CMP_LEQ, CMP_LT)
    else WithEq(code, c, REM_EQ, REM)
  }

  /** `//`: everything up to, not including, the next newline, or to the end. */
  function LineCommentEnd(code: seq<char>, c: Cursor): (r: Cursor)
    requires Inside(code, c)
    ensures Inside(code, r) && c.it <= r.it
    ensures EndOf(code, r) || PeekOf(code, r) == '\n'
    decreases |code| - c.it
  {
    if PeekOf(code, c) != '\n' && !EndOf(code, c) then LineCommentEnd(code, NextOf(code, c).1) else c
  }

  /**
   * A block comment, after its opening slash and star: each round reads one character
   * and, when it is a star, one more; a star followed by a slash ends the comment, and so
   * does reaching the end.
   */
  function BlockCommentEnd(code: seq<char>, c: Cursor): (r: Cursor)
    requires Inside(code, c)
    ensures Inside(code, r) && c.it <= r.it
    decreases |code| - c.it
  {
    var (a, c1) := NextOf(code, c);
    if a == '*' then
      var (b, c2) := NextOf(code, c1);
      if b == '/' || EndOf(code, c2) then c2 else BlockCommentEnd(code, c2)
    else if EndOf(code, c1) then c1
    else BlockCommentEnd(code, c1)
  }

  /** `/`: a line comment, a block comment or DIV (src/tokenizer.c:186-195). */
  function Slash(code: seq<char>, c: Cursor): (s: Scan)
    requires Inside(code, c)
    ensures Forward(code, c, s) && !s.Hangs?
  {
    var (m, c1) := MatchOf(code, c, '/');
    if m then Blank(LineCommentEnd(code, c1))
    else
      var (m2, c2) := MatchOf(code, c, '*');
      if m2 then Blank(BlockCommentEnd(code, c2)) else Lexeme(DIV, None, c)
  }

  /**
   * A string opened by `q`: it runs to the next `q`, which is consumed. A backslash takes
   * the following character with it. A newline first gives a STR token ending before the
   * newline with "unterminated string"; reaching the end first spins forever.
   */
  function Quoted(code: seq<char>, q: char, c: Cursor): (s: Scan)
    requires Inside(code, c) && q != '\0' && q != '\n'
    ensures Forward(code, c, s)
    ensures s.Lexeme? ==> s.kind == STR
    ensures s.Lexeme? && s.err.None? ==> CurrentOf(code, s.after) == q
    ensures s.Lexeme? && s.err.Some? ==> s.err.value == UNTERMINATED && PeekOf(code, s.after) == '\n'
    decreases |code| - c.it
  {
    var p := PeekOf(code, c);
    if p == q then Lexeme(STR, None, NextOf(code, c).1)
    else if p == '\n' then Lexeme(STR, Some(UNTERMINATED), c)
    else if EndOf(code, c) then Hangs
    else
      var c1 := if p == '\\' then NextOf(code, c).1 else c;
      Quoted(code, q, NextOf(code, c1).1)
  }

  /** The character classes the digit and name loops run over. */
  datatype Class = Binary | Octal | Decimal | Hexadecimal | Word

  predicate InClass(d: Class, ch: char)
  {
    match d
    case Binary => IsBin(ch)
    case Octal => IsOct(ch)
    case Decimal => IsDec(ch)
    case Hexadecimal => IsHex(ch)
    case Word => IsAlpha(ch) || IsDec(ch)
  }

  /**
   * `while (isX(peekNext())) next();`: consumes the longest run of characters of the
   * class and stops before the first other one.
   */
  function Span(code: seq<char>, c: Cursor, d: Class): (r: Cursor)
    requires Inside(code, c)
    ensures Inside(code, r) && c.it <= r.it
    ensures !InClass(d, PeekOf(code, r))
    ensures forall j :: c.it < j <= r.it ==> InClass(d, At(code, j))
    decreases |code| - c.it
  {
    if InClass(d, PeekOf(code, c)) then Span(code, NextOf(code, c).1, d) else c
  }

  /** `(c & 0xe0) == 0xc0`: the lead byte of a two-byte UTF-8 sequence. */
  predicate Lead2(ch: char) { 0xC0 <= CharByte(ch) < 0xE0 }

  /** `(c & 0xf0) == 0xe0`: the lead byte of a three-byte sequence. */
  predicate Lead3(ch: char) { 0xE0 <= CharByte(ch) < 0xF0 }

  /** `(c & 0xf8) == 0xf0`: the lead byte of a four-byte sequence. */
  predicate Lead4(ch: char) { 0xF0 <= CharByte(ch) < 0xF8 }

  /** Skips the continuation bytes a UTF-8 lead byte announces. */
  function Continuation(code: seq<char>, ch: char, c: Cursor): (r: Cursor)
    requires Inside(code, c)
    ensures Inside(code, r) && c.it <= r.it
  {
    if Lead2(ch) then NextOf(code, c).1
    else if Lead3(ch) then ConsumeOf(code, c, 2)
    else if Lead4(ch) then ConsumeOf(code, c, 3)
    else c
  }

  /** A number after a leading `0`: `0o` or an octal digit, `0b`, `0x`, or a lone DEC `0`. */
  function Zero(code: seq<char>, c: Cursor): (s: Scan)
    requires Inside(code, c)
    ensures s.Lexeme? && Forward(code, c, s) && s.err.None?
  {
    var (mo, c1) := MatchOf(code, c, 'o');
    if mo || IsOct(PeekOf(code, c)) then Lexeme(OCTAL, None, Span(code, c1, Octal))
    else
      var (mb, c2) := MatchOf(code, c, 'b');
      if mb then Lexeme(BIN, None, Span(code, c2, Binary))
      else
        var (mx, c3) := MatchOf(code, c, 'x');
        if mx then Lexeme(HEX, None, Span(code, c3, Hexadecimal))
        else Lexeme(DEC, None, c)
  }

  /** A name or keyword: the longest run of letters and digits, classified by `keyword`. */
  function NameOrKeyword(code: seq<char>, c: Cursor): (s: Scan)
    requires Inside(code, c) && IsAlpha(CurrentOf(code, c))
    ensures s.Lexeme? && Forward(code, c, s) && s.err.None?
    ensures 0 <= c.it <= s.after.it < |code|
    ensures s.after == Span(code, c, Word)
  {
    Lexeme(Keyword(WordText(code, c)), None, Span(code, c, Word))
  }

  /** The run of name characters that starts at the cursor, the cursor's own included. */
  function WordText(code: seq<char>, c: Cursor): (t: seq<char>)
    requires Inside(code, c) && IsAlpha(CurrentOf(code, c))
    ensures 0 <= c.it <= Span(code, c, Word).it < |code|
    ensures t == code[c.it..Span(code, c, Word).it + 1]
  {
    var e := Span(code, c, Word);
    assert e.it == c.it || InClass(Word, At(code, e.it));
    code[c.it..e.it + 1]
  }

  /** `NameOrKeyword` from the kind of the text of the run. */
  lemma NameOrKeywordIs(code: seq<char>, c: Cursor, kind: Type)
    requires Inside(code, c) && IsAlpha(CurrentOf(code, c))
    requires kind == Keyword(WordText(code, c))
    ensures NameOrKeyword(code, c) == Lexeme(kind, None, Span(code, c, Word))
  {
  }

  /** The characters of the text from `lo` up to `hi`. */
  function Text(code: seq<char>, lo: int, hi: int): (t: seq<char>)
    requires 0 <= lo <= hi <= |code|
    ensures t == code[lo..hi]
  {
    code[lo..hi]
  }

  /**
   * The `default` case, on `current()`: numbers by their prefix, names and keywords,
   * and anything else as UNDEF with "unexpected token" (src/tokenizer.c:264-309).
   */
  function Other(code: seq<char>, c: Cursor): (s: Scan)
    requires Inside(code, c)
    ensures s.Lexeme? && Forward(code, c, s)
    ensures s.err.Some? <==> s.kind == UNDEF
  {
    var ch := CurrentOf(code, c);
    if ch == '0' then Zero(code, c)
    else if IsDec(ch) then Lexeme(DEC, None, Span(code, c, Decimal))
    else if IsAlpha(ch) then NameOrKeyword(code, c)
    else Lexeme(UNDEF, Some(UNEXPECTED), Continuation(code, ch, c))
  }

  /** The switch of the scanning loop on the character `next()` returned. */
  function Dispatch(code: seq<char>, ch: char, c: Cursor): (s: Scan)
    requires Inside(code, c)
    ensures Forward(code, c, s)
  {
    if Single(ch).Some? then Lexeme(Single(ch).value, None, c)
    else if IsBlank(ch) then Blank(c)
    else if IsCompound(ch) then Compound(code, ch, c)
    else if ch == '/' then Slash(code, c)
    else if ch == '"' || ch == '\'' then Quoted(code, ch, c)
    else Other(code, c)
  }

  // ---------------------------------------------------------------------------------
  // The scanning loop

  /**
   * The global `tokenizer`: the cursor, `token.start` and `token.absStart` (where the
   * token being scanned began), and the `tokens`, `errors` and `stack` arrays.
   */
  datatype TState = TState(cur: Cursor, start: int, absStart: int, tokens: seq<Token>, errors: seq<CError>, stack: seq<Token>)

  /** `initTokenizer`: before the first character, at line 1, column 1, nothing collected. */
  function Init(): TState
  {
    TState(Cursor(-1, 1, 1), 1, 1, [], [], [])
  }

  /** The token `addToken(kind)` builds. */
  function TokenOf(st: TState, kind: Type): (t: Token)
    ensures t.kind == kind && t.pos.line == st.cur.line && t.pos.end == st.cur.character
    ensures t.pos.start == st.start && t.pos.absStart == st.absStart && t.pos.absEnd == st.cur.it + 1
  {
    Token(kind, Position(st.cur.line, st.start, st.cur.character, st.absStart, st.cur.it + 1))
  }

  /**
   * `addToken(kind)`, the error recorded against the new token, if any, and the copy of
   * a bracket token pushed on `stack`.
   */
  function Record(file: seq<char>, st: TState, kind: Type, err: Option<string>): (r: TState)
    ensures r.cur == st.cur && r.tokens == st.tokens + [TokenOf(st, kind)]
  {
    var t := TokenOf(st, kind);
    st.(tokens := st.tokens + [t],
        errors := if err.Some? then st.errors + [CError(SYNTAX, file, err.value, t)] else st.errors,
        stack := if IsOpener(kind) || IsCloser(kind) then st.stack + [t] else st.stack)
  }

  /** The head of one pass: `next()`, then the start marks set from the new cursor. */
  function Begin(code: seq<char>, st: TState): (r: (char, TState))
    requires Inside(code, st.cur)
    ensures Inside(code, r.1.cur) && r.1.absStart == r.1.cur.it
    ensures !EndOf(code, st.cur) ==> r.1.cur.it == st.cur.it + 1
  {
    var (ch, c1) := NextOf(code, st.cur);
    (ch, st.(cur := c1, start := c1.character - 1, absStart := c1.it))
  }

  /** The end of one pass, once the switch has scanned `s`. */
  function Finish(file: seq<char>, st: TState, s: Scan): (r: Option<TState>)
    ensures r.None? <==> s.Hangs?
    ensures r.Some? ==> r.value.cur == s.after
  {
    match s
    case Hangs => None
    case Blank(c2) => Some(st.(cur := c2))
    case Lexeme(k, e, c2) => Some(Record(file, st.(cur := c2), k, e))
  }

  /**
   * One pass of the loop: `next()`, the start marks, then the switch; `None` where the
   * pass never ends.
   */
  function Step(code: seq<char>, file: seq<char>, st: TState): (r: Option<TState>)
    requires Inside(code, st.cur) && !EndOf(code, st.cur)
    ensures r.Some? ==> st.cur.it < r.value.cur.it && Inside(code, r.value.cur)
  {
    var (ch, st1) := Begin(code, st);
    Finish(file, st1, Dispatch(code, ch, st1.cur))
  }

  /** `while (!end())` over the passes; `None` where one of them never ends. */
  function Run(code: seq<char>, file: seq<char>, st: TState): (r: Option<TState>)
    requires Inside(code, st.cur)
    ensures r.Some? ==> EndOf(code, r.value.cur) && Inside(code, r.value.cur)
    decreases |code| - st.cur.it
  {
    if EndOf(code, st.cur) then Some(st)
    else
      match Step(code, file, st)
      case None => None
      case Some(st') => Run(code, file, st')
  }

  // ---------------------------------------------------------------------------------
  // The bracket checks

  /**
   * One token of `runStackCheck`: an opener is pushed, a closer pops the top only when
   * the top is its opener, and any other token is pushed.
   */
  function StackStep(r: seq<Token>, t: Token): (r': seq<Token>)
    ensures IsOpener(t.kind) ==> r' == r + [t]
    ensures IsCloser(t.kind) && r != [] && r[|r| - 1].kind == OpenerOf(t.kind) ==> r' == r[..|r| - 1]
    ensures IsCloser(t.kind) && !(r != [] && r[|r| - 1].kind == OpenerOf(t.kind)) ==> r' == r
  {
    if IsOpener(t.kind) then r + [t]
    else if t.kind == RPAREN then (if r != [] && r[|r| - 1].kind == LPAREN then r[..|r| - 1] else r)
    else if t.kind == RBRACKET then (if r != [] && r[|r| - 1].kind == LBRACKET then r[..|r| - 1] else r)
    else if t.kind == RCURLY then (if r != [] && r[|r| - 1].kind == LCURLY then r[..|r| - 1] else r)
    else r + [t]
  }

  /** What `runStackCheck` is left with after the whole bracket stack. */
  function StackCheck(s: seq<Token>): seq<Token>
  {
    if s == [] then [] else StackStep(StackCheck(s[..|s| - 1]), s[|s| - 1])
  }

  /** The brackets as the pointer array `runDistanceCheck` works on. */
  function Wrap(s: seq<Token>): (r: seq<Option<Token>>)
    ensures |r| == |s| && forall i :: 0 <= i < |s| ==> r[i] == Some(s[i])
  {
    seq(|s|, i requires 0 <= i < |s| => Some(s[i]))
  }

  /** An opener at `a` and its own closer at `b`. */
  predicate Pairs(a: Type, b: Type)
  {
    (a == LPAREN && b == RPAREN) || (a == LBRACKET && b == RBRACKET) || (a == LCURLY && b == RCURLY)
  }

  /** One comparison of `runDistanceCheck`: a pair at `i` and `i + dist + 1` is nulled out. */
  function PairStep(r: seq<Option<Token>>, dist: int, i: int): (r': seq<Option<Token>>)
    requires 0 <= i && 1 <= dist && i + dist + 1 < |r|
    ensures |r'| == |r|
  {
    var a := r[i];
    var b := r[i + dist + 1];
    if a.Some? && b.Some? && Pairs(a.value.kind, b.value.kind) then r[i := None][i + dist + 1 := None]
    else r
  }

  /** The inner loop of `runDistanceCheck`, from `i`. */
  function Inner(r: seq<Option<Token>>, dist: int, i: nat): (r': seq<Option<Token>>)
    requires 1 <= dist
    ensures |r'| == |r|
    decreases |r| - i
  {
    if i + dist < |r| - 1 then Inner(PairStep(r, dist, i), dist, i + 1) else r
  }

  /** The outer loop of `runDistanceCheck`, from distance `dist`. */
  function Outer(r: seq<Option<Token>>, dist: nat): (r': seq<Option<Token>>)
    requires 1 <= dist
    ensures |r'| == |r|
    decreases |r| - dist
  {
    if dist < |r| - 1 then Outer(Inner(r, dist, 0), dist + 1) else r
  }

  /** The error `runDistanceCheck` reports for each bracket left. */
  function Unmatched(file: seq<char>, r: seq<Token>): (e: seq<CError>)
    ensures |e| == |r| && forall i :: 0 <= i < |r| ==> e[i] == CError(SYNTAX, file, UNMATCHED, r[i])
  {
    seq(|r|, i requires 0 <= i < |r| => CError(SYNTAX, file, UNMATCHED, r[i]))
  }

  /** The tokens of the non-NULL slots. */
  function Values(r: seq<Option<Token>>): (v: seq<Token>)
    requires forall i :: 0 <= i < |r| ==> r[i].Some?
    ensures |v| == |r| && forall i :: 0 <= i < |r| ==> Some(v[i]) == r[i]
  {
    seq(|r|, i requires 0 <= i < |r| => r[i].value)
  }

  /**
   * `tokenize`: the loop, then `runStackCheck` and `runDistanceCheck`, which add an error
   * for each bracket left over; `None` where the loop never ends.
   */
  function TokenizeOf(code: seq<char>, file: seq<char>): Option<(seq<Token>, seq<CError>)>
    requires NoNul(code)
  {
    match Run(code, file, Init())
    case None => None
    case Some(st) =>
      var left := PtrArray.NonNull(Outer(Wrap(StackCheck(st.stack)), 1));
      Some((st.tokens, st.errors + Unmatched(file, Values(left))))
  }

  // ---------------------------------------------------------------------------------
  // The scanner in place

  /** `keyword(substring(code, lo, len))`, the text given again as `t`. */
  method WordKind(code: seq<char>, lo: int, len: int, ghost t: seq<char>) returns (k: Type)
    requires 0 <= lo && 0 <= len && lo + len <= |code| && t == code[lo..lo + len]
    ensures k == Keyword(t)
  {
    var sub := code[lo..lo + len];
    k := Keyword(sub);
  }

  /** The global `tokenizer` struct and the functions that update it. */
  class Tokenizer {
    /** The text, without its terminating NUL, and the file name errors carry. */
    const code: seq<char>
    const file: seq<char>
    /** `iterator`. */
    var iter: int
    var line: int
    var character: int
    /** `token.start` and `token.absStart`: where the token being scanned began. */
    var start: int
    var absStart: int
    var tokens: seq<Token>
    var errors: seq<CError>
    var stack: seq<Token>

    function Cur(): Cursor
      reads this
    {
      Cursor(iter, line, character)
    }

    function State(): TState
      reads this
    {
      TState(Cur(), start, absStart, tokens, errors, stack)
    }

    ghost predicate Valid()
      reads this
    {
      Inside(code, Cur())
    }

    /** `initTokenizer(code, fname)`. */
    constructor (code: seq<char>, file: seq<char>)
      requires NoNul(code)
      ensures this.code == code && this.file == file && State() == Init() && Valid()
    {
      this.code := code;
      this.file := file;
      iter := -1;
      start := 1;
      absStart := 1;
      line := 1;
      character := 1;
      tokens := [];
      errors := [];
      stack := [];
    }

    /** `end()`. */
    function End(): (b: bool)
      reads this
      ensures b <==> EndOf(code, Cur())
    {
      iter > |code| - 1
    }

    /** `peekNext()`; the character at index `length` is the terminating NUL. */
    function PeekNext(): (ch: char)
      reads this
      ensures ch == PeekOf(code, Cur())
    {
      if End() then '\0' else At(code, iter + 1)
    }

    /** `current()`. */
    function Current(): (ch: char)
      reads this
      ensures ch == CurrentOf(code, Cur())
    {
      At(code, iter)
    }

    /** `next()`. */
    method Next() returns (ch: char)
      requires Valid()
      modifies this
      ensures Valid() && (ch, Cur()) == NextOf(code, old(Cur()))
      ensures State() == old(State()).(cur := Cur())
    {
      if !End() {
        iter := iter + 1;
        ch := At(code, iter);
      } else {
        ch := '\0';
      }
      character := character + 1;
      if ch == '\n' {
        line := line + 1;
        character := 1;
      }
    }

    /** `match(ch)`. */
    method Match(ch: char) returns (m: bool)
      requires Valid()
      modifies this
      ensures Valid() && (m, Cur()) == MatchOf(code, old(Cur()), ch)
      ensures State() == old(State()).(cur := Cur())
    {
      if PeekNext() == ch {
        var _ := Next();
        m := true;
      } else {
        m := false;
      }
    }

    /** `consume(n)`. */
    method Consume(n: nat)
      requires Valid()
      modifies this
      ensures Valid() && Cur() == ConsumeOf(code, old(Cur()), n)
      ensures State() == old(State()).(cur := Cur())
    {
      var k := n;
      while k > 0
        invariant Valid() && ConsumeOf(code, Cur(), k) == ConsumeOf(code, old(Cur()), n)
        invariant State() == old(State()).(cur := Cur())
      {
        var _ := Next();
        k := k - 1;
      }
    }

    /** `addToken(kind)`: the token at the current marks, appended to `tokens`. */
    method AddToken(kind: Type) returns (t: Token)
      modifies this
      ensures t == TokenOf(old(State()), kind)
      ensures State() == old(State()).(tokens := old(tokens) + [t])
    {
      t := Token(kind, Position(line, start, character, absStart, iter + 1));
      tokens := tokens + [t];
    }

    method ScanWithEq(yes: Type, no: Type) returns (s: Scan)
      requires Valid()
      modifies this
      ensures Valid() && s == WithEq(code, old(Cur()), yes, no) && Cur() == s.after
      ensures State() == old(State()).(cur := Cur())
    {
      var m := Match('=');
      s := Lexeme(if m then yes else no, None, Cur());
    }

    method ScanDoubled(second: char, twoEq: Type, two: Type, oneEq: Type, one: Type) returns (s: Scan)
      requires Valid()
      modifies this
      ensures Valid() && s == Doubled(code, old(Cur()), second, twoEq, two, oneEq, one) && Cur() == s.after
      ensures State() == old(State()).(cur := Cur())
    {
      ghost var c := Cur();
      var m := Match(second);
      assert MatchOf(code, c, second) == (m, Cur());
      if m {
        assert Doubled(code, c, second, twoEq, two, oneEq, one) == WithEq(code, Cur(), twoEq, two);
        s := ScanWithEq(twoEq, two);
      } else {
        assert Doubled(code, c, second, twoEq, two, oneEq, one) == WithEq(code, c, oneEq, one);
        s := ScanWithEq(oneEq, one);
      }
    }

    method ScanEqThenDoubled(second: char, eq: Type, two: Type, one: Type) returns (s: Scan)
      requires Valid()
      modifies this
      ensures Valid() && s == EqThenDoubled(code, old(Cur()), second, eq, two, one) && Cur() == s.after
      ensures State() == old(State()).(cur := Cur())
    {
      ghost var c := Cur();
      var m := Match('=');
      assert MatchOf(code, c, '=') == (m, Cur());
      if m {
        s := Lexeme(eq, None, Cur());
        assert EqThenDoubled(code, c, second, eq, two, one) == s;
      } else {
        assert Cur() == c;
        var m2 := Match(second);
        assert MatchOf(code, c, second) == (m2, Cur());
        s := Lexeme(if m2 then two else one, None, Cur());
        assert EqThenDoubled(code, c, second, eq, two, one) == s;
      }
    }

    method ScanStar() returns (s: Scan)
      requires Valid()
      modifies this
      ensures Valid() && s == Star(code, old(Cur())) && Cur() == s.after
      ensures State() == old(State()).(cur := Cur())
    {
      var m := Match('=');
      if m {
        s := Lexeme(MUL_EQ, None, Cur());
      } else {
        var m2 := Match('=');
        s := Lexeme(if m2 then POW else MUL, None, Cur());
      }
    }

    /** The operator cases of the switch. */
    method ScanCompound(ch: char) returns (s: Scan)
      requires Valid() && IsCompound(ch)
      modifies this
      ensures Valid() && s == Compound(code, ch, old(Cur())) && Cur() == s.after
      ensures State() == old(State()).(cur := Cur())
    {
      if ch == '#' {
        s := ScanWithEq(CST_EQ, HASH);
      } else if ch == '$' {
        s := ScanWithEq(SET_EQ, DOLLAR);
      } else if ch == '+' {
        s := ScanEqThenDoubled('+', ADD_EQ, INCR, ADD);
      } else if ch == '-' {
        s := ScanEqThenDoubled('-', SUB_EQ, DECR, SUB);
      } else if ch == '*' {
        s := ScanStar();
      } else if ch == '!' {
        s := ScanWithEq(CMP_NEQ, LNOT);
      } else if ch == '|' {
        s := ScanDoubled('|', LOR_EQ, LOR, BOR_EQ, BOR);
      } else if ch == '&' {
        s := ScanDoubled('&', LAND_EQ, LAND, BAND_EQ, BAND);
      } else if ch == '^' {
        s := ScanWithEq(BXOR_EQ, BXOR);
      } else if ch == '=' {
        s := ScanWithEq(CMP_EQ, EQ);
      } else if ch == '>' {
        s := ScanDoubled('>', RSHIFT_EQ, RSHIFT, CMP_GEQ, CMP_GT);
      } else if ch == '<' {
        s := ScanDoubled('>', LSHIFT_EQ, LSHIFT, CMP_LEQ, CMP_LT);
      } else {
        s := ScanWithEq(REM_EQ, REM);
      }
    }

    /** A line comment: `while (peekNext() != '\n' && !end()) next();`. */
    method SkipLine()
      requires Valid()
      modifies this
      ensures Valid() && Cur() == LineCommentEnd(code, old(Cur()))
      ensures State() == old(State()).(cur := Cur())
    {
      while PeekNext() != '\n' && !End()
        invariant Valid() && LineCommentEnd(code, Cur()) == LineCommentEnd(code, old(Cur()))
        invariant State() == old(State()).(cur := Cur())
        decreases |code| - iter
      {
        var _ := Next();
      }
    }

    /** A block comment: the loop that reads up to a star followed by a slash, or to the end. */
    method SkipBlock()
      requires Valid()
      modifies this
      ensures Valid() && Cur() == BlockCommentEnd(code, old(Cur()))
      ensures State() == old(State()).(cur := Cur())
    {
      while true
        invariant Valid() && BlockCommentEnd(code, Cur()) == BlockCommentEnd(code, old(Cur()))
        invariant State() == old(State()).(cur := Cur())
        decreases |code| - iter
      {
        ghost var before := Cur();
        var a := Next();
        if a == '*' {
          var b := Next();
          if b == '/' || End() {
            return;
          }
        } else if End() {
          return;
        }
        assert BlockCommentEnd(code, before) == BlockCommentEnd(code, Cur());
      }
    }

    /** The `/` case. */
    method ScanSlash() returns (s: Scan)
      requires Valid()
      modifies this
      ensures Valid() && s == Slash(code, old(Cur())) && Cur() == s.after
      ensures State() == old(State()).(cur := Cur())
    {
      var m := Match('/');
      if m {
        SkipLine();
        s := Blank(Cur());
      } else {
        var m2 := Match('*');
        if m2 {
          SkipBlock();
          s := Blank(Cur());
        } else {
          s := Lexeme(DIV, None, Cur());
        }
      }
    }

    /**
     * The `"` and `'` cases. Where the source would spin forever, at the end of the text
     * with the string still open, the method stops with `Hangs`.
     */
    method ScanQuoted(q: char) returns (s: Scan)
      requires Valid() && q != '\0' && q != '\n'
      modifies this
      ensures Valid() && s == Quoted(code, q, old(Cur())) && (s.Hangs? || Cur() == s.after)
      ensures State() == old(State()).(cur := Cur())
    {
      while PeekNext() != q
        invariant Valid() && Quoted(code, q, Cur()) == Quoted(code, q, old(Cur()))
        invariant State() == old(State()).(cur := Cur())
        decreases |code| - iter
      {
        if PeekNext() == '\n' {
          return Lexeme(STR, Some(UNTERMINATED), Cur());
        }
        if End() {
          return Hangs;
        }
        if PeekNext() == '\\' {
          var _ := Next();
        }
        var _ := Next();
      }
      var _ := Next();
      s := Lexeme(STR, None, Cur());
    }

    /** `while (isX(peekNext())) next();`. */
    method ReadSpan(d: Class)
      requires Valid()
      modifies this
      ensures Valid() && Cur() == Span(code, old(Cur()), d)
      ensures State() == old(State()).(cur := Cur())
    {
      while InClass(d, PeekNext())
        invariant Valid() && Span(code, Cur(), d) == Span(code, old(Cur()), d)
        invariant State() == old(State()).(cur := Cur())
        decreases |code| - iter
      {
        var _ := Next();
      }
    }

    /** The continuation bytes of a UTF-8 lead byte. */
    method SkipContinuation(ch: char)
      requires Valid()
      modifies this
      ensures Valid() && Cur() == Continuation(code, ch, old(Cur()))
      ensures State() == old(State()).(cur := Cur())
    {
      if Lead2(ch) {
        var _ := Next();
      } else if Lead3(ch) {
        Consume(2);
      } else if Lead4(ch) {
        Consume(3);
      }
    }

    /** A number after a leading `0`. */
    method ScanZero() returns (s: Scan)
      requires Valid()
      modifies this
      ensures Valid() && s == Zero(code, old(Cur())) && Cur() == s.after
      ensures State() == old(State()).(cur := Cur())
    {
      var mo := Match('o');
      if mo || IsOct(PeekNext()) {
        ReadSpan(Octal);
        s := Lexeme(OCTAL, None, Cur());
      } else {
        var mb := Match('b');
        if mb {
          ReadSpan(Binary);
          s := Lexeme(BIN, None, Cur());
        } else {
          var mx := Match('x');
          if mx {
            ReadSpan(Hexadecimal);
            s := Lexeme(HEX, None, Cur());
          } else {
            s := Lexeme(DEC, None, Cur());
          }
        }
      }
    }

    /** A name or keyword; its text runs from `token.absStart` through `iterator`. */
    method ScanWord() returns (s: Scan)
      requires Valid() && IsAlpha(Current()) && absStart == iter
      modifies this
      ensures Valid() && s == NameOrKeyword(code, old(Cur())) && Cur() == s.after
      ensures State() == old(State()).(cur := Cur())
    {
      ghost var c := Cur();
      ReadSpan(Word);
      var kind := WordKind(code, absStart, iter + 1 - absStart, WordText(code, c));
      s := Lexeme(kind, None, Cur());
      NameOrKeywordIs(code, c, kind);
    }

    /** The `default` case of the switch. */
    method ScanOther() returns (s: Scan)
      requires Valid() && absStart == iter
      modifies this
      ensures Valid() && s == Other(code, old(Cur())) && Cur() == s.after
      ensures State() == old(State()).(cur := Cur())
    {
      var ch := Current();
      if ch == '0' {
        s := ScanZero();
      } else if IsDec(ch) {
        ReadSpan(Decimal);
        s := Lexeme(DEC, None, Cur());
      } else if IsAlpha(ch) {
        s := ScanWord();
      } else {
        SkipContinuation(ch);
        s := Lexeme(UNDEF, Some(UNEXPECTED), Cur());
      }
    }

    /** The switch on the character `next()` returned, up to the token it adds. */
    method ScanToken(ch: char) returns (s: Scan)
      requires Valid() && absStart == iter
      modifies this
      ensures Valid() && s == Dispatch(code, ch, old(Cur())) && (s.Hangs? || Cur() == s.after)
      ensures State() == old(State()).(cur := Cur())
    {
      if Single(ch).Some? {
        s := Lexeme(Single(ch).value, None, Cur());
      } else if IsBlank(ch) {
        s := Blank(Cur());
      } else if IsCompound(ch) {
        s := ScanCompound(ch);
      } else if ch == '/' {
        s := ScanSlash();
      } else if ch == '"' || ch == '\'' {
        s := ScanQuoted(ch);
      } else {
        s := ScanOther();
      }
    }

    /**
     * What the switch does once the kind is known: `addToken(kind)`, the error recorded
     * against the new token, and the bracket copy pushed on `stack`.
     */
    method AddLexeme(kind: Type, err: Option<string>)
      modifies this
      ensures State() == Record(file, old(State()), kind, err)
    {
      ghost var st := State();
      var t := AddToken(kind);
      assert t == TokenOf(st, kind);
      ReportError(err, t);
      PushBracket(t);
    }

    /** `error("Syntax", file, message, token)` when the pass found an error. */
    method ReportError(err: Option<string>, t: Token)
      modifies this
      ensures State() == old(State()).(errors := if err.Some? then old(errors) + [CError(SYNTAX, file, err.value, t)] else old(errors))
    {
      if err.Some? {
        errors := errors + [CError(SYNTAX, file, err.value, t)];
      }
    }

    /** `pushArray(tokenizer.stack, cloneToken(...))` for a bracket. */
    method PushBracket(t: Token)
      modifies this
      ensures State() == old(State()).(stack := if IsOpener(t.kind) || IsCloser(t.kind) then old(stack) + [t] else old(stack))
    {
      if IsOpener(t.kind) || IsCloser(t.kind) {
        stack := stack + [t];
      }
    }

    /** The head of one pass of the loop. */
    method BeginPass() returns (ch: char)
      requires Valid()
      modifies this
      ensures Valid() && (ch, State()) == Begin(code, old(State()))
    {
      ch := Next();
      start := character - 1;
      absStart := iter;
    }

    /** The end of one pass, once the switch has scanned `s`. */
    method FinishPass(s: Scan)
      requires !s.Hangs? && Cur() == s.after
      modifies this
      ensures Finish(file, old(State()), s) == Some(State())
    {
      if s.Lexeme? {
        AddLexeme(s.kind, s.err);
      }
    }

    /** One pass of the loop; `false` where the source would never finish it. */
    method Pass() returns (ok: bool)
      requires Valid() && !End()
      modifies this
      ensures Step(code, file, old(State())) == if ok then Some(State()) else None
      ensures Valid()
    {
      var c := BeginPass();
      ghost var st1 := State();
      var s := ScanToken(c);
      if s.Hangs? {
        return false;
      }
      assert State() == st1.(cur := s.after);
      FinishPass(s);
      return true;
    }

    /**
     * The scanning loop of `tokenize`: `false` where the source would never leave it,
     * otherwise the state `Run` gives.
     */
    method Scanning() returns (ok: bool)
      requires Valid()
      modifies this
      ensures Run(code, file, old(State())) == if ok then Some(State()) else None
      ensures Valid()
    {
      while !End()
        invariant Valid() && Run(code, file, State()) == Run(code, file, old(State()))
        decreases |code| - iter
      {
        ok := Pass();
        if !ok {
          return;
        }
      }
      return true;
    }
  
    /**
     * `runDistanceCheck(r)`: the nested loops that null out an opener and a closer of
     * the same shape `dist + 1` slots apart, then one "unmatched token" error for each
     * slot still holding a token, in order.
     */
    method RunDistanceCheck(r: PtrArray.PtrArray<Token>)
      requires r.Valid()
      modifies this, r
      ensures r.items == Outer(old(r.items), 1)
      ensures errors == old(errors) + Unmatched(file, Values(PtrArray.NonNull(r.items)))
      ensures State() == old(State()).(errors := errors)
    {
      DistanceLoops(r);
      var temp := r.Clear();
      ReportUnmatched(temp);
    }

    /** One "unmatched token" error for each token of `temp`, in order. */
    method ReportUnmatched(temp: PtrArray.PtrArray<Token>)
      requires forall j :: 0 <= j < |temp.items| ==> temp.items[j].Some?
      modifies this
      ensures errors == old(errors) + Unmatched(file, Values(temp.items))
      ensures State() == old(State()).(errors := errors)
    {
      var k := 0;
      while k < temp.Length()
        invariant 0 <= k <= |temp.items|
        invariant errors == old(errors) + Unmatched(file, Values(temp.items[..k]))
        invariant State() == old(State()).(errors := errors)
      {
        errors := errors + [CError(SYNTAX, file, UNMATCHED, temp.items[k].value)];
        k := k + 1;
      }
      assert temp.items[..k] == temp.items;
    }

    /**
     * `runStackCheck()`: the brackets in scan order through a stack of openers, then
     * `runDistanceCheck` on what is left.
     */
    method RunStackCheck()
      modifies this
      ensures errors == old(errors) + Unmatched(file, Values(PtrArray.NonNull(Outer(Wrap(StackCheck(old(stack))), 1))))
      ensures State() == old(State()).(errors := errors)
    {
      var r := new PtrArray.PtrArray<Token>(|stack| / 2);
      var i := 0;
      while i < |stack|
        invariant 0 <= i <= |stack| && r.Valid() && r.size >= 2
        invariant r.items == Wrap(StackCheck(stack[..i]))
        invariant State() == old(State())
      {
        assert stack[..i + 1][..i] == stack[..i];
        StackStepIn(r, stack[i], StackCheck(stack[..i]));
        i := i + 1;
      }
      assert stack[..i] == stack;
      RunDistanceCheck(r);
    }
  }

  /** One token of `runStackCheck` on the array `r` of openers. */
  method StackStepIn(r: PtrArray.PtrArray<Token>, t: Token, ghost left: seq<Token>)
    requires r.Valid() && r.size >= 2 && r.items == Wrap(left)
    modifies r
    ensures r.Valid() && r.size >= 2 && r.items == Wrap(StackStep(left, t))
  {
    var p := r.Last();
    if IsOpener(t.kind) {
      r.Push(Some(t));
    } else if t.kind == RPAREN {
      if p.Some? && p.value.kind == LPAREN {
        var _ := r.Pop();
      }
    } else if t.kind == RBRACKET {
      if p.Some? && p.value.kind == LBRACKET {
        var _ := r.Pop();
      }
    } else if t.kind == RCURLY {
      if p.Some? && p.value.kind == LCURLY {
        var _ := r.Pop();
      }
    } else {
      r.Push(Some(t));
    }
  }

  /** The nested loops of `runDistanceCheck`. */
  method DistanceLoops(r: PtrArray.PtrArray<Token>)
    requires r.Valid()
    modifies r
    ensures r.Valid() && r.items == Outer(old(r.items), 1)
  {
    var dist := 1;
    while dist < r.Length() - 1
      invariant r.Valid() && 1 <= dist
      invariant Outer(r.items, dist) == Outer(old(r.items), 1)
      decreases |r.items| - dist
    {
      DistanceRound(r, dist);
      dist := dist + 1;
    }
  }

  /** The inner loop of `runDistanceCheck` at one distance. */
  method DistanceRound(r: PtrArray.PtrArray<Token>, dist: int)
    requires r.Valid() && 1 <= dist
    modifies r
    ensures r.Valid() && r.items == Inner(old(r.items), dist, 0)
  {
    var i := 0;
    while i + dist < r.Length() - 1
      invariant r.Valid() && |r.items| == |old(r.items)| && 0 <= i
      invariant Inner(r.items, dist, i) == Inner(old(r.items), dist, 0)
      decreases |r.items| - i
    {
      ghost var before := r.items;
      assert Inner(before, dist, i) == Inner(PairStep(before, dist, i), dist, i + 1);
      var a := r.Get(i);
      var b := r.Get(i + dist + 1);
      if a.None? || b.None? {
        assert PairStep(before, dist, i) == before;
        i := i + 1;
        continue;
      }
      if Pairs(a.value.kind, b.value.kind) {
        r.Remove(i);
        r.Remove(i + dist + 1);
      }
      assert r.items == PairStep(before, dist, i);
      i := i + 1;
    }
  }

  /**
   * `tokenize(code, fname)`: `initTokenizer`, the scanning loop and the bracket checks;
   * `None` where the scanning loop never ends. `trimArray` only shrinks the capacity
   * of `tokens`.
   */
  method Tokenize(code: seq<char>, file: seq<char>) returns (r: Option<(seq<Token>, seq<CError>)>)
    requires NoNul(code)
    ensures r == TokenizeOf(code, file)
  {
    var t := new Tokenizer(code, file);
    var ok := t.Scanning();
    if !ok {
      return None;
    }
    t.RunStackCheck();
    return Some((t.tokens, t.errors));
  }
}
