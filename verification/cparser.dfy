/**
 * The token cursor and error recovery of the older recursive-descent parser,
 * src/parser.c: the global `parser.iterator` over the scanner's tokens, the cursor
 * primitives, the delimiter check, the two ways of skipping ahead after an error, and
 * the mapping of operator tokens to binary operators in `binaryExpr`.
 *
 * The first half states each primitive as a function of the token sequence and the
 * cursor; the `Parser` class updates the cursor and the error list in place and is
 * proved to follow those functions.
 */
module CParser {
  import opened Base
  import opened CTypes

  const PARSE := "Parse"
  const EXPECTED_DELIMITER := "expected delimiter"
  const INTERNAL_ERROR := "internal error"

  // ---------------------------------------------------------------------------------
  // The cursor

  /** `end()`: fewer than three tokens from the cursor on, so the last one is never read. */
  predicate EndAt(tokens: seq<Token>, it: int)
  {
    it > |tokens| - 3
  }

  /** Where the cursor can be: before the first token, or on a token that is not the last. */
  predicate InRange(tokens: seq<Token>, it: int)
  {
    it == -1 || 0 <= it <= |tokens| - 2
  }

  /** The token `peekNext()` makes up at the end: EOF at position zero. */
  const SyntheticEof := Token(EOF, Position(0, 0, 0, 0, 0))

  /** `peekNext()`: the token after the cursor, or the made-up EOF at the end. */
  function PeekAt(tokens: seq<Token>, it: int): Token
    requires InRange(tokens, it)
  {
    if EndAt(tokens, it) then SyntheticEof else tokens[it + 1]
  }

  /** `next()`: NULL and no move at the end; otherwise the cursor moves onto the next token. */
  function NextAt(tokens: seq<Token>, it: int): (r: (Option<Token>, int))
    requires InRange(tokens, it)
    ensures InRange(tokens, r.1)
  {
    if EndAt(tokens, it) then (None, it) else (Some(tokens[it + 1]), it + 1)
  }

  /** `prev()`: NULL and no move when `start()` holds (`iterator < 1`); otherwise one back. */
  function PrevAt(tokens: seq<Token>, it: int): (r: (Option<Token>, int))
    requires InRange(tokens, it)
    ensures InRange(tokens, r.1)
  {
    if it < 1 then (None, it) else (Some(tokens[it - 1]), it - 1)
  }

  /** `match(type)`: `next()` when `nextIs(type)`. */
  function MatchAt(tokens: seq<Token>, it: int, k: Type): (r: (bool, int))
    requires InRange(tokens, it)
    ensures InRange(tokens, r.1)
  {
    if PeekAt(tokens, it).kind == k then (true, NextAt(tokens, it).1) else (false, it)
  }

  /**
   * `delmt(throw)`: a `;` is consumed; a next token on another line than the current
   * one is accepted as it is; otherwise "expected delimiter" is recorded against the
   * current token, when `throw` is set.
   */
  function DelmtOf(tokens: seq<Token>, file: seq<char>, it: int, errors: seq<CError>, throw: bool): (r: (int, seq<CError>))
    requires InRange(tokens, it) && 0 <= it
    ensures InRange(tokens, r.0)
  {
    var (m, it1) := MatchAt(tokens, it, DELMT);
    if m then (it1, errors)
    else if tokens[it].pos.line != PeekAt(tokens, it).pos.line then (it, errors)
    else if throw then (it, errors + [CError(PARSE, file, EXPECTED_DELIMITER, tokens[it])])
    else (it, errors)
  }

  /** The loop of `psync`: `next()` while the next token is no `;` and on the current line. */
  function SameLine(tokens: seq<Token>, it: int): (r: int)
    requires InRange(tokens, it) && 0 <= it
    ensures InRange(tokens, r) && it <= r
    decreases |tokens| - it
  {
    if !EndAt(tokens, it) && PeekAt(tokens, it).kind != DELMT && tokens[it].pos.line == PeekAt(tokens, it).pos.line
    then SameLine(tokens, it + 1)
    else it
  }

  /** `psync()`: false at the end; otherwise one `next()` and then the loop. */
  function PsyncOf(tokens: seq<Token>, it: int): (r: (bool, int))
    requires InRange(tokens, it)
    ensures InRange(tokens, r.1)
  {
    if EndAt(tokens, it) then (false, it) else (true, SameLine(tokens, it + 1))
  }

  /** The kinds `synchronize` stops in front of: the start of a declaration or a statement. */
  predicate IsSyncKind(k: Type)
  {
    k == ASYNC || k == CLASS || k == DO || k == FOR || k == FROM || k == FUNC || k == IF ||
    k == RETURN || k == SWITCH || k == WHILE
  }

  /** `synchronize()`: tokens are skipped up to a statement start, or up to and including a `;`. */
  function SyncOf(tokens: seq<Token>, it: int): (r: int)
    requires InRange(tokens, it)
    ensures InRange(tokens, r) && it <= r
    decreases |tokens| - it
  {
    if EndAt(tokens, it) then it
    else
      var k := PeekAt(tokens, it).kind;
      if IsSyncKind(k) then it
      else if k == DELMT then it + 1
      else SyncOf(tokens, it + 1)
  }

  // ---------------------------------------------------------------------------------
  // Operators

  /**
   * The switch of `binaryExpr` on the operator token. LSHIFT is mapped to BIN_RSHIFT,
   * as the source does; kinds without a case give BIN_UNDEF.
   */
  function BinaryOpOf(k: Type): BinaryOperator
  {
    match k
    case ADD => BIN_ADD
    case SUB => BIN_SUB
    case MUL => BIN_MUL
    case DIV => BIN_DIV
    case LOR => BIN_LOR
    case BOR => BIN_BOR
    case REM => BIN_REM
    case POW => BIN_POW
    case LAND => BIN_LAND
    case BAND => BIN_BAND
    case BXOR => BIN_BXOR
    case RSHIFT => BIN_RSHIFT
    case LSHIFT => BIN_RSHIFT
    case CMP_EQ => BIN_EQ
    case CMP_GT => BIN_GT
    case CMP_LT => BIN_LT
    case CMP_NEQ => BIN_NEQ
    case CMP_LEQ => BIN_LEQ
    case CMP_GEQ => BIN_GEQ
    case _ => BIN_UNDEF
  }

  /** The operator token each binary operator is written with; UNDEF for BIN_UNDEF. */
  function OperatorToken(op: BinaryOperator): Type
  {
    match op
    case BIN_UNDEF => UNDEF
    case BIN_ADD => ADD
    case BIN_SUB => SUB
    case BIN_MUL => MUL
    case BIN_DIV => DIV
    case BIN_LAND => LAND
    case BIN_LOR => LOR
    case BIN_BAND => BAND
    case BIN_BOR => BOR
    case BIN_BXOR => BXOR
    case BIN_REM => REM
    case BIN_RSHIFT => RSHIFT
    case BIN_LSHIFT => LSHIFT
    case BIN_POW => POW
    case BIN_EQ => CMP_EQ
    case BIN_GT => CMP_GT
    case BIN_LT => CMP_LT
    case BIN_NEQ => CMP_NEQ
    case BIN_LEQ => CMP_LEQ
    case BIN_GEQ => CMP_GEQ
  }

  // ---------------------------------------------------------------------------------
  // The parser in place

  /** The global `parser`: the tokens, the file name, `iterator` and `errors`. */
  class Parser {
    const tokens: seq<Token>
    const file: seq<char>
    /** `iterator`. */
    var it: int
    var errors: seq<CError>

    ghost predicate Valid()
      reads this
    {
      InRange(tokens, it)
    }

    /** `initParser`: before the first token, with no errors. */
    constructor (tokens: seq<Token>, file: seq<char>)
      ensures Valid() && this.tokens == tokens && this.file == file && it == -1 && errors == []
    {
      this.tokens := tokens;
      this.file := file;
      it := -1;
      errors := [];
    }

    /** `end()`. */
    function End(): (b: bool)
      reads this
      ensures b <==> EndAt(tokens, it)
    {
      it > |tokens| - 3
    }

    /** `start()`: the cursor is before the second token. */
    function Start(): (b: bool)
      requires Valid()
      reads this
      ensures b <==> PrevAt(tokens, it).0.None?
    {
      it < 1
    }

    /** `next()`. */
    method Next() returns (t: Option<Token>)
      requires Valid()
      modifies this
      ensures Valid() && (t, it) == NextAt(tokens, old(it)) && errors == old(errors)
    {
      if End() {
        return None;
      }
      it := it + 1;
      t := Some(tokens[it]);
    }

    /** `prev()`. */
    method Prev() returns (t: Option<Token>)
      requires Valid()
      modifies this
      ensures Valid() && (t, it) == PrevAt(tokens, old(it)) && errors == old(errors)
    {
      if Start() {
        return None;
      }
      it := it - 1;
      t := Some(tokens[it]);
    }

    /** `peekNext()`. */
    function PeekNext(): (t: Token)
      requires Valid()
      reads this
      ensures t == PeekAt(tokens, it)
    {
      if End() then SyntheticEof else tokens[it + 1]
    }

    /** `current()`: the token under the cursor, which must be on one. */
    function Current(): (t: Token)
      requires Valid() && 0 <= it
      reads this
      ensures t == tokens[it]
    {
      tokens[it]
    }

    /** `nextIs(type)`; `peekNext()` never gives NULL. */
    function NextIs(k: Type): (b: bool)
      requires Valid()
      reads this
      ensures b <==> MatchAt(tokens, it, k).0
    {
      PeekNext().kind == k
    }

    /** `match(type)`. */
    method Match(k: Type) returns (m: bool)
      requires Valid()
      modifies this
      ensures Valid() && (m, it) == MatchAt(tokens, old(it), k) && errors == old(errors)
    {
      if NextIs(k) {
        var _ := Next();
        return true;
      }
      return false;
    }

    /** `delmt(throw)`; `current()` is only defined once a token has been read. */
    method Delmt(throw: bool)
      requires Valid() && 0 <= it
      modifies this
      ensures Valid() && (it, errors) == DelmtOf(tokens, file, old(it), old(errors), throw)
    {
      var m := Match(DELMT);
      if m {
        return;
      }
      if Current().pos.line != PeekNext().pos.line {
        return;
      }
      if throw {
        errors := errors + [CError(PARSE, file, EXPECTED_DELIMITER, Current())];
      }
    }

    /** `psync()`; the debug output is not modelled. */
    method Psync() returns (b: bool)
      requires Valid()
      modifies this
      ensures Valid() && (b, it) == PsyncOf(tokens, old(it)) && errors == old(errors)
    {
      if End() {
        return false;
      }
      var _ := Next();
      while !End() && PeekNext().kind != DELMT && Current().pos.line == PeekNext().pos.line
        invariant Valid() && 0 <= it && SameLine(tokens, it) == SameLine(tokens, old(it) + 1)
        invariant errors == old(errors)
        decreases |tokens| - it
      {
        var _ := Next();
      }
      return true;
    }

    /** `synchronize()`; the debug output is not modelled. */
    method Synchronize()
      requires Valid()
      modifies this
      ensures Valid() && it == SyncOf(tokens, old(it)) && errors == old(errors)
    {
      while !End()
        invariant Valid() && SyncOf(tokens, it) == SyncOf(tokens, old(it)) && errors == old(errors)
        decreases |tokens| - it
      {
        ghost var before := it;
        var k := PeekNext().kind;
        assert SyncOf(tokens, before) == if IsSyncKind(k) then before else if k == DELMT then before + 1 else SyncOf(tokens, before + 1);
        if IsSyncKind(k) {
          return;
        }
        var _ := Next();
        assert it == before + 1;
        if k == DELMT {
          return;
        }
      }
    }

    /**
     * The operator step of `binaryExpr`, on the current token: its binary operator,
     * with "internal error" recorded against it when it has none.
     */
    method CurrentOperator() returns (op: BinaryOperator)
      requires Valid() && 0 <= it
      modifies this
      ensures it == old(it) && op == BinaryOpOf(tokens[it].kind)
      ensures errors == old(errors) + if op == BIN_UNDEF then [CError(PARSE, file, INTERNAL_ERROR, tokens[it])] else []
    {
      op := BinaryOpOf(Current().kind);
      if op == BIN_UNDEF {
        errors := errors + [CError(PARSE, file, INTERNAL_ERROR, Current())];
      }
    }
  }
}
