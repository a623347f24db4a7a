/**
 * The Pratt code generator of src/parser.cpp (precedences in include/parser.h): a
 * table gives each token kind a precedence, a prefix handler (`nud`) and an infix
 * handler (`led`); `parse_expression` runs the prefix handler of the first token and
 * then, while the next token binds tighter than the threshold, its infix handler.
 * Handlers append opcodes to the chunk in postfix order and record names in the
 * symbol table.
 *
 * The lexer the parser pulls from is given as the sequence of tokens it produces,
 * followed by END for ever, which is what `Lexer::advance` returns once the text is
 * exhausted. `Logger::fatal` becomes a `Fatal` failure with its message; a write past
 * the 1024-byte chunk and a rule lookup past the end of the table, which the source
 * does not guard against, become `Undefined`.
 */
module Parsing {
  import opened Base
  import opened Tokens
  import opened Bytecode
  import Symbol

  // ---------------------------------------------------------------------------------
  // The rules table

  /** `enum class Precedence`, from NUL (-1) up to MAX (16). */
  datatype Precedence =
    | NUL | LIT | ASG | LOR | LND | BOR | XOR | BND | EQT | CMP | BSH | TRM | FCT | EXP
    | RNG | UNR | GRP | MAX

  /** The integer each precedence stands for. */
  function Level(p: Precedence): int
  {
    match p
    case NUL => -1
    case LIT => 0
    case ASG => 1
    case LOR => 2
    case LND => 3
    case BOR => 4
    case XOR => 5
    case BND => 6
    case EQT => 7
    case CMP => 8
    case BSH => 9
    case TRM => 10
    case FCT => 11
    case EXP => 12
    case RNG => 13
    case UNR => 14
    case GRP => 15
    case MAX => 16
  }

  /** The prefix handlers: none, `parse_fxn`, `parse_lit`, `parse_unr`, `parse_grp`, `parse_dcl`. */
  datatype Nud = NoNud | Fxn | Lit | Unr | Grp | Dcl

  /** The infix handlers: none, `parse_bin`, `parse_rng`. */
  datatype Led = NoLed | Bin | Rng

  datatype ParseRule = ParseRule(prec: Precedence, nud: Nud, led: Led)

  /** `get_rule`: the entry of `rules` for a kind. MAX_TOKENS is past the end of the table. */
  function Rule(k: Type): ParseRule
    requires k != MAX_TOKENS
  {
    ParseRule(PrecOf(k), NudOf(k), LedOf(k))
  }

  /** The precedence column of `rules`; every kind not listed has NUL. */
  function PrecOf(k: Type): Precedence
  {
    match k
    case ERROR => MAX
    case CMP_EQ | CMP_NEQ => EQT
    case CMP_GT | CMP_GEQ | CMP_LT | CMP_LEQ => CMP
    case CST_EQ | SET_EQ | EQ | ADD_EQ | SUB_EQ | MUL_EQ | DIV_EQ => ASG
    case INCR | DECR => UNR
    case L_AND_EQ | L_OR_EQ | B_AND_EQ | B_OR_EQ | B_XOR_EQ | POW_EQ | REM_EQ
      | R_SHIFT_EQ | L_SHIFT_EQ => ASG
    case STR | NAME | DEC | HEX | OCTAL | BINARY => LIT
    case L_PAREN => GRP
    case RANGE_EXCL | RANGE_L_IN | RANGE_R_IN | RANGE_INCL => RNG
    case ADD | SUB => TRM
    case MUL | DIV => FCT
    case L_AND => LND
    case L_OR => LOR
    case B_AND => BND
    case B_OR => BOR
    case CARET => XOR
    case B_NOT | L_NOT => UNR
    case POW => EXP
    case _ => Precedence.NUL
  }

  /** The prefix column of `rules`; every kind not listed has none. */
  function NudOf(k: Type): Nud
  {
    match k
    case FX => Fxn
    case STR | DEC | HEX | OCTAL | BINARY => Lit
    case NAME => Dcl
    case L_PAREN => Grp
    case ADD | SUB | B_NOT | L_NOT => Unr
    case _ => NoNud
  }

  /** The infix column of `rules`; every kind not listed has none. */
  function LedOf(k: Type): Led
  {
    match k
    case RANGE_EXCL | RANGE_L_IN | RANGE_R_IN | RANGE_INCL => Rng
    case ADD | SUB | MUL | DIV | L_AND | L_OR | B_AND | B_OR | CARET | POW => Bin
    case _ => NoLed
  }

  /** The opcode `parse_unr` writes after the operand: none for `+`. */
  function UnaryCode(k: Type): Option<Option<OpCode>>
  {
    match k
    case ADD => Some(None)
    case SUB => Some(Some(NEGATE))
    case L_NOT => Some(Some(NOT))
    case B_NOT => Some(Some(OpCode.B_NOT))
    case _ => None
  }

  /** The opcode `parse_bin` writes after the right operand. */
  function BinaryCode(k: Type): Option<OpCode>
  {
    match k
    case ADD => Some(OpCode.ADD)
    case SUB => Some(OpCode.SUB)
    case MUL => Some(OpCode.MUL)
    case DIV => Some(OpCode.DIV)
    case L_AND => Some(OpCode.L_AND)
    case L_OR => Some(OpCode.L_OR)
    case B_AND => Some(OpCode.B_AND)
    case B_OR => Some(OpCode.B_OR)
    case CARET => Some(B_XOR)
    case POW => Some(OpCode.POW)
    case _ => None
  }

  /** The opcode `parse_rng` writes after the right operand. */
  function RangeCode(k: Type): Option<OpCode>
  {
    match k
    case RANGE_EXCL => Some(OpCode.RANGE_EXCL)
    case RANGE_L_IN => Some(OpCode.RANGE_L_IN)
    case RANGE_R_IN => Some(OpCode.RANGE_R_IN)
    case RANGE_INCL => Some(OpCode.RANGE_INCL)
    case _ => None
  }

  // ---------------------------------------------------------------------------------
  // The token stream and the parser state

  /**
   * What the parser reads: the tokens the lexer hands out, and the object
   * representation of the `f64` member of a token's value union.
   */
  datatype Stream = Stream(toks: seq<Token>, f64: Value -> Bytes8)

  /** The token `Lexer::advance` returns once its text is exhausted. */
  const END_TOKEN: Token := Token(END, Position(0, 0, 0, 0, 0), NoValue, 0)

  /** A value-initialised `Token{}`: what `prev_token` holds before the first advance. */
  const ZERO_TOKEN: Token := Token(ERROR, Position(0, 0, 0, 0, 0), NoValue, 0)

  /** The `i`-th token the lexer hands out. */
  function TokenAt(toks: seq<Token>, i: nat): (t: Token)
    ensures i >= |toks| ==> t.kind == END
  {
    if i < |toks| then toks[i] else END_TOKEN
  }

  /** The token before the `i`-th, or `Token{}` before the first. */
  function PrevAt(toks: seq<Token>, i: nat): Token
  {
    if i == 0 then ZERO_TOKEN else TokenAt(toks, i - 1)
  }

  /** How many tokens of the sequence are still to come from position `i`. */
  function Rem(toks: seq<Token>, i: nat): nat
  {
    if i < |toks| then |toks| - i else 0
  }

  /**
   * The C string the `ptr` member of a token's value points to. The lexer attaches
   * text to every NAME and STR token; any other value reads as the empty string.
   */
  function TextOf(v: Value): (r: seq<char>)
    ensures NoNul(r)
  {
    if v.Text? then CStr(v.text) else []
  }

  /**
   * The parser between two steps: `current_token` is token `i` of the stream, the
   * chunk holds `out` up to its cursor, and `table` is the symbol table's slots.
   */
  datatype PState = PState(i: nat, out: seq<byte>, table: seq<Symbol.Symbol>)

  predicate Good(s: PState)
  {
    |s.out| <= MAX_INSTRUCTIONS && |s.table| == Symbol.SYMBOL_TABLE_SIZE
  }

  /** Why a parse stops early: `Logger::fatal` with its message, or undefined behaviour. */
  datatype Failure = Fatal(msg: string) | Undefined

  datatype Parsed = Ok(s: PState) | Fail(f: Failure)

  /** What a parse that ran `t` from `s` did: it moved forward and only appended code. */
  predicate Extends(s: PState, t: PState)
  {
    Good(t) && t.i >= s.i && s.out <= t.out
  }

  function Cur(src: Stream, s: PState): Token
  {
    TokenAt(src.toks, s.i)
  }

  /** `advance`: the current token becomes the previous one and the next one is pulled. */
  function Adv(s: PState): PState
  {
    s.(i := s.i + 1)
  }

  /** `consume`: advance past a token of kind `k`, or abort with `msg`. */
  function ConsumeOf(src: Stream, s: PState, k: Type, msg: string): (r: Parsed)
    ensures r.Ok? <==> Cur(src, s).kind == k
    ensures r.Ok? ==> r.s == Adv(s)
    ensures r.Fail? ==> r.f == Fatal(msg)
  {
    if Cur(src, s).kind == k then Ok(Adv(s)) else Fail(Fatal(msg))
  }

  /** A chunk write: the bytes go after the cursor, which moves past them. */
  function Write(s: PState, bytes: seq<byte>): (r: Parsed)
    requires Good(s)
    ensures r.Ok? <==> |s.out| + |bytes| <= MAX_INSTRUCTIONS
    ensures r.Ok? ==> r.s == s.(out := s.out + bytes) && Extends(s, r.s)
    ensures r.Fail? ==> r.f == Undefined
  {
    if |s.out| + |bytes| > MAX_INSTRUCTIONS then Fail(Undefined) else Ok(s.(out := s.out + bytes))
  }

  /** `symbols.insert`, whose result the parser ignores. */
  function Insert(s: PState, name: seq<char>, location: int, kind: Symbol.SymbolType): (r: PState)
    requires Good(s)
    ensures Good(r) && r.i == s.i && r.out == s.out
  {
    s.(table := Symbol.TableInsert(s.table, name, location, kind).1)
  }

  /** The ten bytes a numeric literal compiles to: MOVE, the index byte, the `double`. */
  function MoveCode(src: Stream, t: Token): (r: seq<byte>)
    ensures |r| == 10 && r[0] == OpByte(MOVE) && r[1] == t.index && r[2..] == src.f64(t.value)
  {
    [OpByte(MOVE), t.index] + src.f64(t.value)
  }

  // ---------------------------------------------------------------------------------
  // The handlers, as functions of the parser state

  /**
   * `parse_expression`: take the current token, run its prefix handler, then run
   * infix handlers while the next token's precedence is above `p`. On success it has
   * consumed at least the token it started on.
   */
  function Expr(src: Stream, s: PState, p: Precedence): (r: Parsed)
    requires Good(s)
    ensures r.Ok? ==> Extends(s, r.s) && r.s.i > s.i && s.i < |src.toks|
    decreases Rem(src.toks, s.i), 0
  {
    var token := Cur(src, s);
    if token.kind == MAX_TOKENS then Fail(Undefined)
    else if Rule(token.kind).nud == NoNud then Fail(Fatal("Unexpected token"))
    else
      var r1 := PrefixOf(src, Adv(s), token);
      if r1.Fail? then r1 else Loop(src, r1.s, p)
  }

  /** The call `rule.nud(parser, token)`, after `token` has been consumed. */
  function PrefixOf(src: Stream, s: PState, token: Token): (r: Parsed)
    requires Good(s) && token.kind != MAX_TOKENS && Rule(token.kind).nud != NoNud
    ensures r.Ok? ==> Extends(s, r.s)
    decreases Rem(src.toks, s.i), 2
  {
    match Rule(token.kind).nud
    case Fxn => FxnOf(src, s)
    case Lit => LitOf(src, s, token)
    case Unr => UnrOf(src, s, token)
    case Grp => GrpOf(src, s)
    case Dcl => DclOf(src, s)
  }

  /** The `while` of `parse_expression`: infix handlers while the next token binds tighter. */
  function Loop(src: Stream, s: PState, p: Precedence): (r: Parsed)
    requires Good(s)
    ensures r.Ok? ==> Extends(s, r.s)
    decreases Rem(src.toks, s.i), 1
  {
    var op := Cur(src, s);
    if op.kind == MAX_TOKENS then Fail(Undefined)
    else if Level(p) >= Level(Rule(op.kind).prec) then Ok(s)
    else
      var s1 := Adv(s);
      if op.kind == END then Ok(s1)
      else
        var led := Rule(op.kind).led;
        if led == NoLed then Fail(Fatal("Unexpected operator"))
        else
          var r1 := if led == Bin then BinOf(src, s1, op) else RngOf(src, s1, op);
          if r1.Fail? then r1 else Loop(src, r1.s, p)
  }

  /** `parse_fxn`: `fx name ( ) { e* }`, recorded as a FUNCTION at the body's first byte. */
  function FxnOf(src: Stream, s: PState): (r: Parsed)
    requires Good(s)
    ensures r.Ok? ==> Extends(s, r.s)
    decreases Rem(src.toks, s.i), 1
  {
    if Cur(src, s).kind != NAME then Fail(Fatal("Expected function name"))
    else if Cur(src, Adv(s)).kind != L_PAREN then Fail(Fatal("Expected '(' after function name"))
    else FxnOpenOf(src, Adv(Adv(s)), TextOf(Cur(src, s).value))
  }

  /** `parse_fxn` after `name (`: the `)`, FX_ENTRY, and the `{` of the body. */
  function FxnOpenOf(src: Stream, s: PState, name: seq<char>): (r: Parsed)
    requires Good(s)
    ensures r.Ok? ==> Extends(s, r.s)
    decreases Rem(src.toks, s.i), 3
  {
    if Cur(src, s).kind != R_PAREN then Fail(Fatal("Expected ')' after function name"))
    else
      var r1 := Write(Adv(s), [OpByte(FX_ENTRY)]);
      if r1.Fail? then r1
      else
        if Cur(src, r1.s).kind != L_CURLY then Fail(Fatal("Expected '{' to start function body"))
        else FxnBodyOf(src, Adv(r1.s), name)
  }

  /**
   * The rest of `parse_fxn` once `{` is consumed: the body, FX_EXIT, and the name
   * recorded at the position the body starts at.
   */
  function FxnBodyOf(src: Stream, s: PState, name: seq<char>): (r: Parsed)
    requires Good(s)
    ensures r.Ok? ==> Extends(s, r.s)
    decreases Rem(src.toks, s.i), 2
  {
    var r1 := Body(src, s);
    if r1.Fail? then r1
    else
      var r2 := Write(r1.s, [OpByte(FX_EXIT)]);
      if r2.Fail? then r2 else Ok(Insert(r2.s, name, |s.out|, Symbol.FUNCTION))
  }

  /** The body loop of `parse_fxn`: expressions until a `}` is matched. */
  function Body(src: Stream, s: PState): (r: Parsed)
    requires Good(s)
    ensures r.Ok? ==> Extends(s, r.s)
    decreases Rem(src.toks, s.i), 1
  {
    if Cur(src, s).kind == R_CURLY then Ok(Adv(s))
    else
      var r1 := Expr(src, s, Precedence.NUL);
      if r1.Fail? then r1 else Body(src, r1.s)
  }

  /** `parse_lit`: a number is moved onto the stack; a string only enters the symbol table. */
  function LitOf(src: Stream, s: PState, token: Token): (r: Parsed)
    requires Good(s)
    ensures r.Ok? ==> Extends(s, r.s)
    decreases Rem(src.toks, s.i), 1
  {
    match token.kind
    case DEC | HEX | OCTAL | BINARY => Write(s, MoveCode(src, token))
    case STR => Ok(Insert(s, TextOf(token.value), 0, Symbol.STR))
    case _ => Fail(Fatal("Unknown literal"))
  }

  /** `parse_unr`: the operand at the operator's precedence, then its opcode. */
  function UnrOf(src: Stream, s: PState, token: Token): (r: Parsed)
    requires Good(s) && token.kind != MAX_TOKENS
    ensures r.Ok? ==> Extends(s, r.s)
    decreases Rem(src.toks, s.i), 1
  {
    var r1 := Expr(src, s, Rule(token.kind).prec);
    if r1.Fail? then r1
    else
      match UnaryCode(token.kind)
      case None => Fail(Fatal("Unknown unary operator"))
      case Some(None) => r1
      case Some(Some(op)) => Write(r1.s, [OpByte(op)])
  }

  /** `parse_grp`: an expression, then a `)`. */
  function GrpOf(src: Stream, s: PState): (r: Parsed)
    requires Good(s)
    ensures r.Ok? ==> Extends(s, r.s)
    decreases Rem(src.toks, s.i), 1
  {
    var r1 := Expr(src, s, Precedence.NUL);
    if r1.Fail? then r1 else ConsumeOf(src, r1.s, R_PAREN, "Expected ')'")
  }

  /**
   * `parse_dcl`, the prefix handler of a NAME: `NAME = e` records the fixed name "test"
   * as I32; `: e` and `( e )` only compile the expression.
   */
  function DclOf(src: Stream, s: PState): (r: Parsed)
    requires Good(s)
    ensures r.Ok? ==> Extends(s, r.s)
    decreases Rem(src.toks, s.i), 1
  {
    match Cur(src, s).kind
    case NAME => AssignOf(src, Adv(s))
    case COLON => Expr(src, Adv(s), Precedence.NUL)
    case L_PAREN => DclParenOf(src, Adv(s))
    case _ => Fail(Fatal("Unknown declaration"))
  }

  /** `parse_dcl` after `NAME (`: an expression at `GRP` and the closing parenthesis. */
  function DclParenOf(src: Stream, s: PState): (r: Parsed)
    requires Good(s)
    ensures r.Ok? ==> Extends(s, r.s)
    decreases Rem(src.toks, s.i), 1
  {
    var r1 := Expr(src, s, GRP);
    if r1.Fail? then r1 else ConsumeOf(src, r1.s, R_PAREN, "Expected ')'")
  }

  /** `parse_dcl` after `NAME NAME`: `= e`, then the fixed name "test" recorded as I32. */
  function AssignOf(src: Stream, s: PState): (r: Parsed)
    requires Good(s)
    ensures r.Ok? ==> Extends(s, r.s)
    decreases Rem(src.toks, s.i), 1
  {
    var r1 := ConsumeOf(src, s, EQ, "Expected assignment");
    if r1.Fail? then r1
    else
      var r2 := Expr(src, r1.s, Precedence.NUL);
      if r2.Fail? then r2 else Ok(Insert(r2.s, "test", 0, Symbol.I32))
  }

  /** `parse_bin`: the right operand at the operator's own precedence, then the opcode. */
  function BinOf(src: Stream, s: PState, token: Token): (r: Parsed)
    requires Good(s) && token.kind != MAX_TOKENS
    ensures r.Ok? ==> Extends(s, r.s)
    decreases Rem(src.toks, s.i), 1
  {
    var r1 := Expr(src, s, Rule(token.kind).prec);
    if r1.Fail? then r1
    else
      match BinaryCode(token.kind)
      case None => Fail(Fatal("Unknown binary operator"))
      case Some(op) => Write(r1.s, [OpByte(op)])
  }

  /** `parse_rng`: the right operand at RNG, then the range opcode. */
  function RngOf(src: Stream, s: PState, token: Token): (r: Parsed)
    requires Good(s) && token.kind != MAX_TOKENS
    ensures r.Ok? ==> Extends(s, r.s)
    decreases Rem(src.toks, s.i), 1
  {
    var r1 := Expr(src, s, Rule(token.kind).prec);
    if r1.Fail? then r1
    else
      match RangeCode(token.kind)
      case None => Fail(Fatal("Unknown range operator"))
      case Some(op) => Write(r1.s, [OpByte(op)])
  }

  /** What a caller of a handler sees: nothing on success, else why it stopped. */
  function FailureOf(r: Parsed): (e: Option<Failure>)
    ensures e.None? <==> r.Ok?
  {
    if r.Ok? then None else Some(r.f)
  }

  // ---------------------------------------------------------------------------------
  // The Parser class

  /**
   * `class Parser`: the token stream standing for the lexer, the chunk it writes to,
   * its own symbol table, and the current and previous tokens.
   */
  class Parser {
    const toks: seq<Token>
    const f64: Value -> Bytes8
    var index: nat
    var current: Token
    var previous: Token
    const chunk: Chunk
    const symbols: Symbol.SymbolTable

    ghost predicate Valid()
      reads this, chunk, symbols, symbols.table
    {
      chunk.Valid() && symbols.Valid() &&
      current == TokenAt(toks, index) && previous == PrevAt(toks, index)
    }

    ghost function Src(): Stream
      reads this
    {
      Stream(toks, f64)
    }

    /** The parser's state: where it is in the stream, the chunk's code, the table's slots. */
    ghost function State(): (s: PState)
      reads this, chunk, chunk.code, symbols, symbols.table
      requires Valid()
      ensures Good(s)
    {
      PState(index, chunk.code[..chunk.pos], symbols.table[..])
    }

    /** A handler reported `err` and left the parser where the specification `r` says. */
    ghost predicate Reflects(r: Parsed, err: Option<Failure>)
      reads this, chunk, chunk.code, symbols, symbols.table
    {
      err == FailureOf(r) && (r.Ok? ==> Valid() && State() == r.s)
    }

    /** `Parser(lexer, chunk)`: an empty symbol table, then one `advance`. */
    constructor (toks: seq<Token>, f64: Value -> Bytes8, chunk: Chunk)
      requires chunk.Valid()
      ensures Valid() && fresh(symbols) && fresh(symbols.table)
      ensures this.toks == toks && this.f64 == f64 && this.chunk == chunk
      ensures current == TokenAt(toks, 0) && previous == ZERO_TOKEN
      ensures State() == PState(0, chunk.code[..chunk.pos], seq(Symbol.SYMBOL_TABLE_SIZE, _ => Symbol.EMPTY))
    {
      this.toks := toks;
      this.f64 := f64;
      this.chunk := chunk;
      symbols := new Symbol.SymbolTable();
      index := 0;
      previous := ZERO_TOKEN;
      current := TokenAt(toks, 0);
    }

    /** `advance`: `prev_token = current_token; current_token = lexer.advance();`. */
    method Advance()
      requires Valid()
      modifies this
      ensures Valid() && index == old(index) + 1 && previous == old(current)
      ensures State() == Adv(old(State()))
    {
      previous := current;
      index := index + 1;
      current := TokenAt(toks, index);
    }

    /** `consume`: advance past a token of kind `kind` and return it, or abort with `error`. */
    method Consume(kind: Type, error: string) returns (token: Token, err: Option<Failure>)
      requires Valid()
      modifies this
      ensures var r := ConsumeOf(Src(), old(State()), kind, error);
        err == FailureOf(r) && (r.Ok? ==> Valid() && State() == r.s && token == old(current))
    {
      if current.kind == kind {
        Advance();
        return previous, None;
      }
      return current, Some(Fatal(error));
    }

    /** `match`: advance past a token of kind `kind` and say whether there was one. */
    method Match(kind: Type) returns (b: bool)
      requires Valid()
      modifies this
      ensures Valid() && b == (old(current).kind == kind)
      ensures State() == if b then Adv(old(State())) else old(State())
    {
      if current.kind == kind {
        Advance();
        return true;
      }
      return false;
    }

    /** A one-byte `chunk.write`, after checking the byte still fits. */
    method Emit(op: OpCode) returns (err: Option<Failure>)
      requires Valid()
      modifies chunk, chunk.code
      ensures Reflects(Write(old(State()), [OpByte(op)]), err)
    {
      if chunk.pos + 1 > MAX_INSTRUCTIONS {
        return Some(Undefined);
      }
      StoreExtends(chunk.code[..], chunk.pos, [OpByte(op)]);
      chunk.WriteOp(op);
      return None;
    }

    /** `parse_expression(parser, p)`. */
    method ParseExpression(p: Precedence) returns (err: Option<Failure>)
      requires Valid()
      modifies this, chunk, chunk.code, symbols.table
      ensures Reflects(Expr(Src(), old(State()), p), err)
      decreases Rem(toks, index), 0
    {
      var token := current;
      Advance();
      if token.kind == MAX_TOKENS {
        return Some(Undefined);
      }
      if Rule(token.kind).nud == NoNud {
        return Some(Fatal("Unexpected token"));
      }
      err := Prefix(token);
      if err.Some? {
        return;
      }
      err := InfixLoop(p);
    }

    /** The `while` of `parse_expression`. */
    method InfixLoop(p: Precedence) returns (err: Option<Failure>)
      requires Valid()
      modifies this, chunk, chunk.code, symbols.table
      ensures Reflects(Loop(Src(), old(State()), p), err)
      decreases Rem(toks, index), 1
    {
      ghost var s0 := State();
      while true
        invariant Valid() && index >= old(index)
        invariant Loop(Src(), s0, p) == Loop(Src(), State(), p)
        decreases Rem(toks, index)
      {
        var op := current;
        if op.kind == MAX_TOKENS {
          return Some(Undefined);
        }
        var rule := Rule(op.kind);
        if Level(p) >= Level(rule.prec) {
          return None;
        }
        Advance();
        if op.kind == END {
          return None;
        }
        if rule.led == NoLed {
          return Some(Fatal("Unexpected operator"));
        }
        if rule.led == Bin {
          err := ParseBin(op);
        } else {
          err := ParseRng(op);
        }
        if err.Some? {
          return;
        }
      }
    }

    /** `rule.nud(parser, token)`. */
    method Prefix(token: Token) returns (err: Option<Failure>)
      requires Valid() && token.kind != MAX_TOKENS && Rule(token.kind).nud != NoNud
      modifies this, chunk, chunk.code, symbols.table
      ensures Reflects(PrefixOf(Src(), old(State()), token), err)
      decreases Rem(toks, index), 2
    {
      match Rule(token.kind).nud
      case Fxn => err := ParseFxn();
      case Lit => err := ParseLit(token);
      case Unr => err := ParseUnr(token);
      case Grp => err := ParseGrp();
      case Dcl => err := ParseDcl();
    }

    /** `parse_fxn`: the name and the `(`. */
    method ParseFxn() returns (err: Option<Failure>)
      requires Valid()
      modifies this, chunk, chunk.code, symbols.table
      ensures Reflects(FxnOf(Src(), old(State())), err)
      decreases Rem(toks, index), 1
    {
      var nameToken;
      nameToken, err := Consume(NAME, "Expected function name");
      if err.Some? {
        return;
      }
      var name := TextOf(nameToken.value);
      var _, err2 := Consume(L_PAREN, "Expected '(' after function name");
      if err2.Some? {
        return err2;
      }
      err := FxnOpen(name);
    }

    /** `parse_fxn` after `name (`: the `)`, FX_ENTRY and the `{`. */
    method FxnOpen(name: seq<char>) returns (err: Option<Failure>)
      requires Valid() && NoNul(name)
      modifies this, chunk, chunk.code, symbols.table
      ensures Reflects(FxnOpenOf(Src(), old(State()), name), err)
      decreases Rem(toks, index), 3
    {
      ghost var s0 := State();
      var closed := Match(R_PAREN);
      if !closed {
        return Some(Fatal("Expected ')' after function name"));
      }
      ghost var s1 := State();
      assert s1 == Adv(s0);
      err := Emit(FX_ENTRY);
      if err.Some? {
        return;
      }
      ghost var s2 := State();
      assert Write(s1, [OpByte(FX_ENTRY)]) == Ok(s2);
      var _, err2 := Consume(L_CURLY, "Expected '{' to start function body");
      if err2.Some? {
        return err2;
      }
      assert FxnOpenOf(Src(), s0, name) == FxnBodyOf(Src(), State(), name);
      err := FxnBody(name);
    }

    /** `parse_fxn` from the body on: expressions until `}`, FX_EXIT, the FUNCTION entry. */
    method FxnBody(name: seq<char>) returns (err: Option<Failure>)
      requires Valid() && NoNul(name)
      modifies this, chunk, chunk.code, symbols.table
      ensures Reflects(FxnBodyOf(Src(), old(State()), name), err)
      decreases Rem(toks, index), 2
    {
      var start := chunk.pos;
      err := BodyLoop();
      if err.Some? {
        return;
      }
      err := Emit(FX_EXIT);
      if err.Some? {
        return;
      }
      var _ := symbols.Insert(name, start, Symbol.FUNCTION);
    }

    /** `while (!parser.match(Types::R_CURLY)) parse_expression(parser, Precedence::NUL);` */
    method BodyLoop() returns (err: Option<Failure>)
      requires Valid()
      modifies this, chunk, chunk.code, symbols.table
      ensures Reflects(Body(Src(), old(State())), err)
      decreases Rem(toks, index), 1
    {
      ghost var s0 := State();
      while true
        invariant Valid()
        invariant Body(Src(), s0) == Body(Src(), State())
        decreases Rem(toks, index)
      {
        ghost var t := State();
        var closed := Match(R_CURLY);
        if closed {
          assert Body(Src(), t) == Ok(State());
          return None;
        }
        err := ParseExpression(Precedence.NUL);
        if err.Some? {
          assert Body(Src(), t) == Expr(Src(), t, Precedence.NUL);
          return;
        }
        assert Body(Src(), t) == Body(Src(), State());
      }
    }

    /** `parse_lit`. */
    method ParseLit(token: Token) returns (err: Option<Failure>)
      requires Valid()
      modifies this, chunk, chunk.code, symbols.table
      ensures Reflects(LitOf(Src(), old(State()), token), err)
      decreases Rem(toks, index), 1
    {
      ghost var s0 := State();
      match token.kind
      case DEC | HEX | OCTAL | BINARY =>
        assert LitOf(Src(), s0, token) == Write(s0, MoveCode(Src(), token));
        err := EmitMove(token);
      case STR =>
        assert LitOf(Src(), s0, token) == Ok(Insert(s0, TextOf(token.value), 0, Symbol.STR));
        var _ := symbols.Insert(TextOf(token.value), 0, Symbol.STR);
        return None;
      case _ =>
        return Some(Fatal("Unknown literal"));
    }

    /** The three writes of `parse_lit` for a number: MOVE, `token.index`, `token.value.f64`. */
    method EmitMove(token: Token) returns (err: Option<Failure>)
      requires Valid()
      modifies chunk, chunk.code
      ensures Reflects(Write(old(State()), MoveCode(Src(), token)), err)
    {
      if chunk.pos + 10 > MAX_INSTRUCTIONS {
        return Some(Undefined);
      }
      ghost var before := chunk.code[..chunk.pos];
      StoreExtends(chunk.code[..], chunk.pos, [OpByte(MOVE)]);
      chunk.WriteOp(MOVE);
      StoreExtends(chunk.code[..], chunk.pos, [token.index]);
      chunk.WriteU8(token.index);
      StoreExtends(chunk.code[..], chunk.pos, f64(token.value));
      chunk.WriteDouble(f64(token.value));
      assert chunk.code[..chunk.pos] == before + MoveCode(Src(), token);
      return None;
    }

    /** `parse_unr`. */
    method ParseUnr(token: Token) returns (err: Option<Failure>)
      requires Valid() && token.kind != MAX_TOKENS
      modifies this, chunk, chunk.code, symbols.table
      ensures Reflects(UnrOf(Src(), old(State()), token), err)
      decreases Rem(toks, index), 1
    {
      err := ParseExpression(Rule(token.kind).prec);
      if err.Some? {
        return;
      }
      match UnaryCode(token.kind)
      case None => return Some(Fatal("Unknown unary operator"));
      case Some(None) => return None;
      case Some(Some(op)) => err := Emit(op);
    }

    /** `parse_grp`. */
    method ParseGrp() returns (err: Option<Failure>)
      requires Valid()
      modifies this, chunk, chunk.code, symbols.table
      ensures Reflects(GrpOf(Src(), old(State())), err)
      decreases Rem(toks, index), 1
    {
      err := ParseExpression(Precedence.NUL);
      if err.Some? {
        return;
      }
      var _, err2 := Consume(R_PAREN, "Expected ')'");
      return err2;
    }

    /** `parse_dcl`. */
    method ParseDcl() returns (err: Option<Failure>)
      requires Valid()
      modifies this, chunk, chunk.code, symbols.table
      ensures Reflects(DclOf(Src(), old(State())), err)
      decreases Rem(toks, index), 1
    {
      assert Cur(Src(), State()) == current;
      match current.kind
      case NAME => err := DclName();
      case COLON => err := DclColon();
      case L_PAREN => err := DclParen();
      case _ => err := Some(Fatal("Unknown declaration"));
    }

    /** The variable declaration of `parse_dcl`: `NAME = e`. */
    method DclName() returns (err: Option<Failure>)
      requires Valid() && current.kind == NAME
      modifies this, chunk, chunk.code, symbols.table
      ensures Reflects(AssignOf(Src(), Adv(old(State()))), err)
      decreases Rem(toks, index), 0
    {
      var _, _ := Consume(NAME, "Expected variable name");
      err := Assign();
    }

    /** `parse_dcl` on `NAME :`: compile the expression that follows. */
    method DclColon() returns (err: Option<Failure>)
      requires Valid() && current.kind == COLON
      modifies this, chunk, chunk.code, symbols.table
      ensures Reflects(Expr(Src(), Adv(old(State())), Precedence.NUL), err)
      decreases Rem(toks, index), 0
    {
      var _, _ := Consume(COLON, "Expected colon");
      err := ParseExpression(Precedence.NUL);
    }

    /** `parse_dcl` on `NAME (`: a parenthesised expression at `GRP`. */
    method DclParen() returns (err: Option<Failure>)
      requires Valid() && current.kind == L_PAREN
      modifies this, chunk, chunk.code, symbols.table
      ensures Reflects(DclParenOf(Src(), Adv(old(State()))), err)
      decreases Rem(toks, index), 0
    {
      var _, _ := Consume(L_PAREN, "Expected '('");
      err := ParseExpression(GRP);
      if err.Some? {
        return;
      }
      var _, err2 := Consume(R_PAREN, "Expected ')'");
      return err2;
    }

    /** `parse_dcl` after `NAME NAME`. */
    method Assign() returns (err: Option<Failure>)
      requires Valid()
      modifies this, chunk, chunk.code, symbols.table
      ensures Reflects(AssignOf(Src(), old(State())), err)
      decreases Rem(toks, index), 1
    {
      var _, err2 := Consume(EQ, "Expected assignment");
      if err2.Some? {
        return err2;
      }
      err := ParseExpression(Precedence.NUL);
      if err.Some? {
        return;
      }
      var _ := symbols.Insert("test", 0, Symbol.I32);
    }

    /** `parse_bin`. */
    method ParseBin(token: Token) returns (err: Option<Failure>)
      requires Valid() && token.kind != MAX_TOKENS
      modifies this, chunk, chunk.code, symbols.table
      ensures Reflects(BinOf(Src(), old(State()), token), err)
      decreases Rem(toks, index), 1
    {
      err := ParseExpression(Rule(token.kind).prec);
      if err.Some? {
        return;
      }
      match BinaryCode(token.kind)
      case None => return Some(Fatal("Unknown binary operator"));
      case Some(op) => err := Emit(op);
    }

    /** `parse_rng`. */
    method ParseRng(token: Token) returns (err: Option<Failure>)
      requires Valid() && token.kind != MAX_TOKENS
      modifies this, chunk, chunk.code, symbols.table
      ensures Reflects(RngOf(Src(), old(State()), token), err)
      decreases Rem(toks, index), 1
    {
      err := ParseExpression(Rule(token.kind).prec);
      if err.Some? {
        return;
      }
      match RangeCode(token.kind)
      case None => return Some(Fatal("Unknown range operator"));
      case Some(op) => err := Emit(op);
    }
  }
}
