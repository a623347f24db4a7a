/**
 * The token vocabulary of include/types.hpp: the `Types` enumeration, in its declared
 * order, and the `Token` record the lexer hands to the parser.
 */
module Tokens {
  import opened Base

  datatype Type =
    | ERROR
      // compare
    | CMP_EQ | CMP_NEQ | CMP_GT | CMP_GEQ | CMP_LT | CMP_LEQ
      // assign
    | CST_EQ | SET_EQ | EQ | ADD_EQ | SUB_EQ | MUL_EQ | DIV_EQ | INCR | DECR
    | L_AND_EQ | L_OR_EQ | B_AND_EQ | B_OR_EQ | B_XOR_EQ | POW_EQ | REM_EQ
    | R_SHIFT_EQ | L_SHIFT_EQ
      // keyword
    | AS | ASYNC | AWAIT | CASE | CLASS | DEFAULT | DO | ELSE | FALSE | FOR | FROM
    | FX | IF | IMPORT | NEW | RETURN | SELECT | SWITCH | TRUE | WHILE | NUL
      // type
    | STR | NAME | DEC | HEX | OCTAL | BINARY | DOT | SEMICOLON | NEWLINE | COMMA
    | AT | HASH | DOLLAR | QUERY | L_BRACKET | R_BRACKET | L_PAREN | R_PAREN
    | L_CURLY | R_CURLY | COLON | END
      // range
    | RANGE_EXCL | RANGE_L_IN | RANGE_R_IN | RANGE_INCL
      // operation
    | ADD | SUB | MUL | DIV | L_AND | L_OR | B_AND | B_OR | CARET | B_NOT | L_NOT
    | L_SHIFT | R_SHIFT | POW | REM
    | MAX_TOKENS

  /** The keyword kinds, `AS` through `NUL`. */
  predicate IsKeyword(t: Type)
  {
    t in {AS, ASYNC, AWAIT, CASE, CLASS, DEFAULT, DO, ELSE, FALSE, FOR, FROM, FX, IF,
          IMPORT, NEW, RETURN, SELECT, SWITCH, TRUE, WHILE, NUL}
  }

  /** The kinds of numeric literals. */
  predicate IsNumber(t: Type)
  {
    t == DEC || t == HEX || t == OCTAL || t == BINARY
  }

  /** `Token::Position`: line, start and end columns, and the absolute offsets. */
  datatype Position = Position(line: int, start: int, end: int, absStart: int, absEnd: int)

  /**
   * The `double` a numeric literal denotes, kept exact: `mantissa` scaled by `radix`
   * raised to `exponent`, divided instead of multiplied when `negative` is set.
   */
  datatype Num = Num(mantissa: real, radix: nat, exponent: nat, negative: bool)

  /**
   * The `value` union as the lexer fills it: nothing (zeroed), a pointer into the
   * allocation arena holding a copy of the text, or a number.
   */
  datatype Value = NoValue | Text(ptr: nat, text: seq<char>) | Numeric(n: Num)

  datatype Token = Token(kind: Type, pos: Position, value: Value, index: byte)
}
