/**
 * The vocabulary of the older C front end (src/types.h): token kinds, positions,
 * tokens, the error records the scanner and parser collect, and the operator
 * enumerations of the syntax tree. `_EOF` and `_NULL` are spelled `EOF` and `NULL`,
 * since a Dafny name cannot start with an underscore.
 */
module CTypes {

  datatype Type =
    | UNDEF
      // compare
    | CMP_EQ | CMP_GT | CMP_LT | CMP_NEQ | CMP_LEQ | CMP_GEQ
      // assign
    | CST_EQ | SET_EQ | EQ | ADD_EQ | SUB_EQ | MUL_EQ | DIV_EQ | INCR | DECR
    | LAND_EQ | LOR_EQ | BAND_EQ | BOR_EQ | BXOR_EQ | POW_EQ | REM_EQ | RSHIFT_EQ | LSHIFT_EQ
      // keyword
    | AS | ASYNC | AWAIT | CASE | CLASS | DEFAULT | DO | ELSE | FALSE | FOR | FROM | FUNC
    | FX | FXN | IF | IMPORT | NEW | RETURN | SWITCH | TRUE | WHILE | NULL
      // type
    | STR | NAME | DEC | DOT | DELMT | NEWLINE | SEP | AT | HASH | DOLLAR | QUERY
    | LBRACKET | RBRACKET | LPAREN | RPAREN | LCURLY | RCURLY | HEX | OCTAL | BIN | COLON | EOF
      // operation
    | ADD | SUB | MUL | DIV | LAND | LOR | BAND | BOR | BXOR | BNOT | LNOT | LSHIFT | RSHIFT | POW | REM

  /** `Position`: the line, the start and end columns, and the absolute offsets. */
  datatype Position = Position(line: int, start: int, end: int, absStart: int, absEnd: int)

  datatype Token = Token(kind: Type, pos: Position)

  /** What `error(kind, file, message, token)` records. */
  datatype CError = CError(kind: string, file: seq<char>, message: string, token: Token)

  datatype BinaryOperator =
    | BIN_UNDEF | BIN_ADD | BIN_SUB | BIN_MUL | BIN_DIV | BIN_LAND | BIN_LOR | BIN_BAND
    | BIN_BOR | BIN_BXOR | BIN_REM | BIN_RSHIFT | BIN_LSHIFT | BIN_POW
    | BIN_EQ | BIN_GT | BIN_LT | BIN_NEQ | BIN_LEQ | BIN_GEQ

  datatype UnaryOperator = UNARY_UNDEF | UNARY_BNOT | UNARY_LNOT | UNARY_NEG | UNARY_INCR | UNARY_DECR

  datatype AssignmentOperator =
    | ASGN_UNDEF | ASGN_EQ | ASGN_ADD | ASGN_SUB | ASGN_MUL | ASGN_DIV | ASGN_LAND | ASGN_LOR
    | ASGN_BAND | ASGN_BOR | ASGN_BXOR | ASGN_REM | ASGN_RSHIFT | ASGN_LSHIFT

  /** The opening brackets `(`, `[` and `{`. */
  predicate IsOpener(t: Type)
  {
    t == LPAREN || t == LBRACKET || t == LCURLY
  }

  /** The closing brackets `)`, `]` and `}`. */
  predicate IsCloser(t: Type)
  {
    t == RPAREN || t == RBRACKET || t == RCURLY
  }

  /** The opener a closer pairs with. */
  function OpenerOf(t: Type): (o: Type)
    requires IsCloser(t)
    ensures IsOpener(o)
  {
    if t == RPAREN then LPAREN else if t == RBRACKET then LBRACKET else LCURLY
  }
}
