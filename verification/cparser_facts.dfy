/**
 * Properties of the token cursor and the error recovery of src/parser.c.
 */
module CParserFacts {
  import opened Base
  import opened CTypes
  import opened CParser

  // ---------------------------------------------------------------------------------
  // The cursor

  /** `prev()` undoes a `next()` that moved off a token. */
  lemma NextThenPrev(tokens: seq<Token>, it: int)
    requires InRange(tokens, it) && 0 <= it && !EndAt(tokens, it)
    ensures NextAt(tokens, it) == (Some(tokens[it + 1]), it + 1)
    ensures PrevAt(tokens, NextAt(tokens, it).1) == (Some(tokens[it]), it)
  {
  }

  /** `next()` undoes a `prev()` that moved. */
  lemma PrevThenNext(tokens: seq<Token>, it: int)
    requires InRange(tokens, it) && 1 <= it
    ensures PrevAt(tokens, it) == (Some(tokens[it - 1]), it - 1)
    ensures NextAt(tokens, PrevAt(tokens, it).1) == (Some(tokens[it]), it)
  {
  }

  /**
   * `match(type)` succeeds exactly when the next token has that kind, and then moves one
   * token on, except at the end, where EOF matches the made-up token without a move.
   */
  lemma MatchMoves(tokens: seq<Token>, it: int, k: Type)
    requires InRange(tokens, it)
    ensures MatchAt(tokens, it, k).0 <==> (if EndAt(tokens, it) then k == EOF else tokens[it + 1].kind == k)
    ensures MatchAt(tokens, it, k).1 == if MatchAt(tokens, it, k).0 && !EndAt(tokens, it) then it + 1 else it
  {
  }

  // ---------------------------------------------------------------------------------
  // The delimiter check

  /**
   * `delmt(throw)` consumes the next token exactly when it is `;`, and records one
   * "expected delimiter" against the current token exactly when `throw` is set, no `;`
   * follows and the next token is on the current line.
   */
  lemma DelmtReports(tokens: seq<Token>, file: seq<char>, it: int, errors: seq<CError>, throw: bool)
    requires InRange(tokens, it) && 0 <= it
    ensures var next := PeekAt(tokens, it);
      DelmtOf(tokens, file, it, errors, throw).0 == (if next.kind == DELMT && !EndAt(tokens, it) then it + 1 else it)
    ensures var next := PeekAt(tokens, it);
      var missing := throw && next.kind != DELMT && tokens[it].pos.line == next.pos.line;
      DelmtOf(tokens, file, it, errors, throw).1
        == errors + if missing then [CError(PARSE, file, EXPECTED_DELIMITER, tokens[it])] else []
  {
  }

  /**
   * At the end no delimiter is ever missing: the made-up EOF sits on line 0, which no
   * real token does.
   */
  lemma DelmtAtEnd(tokens: seq<Token>, file: seq<char>, it: int, errors: seq<CError>, throw: bool)
    requires InRange(tokens, it) && 0 <= it && EndAt(tokens, it) && tokens[it].pos.line != 0
    ensures DelmtOf(tokens, file, it, errors, throw) == (it, errors)
  {
  }

  // ---------------------------------------------------------------------------------
  // Skipping ahead

  /**
   * The loop of `psync` stops at the end, before a `;`, or before a token on another
   * line; every token it passes over is on the starting token's line and is no `;`.
   */
  lemma {:induction false} SameLineStops(tokens: seq<Token>, it: int)
    requires InRange(tokens, it) && 0 <= it
    ensures var r := SameLine(tokens, it);
      EndAt(tokens, r) || PeekAt(tokens, r).kind == DELMT || tokens[r].pos.line != PeekAt(tokens, r).pos.line
    ensures var r := SameLine(tokens, it);
      forall j :: it < j <= r ==> tokens[j].kind != DELMT && tokens[j].pos.line == tokens[it].pos.line
    decreases |tokens| - it
  {
    if !EndAt(tokens, it) && PeekAt(tokens, it).kind != DELMT && tokens[it].pos.line == PeekAt(tokens, it).pos.line {
      SameLineStops(tokens, it + 1);
    }
  }

  /**
   * `psync()` is false exactly at the end. Otherwise it consumes at least one token and
   * stops as `SameLineStops` says, past tokens on the line of the first one it took.
   */
  lemma PsyncStops(tokens: seq<Token>, it: int)
    requires InRange(tokens, it)
    ensures PsyncOf(tokens, it).0 <==> !EndAt(tokens, it)
    ensures var (b, r) := PsyncOf(tokens, it);
      b ==> it < r &&
            (EndAt(tokens, r) || PeekAt(tokens, r).kind == DELMT || tokens[r].pos.line != PeekAt(tokens, r).pos.line) &&
            forall j :: it + 1 < j <= r ==> tokens[j].kind != DELMT && tokens[j].pos.line == tokens[it + 1].pos.line
  {
    if !EndAt(tokens, it) {
      SameLineStops(tokens, it + 1);
    }
  }

  /**
   * `synchronize()` stops at the end, in front of a declaration or statement keyword,
   * or right after a `;`; it passes over no such keyword, and over no `;` but the last
   * token it takes.
   */
  lemma {:induction false} SyncStops(tokens: seq<Token>, it: int)
    requires InRange(tokens, it)
    ensures var r := SyncOf(tokens, it);
      EndAt(tokens, r) || IsSyncKind(PeekAt(tokens, r).kind) || (it < r && tokens[r].kind == DELMT)
    ensures var r := SyncOf(tokens, it);
      forall j :: it < j <= r ==> !IsSyncKind(tokens[j].kind) && (tokens[j].kind == DELMT ==> j == r)
    decreases |tokens| - it
  {
    if !EndAt(tokens, it) {
      var k := PeekAt(tokens, it).kind;
      if !IsSyncKind(k) && k != DELMT {
        SyncStops(tokens, it + 1);
      }
    }
  }

  /** A keyword that starts a declaration or a statement is left for the parser to read. */
  lemma SyncKeepsKeyword(tokens: seq<Token>, it: int)
    requires InRange(tokens, it) && !EndAt(tokens, it) && IsSyncKind(tokens[it + 1].kind)
    ensures SyncOf(tokens, it) == it
  {
  }

  // ---------------------------------------------------------------------------------
  // Operators

  /**
   * Every binary operator but BIN_LSHIFT comes from its own token; BIN_LSHIFT comes
   * from none, since `<>` (LSHIFT) is mapped to BIN_RSHIFT.
   */
  lemma OperatorRoundTrip(op: BinaryOperator)
    ensures op != BIN_UNDEF && op != BIN_LSHIFT ==> BinaryOpOf(OperatorToken(op)) == op
    ensures op == BIN_LSHIFT ==> BinaryOpOf(OperatorToken(op)) == BIN_RSHIFT
  {
  }

  /**
   * A token with an operator is that operator's own token, except LSHIFT; any other
   * token gives BIN_UNDEF, so `binaryExpr` records "internal error" for it.
   */
  lemma TokenRoundTrip(k: Type)
    ensures BinaryOpOf(k) != BIN_UNDEF && k != LSHIFT ==> OperatorToken(BinaryOpOf(k)) == k
    ensures BinaryOpOf(k) != BIN_LSHIFT
    ensures BinaryOpOf(k) == BIN_UNDEF <==> OperatorToken(BinaryOpOf(k)) == UNDEF
  {
  }
}
