/**
 * How the handlers of src/parser.cpp combine: single steps of `parse_expression` and
 * its loop, and what short token sequences compile to, which shows the binding and
 * the associativity the rules table gives.
 */
module ParsingExamples {
  import opened Base
  import opened Tokens
  import opened Bytecode
  import opened Parsing
  import Symbol
  import Logger

  // ---------------------------------------------------------------------------------
  // Single steps

  /** The one-byte code of a binary operator token. */
  function OpOf(t: Token): seq<byte>
  {
    if BinaryCode(t.kind).Some? then [OpByte(BinaryCode(t.kind).value)] else []
  }

  /** A token without a prefix handler stops `parse_expression` with "Unexpected token". */
  lemma NoPrefixAborts(src: Stream, s: PState, p: Precedence)
    requires Good(s) && Cur(src, s).kind != MAX_TOKENS && NudOf(Cur(src, s).kind) == NoNud
    ensures Expr(src, s, p) == Fail(Fatal("Unexpected token"))
  {
  }

  /** A numeric literal first: its ten bytes, then the infix loop on the next token. */
  lemma ExprOfNumber(src: Stream, s: PState, p: Precedence)
    requires Good(s) && IsNumber(Cur(src, s).kind) && |s.out| + 10 <= MAX_INSTRUCTIONS
    ensures Expr(src, s, p) == Loop(src, PState(s.i + 1, s.out + MoveCode(src, Cur(src, s)), s.table), p)
  {
    var t := Cur(src, s);
    assert Rule(t.kind).nud == Lit;
    assert LitOf(src, Adv(s), t) == Ok(PState(s.i + 1, s.out + MoveCode(src, t), s.table));
    assert PrefixOf(src, Adv(s), t) == LitOf(src, Adv(s), t);
  }

  /**
   * The logger's width for MOVE is the ten bytes the parser emits for a numeric
   * literal, so the disassembler lists a compiled literal as one instruction.
   */
  lemma MoveStride(src: Stream, t: Token)
    ensures Logger.Stride(OpByte(MOVE)) == |MoveCode(src, t)| == 10
    ensures Logger.Starts(MoveCode(src, t), 10, 0) == [0]
  {
    var code := MoveCode(src, t);
    assert Logger.Starts(code, 10, 0) == [0] + Logger.Starts(code, 10, 10);
  }

  /** The loop stops, consuming nothing, at a token that does not bind tighter than `p`. */
  lemma LoopStops(src: Stream, s: PState, p: Precedence)
    requires Good(s) && Cur(src, s).kind != MAX_TOKENS && Level(p) >= Level(PrecOf(Cur(src, s).kind))
    ensures Loop(src, s, p) == Ok(s)
  {
  }

  /**
   * The loop at a binary operator that binds tighter than `p`: the right operand at the
   * operator's own precedence, the opcode, and round again.
   */
  lemma LoopBinaryStep(src: Stream, s: PState, p: Precedence)
    requires Good(s) && Cur(src, s).kind != MAX_TOKENS && LedOf(Cur(src, s).kind) == Bin
    requires Level(p) < Level(PrecOf(Cur(src, s).kind))
    ensures var k := Cur(src, s).kind;
      BinaryCode(k).Some? &&
      Loop(src, s, p) ==
        var r := Expr(src, Adv(s), PrecOf(k));
        if r.Fail? then r
        else
          var w := Write(r.s, [OpByte(BinaryCode(k).value)]);
          if w.Fail? then w else Loop(src, w.s, p)
  {
    var op := Cur(src, s);
    assert Rule(op.kind).led == Bin && Rule(op.kind).prec == PrecOf(op.kind);
    BinaryAboveBottom(op.kind);
    assert op.kind != END;
    assert Loop(src, s, p) == (var r := BinOf(src, Adv(s), op); if r.Fail? then r else Loop(src, r.s, p));
  }

  /** The loop after a binary operator's right operand and opcode went through. */
  lemma LoopBinaryOk(src: Stream, s: PState, p: Precedence, t: PState, u: PState)
    requires Good(s) && Good(t) && Cur(src, s).kind != MAX_TOKENS && LedOf(Cur(src, s).kind) == Bin
    requires Level(p) < Level(PrecOf(Cur(src, s).kind))
    requires Expr(src, Adv(s), PrecOf(Cur(src, s).kind)) == Ok(t) && |t.out| < MAX_INSTRUCTIONS
    requires Loop(src, PState(t.i, t.out + OpOf(Cur(src, s)), t.table), p) == Ok(u)
    ensures Loop(src, s, p) == Ok(u)
  {
    LoopBinaryStep(src, s, p);
    assert Write(t, OpOf(Cur(src, s))) == Ok(PState(t.i, t.out + OpOf(Cur(src, s)), t.table));
  }

  /** Past the last token the loop stops at END without consuming it. */
  lemma LoopAtEnd(src: Stream, s: PState, p: Precedence)
    requires Good(s) && s.i >= |src.toks|
    ensures Loop(src, s, p) == Ok(s)
  {
    LoopStops(src, s, p);
  }

  /** The last token is a numeric literal: its MOVE, and the loop stops at END. */
  lemma LastOperand(src: Stream, s: PState, p: Precedence)
    requires Good(s) && s.i + 1 == |src.toks| && IsNumber(src.toks[s.i].kind)
    requires |s.out| + 10 <= MAX_INSTRUCTIONS
    ensures Expr(src, s, p) == Ok(PState(s.i + 1, s.out + MoveCode(src, src.toks[s.i]), s.table))
  {
    ExprOfNumber(src, s, p);
    LoopAtEnd(src, PState(s.i + 1, s.out + MoveCode(src, src.toks[s.i]), s.table), p);
  }

  /** A numeric literal followed by a token that does not bind tighter than `p`. */
  lemma InnerOperand(src: Stream, s: PState, p: Precedence)
    requires Good(s) && s.i + 1 < |src.toks| && IsNumber(src.toks[s.i].kind)
    requires |s.out| + 10 <= MAX_INSTRUCTIONS
    requires src.toks[s.i + 1].kind != MAX_TOKENS && Level(p) >= Level(PrecOf(src.toks[s.i + 1].kind))
    ensures Expr(src, s, p) == Ok(PState(s.i + 1, s.out + MoveCode(src, src.toks[s.i]), s.table))
  {
    ExprOfNumber(src, s, p);
    LoopStops(src, PState(s.i + 1, s.out + MoveCode(src, src.toks[s.i]), s.table), p);
  }

  // ---------------------------------------------------------------------------------
  // Examples

  /** The tokens `a o1 b o2 c`: numeric literals and binary operators. */
  predicate ThreeOperandStream(src: Stream)
  {
    |src.toks| == 5 &&
    IsNumber(src.toks[0].kind) && IsNumber(src.toks[2].kind) && IsNumber(src.toks[4].kind) &&
    LedOf(src.toks[1].kind) == Bin && LedOf(src.toks[3].kind) == Bin &&
    src.toks[1].kind != MAX_TOKENS && src.toks[3].kind != MAX_TOKENS
  }

  /** The tail `o2 c` of `a o1 b o2 c`, when `o2` binds tighter than `p`. */
  lemma TailOperation(src: Stream, x: seq<byte>, table: seq<Symbol.Symbol>, p: Precedence)
    requires ThreeOperandStream(src) && |table| == Symbol.SYMBOL_TABLE_SIZE
    requires |x| + 11 <= MAX_INSTRUCTIONS && Level(p) < Level(PrecOf(src.toks[3].kind))
    ensures Loop(src, PState(3, x, table), p) ==
      Ok(PState(5, x + MoveCode(src, src.toks[4]) + OpOf(src.toks[3]), table))
  {
    var c, o2 := MoveCode(src, src.toks[4]), OpOf(src.toks[3]);
    LastOperand(src, PState(4, x, table), PrecOf(src.toks[3].kind));
    BinaryAboveBottom(src.toks[3].kind);
    assert |o2| <= 1;
    LoopAtEnd(src, PState(5, x + c + o2, table), p);
    assert Cur(src, PState(3, x, table)) == src.toks[3] && Adv(PState(3, x, table)) == PState(4, x, table);
    LoopBinaryOk(src, PState(3, x, table), p, PState(5, x + c, table), PState(5, x + c + o2, table));
  }

  /** The part `b o2 c` of `a o1 b o2 c` at a precedence `o2` binds tighter than. */
  lemma RightOperand(src: Stream, x: seq<byte>, table: seq<Symbol.Symbol>, p: Precedence)
    requires ThreeOperandStream(src) && |table| == Symbol.SYMBOL_TABLE_SIZE
    requires |x| + 21 <= MAX_INSTRUCTIONS && Level(p) < Level(PrecOf(src.toks[3].kind))
    ensures Expr(src, PState(2, x, table), p) ==
      Ok(PState(5, x + MoveCode(src, src.toks[2]) + MoveCode(src, src.toks[4]) + OpOf(src.toks[3]), table))
  {
    assert Cur(src, PState(2, x, table)) == src.toks[2];
    ExprOfNumber(src, PState(2, x, table), p);
    TailOperation(src, x + MoveCode(src, src.toks[2]), table, p);
  }

  /** Every binary operator's precedence is at least `LOR`, above the bottom level `NUL`. */
  lemma BinaryAboveBottom(k: Type)
    requires LedOf(k) == Bin
    ensures Level(PrecOf(k)) >= Level(Precedence.LOR)
  {
  }

  /** A whole line that starts with a numeric literal. */
  lemma FirstOperand(src: Stream, table: seq<Symbol.Symbol>, u: PState)
    requires |src.toks| > 0 && IsNumber(src.toks[0].kind) && |table| == Symbol.SYMBOL_TABLE_SIZE
    requires Loop(src, PState(1, MoveCode(src, src.toks[0]), table), Precedence.NUL) == Ok(u)
    ensures Expr(src, PState(0, [], table), Precedence.NUL) == Ok(u)
  {
    ExprOfNumber(src, PState(0, [], table), Precedence.NUL);
    assert [] + MoveCode(src, src.toks[0]) == MoveCode(src, src.toks[0]);
  }

  /**
   * `a o1 b o2 c` where `o2` binds no tighter than `o1` compiles to `a b o1 c o2`:
   * operators of one precedence, `**` included, associate to the left.
   */
  lemma LeftAssociates(src: Stream, table: seq<Symbol.Symbol>)
    requires ThreeOperandStream(src) && |table| == Symbol.SYMBOL_TABLE_SIZE
    requires Level(PrecOf(src.toks[3].kind)) <= Level(PrecOf(src.toks[1].kind))
    ensures var a, b, c := MoveCode(src, src.toks[0]), MoveCode(src, src.toks[2]), MoveCode(src, src.toks[4]);
      Expr(src, PState(0, [], table), Precedence.NUL) ==
        Ok(PState(5, a + b + OpOf(src.toks[1]) + c + OpOf(src.toks[3]), table))
  {
    var a, b, c := MoveCode(src, src.toks[0]), MoveCode(src, src.toks[2]), MoveCode(src, src.toks[4]);
    var o1, o2 := OpOf(src.toks[1]), OpOf(src.toks[3]);
    var done := PState(5, a + b + o1 + c + o2, table);
    assert |o1| <= 1;
    TailOperation(src, a + b + o1, table, Precedence.NUL);
    InnerOperand(src, PState(2, a, table), PrecOf(src.toks[1].kind));
    assert Cur(src, PState(1, a, table)) == src.toks[1] && Adv(PState(1, a, table)) == PState(2, a, table);
    BinaryAboveBottom(src.toks[1].kind);
    LoopBinaryOk(src, PState(1, a, table), Precedence.NUL, PState(3, a + b, table), done);
    FirstOperand(src, table, done);
  }

  /**
   * `a o1 b o2 c` where `o2` binds tighter than `o1` compiles to `a b c o2 o1`: so
   * `2+3*4` moves 2, 3 and 4, multiplies, then adds.
   */
  lemma TighterFirst(src: Stream, table: seq<Symbol.Symbol>)
    requires ThreeOperandStream(src) && |table| == Symbol.SYMBOL_TABLE_SIZE
    requires Level(PrecOf(src.toks[3].kind)) > Level(PrecOf(src.toks[1].kind))
    ensures var a, b, c := MoveCode(src, src.toks[0]), MoveCode(src, src.toks[2]), MoveCode(src, src.toks[4]);
      Expr(src, PState(0, [], table), Precedence.NUL) ==
        Ok(PState(5, a + b + c + OpOf(src.toks[3]) + OpOf(src.toks[1]), table))
  {
    var a, b, c := MoveCode(src, src.toks[0]), MoveCode(src, src.toks[2]), MoveCode(src, src.toks[4]);
    var o1, o2 := OpOf(src.toks[1]), OpOf(src.toks[3]);
    var done := PState(5, a + b + c + o2 + o1, table);
    var s1, t := PState(1, a, table), PState(5, a + b + c + o2, table);
    assert Cur(src, s1) == src.toks[1] && Adv(s1) == PState(2, a, table);
    RightOperand(src, a, table, PrecOf(src.toks[1].kind));
    assert Expr(src, Adv(s1), PrecOf(Cur(src, s1).kind)) == Ok(t);
    assert |o2| <= 1;
    LoopAtEnd(src, done, Precedence.NUL);
    assert PState(t.i, t.out + OpOf(Cur(src, s1)), t.table) == done;
    BinaryAboveBottom(src.toks[1].kind);
    LoopBinaryOk(src, s1, Precedence.NUL, t, done);
    FirstOperand(src, table, done);
  }

  // ---------------------------------------------------------------------------------
  // Aborts

  /** The loop at a token with a precedence above `p` but no infix handler. */
  lemma LoopNoLed(src: Stream, s: PState, p: Precedence)
    requires Good(s) && Cur(src, s).kind != MAX_TOKENS && Cur(src, s).kind != END
    requires Level(p) < Level(PrecOf(Cur(src, s).kind)) && LedOf(Cur(src, s).kind) == NoLed
    ensures Loop(src, s, p) == Fail(Fatal("Unexpected operator"))
  {
    assert Rule(Cur(src, s).kind).led == NoLed;
  }

  /**
   * Two numeric literals in a row: LIT binds tighter than NUL, so the loop looks for an
   * infix handler of the second one and aborts.
   */
  lemma AdjacentLiteralsAbort(src: Stream, table: seq<Symbol.Symbol>)
    requires |src.toks| >= 2 && IsNumber(src.toks[0].kind) && IsNumber(src.toks[1].kind)
    requires |table| == Symbol.SYMBOL_TABLE_SIZE
    ensures Expr(src, PState(0, [], table), Precedence.NUL) == Fail(Fatal("Unexpected operator"))
  {
    var s1 := PState(1, MoveCode(src, src.toks[0]), table);
    assert Cur(src, s1) == src.toks[1];
    LoopNoLed(src, s1, Precedence.NUL);
    ExprOfNumber(src, PState(0, [], table), Precedence.NUL);
    assert [] + MoveCode(src, src.toks[0]) == MoveCode(src, src.toks[0]);
  }

  /**
   * `( e`: the group compiles `e` and then demands `)`; so it succeeds exactly when
   * `e` does and a `)` follows, and then its code is `e`'s.
   */
  lemma GroupNeedsParen(src: Stream, s: PState)
    requires Good(s)
    ensures var e := Expr(src, s, Precedence.NUL);
      (GrpOf(src, s).Ok? <==> e.Ok? && Cur(src, e.s).kind == R_PAREN) &&
      (GrpOf(src, s).Ok? ==> GrpOf(src, s).s == Adv(e.s)) &&
      (e.Ok? && Cur(src, e.s).kind != R_PAREN ==> GrpOf(src, s) == Fail(Fatal("Expected ')'")))
  {
  }

  /** A group that fails stops `parse_expression` with the group's failure. */
  lemma GroupFails(src: Stream, s: PState, p: Precedence)
    requires Good(s) && Cur(src, s).kind == L_PAREN && GrpOf(src, Adv(s)).Fail?
    ensures Expr(src, s, p) == GrpOf(src, Adv(s))
  {
    assert PrefixOf(src, Adv(s), Cur(src, s)) == GrpOf(src, Adv(s));
  }

  /** A group whose expression is not followed by `)`. */
  lemma GroupUnclosed(src: Stream, s: PState, t: PState)
    requires Good(s) && Expr(src, s, Precedence.NUL) == Ok(t) && Cur(src, t).kind != R_PAREN
    ensures GrpOf(src, s) == Fail(Fatal("Expected ')'"))
  {
  }

  /** `( a` and then the end of the text: "Expected ')'". */
  lemma UnclosedGroupAborts(src: Stream, table: seq<Symbol.Symbol>)
    requires |src.toks| == 2 && src.toks[0].kind == L_PAREN && IsNumber(src.toks[1].kind)
    requires |table| == Symbol.SYMBOL_TABLE_SIZE
    ensures Expr(src, PState(0, [], table), Precedence.NUL) == Fail(Fatal("Expected ')'"))
  {
    var s1, a := PState(1, [], table), MoveCode(src, src.toks[1]);
    LastOperand(src, s1, Precedence.NUL);
    assert [] + a == a;
    GroupUnclosed(src, s1, PState(2, a, table));
    GroupFails(src, PState(0, [], table), Precedence.NUL);
  }

  // ---------------------------------------------------------------------------------
  // Prefix operators

  /** The opcode a prefix operator token leaves after its operand: none for `+`. */
  function UnOpOf(t: Token): seq<byte>
  {
    match UnaryCode(t.kind)
    case Some(Some(op)) => [OpByte(op)]
    case _ => []
  }

  /** A prefix operator: its operand at the operator's precedence, its opcode, the loop. */
  lemma UnaryOk(src: Stream, s: PState, p: Precedence, t: PState, u: PState)
    requires Good(s) && Good(t) && NudOf(Cur(src, s).kind) == Unr
    requires Expr(src, Adv(s), PrecOf(Cur(src, s).kind)) == Ok(t) && |t.out| < MAX_INSTRUCTIONS
    requires Loop(src, PState(t.i, t.out + UnOpOf(Cur(src, s)), t.table), p) == Ok(u)
    ensures Expr(src, s, p) == Ok(u)
  {
    var k := Cur(src, s).kind;
    assert Rule(k).nud == Unr && Rule(k).prec == PrecOf(k);
    assert UnaryCode(k).Some?;
    assert PrefixOf(src, Adv(s), Cur(src, s)) == UnrOf(src, Adv(s), Cur(src, s));
    if UnaryCode(k).value.None? {
      assert t.out + UnOpOf(Cur(src, s)) == t.out;
    }
  }

  /** The tokens `u a o b`: a prefix operator, numeric literals and a binary operator. */
  predicate PrefixedStream(src: Stream)
  {
    |src.toks| == 4 && NudOf(src.toks[0].kind) == Unr &&
    IsNumber(src.toks[1].kind) && IsNumber(src.toks[3].kind) &&
    LedOf(src.toks[2].kind) == Bin && src.toks[2].kind != MAX_TOKENS
  }

  /**
   * `u a o b` where `o` binds tighter than the prefix operator: the operator applies to
   * `a o b`, so `-3*4` negates the product.
   */
  lemma PrefixLoosest(src: Stream, table: seq<Symbol.Symbol>)
    requires PrefixedStream(src) && |table| == Symbol.SYMBOL_TABLE_SIZE
    requires Level(PrecOf(src.toks[2].kind)) > Level(PrecOf(src.toks[0].kind))
    ensures var a, b := MoveCode(src, src.toks[1]), MoveCode(src, src.toks[3]);
      Expr(src, PState(0, [], table), Precedence.NUL) ==
        Ok(PState(4, a + b + OpOf(src.toks[2]) + UnOpOf(src.toks[0]), table))
  {
    var a, b := MoveCode(src, src.toks[1]), MoveCode(src, src.toks[3]);
    var o, u := OpOf(src.toks[2]), UnOpOf(src.toks[0]);
    var pu := PrecOf(src.toks[0].kind);
    var s2 := PState(2, a, table);
    var done := PState(4, a + b + o + u, table);
    assert |o| <= 1 && |u| <= 1;
    LastOperand(src, PState(3, a, table), PrecOf(src.toks[2].kind));
    LoopAtEnd(src, PState(4, a + b + o, table), pu);
    assert Cur(src, s2) == src.toks[2] && Adv(s2) == PState(3, a, table);
    LoopBinaryOk(src, s2, pu, PState(4, a + b, table), PState(4, a + b + o, table));
    ExprOfNumber(src, PState(1, [], table), pu);
    assert [] + a == a;
    LoopAtEnd(src, done, Precedence.NUL);
    assert Cur(src, PState(0, [], table)) == src.toks[0] && Adv(PState(0, [], table)) == PState(1, [], table);
    UnaryOk(src, PState(0, [], table), Precedence.NUL, PState(4, a + b + o, table), done);
  }

  /**
   * `u a o b` where `o` binds no tighter than the prefix operator: the operator applies
   * to `a` alone, so `!3*4` applies NOT before the multiplication.
   */
  lemma PrefixTightest(src: Stream, table: seq<Symbol.Symbol>)
    requires PrefixedStream(src) && |table| == Symbol.SYMBOL_TABLE_SIZE
    requires Level(PrecOf(src.toks[2].kind)) <= Level(PrecOf(src.toks[0].kind))
    ensures var a, b := MoveCode(src, src.toks[1]), MoveCode(src, src.toks[3]);
      Expr(src, PState(0, [], table), Precedence.NUL) ==
        Ok(PState(4, a + UnOpOf(src.toks[0]) + b + OpOf(src.toks[2]), table))
  {
    var a, b := MoveCode(src, src.toks[1]), MoveCode(src, src.toks[3]);
    var o, u := OpOf(src.toks[2]), UnOpOf(src.toks[0]);
    var pu := PrecOf(src.toks[0].kind);
    var s2 := PState(2, a + u, table);
    var done := PState(4, a + u + b + o, table);
    assert |o| <= 1 && |u| <= 1;
    InnerOperand(src, PState(1, [], table), pu);
    assert [] + a == a;
    LastOperand(src, PState(3, a + u, table), PrecOf(src.toks[2].kind));
    LoopAtEnd(src, done, Precedence.NUL);
    assert Cur(src, s2) == src.toks[2] && Adv(s2) == PState(3, a + u, table);
    BinaryAboveBottom(src.toks[2].kind);
    LoopBinaryOk(src, s2, Precedence.NUL, PState(4, a + u + b, table), done);
    assert Cur(src, PState(0, [], table)) == src.toks[0] && Adv(PState(0, [], table)) == PState(1, [], table);
    UnaryOk(src, PState(0, [], table), Precedence.NUL, PState(2, a, table), done);
  }

  /** Prefix `+` compiles its operand, at `TRM`, and nothing else. */
  lemma PlusEmitsNothing(src: Stream, s: PState, token: Token)
    requires Good(s) && token.kind == Type.ADD
    ensures UnrOf(src, s, token) == Expr(src, s, TRM)
  {
  }

  // ---------------------------------------------------------------------------------
  // Functions, declarations and strings

  /**
   * `name ( ) {` and a body that compiles: FX_ENTRY, the body's code, FX_EXIT, with
   * `name` recorded as a FUNCTION at the position just after FX_ENTRY.
   */
  lemma FunctionLayout(src: Stream, s: PState, b: PState)
    requires Good(s) && |s.out| < MAX_INSTRUCTIONS && s.i + 3 < |src.toks|
    requires src.toks[s.i].kind == NAME && src.toks[s.i + 1].kind == L_PAREN
    requires src.toks[s.i + 2].kind == R_PAREN && src.toks[s.i + 3].kind == L_CURLY
    requires Body(src, PState(s.i + 4, s.out + [OpByte(FX_ENTRY)], s.table)) == Ok(b)
    requires |b.out| < MAX_INSTRUCTIONS
    ensures FxnOf(src, s) ==
      Ok(Insert(PState(b.i, b.out + [OpByte(FX_EXIT)], b.table),
                TextOf(src.toks[s.i].value), |s.out| + 1, Symbol.FUNCTION))
    ensures s.out + [OpByte(FX_ENTRY)] <= b.out
  {
    var name := TextOf(src.toks[s.i].value);
    var o := PState(s.i + 2, s.out, s.table);
    FunctionNamed(src, s, o);
    assert PState(o.i + 2, o.out + [OpByte(FX_ENTRY)], o.table) == PState(s.i + 4, s.out + [OpByte(FX_ENTRY)], s.table);
    FunctionOpens(src, o, name, b, |s.out| + 1);
  }

  /** `parse_fxn` at `name (`: on to the `)`, with the name taken from the first token. */
  lemma FunctionNamed(src: Stream, s: PState, o: PState)
    requires Good(s) && s.i + 1 < |src.toks| && o == PState(s.i + 2, s.out, s.table)
    requires src.toks[s.i].kind == NAME && src.toks[s.i + 1].kind == L_PAREN
    ensures Good(o) && FxnOf(src, s) == FxnOpenOf(src, o, TextOf(src.toks[s.i].value))
  {
    assert Cur(src, s) == src.toks[s.i];
    assert Cur(src, Adv(s)) == src.toks[s.i + 1];
    assert Adv(Adv(s)) == o;
  }

  /** `parse_fxn` from the `)`: FX_ENTRY, the `{`, then the body, which starts at `at`. */
  lemma FunctionOpens(src: Stream, o: PState, name: seq<char>, b: PState, at: int)
    requires Good(o) && |o.out| < MAX_INSTRUCTIONS && o.i + 1 < |src.toks|
    requires src.toks[o.i].kind == R_PAREN && src.toks[o.i + 1].kind == L_CURLY
    requires Body(src, PState(o.i + 2, o.out + [OpByte(FX_ENTRY)], o.table)) == Ok(b)
    requires |b.out| < MAX_INSTRUCTIONS && at == |o.out| + 1
    ensures FxnOpenOf(src, o, name) ==
      Ok(Insert(PState(b.i, b.out + [OpByte(FX_EXIT)], b.table), name, at, Symbol.FUNCTION))
    ensures o.out + [OpByte(FX_ENTRY)] <= b.out
  {
    var q := PState(o.i + 2, o.out + [OpByte(FX_ENTRY)], o.table);
    FunctionEntry(src, o, name, q);
    FunctionCloses(src, q, name, b, at);
  }

  /** `parse_fxn` at the `)`: FX_ENTRY written and the `{` consumed. */
  lemma FunctionEntry(src: Stream, o: PState, name: seq<char>, q: PState)
    requires Good(o) && |o.out| < MAX_INSTRUCTIONS && o.i + 1 < |src.toks|
    requires src.toks[o.i].kind == R_PAREN && src.toks[o.i + 1].kind == L_CURLY
    requires q == PState(o.i + 2, o.out + [OpByte(FX_ENTRY)], o.table)
    ensures Good(q) && FxnOpenOf(src, o, name) == FxnBodyOf(src, q, name)
  {
    var e := PState(o.i + 1, o.out + [OpByte(FX_ENTRY)], o.table);
    assert Cur(src, o) == src.toks[o.i] && Cur(src, e) == src.toks[o.i + 1];
    assert Write(Adv(o), [OpByte(FX_ENTRY)]) == Ok(e);
    assert Adv(e) == q;
  }

  /**
   * `parse_fxn` after the `{`: the body, FX_EXIT, and the name recorded at `at`, where
   * the body starts.
   */
  lemma FunctionCloses(src: Stream, q: PState, name: seq<char>, b: PState, at: int)
    requires Good(q) && Body(src, q) == Ok(b) && |b.out| < MAX_INSTRUCTIONS && at == |q.out|
    ensures FxnBodyOf(src, q, name) ==
      Ok(Insert(PState(b.i, b.out + [OpByte(FX_EXIT)], b.table), name, at, Symbol.FUNCTION))
    ensures q.out <= b.out
  {
    assert Write(b, [OpByte(FX_EXIT)]) == Ok(PState(b.i, b.out + [OpByte(FX_EXIT)], b.table));
  }

  /**
   * `fx f ( ) { }` as the whole line, from a fresh table: FX_ENTRY and FX_EXIT, and `f`
   * is then found as a FUNCTION at position 1.
   */
  lemma EmptyFunction(src: Stream)
    requires |src.toks| == 6 && src.toks[0].kind == FX && src.toks[1].kind == NAME
    requires src.toks[2].kind == L_PAREN && src.toks[3].kind == R_PAREN
    requires src.toks[4].kind == L_CURLY && src.toks[5].kind == R_CURLY
    requires var f := TextOf(src.toks[1].value); f != [] && |f| <= Symbol.STORED_NAME_MAX
    ensures var r := Expr(src, PState(0, [], Symbol.FreshTable()), Precedence.NUL);
      var f := TextOf(src.toks[1].value);
      r.Ok? && r.s.out == [OpByte(FX_ENTRY), OpByte(FX_EXIT)] && Symbol.TableLookup(r.s.table, f).Some? &&
      r.s.table[Symbol.TableLookup(r.s.table, f).value] == Symbol.Symbol(Symbol.FUNCTION, true, 1, f)
  {
    var t := Symbol.FreshTable();
    var f := TextOf(src.toks[1].value);
    var s1 := PState(1, [], t);
    var b := PState(6, [OpByte(FX_ENTRY)], t);
    assert Cur(src, PState(5, [OpByte(FX_ENTRY)], t)) == src.toks[5];
    assert Body(src, PState(5, [OpByte(FX_ENTRY)], t)) == Ok(b);
    FunctionLayout(src, s1, b);
    var done := Insert(PState(6, [OpByte(FX_ENTRY), OpByte(FX_EXIT)], t), f, 1, Symbol.FUNCTION);
    assert FxnOf(src, s1) == Ok(done);
    LoopAtEnd(src, done, Precedence.NUL);
    assert Cur(src, PState(0, [], t)) == src.toks[0] && NudOf(FX) == Fxn;
    assert PrefixOf(src, s1, src.toks[0]) == FxnOf(src, s1);
    assert Expr(src, PState(0, [], t), Precedence.NUL) == Ok(done);
    Symbol.InsertIntoFresh(f, 1, Symbol.FUNCTION);
    Symbol.InsertThenLookup(t, f, 1, Symbol.FUNCTION);
  }

  /**
   * `NAME NAME = e`: the second NAME is where `parse_dcl` starts; whatever the names,
   * the fixed name "test" is recorded as an I32 at location 0 after `e`'s code.
   */
  lemma AssignRecordsTest(src: Stream, s: PState, t: PState)
    requires Good(s) && s.i + 1 < |src.toks|
    requires src.toks[s.i].kind == NAME && src.toks[s.i + 1].kind == EQ
    requires Expr(src, PState(s.i + 2, s.out, s.table), Precedence.NUL) == Ok(t)
    ensures DclOf(src, s) == Ok(Insert(t, "test", 0, Symbol.I32))
  {
    assert Cur(src, s) == src.toks[s.i] && Cur(src, Adv(s)) == src.toks[s.i + 1];
    assert ConsumeOf(src, Adv(s), EQ, "Expected assignment") == Ok(PState(s.i + 2, s.out, s.table));
  }

  /**
   * A string literal compiles to no code and moves past nothing; its text goes into the
   * symbol table as a STR at location 0, where a lookup then finds it.
   */
  lemma StringLiteralRecorded(src: Stream, s: PState, token: Token)
    requires Good(s) && token.kind == STR && Symbol.WellFormed(s.table)
    requires |TextOf(token.value)| <= Symbol.STORED_NAME_MAX
    requires Symbol.TableInsert(s.table, TextOf(token.value), 0, Symbol.STR).0
    ensures var r := LitOf(src, s, token); var name := TextOf(token.value);
      r.Ok? && r.s.i == s.i && r.s.out == s.out &&
      Symbol.TableLookup(r.s.table, name).Some? &&
      r.s.table[Symbol.TableLookup(r.s.table, name).value] == Symbol.Symbol(Symbol.STR, true, 0, name)
  {
    var name := TextOf(token.value);
    var t' := Symbol.TableInsert(s.table, name, 0, Symbol.STR).1;
    assert LitOf(src, s, token) == Ok(s.(table := t'));
    Symbol.InsertThenLookup(s.table, name, 0, Symbol.STR);
  }

  /** A string literal whose text cannot be inserted leaves the parser state as it was. */
  lemma StringLiteralDropped(src: Stream, s: PState, token: Token)
    requires Good(s) && token.kind == STR
    requires !Symbol.TableInsert(s.table, TextOf(token.value), 0, Symbol.STR).0
    ensures LitOf(src, s, token) == Ok(s)
  {
  }
}
