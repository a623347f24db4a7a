/**
 * What the code generator of src/parser.cpp produces: the stack effect of the code of
 * an arithmetic expression, and what the VM of src/vm.cpp does when that code is
 * followed by a RETURN.
 */
module ParsingFacts {
  import opened Base
  import opened Tokens
  import opened Bytecode
  import opened Parsing
  import Symbol
  import Vm

  // ---------------------------------------------------------------------------------
  // Stack effect

  /**
   * The kinds whose handlers, when they succeed, only push numbers and apply stack
   * operators the VM runs: no strings, declarations, functions, ranges, and none of
   * the bitwise operators the VM rejects.
   */
  predicate Arithmetic(k: Type)
  {
    !(k == STR || k == NAME || k == FX || k == Type.RANGE_EXCL || k == Type.RANGE_L_IN ||
      k == Type.RANGE_R_IN || k == Type.RANGE_INCL || k == Type.B_AND || k == Type.B_OR ||
      k == CARET || k == Type.B_NOT)
  }

  predicate ArithmeticStream(src: Stream)
  {
    forall i :: 0 <= i < |src.toks| ==> Arithmetic(src.toks[i].kind)
  }

  /** The code a parse that went from `s` to `t` appended. */
  function Emitted(s: PState, t: PState): seq<byte>
    requires s.out <= t.out
  {
    t.out[|s.out|..]
  }

  /** Code that, run on a stack of `d` values, ends with `d + k` of them. */
  predicate Nets(c: seq<byte>, d: int, k: int)
  {
    Vm.Walk(c, d, true).Some? && Vm.Walk(c, d, true).value.depth == d + k
  }

  lemma EmittedSplit(a: PState, b: PState, c: PState)
    requires a.out <= b.out <= c.out
    ensures Emitted(a, c) == Emitted(a, b) + Emitted(b, c)
  {
    assert c.out == b.out + Emitted(b, c);
  }

  lemma NetsAppend(c1: seq<byte>, c2: seq<byte>, d: int, k1: int, k2: int)
    requires Nets(c1, d, k1) && Nets(c2, d + k1, k2)
    ensures Nets(c1 + c2, d, k1 + k2)
  {
    Vm.WalkAppend(c1, c2, d, true);
  }

  /** A MOVE pushes one value. */
  lemma MoveNets(src: Stream, t: Token, d: int)
    ensures Nets(MoveCode(src, t), d, 1)
  {
    DecodeOpByte(MOVE);
    assert MoveCode(src, t)[10..] == [];
  }

  /** A binary opcode the VM runs pops one value; a unary one keeps the depth. */
  lemma OpNets(op: OpCode, d: int)
    requires !Vm.IntegerOnly(op)
    ensures Vm.IsBinary(op) && d >= 2 ==> Nets([OpByte(op)], d, -1)
    ensures Vm.IsUnary(op) && d >= 1 ==> Nets([OpByte(op)], d, 0)
  {
    DecodeOpByte(op);
    assert [OpByte(op)][1..] == [];
  }

  /** Two runs one after the other: their stack effects add up. */
  lemma Chain(s: PState, m: PState, t: PState, d: int, k1: int, k2: int)
    requires s.out <= m.out <= t.out
    requires Nets(Emitted(s, m), d, k1) && Nets(Emitted(m, t), d + k1, k2)
    ensures Nets(Emitted(s, t), d, k1 + k2)
  {
    EmittedSplit(s, m, t);
    NetsAppend(Emitted(s, m), Emitted(m, t), d, k1, k2);
  }

  /** A run followed by one opcode the VM runs. */
  lemma ChainOp(s: PState, m: PState, t: PState, op: OpCode, d: int, k1: int, k2: int)
    requires s.out <= m.out && t.out == m.out + [OpByte(op)]
    requires Nets(Emitted(s, m), d, k1) && Nets([OpByte(op)], d + k1, k2)
    ensures Nets(Emitted(s, t), d, k1 + k2)
  {
    assert Emitted(s, t) == Emitted(s, m) + [OpByte(op)];
    NetsAppend(Emitted(s, m), [OpByte(op)], d, k1, k2);
  }

  /** `parse_expression` that succeeds on an arithmetic stream: the prefix, then the loop. */
  lemma ExprShape(src: Stream, s: PState, p: Precedence)
    requires ArithmeticStream(src) && Good(s) && Expr(src, s, p).Ok?
    ensures var token := Cur(src, s);
      token.kind != MAX_TOKENS && Arithmetic(token.kind) && Rule(token.kind).nud != NoNud &&
      PrefixOf(src, Adv(s), token).Ok? &&
      Expr(src, s, p) == Loop(src, PrefixOf(src, Adv(s), token).s, p)
  {
  }

  /**
   * One pass of the infix loop that succeeds on an arithmetic stream: it stops without
   * writing, or it runs `parse_bin` on the next token and goes round again.
   */
  lemma LoopShape(src: Stream, s: PState, p: Precedence) returns (step: bool)
    requires ArithmeticStream(src) && Good(s) && Loop(src, s, p).Ok?
    ensures !step ==> Loop(src, s, p).s.out == s.out
    ensures step ==> var op := Cur(src, s);
      op.kind != MAX_TOKENS && op.kind != END && Arithmetic(op.kind) &&
      BinOf(src, Adv(s), op).Ok? && Loop(src, s, p) == Loop(src, BinOf(src, Adv(s), op).s, p)
  {
    var op := Cur(src, s);
    step := !(Level(p) >= Level(Rule(op.kind).prec) || op.kind == END);
  }

  /** `parse_bin` that succeeds on an arithmetic stream: the right operand, then the opcode. */
  lemma BinShape(src: Stream, s: PState, op: Token)
    requires ArithmeticStream(src) && Good(s) && Arithmetic(op.kind) && op.kind != MAX_TOKENS
    requires BinOf(src, s, op).Ok?
    ensures var r1 := Expr(src, s, Rule(op.kind).prec);
      r1.Ok? && BinaryCode(op.kind).Some? &&
      Vm.IsBinary(BinaryCode(op.kind).value) && !Vm.IntegerOnly(BinaryCode(op.kind).value) &&
      BinOf(src, s, op).s.out == r1.s.out + [OpByte(BinaryCode(op.kind).value)]
  {
  }

  /**
   * An expression made of arithmetic tokens compiles to code that pushes exactly one
   * value, whatever the stack held before: each MOVE pushes, each binary opcode pops
   * one, unary opcodes keep the depth, and nothing ever pops below the start.
   */
  lemma {:induction false} ExprPushesOne(src: Stream, s: PState, p: Precedence, d: nat)
    requires ArithmeticStream(src) && Good(s) && Expr(src, s, p).Ok?
    ensures Nets(Emitted(s, Expr(src, s, p).s), d, 1)
    decreases Rem(src.toks, s.i), 0
  {
    ExprShape(src, s, p);
    var token := Cur(src, s);
    var r1 := PrefixOf(src, Adv(s), token);
    PrefixPushesOne(src, Adv(s), token, d);
    LoopKeeps(src, r1.s, p, d + 1);
    Chain(s, r1.s, Loop(src, r1.s, p).s, d, 1, 0);
  }

  /** The prefix handler of an arithmetic token pushes exactly one value. */
  lemma {:induction false} PrefixPushesOne(src: Stream, s: PState, token: Token, d: nat)
    requires ArithmeticStream(src) && Good(s) && Arithmetic(token.kind)
    requires token.kind != MAX_TOKENS && Rule(token.kind).nud != NoNud
    requires PrefixOf(src, s, token).Ok?
    ensures Nets(Emitted(s, PrefixOf(src, s, token).s), d, 1)
    decreases Rem(src.toks, s.i), 2
  {
    var t := PrefixOf(src, s, token).s;
    match NudOf(token.kind)
    case Lit =>
      assert t.out == s.out + MoveCode(src, token);
      MoveNets(src, token, d);
    case Unr =>
      var prec := Rule(token.kind).prec;
      var r1 := Expr(src, s, prec);
      assert r1.Ok?;
      ExprPushesOne(src, s, prec, d);
      if UnaryCode(token.kind) == Some(None) {
        assert t == r1.s;
      } else {
        var op := UnaryCode(token.kind).value.value;
        assert op == NEGATE || op == NOT;
        assert t.out == r1.s.out + [OpByte(op)];
        OpNets(op, d + 1);
        ChainOp(s, r1.s, t, op, d, 1, 0);
      }
    case Grp =>
      assert GrpOf(src, s).Ok?;
      assert t.out == Expr(src, s, Precedence.NUL).s.out;
      ExprPushesOne(src, s, Precedence.NUL, d);
    case Fxn =>
    case Dcl =>
  }

  /** The infix loop over arithmetic tokens leaves the depth as it found it. */
  lemma {:induction false} LoopKeeps(src: Stream, s: PState, p: Precedence, d: nat)
    requires ArithmeticStream(src) && Good(s) && Loop(src, s, p).Ok? && d >= 1
    ensures Nets(Emitted(s, Loop(src, s, p).s), d, 0)
    decreases Rem(src.toks, s.i), 1
  {
    var step := LoopShape(src, s, p);
    var t := Loop(src, s, p).s;
    if !step {
      assert Emitted(s, t) == [];
    } else {
      var op := Cur(src, s);
      var r1 := BinOf(src, Adv(s), op);
      BinKeeps(src, Adv(s), op, d);
      LoopKeeps(src, r1.s, p, d);
      Chain(s, r1.s, t, d, 0, 0);
    }
  }

  /** A binary operator pushes its right operand and pops one: the depth is unchanged. */
  lemma {:induction false} BinKeeps(src: Stream, s: PState, op: Token, d: nat)
    requires ArithmeticStream(src) && Good(s) && Arithmetic(op.kind) && op.kind != MAX_TOKENS
    requires BinOf(src, s, op).Ok? && d >= 1
    ensures Nets(Emitted(s, BinOf(src, s, op).s), d, 0)
    decreases Rem(src.toks, s.i), 1
  {
    BinShape(src, s, op);
    var prec := Rule(op.kind).prec;
    var r1 := Expr(src, s, prec);
    ExprPushesOne(src, s, prec, d);
    var code := BinaryCode(op.kind).value;
    OpNets(code, d + 1);
    ChainOp(s, r1.s, BinOf(src, s, op).s, code, d, 1, -1);
  }

  // ---------------------------------------------------------------------------------
  // Running the code

  /**
   * What the driver in src/main.cpp does with one line of input: `parse_expression` at
   * NUL, then a RETURN written after the expression's code.
   */
  function Compile(src: Stream, s: PState): (r: Parsed)
    requires Good(s)
    ensures r.Ok? ==>
      Expr(src, s, Precedence.NUL).Ok? &&
      r.s.out == Expr(src, s, Precedence.NUL).s.out + [OpByte(OpCode.RETURN)]
  {
    var r1 := Expr(src, s, Precedence.NUL);
    if r1.Fail? then r1 else Write(r1.s, [OpByte(OpCode.RETURN)])
  }

  /**
   * A line made of arithmetic tokens that compiles runs on a fresh VM to INTERPRET_OK:
   * it prints exactly one value and leaves the stack empty again. The stack never
   * overflows, since every push is a ten-byte MOVE in a 1024-byte chunk.
   */
  lemma CompiledLineRuns<V(!new)>(a: Vm.Arith<V>, src: Stream, table: seq<Symbol.Symbol>,
                                  code: seq<byte>, m: Vm.Machine<V>)
    requires ArithmeticStream(src) && |table| == Symbol.SYMBOL_TABLE_SIZE
    requires Compile(src, PState(0, [], table)).Ok?
    requires var out := Compile(src, PState(0, [], table)).s.out;
      |code| == MAX_INSTRUCTIONS && code[..|out|] == out
    requires Vm.Fits(m) && m.sp == -1
    ensures var pos := |Compile(src, PState(0, [], table)).s.out|;
      var run := Vm.Exec(a, code, pos, 0, m);
      run.0 == Vm.Ok && run.1.sp == -1 && |run.1.out| == |m.out| + 1
  {
    var s0 := PState(0, [], table);
    var e := Expr(src, s0, Precedence.NUL).s;
    var out := Compile(src, s0).s.out;
    ExprPushesOne(src, s0, Precedence.NUL, 0);
    assert Emitted(s0, e) == e.out;
    Vm.WalkPeak(e.out, 0, true);
    var end := |e.out|;
    assert code[..end] == out[..end] == e.out;
    assert code[end] == out[end] == OpByte(OpCode.RETURN);
    Vm.RunsToReturn(a, code, end + 1, end, m);
  }
}
