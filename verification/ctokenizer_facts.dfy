/**
 * Properties of the C scanner of src/tokenizer.c: the token kinds it never produces,
 * what the two bracket checks leave behind, and worked runs of `tokenize` on short
 * texts.
 */
module CTokenizerFacts {
  import opened Base
  import opened CTypes
  import opened CTokenizer
  import PtrArray

  // ---------------------------------------------------------------------------------
  // Kinds the scanner never produces

  /**
   * POW (the `**` branch tests `=` a second time), POW_EQ, DIV_EQ (`/=` scans as DIV
   * then EQ) and NEWLINE (a newline is skipped).
   */
  predicate NeverScanned(t: Type)
  {
    t == POW || t == POW_EQ || t == DIV_EQ || t == NEWLINE
  }

  /** `*` gives MUL_EQ when `=` follows it and MUL otherwise, never POW. */
  lemma StarKinds(code: seq<char>, c: Cursor)
    requires Inside(code, c)
    ensures Star(code, c).kind == if PeekOf(code, c) == '=' then MUL_EQ else MUL
  {
  }

  /** `keyword` gives NAME or one of the reserved kinds. */
  lemma KeywordKinds(k: seq<char>)
    ensures Keyword(k) == NAME || IsKeywordKind(Keyword(k))
  {
    var c := At(k, 0);
    if c == 'a' {
      assert Keyword(k) == KeywordA(k);
    } else if c == 'c' {
      assert Keyword(k) == KeywordC(k);
    } else if c == 'd' {
      assert Keyword(k) == KeywordD(k);
    } else if c == 'e' {
      assert Keyword(k) == KeywordE(k);
    } else if c == 'f' {
      assert Keyword(k) == KeywordF(k);
    } else if c == 'i' {
      assert Keyword(k) == KeywordI(k);
    } else if c == 'n' {
      assert Keyword(k) == KeywordN(k);
    } else if c == 'r' {
      assert Keyword(k) == KeywordR(k);
    } else if c == 's' {
      assert Keyword(k) == KeywordS(k);
    } else if c == 't' {
      assert Keyword(k) == KeywordT(k);
    } else if c == 'w' {
      assert Keyword(k) == KeywordW(k);
    }
  }

  lemma CompoundKinds(code: seq<char>, ch: char, c: Cursor)
    requires Inside(code, c) && IsCompound(ch)
    ensures !NeverScanned(Compound(code, ch, c).kind)
  {
    if ch == '*' {
      StarKinds(code, c);
    }
  }

  lemma OtherKinds(code: seq<char>, c: Cursor)
    requires Inside(code, c)
    ensures !NeverScanned(Other(code, c).kind)
  {
    var ch := CurrentOf(code, c);
    if ch != '0' && !IsDec(ch) && IsAlpha(ch) {
      KeywordKinds(WordText(code, c));
    }
  }

  /** No pass of the scanning loop makes a token of a kind in `NeverScanned`. */
  lemma DispatchKinds(code: seq<char>, ch: char, c: Cursor)
    requires Inside(code, c)
    ensures Dispatch(code, ch, c).Lexeme? ==> !NeverScanned(Dispatch(code, ch, c).kind)
  {
    if Single(ch).Some? {
    } else if IsBlank(ch) {
    } else if IsCompound(ch) {
      CompoundKinds(code, ch, c);
    } else if ch == '/' {
    } else if ch == '"' || ch == '\'' {
    } else {
      OtherKinds(code, c);
    }
  }

  // ---------------------------------------------------------------------------------
  // Numbers and stray bytes

  /**
   * A number, after its first digit: `0` then `o` or an octal digit is OCTAL, `0b` is
   * BIN, `0x` is HEX, any other `0` is DEC, and a leading 1-9 is DEC. The token runs
   * to the end of the digits of its class, which follow the prefix.
   */
  lemma NumberKinds(code: seq<char>, c: Cursor)
    requires Inside(code, c) && IsDec(CurrentOf(code, c))
    ensures var s := Other(code, c); var p := PeekOf(code, c);
      s.Lexeme? && s.err.None? &&
      s.kind == (if CurrentOf(code, c) != '0' then DEC
                 else if p == 'o' || IsOct(p) then OCTAL
                 else if p == 'b' then BIN
                 else if p == 'x' then HEX
                 else DEC)
    ensures var s := Other(code, c); var p := PeekOf(code, c);
      var d := if s.kind == OCTAL then Octal else if s.kind == BIN then Binary
               else if s.kind == HEX then Hexadecimal else Decimal;
      var from := if CurrentOf(code, c) != '0' || (s.kind == OCTAL && p != 'o') then c.it
                  else if s.kind == DEC then s.after.it else c.it + 1;
      (CurrentOf(code, c) == '0' && s.kind == DEC ==> s.after == c) &&
      (forall j :: from < j <= s.after.it ==> InClass(d, At(code, j))) &&
      (s.after != c ==> !InClass(d, PeekOf(code, s.after)))
  {
  }

  /** `consume(n)` moves `n` characters on, but never past the terminating NUL. */
  lemma {:induction false} ConsumeOfMoves(code: seq<char>, c: Cursor, n: nat)
    requires Inside(code, c)
    ensures ConsumeOf(code, c, n).it == Min(c.it + n, |code|)
    decreases n
  {
    if n > 0 {
      ConsumeOfMoves(code, NextOf(code, c).1, n - 1);
    }
  }

  /** How many characters a UTF-8 sequence with lead byte `ch` spans. */
  function SequenceLength(ch: char): (n: nat)
    ensures 1 <= n <= 4
  {
    if Lead2(ch) then 2 else if Lead3(ch) then 3 else if Lead4(ch) then 4 else 1
  }

  /**
   * A character that starts no token is UNDEF with "unexpected token", and the token
   * takes in the continuation bytes its UTF-8 lead byte announces, up to the end.
   */
  lemma UnexpectedSkips(code: seq<char>, c: Cursor)
    requires Inside(code, c)
    requires var ch := CurrentOf(code, c); !IsDec(ch) && !IsAlpha(ch)
    ensures Other(code, c).kind == UNDEF && Other(code, c).err == Some(UNEXPECTED)
    ensures Other(code, c).after.it == Min(c.it + SequenceLength(CurrentOf(code, c)) - 1, |code|)
  {
    var ch := CurrentOf(code, c);
    ConsumeOfMoves(code, c, SequenceLength(ch) - 1);
  }

  // ---------------------------------------------------------------------------------
  // What the scanning loop keeps

  /** Only openers and closers. */
  predicate Brackets(s: seq<Token>)
  {
    forall i :: 0 <= i < |s| ==> IsOpener(s[i].kind) || IsCloser(s[i].kind)
  }

  /** Only openers. */
  predicate Openers(s: seq<Token>)
  {
    forall i :: 0 <= i < |s| ==> IsOpener(s[i].kind)
  }

  /**
   * What every state of the loop keeps: no token of a kind in `NeverScanned`, and a
   * bracket stack of brackets, each of them one of the tokens.
   */
  predicate Collected(st: TState)
  {
    (forall i :: 0 <= i < |st.tokens| ==> !NeverScanned(st.tokens[i].kind)) &&
    Brackets(st.stack) && (forall i :: 0 <= i < |st.stack| ==> st.stack[i] in st.tokens)
  }

  /** The end of a pass keeps `Collected`. */
  lemma FinishKeeps(file: seq<char>, st: TState, s: Scan)
    requires Collected(st) && (s.Lexeme? ==> !NeverScanned(s.kind))
    ensures Finish(file, st, s).Some? ==> Collected(Finish(file, st, s).value)
  {
    if s.Lexeme? {
      var st' := Record(file, st.(cur := s.after), s.kind, s.err);
      assert st'.tokens == st.tokens + [TokenOf(st.(cur := s.after), s.kind)];
      forall i | 0 <= i < |st'.stack|
        ensures st'.stack[i] in st'.tokens
      {
        assert i < |st.stack| ==> st'.stack[i] == st.stack[i];
      }
    }
  }

  /** Every run of the loop keeps `Collected`. */
  lemma {:induction false} RunKeeps(code: seq<char>, file: seq<char>, st: TState)
    requires Inside(code, st.cur) && Collected(st)
    ensures Run(code, file, st).Some? ==> Collected(Run(code, file, st).value)
    decreases |code| - st.cur.it
  {
    if !EndOf(code, st.cur) {
      var (ch, st1) := Begin(code, st);
      DispatchKinds(code, ch, st1.cur);
      FinishKeeps(file, st1, Dispatch(code, ch, st1.cur));
      if Step(code, file, st).Some? {
        RunKeeps(code, file, Step(code, file, st).value);
      }
    }
  }

  // ---------------------------------------------------------------------------------
  // The bracket checks

  /** Over a stack of brackets, `runStackCheck` leaves openers only, each from the stack. */
  lemma {:induction false} StackCheckLeavesOpeners(s: seq<Token>)
    requires Brackets(s)
    ensures Openers(StackCheck(s))
    ensures forall t :: t in StackCheck(s) ==> t in s
  {
    if s != [] {
      var p := s[..|s| - 1];
      StackCheckLeavesOpeners(p);
      var r := StackCheck(p);
      forall t | t in StackStep(r, s[|s| - 1])
        ensures t in s
      {
        assert t in r || t == s[|s| - 1];
        assert t in r ==> t in p;
      }
    }
  }

  /** `runStackCheck` handles the stack one token at a time, from the bottom up. */
  lemma StackCheckSnoc(s: seq<Token>, t: Token)
    ensures StackCheck(s + [t]) == StackStep(StackCheck(s), t)
  {
    assert (s + [t])[..|s|] == s;
  }

  /** An opener followed at once by its own closer cancels out. */
  lemma StackCheckPair(s: seq<Token>, o: Token, c: Token)
    requires Pairs(o.kind, c.kind)
    ensures StackCheck(s + [o, c]) == StackCheck(s)
  {
    assert (s + [o, c])[..|s| + 1] == s + [o];
    assert (s + [o])[..|s|] == s;
  }

  /** A closer whose opener is not on top is dropped: a stray closer is never reported. */
  lemma StackCheckStrayCloser(s: seq<Token>, c: Token)
    requires IsCloser(c.kind)
    requires StackCheck(s) == [] || StackCheck(s)[|StackCheck(s)| - 1].kind != OpenerOf(c.kind)
    ensures StackCheck(s + [c]) == StackCheck(s)
  {
    assert (s + [c])[..|s|] == s;
  }

  /** Slots that all hold openers. */
  predicate OpenerSlots(r: seq<Option<Token>>)
  {
    forall i :: 0 <= i < |r| ==> r[i].Some? && IsOpener(r[i].value.kind)
  }

  /** With openers only there is nothing for one round of `runDistanceCheck` to pair. */
  lemma {:induction false} InnerKeeps(r: seq<Option<Token>>, dist: int, i: nat)
    requires 1 <= dist && OpenerSlots(r)
    ensures Inner(r, dist, i) == r
    decreases |r| - i
  {
    if i + dist < |r| - 1 {
      assert Inner(r, dist, i) == Inner(PairStep(r, dist, i), dist, i + 1);
      assert PairStep(r, dist, i) == r;
      InnerKeeps(r, dist, i + 1);
    }
  }

  /** ... and so no round at all changes them. */
  lemma {:induction false} OuterKeeps(r: seq<Option<Token>>, dist: nat)
    requires 1 <= dist && forall d: int :: 1 <= d ==> Inner(r, d, 0) == r
    ensures Outer(r, dist) == r
    decreases |r| - dist
  {
    if dist < |r| - 1 {
      OuterKeeps(r, dist + 1);
    }
  }

  /**
   * `tokenize` as a whole: the tokens and errors of the loop, then one "unmatched
   * token" error for each opener `runStackCheck` leaves, in stack order. No token has
   * a kind in `NeverScanned`, every reported bracket is one of the tokens, and
   * `runDistanceCheck` removes nothing.
   */
  lemma TokenizeReports(code: seq<char>, file: seq<char>)
    requires NoNul(code)
    ensures TokenizeOf(code, file).Some? <==> Run(code, file, Init()).Some?
    ensures Run(code, file, Init()).Some? ==>
      var st := Run(code, file, Init()).value;
      var left := StackCheck(st.stack);
      TokenizeOf(code, file) == Some((st.tokens, st.errors + Unmatched(file, left))) &&
      Openers(left) && (forall t :: t in left ==> t in st.tokens) &&
      forall i :: 0 <= i < |st.tokens| ==> !NeverScanned(st.tokens[i].kind)
  {
    RunKeeps(code, file, Init());
    if Run(code, file, Init()).Some? {
      var st := Run(code, file, Init()).value;
      var left := StackCheck(st.stack);
      StackCheckLeavesOpeners(st.stack);
      forall d: int | 1 <= d
        ensures Inner(Wrap(left), d, 0) == Wrap(left)
      {
        InnerKeeps(Wrap(left), d, 0);
      }
      OuterKeeps(Wrap(left), 1);
      PtrArray.NonNullOfFull(Wrap(left));
      assert Values(Wrap(left)) == left;
    }
  }

  // ---------------------------------------------------------------------------------
  // Worked runs

  /**
   * One pass of the loop, once its first character `ch`, the cursor `c1` after it and
   * the scan `s` are known; `st'` is the state after it.
   */
  lemma Pass(code: seq<char>, file: seq<char>, st: TState, ch: char, c1: Cursor, s: Scan) returns (st': TState)
    requires Inside(code, st.cur) && !EndOf(code, st.cur)
    requires NextOf(code, st.cur) == (ch, c1)
    requires Dispatch(code, ch, c1) == s && !s.Hangs?
    ensures st' == Finish(file, st.(cur := c1, start := c1.character - 1, absStart := c1.it), s).value
    ensures Step(code, file, st) == Some(st')
    ensures Inside(code, st'.cur) && Run(code, file, st) == Run(code, file, st')
  {
    assert Begin(code, st) == (ch, st.(cur := c1, start := c1.character - 1, absStart := c1.it));
    st' := Finish(file, st.(cur := c1, start := c1.character - 1, absStart := c1.it), s).value;
  }

  /** `TokenizeReports` for a run whose final state `st` is known. */
  lemma Tokenized(code: seq<char>, file: seq<char>, st: TState)
    requires NoNul(code) && Run(code, file, Init()) == Some(st)
    ensures TokenizeOf(code, file) == Some((st.tokens, st.errors + Unmatched(file, StackCheck(st.stack))))
  {
    TokenizeReports(code, file);
  }

  /** `**`: the first star is MUL and leaves the second one to the next pass. */
  lemma ScanStarStar()
    ensures Dispatch("**", '*', Cursor(0, 1, 2)) == Lexeme(MUL, None, Cursor(0, 1, 2))
  {
    assert Star("**", Cursor(0, 1, 2)) == Lexeme(MUL, None, Cursor(0, 1, 2));
  }

  /** ... which is MUL again. */
  lemma ScanStarStarSecond()
    ensures Dispatch("**", '*', Cursor(1, 1, 3)) == Lexeme(MUL, None, Cursor(1, 1, 3))
  {
    assert Star("**", Cursor(1, 1, 3)) == Lexeme(MUL, None, Cursor(1, 1, 3));
  }

  /** `*=` is MUL_EQ. */
  lemma ScanStarEq()
    ensures Dispatch("*=", '*', Cursor(0, 1, 2)) == Lexeme(MUL_EQ, None, Cursor(1, 1, 3))
  {
    assert Star("*=", Cursor(0, 1, 2)) == Lexeme(MUL_EQ, None, Cursor(1, 1, 3));
  }

  /** `<>` is LSHIFT: the `<` case tests for `>` as its second character. */
  lemma ScanLessGreater()
    ensures Dispatch("<>", '<', Cursor(0, 1, 2)) == Lexeme(LSHIFT, None, Cursor(1, 1, 3))
  {
    assert Compound("<>", '<', Cursor(0, 1, 2)) == Lexeme(LSHIFT, None, Cursor(1, 1, 3));
  }

  /** `<<` starts with CMP_LT ... */
  lemma ScanLessLess()
    ensures Dispatch("<<", '<', Cursor(0, 1, 2)) == Lexeme(CMP_LT, None, Cursor(0, 1, 2))
  {
    assert Compound("<<", '<', Cursor(0, 1, 2)) == Lexeme(CMP_LT, None, Cursor(0, 1, 2));
  }

  /** ... and its second `<` is CMP_LT as well. */
  lemma ScanLessLessSecond()
    ensures Dispatch("<<", '<', Cursor(1, 1, 3)) == Lexeme(CMP_LT, None, Cursor(1, 1, 3))
  {
    assert Compound("<<", '<', Cursor(1, 1, 3)) == Lexeme(CMP_LT, None, Cursor(1, 1, 3));
  }

  /** `/=` starts with DIV. */
  lemma ScanSlashEq()
    ensures Dispatch("/=", '/', Cursor(0, 1, 2)) == Lexeme(DIV, None, Cursor(0, 1, 2))
  {
    assert Slash("/=", Cursor(0, 1, 2)) == Lexeme(DIV, None, Cursor(0, 1, 2));
  }

  /** A string cut by a newline is a STR token up to the newline, with its error. */
  lemma ScanUnterminated()
    ensures Dispatch("\"a\nb", '"', Cursor(0, 1, 2)) == Lexeme(STR, Some(UNTERMINATED), Cursor(1, 1, 3))
  {
    assert Quoted("\"a\nb", '"', Cursor(1, 1, 3)) == Lexeme(STR, Some(UNTERMINATED), Cursor(1, 1, 3));
    assert Quoted("\"a\nb", '"', Cursor(0, 1, 2)) == Lexeme(STR, Some(UNTERMINATED), Cursor(1, 1, 3));
  }

  /** A string still open at the end of the text never ends. */
  lemma ScanOpenString()
    ensures Dispatch("\"a", '"', Cursor(0, 1, 2)) == Hangs
  {
    assert Quoted("\"a", '"', Cursor(1, 1, 3)) == Hangs;
    assert Quoted("\"a", '"', Cursor(0, 1, 2)) == Hangs;
  }

  /** `017` is one OCTAL token. */
  lemma ScanOctal()
    ensures Dispatch("017", '0', Cursor(0, 1, 2)) == Lexeme(OCTAL, None, Cursor(2, 1, 4))
  {
    assert Span("017", Cursor(0, 1, 2), Octal) == Cursor(2, 1, 4);
    assert Zero("017", Cursor(0, 1, 2)) == Lexeme(OCTAL, None, Cursor(2, 1, 4));
  }

  /** A text ending in a line comment gets no EOF token: the comment consumes the NUL. */
  lemma TokenizeComment(f: seq<char>)
    ensures TokenizeOf("// x", f) == Some(([], []))
  {
    var code := "// x";
    assert LineCommentEnd(code, Cursor(1, 1, 3)) == Cursor(4, 1, 6);
    assert Slash(code, Cursor(0, 1, 2)) == Blank(Cursor(4, 1, 6));
    var st := Pass(code, f, Init(), '/', Cursor(0, 1, 2), Blank(Cursor(4, 1, 6)));
    assert st == TState(Cursor(4, 1, 6), 1, 0, [], [], []);
    assert Run(code, f, st) == Some(st);
    Tokenized(code, f, st);
    assert TokenizeOf(code, f) == Some((st.tokens, st.errors + Unmatched(f, StackCheck(st.stack))));
    assert StackCheck([]) == [];
    assert Unmatched(f, []) == [];
    assert st.errors + Unmatched(f, StackCheck(st.stack)) == [];
  }

  /**
   * `([)]`: the `)` finds `[` on top and is dropped, the `]` closes the `[`, and the
   * `(` is left to be reported.
   */
  lemma StackCheckCrossed(lp: Token, lb: Token, rp: Token, rb: Token)
    requires lp.kind == LPAREN && lb.kind == LBRACKET && rp.kind == RPAREN && rb.kind == RBRACKET
    ensures StackCheck([lp, lb, rp, rb]) == [lp]
  {
    StackCheckSnoc([], lp);
    assert [] + [lp] == [lp];
    StackCheckSnoc([lp], lb);
    assert [lp] + [lb] == [lp, lb];
    StackCheckStrayCloser([lp, lb], rp);
    assert [lp, lb] + [rp] == [lp, lb, rp];
    StackCheckSnoc([lp, lb, rp], rb);
    assert [lp, lb, rp] + [rb] == [lp, lb, rp, rb];
    assert [lp, lb][..1] == [lp];
  }
}
