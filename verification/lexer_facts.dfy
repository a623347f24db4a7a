/**
 * Properties of the scanner of src/lexer.cpp: which texts are keywords, the longest
 * match among compound operators, the range operators, and the digit and separator
 * rules of numeric literals.
 */
module LexerFacts {
  import opened Base
  import opened Tokens
  import opened Lexing
  import opened Logger

  /** The spelling `getData` gives a kind, where it gives one. */
  function Spelling(k: Type): string
  {
    match GetData(k)
    case Some(w) => w
    case None => ""
  }

  lemma KeywordsA()
    ensures Keyword("as") == AS && Keyword("async") == ASYNC && Keyword("await") == AWAIT
  {
  }

  lemma KeywordsCD()
    ensures Keyword("case") == CASE && Keyword("class") == CLASS && Keyword("default") == DEFAULT && Keyword("do") == DO
  {
  }

  lemma KeywordsEF()
    ensures Keyword("else") == ELSE && Keyword("false") == FALSE && Keyword("for") == FOR && Keyword("from") == FROM && Keyword("fx") == FX
  {
  }

  lemma KeywordsIN()
    ensures Keyword("if") == IF && Keyword("import") == IMPORT && Keyword("new") == NEW && Keyword("null") == NUL
  {
  }

  lemma KeywordsRS()
    ensures Keyword("return") == RETURN && Keyword("select") == SELECT && Keyword("switch") == SWITCH
  {
  }

  lemma KeywordsTW()
    ensures Keyword("true") == TRUE && Keyword("while") == WHILE
  {
  }

  /** Every keyword kind is what `keyword` gives its own spelling. */
  lemma KeywordComplete(k: Type)
    requires IsKeyword(k)
    ensures Keyword(Spelling(k)) == k
  {
    if k in {AS, ASYNC, AWAIT, CASE, CLASS, DEFAULT, DO} {
      KeywordCompleteAD(k);
    } else if k in {ELSE, FALSE, FOR, FROM, FX, IF, IMPORT} {
      KeywordCompleteEI(k);
    } else if k in {NEW, NUL, RETURN} {
      KeywordCompleteNR(k);
    } else {
      KeywordCompleteSW(k);
    }
  }

  lemma KeywordCompleteAD(k: Type)
    requires k in {AS, ASYNC, AWAIT, CASE, CLASS, DEFAULT, DO}
    ensures Keyword(Spelling(k)) == k
  {
    match k
    case AS | ASYNC | AWAIT => KeywordsA();
    case CASE | CLASS | DEFAULT | DO => KeywordsCD();
  }

  lemma KeywordCompleteEI(k: Type)
    requires k in {ELSE, FALSE, FOR, FROM, FX, IF, IMPORT}
    ensures Keyword(Spelling(k)) == k
  {
    match k
    case ELSE | FALSE | FOR | FROM | FX => KeywordsEF();
    case IF | IMPORT => KeywordsIN();
  }

  lemma KeywordCompleteNR(k: Type)
    requires k in {NEW, NUL, RETURN}
    ensures Keyword(Spelling(k)) == k
  {
    match k
    case NEW | NUL => KeywordsIN();
    case RETURN => KeywordsRS();
  }

  lemma KeywordCompleteSW(k: Type)
    requires k in {SELECT, SWITCH, TRUE, WHILE}
    ensures Keyword(Spelling(k)) == k
  {
    match k
    case SELECT | SWITCH => KeywordsRS();
    case TRUE | WHILE => KeywordsTW();
  }

  /** Only the spelling of a keyword is classified as that keyword; every other string is a NAME. */
  lemma KeywordSound(w: string)
    ensures Keyword(w) != NAME ==> Spelling(Keyword(w)) == w
  {
    var c := At(w, 0);
    if c == 'a' || c == 'c' || c == 'd' || c == 'e' {
      KeywordSoundACDE(w);
    } else if c == 'f' || c == 'i' || c == 'n' {
      KeywordSoundFIN(w);
    } else {
      KeywordSoundRSTW(w);
    }
  }

  lemma KeywordSoundACDE(w: string)
    requires var c := At(w, 0); c == 'a' || c == 'c' || c == 'd' || c == 'e'
    ensures Keyword(w) != NAME ==> Spelling(Keyword(w)) == w
  {
  }

  lemma KeywordSoundFIN(w: string)
    requires var c := At(w, 0); c == 'f' || c == 'i' || c == 'n'
    ensures Keyword(w) != NAME ==> Spelling(Keyword(w)) == w
  {
  }

  lemma KeywordSoundRSTW(w: string)
    requires var c := At(w, 0); c != 'a' && c != 'c' && c != 'd' && c != 'e' && c != 'f' && c != 'i' && c != 'n'
    ensures Keyword(w) != NAME ==> Spelling(Keyword(w)) == w
  {
  }

  // ---------------------------------------------------------------------------------
  // The kinds `advance` can produce

  /** Kinds of the vocabulary no branch of `advance` ever emits. */
  const NEVER: set<Type> := {POW_EQ, DIV_EQ, NEWLINE, MAX_TOKENS}

  predicate Avoids(r: Lexed)
  {
    r.Tok? ==> r.token.kind !in NEVER
  }

  predicate IsNumberResult(r: Lexed)
  {
    r.Tok? && (r.token.kind == ERROR || IsNumber(r.token.kind))
  }

  /** A literal ends as ERROR or as one of the four number kinds. */
  lemma {:induction false} NumLoopKinds(s: LexState, v: NumVars)
    requires Inv(s)
    ensures IsNumberResult(NumLoop(s, v).0)
    decreases |s.text| - s.it
  {
    match NumStep(s, v)
    case More(s', v') => NumLoopKinds(s', v');
    case Done(s', v') =>
    case Reject(s') =>
  }

  lemma NumberKinds(s: LexState, first: char)
    requires Inv(s)
    ensures IsNumberResult(NumberOf(s, first).0)
  {
    match NumInit(s, first)
    case None =>
    case Some((s', v)) => NumLoopKinds(s', v);
  }

  /** A quoted literal ends as STR, or not as a token at all. */
  lemma {:induction false} QuotedKinds(s: LexState, q: char, multiline: bool)
    requires Inv(s) && q != '\0' && q != '\n' && 0 <= s.absStart <= s.it < |s.text|
    ensures Quoted(s, q, multiline).0.Tok? ==> Quoted(s, q, multiline).0.token.kind == STR
    decreases |s.text| - s.it
  {
    var p := PeekOf(s);
    if p != q && (multiline || p != '\n') && p != '\0' {
      var s1 := if p == '\\' then NextOf(s).1 else s;
      var s2 := NextOf(s1).1;
      if !s2.end {
        QuotedKinds(s2, q, multiline);
      }
    }
  }

  /**
   * How a quoted literal ends. A token is a STR holding the text between the opening
   * quote and the closing one, which the cursor has just consumed. "Unterminated
   * string" comes only from a `"` or `'` literal, with the cursor in front of the
   * newline; a backtick literal runs over newlines and never ends that way. The only
   * other fatal is the arena running out, and the scan spins only at the end of the text.
   */
  lemma {:induction false} QuotedOutcomes(s: LexState, q: char, multiline: bool)
    requires Inv(s) && q != '\0' && q != '\n' && 0 <= s.absStart <= s.it < |s.text|
    ensures var (r, t) := Quoted(s, q, multiline);
      (r.Tok? ==> s.it < t.it < |t.text| && CurrentOf(t) == q && t.absStart == s.absStart &&
                  (r, t) == EmitString(t.(heap := s.heap, constIndex := s.constIndex))) &&
      (r == Fatal("Unterminated string") ==> !multiline && PeekOf(t) == '\n') &&
      (multiline ==> r != Fatal("Unterminated string")) &&
      (r.Fatal? ==> r == Fatal("Unterminated string") || r == Fatal("Too many allocations")) &&
      (r.Hang? ==> t.end || PeekOf(t) == '\0') &&
      r != Undefined
    decreases |s.text| - s.it
  {
    var p := PeekOf(s);
    if p == q {
      var u := NextOf(s).1;
      assert Quoted(s, q, multiline) == EmitString(u);
      assert EmitString(u).0.Fatal? ==> EmitString(u).0 == Fatal("Too many allocations");
    } else if !multiline && p == '\n' {
      assert Quoted(s, q, multiline) == (Fatal("Unterminated string"), s);
    } else if p == '\0' {
      assert Quoted(s, q, multiline) == (Hang, s);
    } else {
      var s1 := if p == '\\' then NextOf(s).1 else s;
      var s2 := NextOf(s1).1;
      if s2.end {
        assert Quoted(s, q, multiline) == (Hang, s2);
      } else {
        assert s2.heap == s.heap && s2.constIndex == s.constIndex && s.it < s2.it;
        assert Quoted(s, q, multiline) == Quoted(s2, q, multiline);
        QuotedOutcomes(s2, q, multiline);
      }
    }
  }

  /** The STR a quoted literal gives holds exactly the characters between its quotes. */
  lemma QuotedString(s: LexState, q: char, multiline: bool)
    requires Inv(s) && q != '\0' && q != '\n' && 0 <= s.absStart <= s.it < |s.text|
    ensures var (r, t) := Quoted(s, q, multiline);
      r.Tok? ==> s.it < t.it < |s.text| && s.text[t.it] == q && r.token.kind == STR &&
                 r.token.value.Text? && r.token.value.text == s.text[s.absStart + 1..t.it]
  {
    QuotedOutcomes(s, q, multiline);
  }

  /** An identifier is a NAME or a keyword. */
  lemma {:induction false} IdentifierKinds(s: LexState)
    requires Inv(s) && 0 <= s.absStart <= s.it < |s.text|
    ensures var r := Identifier(s).0; r.Tok? ==> r.token.kind == NAME || IsKeyword(r.token.kind)
    decreases |s.text| - s.it
  {
    var p := PeekOf(s);
    if IsAlpha(p) || IsDec(p) {
      IdentifierKinds(NextOf(s).1);
    }
  }

  lemma DispatchAvoids(s: LexState, c: char)
    requires Inv(s) && c == CurrentOf(s) && 0 <= s.absStart == s.it
    ensures Dispatch(s, c).0.Emitted? ==> Avoids(Dispatch(s, c).0.r)
  {
    if SingleKind(c).Some? {
    } else if c == '.' {
      DotsAvoids(s);
    } else if IsBlank(c) {
    } else if IsOperatorStart(c) {
      OperatorAvoids(s, c);
    } else if c == '/' {
    } else {
      Dispatch2Avoids(s, c);
    }
  }

  lemma DotsAvoids(s: LexState)
    requires Inv(s)
    ensures Avoids(Dots(s).0)
  {
    if IsDec(PeekOf(s)) {
      NumberKinds(s, '.');
    } else {
      DotsRanges(s);
    }
  }

  lemma OperatorAvoids(s: LexState, c: char)
    requires Inv(s) && IsOperatorStart(c)
    ensures Avoids(Operator(s, c).0)
  {
    if c == '#' || c == '$' || c == '!' || c == '^' || c == '%' {
      OperatorAssignAvoids(s, c);
    } else if c == '+' || c == '-' || c == '*' {
      OperatorDoubleAvoids(s, c);
    } else {
      OperatorDoubledAvoids(s, c);
    }
  }

  lemma OperatorAssignAvoids(s: LexState, c: char)
    requires Inv(s) && (c == '#' || c == '$' || c == '!' || c == '^' || c == '%')
    ensures Avoids(Operator(s, c).0)
  {
    if c == '#' || c == '$' || c == '!' {
      MarkLongest(s, c);
    } else {
      CaretPercentLongest(s, c);
    }
  }

  /** `#=` beats `#`, `$=` beats `$`, and `!=` beats `!`. */
  lemma MarkLongest(s: LexState, c: char)
    requires Inv(s) && (c == '#' || c == '$' || c == '!')
    ensures Operator(s, c).0.Tok?
    ensures Operator(s, c).0.token.kind ==
      if PeekOf(s) == '=' then (if c == '#' then CST_EQ else if c == '$' then SET_EQ else CMP_NEQ)
      else (if c == '#' then HASH else if c == '$' then DOLLAR else L_NOT)
  {
    var r := Operator(s, c);
    if c == '#' {
      assert r == OrAssign(s, CST_EQ, HASH);
      OrAssignLongest(s, CST_EQ, HASH);
    } else if c == '$' {
      assert r == OrAssign(s, SET_EQ, DOLLAR);
      OrAssignLongest(s, SET_EQ, DOLLAR);
    } else {
      assert r == OrAssign(s, CMP_NEQ, L_NOT);
      OrAssignLongest(s, CMP_NEQ, L_NOT);
    }
  }

  /** `^=` beats `^`, and `%=` beats `%`. */
  lemma CaretPercentLongest(s: LexState, c: char)
    requires Inv(s) && (c == '^' || c == '%')
    ensures Operator(s, c).0.Tok?
    ensures Operator(s, c).0.token.kind ==
      if PeekOf(s) == '=' then (if c == '^' then B_XOR_EQ else REM_EQ)
      else (if c == '^' then CARET else REM)
  {
    var r := Operator(s, c);
    if c == '^' {
      assert r == OrAssign(s, B_XOR_EQ, CARET);
      OrAssignLongest(s, B_XOR_EQ, CARET);
    } else {
      assert r == OrAssign(s, REM_EQ, REM);
      OrAssignLongest(s, REM_EQ, REM);
    }
  }

  lemma OperatorDoubleAvoids(s: LexState, c: char)
    requires Inv(s) && (c == '+' || c == '-' || c == '*')
    ensures Avoids(Operator(s, c).0)
  {
    StarPlusMinusLongest(s, c);
  }

  lemma OperatorDoubledAvoids(s: LexState, c: char)
    requires Inv(s) && (c == '|' || c == '&' || c == '>' || c == '<')
    ensures Avoids(Operator(s, c).0)
  {
    if c == '|' {
      OrLongest(s);
    } else if c == '&' {
      AndLongest(s);
    } else if c == '>' {
      GreaterLongest(s);
    } else {
      LessLongest(s);
    }
  }

  /** `&&=` beats `&&`, which beats `&=`, which beats `&`. */
  lemma AndLongest(s: LexState)
    requires Inv(s)
    ensures Operator(s, '&').0.Tok?
    ensures Operator(s, '&').0.token.kind ==
      if PeekOf(s) == '&' && Peek2Of(s) == '=' then L_AND_EQ
      else if PeekOf(s) == '&' then L_AND
      else if PeekOf(s) == '=' then B_AND_EQ
      else B_AND
  {
    DoubledLongest(s, '&', L_AND_EQ, L_AND, B_AND_EQ, B_AND);
  }

  /** `||=` beats `||`, which beats `|=`, which beats `|`. */
  lemma OrLongest(s: LexState)
    requires Inv(s)
    ensures Operator(s, '|').0.Tok?
    ensures Operator(s, '|').0.token.kind ==
      if PeekOf(s) == '|' && Peek2Of(s) == '=' then L_OR_EQ
      else if PeekOf(s) == '|' then L_OR
      else if PeekOf(s) == '=' then B_OR_EQ
      else B_OR
  {
    DoubledLongest(s, '|', L_OR_EQ, L_OR, B_OR_EQ, B_OR);
  }

  /** `>>=` beats `>>`, which beats `>=`, which beats `>`. */
  lemma GreaterLongest(s: LexState)
    requires Inv(s)
    ensures Operator(s, '>').0.Tok?
    ensures Operator(s, '>').0.token.kind ==
      if PeekOf(s) == '>' && Peek2Of(s) == '=' then R_SHIFT_EQ
      else if PeekOf(s) == '>' then R_SHIFT
      else if PeekOf(s) == '=' then CMP_GEQ
      else CMP_GT
  {
    DoubledLongest(s, '>', R_SHIFT_EQ, R_SHIFT, CMP_GEQ, CMP_GT);
  }

  /** `<<=` beats `<<`, which beats `<=`, which beats `<`. */
  lemma LessLongest(s: LexState)
    requires Inv(s)
    ensures Operator(s, '<').0.Tok?
    ensures Operator(s, '<').0.token.kind ==
      if PeekOf(s) == '<' && Peek2Of(s) == '=' then L_SHIFT_EQ
      else if PeekOf(s) == '<' then L_SHIFT
      else if PeekOf(s) == '=' then CMP_LEQ
      else CMP_LT
  {
    DoubledLongest(s, '<', L_SHIFT_EQ, L_SHIFT, CMP_LEQ, CMP_LT);
  }

  /** `*=` beats `**` (POW), which beats `*`; likewise `+=`, `++`, `+` and `-=`, `--`, `-`. */
  lemma StarPlusMinusLongest(s: LexState, c: char)
    requires Inv(s) && (c == '*' || c == '+' || c == '-')
    ensures Operator(s, c).0.Tok?
    ensures Operator(s, c).0.token.kind ==
      if PeekOf(s) == '=' then (if c == '*' then MUL_EQ else if c == '+' then ADD_EQ else SUB_EQ)
      else if PeekOf(s) == c then (if c == '*' then POW else if c == '+' then INCR else DECR)
      else (if c == '*' then MUL else if c == '+' then ADD else SUB)
  {
    var r := Operator(s, c);
    if c == '*' {
      assert r == AssignOrDouble(s, '*', MUL_EQ, POW, MUL);
      AssignOrDoubleLongest(s, '*', MUL_EQ, POW, MUL);
    } else if c == '+' {
      assert r == AssignOrDouble(s, '+', ADD_EQ, INCR, ADD);
      AssignOrDoubleLongest(s, '+', ADD_EQ, INCR, ADD);
    } else {
      assert r == AssignOrDouble(s, '-', SUB_EQ, DECR, SUB);
      AssignOrDoubleLongest(s, '-', SUB_EQ, DECR, SUB);
    }
  }

  // ---------------------------------------------------------------------------------
  // Ranges

  /**
   * After a `.` that no digit follows: `..=` is RANGE_R_IN, `..` is RANGE_EXCL, a lone
   * `.` is DOT, and a third `.` is ERROR unless `had_float` is set and no fourth `.`
   * follows.
   */
  lemma DotsRanges(s: LexState)
    requires Inv(s) && !IsDec(PeekOf(s))
    ensures Dots(s).0.Tok?
    ensures Dots(s).0.token.kind ==
      if PeekOf(s) != '.' then DOT
      else if Peek2Of(s) == '=' then RANGE_R_IN
      else if Peek2Of(s) == '.' && (At(s.text, s.it + 3) == '.' || !s.hadFloat) then ERROR
      else RANGE_EXCL
  {
    var r := Dots(s);
    if PeekOf(s) != '.' {
      assert r == Bare(s, DOT);
    } else {
      var s2 := NextOf(s).1;
      assert MatchOf(s, '.') == (true, s2);
      assert PeekOf(s2) == Peek2Of(s) && s2.hadFloat == s.hadFloat;
      assert Peek2Of(s2) == At(s.text, s.it + 3);
      if Peek2Of(s) == '=' {
        assert r == Bare(NextOf(s2).1, RANGE_R_IN);
      } else if Peek2Of(s) == '.' && (At(s.text, s.it + 3) == '.' || !s.hadFloat) {
        assert r == Bare(NextOf(NextOf(s2).1).1, ERROR);
      } else {
        assert r == Bare(s2, RANGE_EXCL);
      }
    }
  }

  /** After a `=`: `==` is CMP_EQ, `=..=` is RANGE_INCL, `=..` is RANGE_L_IN, otherwise EQ. */
  lemma EqualsRanges(s: LexState)
    requires Inv(s)
    ensures Equals(s).0.Tok?
    ensures Equals(s).0.token.kind ==
      if PeekOf(s) == '=' then CMP_EQ
      else if PeekOf(s) == '.' && Peek2Of(s) == '.' then
        (if At(s.text, s.it + 3) == '=' then RANGE_INCL else RANGE_L_IN)
      else EQ
  {
    var r := Equals(s);
    if PeekOf(s) == '=' {
      assert r == Bare(NextOf(s).1, CMP_EQ);
    } else if PeekOf(s) == '.' && Peek2Of(s) == '.' {
      var s3 := NextOf(NextOf(s).1).1;
      assert PeekOf(s3) == At(s.text, s.it + 3);
      assert r == OrAssign(s3, RANGE_INCL, RANGE_L_IN);
      OrAssignLongest(s3, RANGE_INCL, RANGE_L_IN);
    } else {
      assert r == Bare(s, EQ);
    }
  }

  // ---------------------------------------------------------------------------------
  // Longest match

  /** `c=` beats `c`: the `=` is taken whenever it follows. */
  lemma OrAssignLongest(s: LexState, long: Type, short: Type)
    requires Inv(s) && Plain(long) && Plain(short)
    ensures OrAssign(s, long, short).0.Tok?
    ensures OrAssign(s, long, short).0.token.kind == if PeekOf(s) == '=' then long else short
    ensures OrAssign(s, long, short).1.it == s.it + if PeekOf(s) == '=' then 1 else 0
  {
  }

  /** `c=` beats `cc`, which beats `c`. */
  lemma AssignOrDoubleLongest(s: LexState, c: char, eq: Type, double: Type, single: Type)
    requires Inv(s) && Plain(eq) && Plain(double) && Plain(single) && c != '\0'
    ensures AssignOrDouble(s, c, eq, double, single).0.Tok?
    ensures AssignOrDouble(s, c, eq, double, single).0.token.kind ==
      if PeekOf(s) == '=' then eq else if PeekOf(s) == c then double else single
    ensures AssignOrDouble(s, c, eq, double, single).1.it ==
      s.it + if PeekOf(s) == '=' || PeekOf(s) == c then 1 else 0
  {
    if PeekOf(s) != '=' {
      OrDoubleLongest(s, c, double, single);
    }
  }

  /** `cc` beats `c`. */
  lemma OrDoubleLongest(s: LexState, c: char, double: Type, single: Type)
    requires Inv(s) && Plain(double) && Plain(single) && c != '\0'
    ensures OrDouble(s, c, double, single).0.Tok?
    ensures OrDouble(s, c, double, single).0.token.kind == if PeekOf(s) == c then double else single
    ensures OrDouble(s, c, double, single).1.it == s.it + if PeekOf(s) == c then 1 else 0
  {
  }

  /** `cc=` beats `cc`, which beats `c=`, which beats `c`. */
  lemma DoubledLongest(s: LexState, c: char, doubleEq: Type, double: Type, eq: Type, single: Type)
    requires Inv(s) && Plain(doubleEq) && Plain(double) && Plain(eq) && Plain(single) && c != '=' && c != '\0'
    ensures Doubled(s, c, doubleEq, double, eq, single).0.Tok?
    ensures Doubled(s, c, doubleEq, double, eq, single).0.token.kind ==
      if PeekOf(s) == c && Peek2Of(s) == '=' then doubleEq
      else if PeekOf(s) == c then double
      else if PeekOf(s) == '=' then eq
      else single
    ensures Doubled(s, c, doubleEq, double, eq, single).1.it ==
      s.it + (if PeekOf(s) == c && Peek2Of(s) == '=' then 2
              else if PeekOf(s) == c || PeekOf(s) == '=' then 1
              else 0)
  {
    var r := Doubled(s, c, doubleEq, double, eq, single);
    if PeekOf(s) == c {
      DoubledTwice(s, c, doubleEq, double, eq, single);
      var s1 := NextOf(s).1;
      if Peek2Of(s) == '=' {
        assert r == Bare(NextOf(s1).1, doubleEq);
        assert NextOf(s1).1.it == s.it + 2;
      } else {
        assert r == Bare(s1, double);
      }
    } else {
      DoubledOnce(s, c, doubleEq, double, eq, single);
      if PeekOf(s) == '=' {
        assert r == Bare(NextOf(s).1, eq);
      } else {
        assert r == Bare(s, single);
      }
    }
  }

  lemma DoubledTwice(s: LexState, c: char, doubleEq: Type, double: Type, eq: Type, single: Type)
    requires Inv(s) && Plain(doubleEq) && Plain(double) && Plain(eq) && Plain(single) && c != '=' && c != '\0'
    requires PeekOf(s) == c
    ensures var s1 := NextOf(s).1;
      Doubled(s, c, doubleEq, double, eq, single) ==
      if Peek2Of(s) == '=' then Bare(NextOf(s1).1, doubleEq) else Bare(s1, double)
  {
    var s1 := NextOf(s).1;
    assert MatchOf(s, c) == (true, s1);
    assert PeekOf(s1) == Peek2Of(s);
  }

  lemma DoubledOnce(s: LexState, c: char, doubleEq: Type, double: Type, eq: Type, single: Type)
    requires Inv(s) && Plain(doubleEq) && Plain(double) && Plain(eq) && Plain(single)
    requires PeekOf(s) != c
    ensures Doubled(s, c, doubleEq, double, eq, single) ==
      if PeekOf(s) == '=' then Bare(NextOf(s).1, eq) else Bare(s, single)
  {
    assert MatchOf(s, c) == (false, s);
  }

  lemma Dispatch2Avoids(s: LexState, c: char)
    requires Inv(s) && c == CurrentOf(s) && 0 <= s.absStart == s.it && c != '\0'
    ensures Avoids(Dispatch2(s, c).0.r)
  {
    var r := Dispatch2(s, c).0.r;
    if c == '=' {
      assert r == Equals(s).0;
    } else if c == '"' || c == '\'' {
      assert r == Quoted(s, c, false).0;
      QuotedKinds(s, c, false);
    } else if c == '`' {
      assert r == Quoted(s, c, true).0;
      QuotedKinds(s, c, true);
    } else {
      LiteralAvoids(s, c);
    }
  }

  lemma LiteralAvoids(s: LexState, c: char)
    requires Inv(s) && c == CurrentOf(s) && 0 <= s.absStart == s.it && c != '\0'
    requires c != '=' && c != '"' && c != '\'' && c != '`'
    ensures Avoids(Dispatch2(s, c).0.r)
  {
    var r := Dispatch2(s, c).0.r;
    if IsDec(c) {
      assert r == NumberOf(s, c).0;
      NumberKinds(s, c);
    } else if IsAlpha(c) {
      assert r == Identifier(s).0;
      IdentifierKinds(s);
    }
  }

  lemma {:induction false} AdvLoopAvoids(s: LexState)
    requires Inv(s) && !s.end
    ensures Avoids(AdvLoop(s).0)
    decreases |s.text| - s.it
  {
    var (c, s1) := NextOf(s);
    DispatchAvoids(Mark(s1), c);
    var (o, s2) := Take(s);
    if o.Skipped? {
      AdvLoopAvoids(s2);
    }
  }

  /** `advance` never emits POW_EQ, DIV_EQ, NEWLINE or MAX_TOKENS. */
  lemma AdvanceAvoids(s: LexState)
    requires Inv(s)
    ensures Avoids(AdvanceOf(s).0)
  {
    if !s.end {
      AdvLoopAvoids(s);
    }
  }

  // ---------------------------------------------------------------------------------
  // Numeric literals: which characters a pass of the loop accepts

  /** After `0b`, the digits `2` to `9` are refused. */
  lemma BinaryRefusesDigits(s: LexState, v: NumVars)
    requires Inv(s) && v.isBinary && '2' <= PeekOf(s) <= '9'
    ensures NumStep(s, v) == Reject(s)
  {
  }

  /** After `0o`, `8` and `9` are refused while `0` to `7` are taken. */
  lemma OctalDigits(s: LexState, v: NumVars)
    requires Inv(s) && v.isOctal && !v.isBinary && IsDec(PeekOf(s))
    ensures NumStep(s, v).Reject? <==> PeekOf(s) == '8' || PeekOf(s) == '9'
  {
  }

  /** `a`, `c`, `d`, `f` (either case) are refused outside hex and in a hex exponent. */
  lemma HexLetters(s: LexState, v: NumVars)
    requires Inv(s) && IsHexLetter(PeekOf(s))
    ensures NumStep(s, v).Reject? <==> !v.isHex || v.hadExp
  {
  }

  /** A base prefix is refused unless the literal began with `0` and took no prefix yet. */
  lemma PrefixNeedsLeadingZero(s: LexState, v: NumVars)
    requires Inv(s) && !v.setType
    requires var c := PeekOf(s); c == 'o' || c == 'O' || c == 'x' || c == 'X' || ((c == 'b' || c == 'B') && !v.isHex)
    ensures NumStep(s, v) == Reject(s)
  {
  }

  /** `0x` must be followed by a hex digit or a `.`. */
  lemma HexPrefixFollow(s: LexState, v: NumVars)
    requires Inv(s) && v.setType && (PeekOf(s) == 'x' || PeekOf(s) == 'X')
    ensures NumStep(s, v).Reject? <==> !IsHex(Peek2Of(s)) && Peek2Of(s) != '.'
    ensures NumStep(s, v).More? ==> NumStep(s, v).v.isHex && NumStep(s, v).v.base == 16
  {
    var s1 := NextOf(s).1;
    assert PeekOf(s1) == Peek2Of(s);
  }

  /** A separator while one is pending is refused; otherwise it is consumed and left pending. */
  lemma Separators(s: LexState, v: NumVars)
    requires Inv(s) && (PeekOf(s) == '_' || PeekOf(s) == '\'')
    ensures v.hadUnder ==> NumStep(s, v) == Reject(s)
    ensures !v.hadUnder ==> NumStep(s, v) == More(NextOf(s).1, v.(hadUnder := true))
  {
  }

  /** A `0` leaves a pending separator pending; an accepted `1` to `9` clears it. */
  lemma DigitsAndPending(s: LexState, v: NumVars)
    requires Inv(s) && IsDec(PeekOf(s))
    ensures PeekOf(s) == '0' ==> NumStep(s, v).More? && NumStep(s, v).v.hadUnder == v.hadUnder
    ensures PeekOf(s) != '0' && NumStep(s, v).More? ==> !NumStep(s, v).v.hadUnder
  {
  }

  /** A leading `0` directly followed by a digit starts with a separator pending. */
  lemma LeadingZeroPending(s: LexState)
    requires Inv(s) && IsDec(PeekOf(s))
    ensures NumInit(s, '0').Some? && NumInit(s, '0').value.1.hadUnder
  {
  }

  // ---------------------------------------------------------------------------------
  // Whole tokens from the start of a text

  function FirstToken(text: string): (r: Lexed)
    requires NoNul(text)
  {
    AdvanceOf(Start(text, 0, 0)).0
  }

  /** A text that starts with a digit starts with a numeric literal. */
  lemma StartDigit(text: string)
    requires NoNul(text) && |text| > 0 && IsDec(text[0])
    ensures var s0 := Start(text, 0, 0);
      AdvanceOf(s0) == NumberOf(Mark(NextOf(s0).1), text[0])
  {
    var s0 := Start(text, 0, 0);
    var (c, s1) := NextOf(s0);
    assert c == text[0];
    var m := Mark(s1);
    assert SingleKind(c).None?;
    assert !IsBlank(c) && !IsOperatorStart(c) && c != '.' && c != '/';
    assert Dispatch(m, c) == Dispatch2(m, c);
    assert Dispatch2(m, c) == Emitted1(NumberOf(m, c));
    assert Take(s0) == Emitted1(NumberOf(m, c));
  }

  /**
   * A digit from `1` to `7` in a literal that is still a loose octal: the digit is
   * appended both to the decimal value and, in base 8, to the octal one.
   */
  lemma LooseOctalDigit(s: LexState, v: NumVars)
    requires Inv(s) && '1' <= PeekOf(s) <= '7' && !s.hadFloat && v.base == 10
    requires v.octLoose && !v.isBinary && !v.isOctal && !v.hadExp
    ensures var d := Digit(PeekOf(s));
      NumStep(s, v) == More(NextOf(s).1, v.(hadValue := true, hadUnder := false,
        value := v.value * 10.0 + d as real, loose := v.loose * 8 + d))
  {
    var c := PeekOf(s);
    assert NumStep(s, v) == NumDigit(s, v, c);
  }

  /** The digits `ds` read in base 8, after the value `acc` already read. */
  function Base8(acc: nat, ds: seq<char>): nat
    requires AllOctal(ds)
    decreases |ds|
  {
    if ds == [] then acc else Base8(acc * 8 + Digit(ds[0]), ds[1..])
  }

  /** The characters the default case of the literal loop stops at. */
  predicate EndsLiteral(c: char)
  {
    !IsDec(c) && !IsLetter(c) && c != '.' && !IsExponent(c) && c != '_' && c != '\''
  }

  /** Digits from `0` to `7` only. */
  predicate AllOctal(ds: seq<char>)
  {
    forall j :: 0 <= j < |ds| ==> '0' <= ds[j] <= '7'
  }

  /** `0`s only. */
  predicate Zeros(ds: seq<char>)
  {
    forall j :: 0 <= j < |ds| ==> ds[j] == '0'
  }

  lemma ZerosCons(ds: seq<char>)
    requires |ds| > 0
    ensures Zeros(ds) <==> ds[0] == '0' && Zeros(ds[1..])
  {
    assert forall j :: 0 <= j < |ds| - 1 ==> ds[1..][j] == ds[j + 1];
  }

  /**
   * The loop is at a run of octal digits `ds` that ends the literal, in a literal that
   * is still a loose octal and has no fraction, exponent or base prefix.
   */
  ghost predicate LooseRun(s: LexState, v: NumVars, ds: seq<char>)
  {
    Inv(s) && 0 <= s.it && s.it + |ds| < |s.text| && !s.hadFloat &&
    v.octLoose && v.base == 10 && !v.isBinary && !v.isOctal && !v.isHex && !v.hadExp &&
    AllOctal(ds) && s.text[s.it + 1..s.it + 1 + |ds|] == ds &&
    EndsLiteral(At(s.text, s.it + |ds| + 1))
  }

  /**
   * The loop over a loose-octal run `ds`: ERROR when a separator was pending and every
   * digit is a `0`, which leaves it pending; OCTAL otherwise.
   */
  lemma {:induction false} LooseOctalRun(s: LexState, v: NumVars, ds: seq<char>)
    requires LooseRun(s, v, ds)
    ensures NumLoop(s, v).0.Tok?
    ensures NumLoop(s, v).0.token.kind == if v.hadUnder && Zeros(ds) then ERROR else OCTAL
    decreases |ds|
  {
    if ds == [] {
      LooseOctalEnds(s, v);
    } else {
      var s1, v1 := LooseOctalStep(s, v, ds);
      LooseOctalRun(s1, v1, ds[1..]);
    }
  }

  /** The OCTAL that a loose-octal run gives holds its digits read in base 8. */
  lemma {:induction false} LooseOctalValue(s: LexState, v: NumVars, ds: seq<char>)
    requires LooseRun(s, v, ds)
    ensures NumLoop(s, v).0.Tok? && NumLoop(s, v).0.token.kind == OCTAL ==>
      NumLoop(s, v).0.token.value == Numeric(Num(Base8(v.loose, ds) as real, 10, 0, false))
    decreases |ds|
  {
    if ds == [] {
      LooseOctalEnds(s, v);
    } else {
      var s1, v1 := LooseOctalStep(s, v, ds);
      LooseOctalValue(s1, v1, ds[1..]);
    }
  }

  /** One digit of a loose-octal run, and what it does to the run's kind and value. */
  lemma LooseOctalStep(s: LexState, v: NumVars, ds: seq<char>) returns (s1: LexState, v1: NumVars)
    requires LooseRun(s, v, ds) && ds != []
    ensures LooseRun(s1, v1, ds[1..]) && NumLoop(s, v) == NumLoop(s1, v1)
    ensures (v.hadUnder && Zeros(ds)) == (v1.hadUnder && Zeros(ds[1..]))
    ensures Base8(v.loose, ds) == Base8(v1.loose, ds[1..])
  {
    assert s.text[s.it + 1] == ds[0];
    s1 := NextOf(s).1;
    v1 := OctalDigitStep(s, v);
    assert NumLoop(s, v) == NumLoop(s1, v1);
    LooseRunNext(s, v, ds, v1);
    LooseDigit(v, ds, v1);
  }

  /** The cursor moves onto the run's first digit; the rest of the run follows it. */
  lemma LooseRunNext(s: LexState, v: NumVars, ds: seq<char>, v1: NumVars)
    requires LooseRun(s, v, ds) && ds != []
    requires v1 == v.(hadValue := v1.hadValue, hadUnder := v1.hadUnder, value := v1.value, loose := v1.loose)
    ensures LooseRun(NextOf(s).1, v1, ds[1..])
  {
    var s1 := NextOf(s).1;
    assert s1.text == s.text && s1.it == s.it + 1 && !s1.hadFloat;
    assert s1.it + |ds[1..]| + 1 == s.it + |ds| + 1;
    assert s1.text[s1.it + 1..s1.it + 1 + |ds[1..]|] == ds[1..];
    assert AllOctal(ds[1..]);
  }

  /** A digit taken off the run: the pending test and the base-8 value carry over. */
  lemma LooseDigit(v: NumVars, ds: seq<char>, v1: NumVars)
    requires AllOctal(ds) && ds != []
    requires v1.hadUnder == (v.hadUnder && ds[0] == '0') && v1.loose == v.loose * 8 + Digit(ds[0])
    ensures (v.hadUnder && Zeros(ds)) == (v1.hadUnder && Zeros(ds[1..]))
    ensures Base8(v.loose, ds) == Base8(v1.loose, ds[1..])
  {
    ZerosCons(ds);
  }

  /** A loose octal whose loop has reached the end of the literal. */
  lemma LooseOctalEnds(s: LexState, v: NumVars)
    requires Inv(s) && EndsLiteral(PeekOf(s))
    requires v.octLoose && !v.isBinary && !v.isOctal && !v.isHex
    ensures NumLoop(s, v).0 ==
      if v.hadUnder then Tok(Token(ERROR, Pos(s), NoValue, 0))
      else Tok(Token(OCTAL, Pos(s), Numeric(Num(v.loose as real, 10, 0, false)), 0))
  {
    assert NumStep(s, v) == Done(s, v);
  }

  /** One octal digit of a loose octal: both values take it, and only a `0` keeps a separator pending. */
  lemma OctalDigitStep(s: LexState, v: NumVars) returns (v1: NumVars)
    requires Inv(s) && '0' <= PeekOf(s) <= '7' && !s.hadFloat
    requires v.octLoose && v.base == 10 && !v.isBinary && !v.isOctal && !v.hadExp
    ensures var d := Digit(PeekOf(s));
      v1 == v.(hadValue := true, hadUnder := v.hadUnder && PeekOf(s) == '0',
               value := v.value * 10.0 + d as real, loose := v.loose * 8 + d)
    ensures NumStep(s, v) == More(NextOf(s).1, v1)
  {
    var c := PeekOf(s);
    var d := Digit(c);
    v1 := v.(hadValue := true, hadUnder := v.hadUnder && c == '0',
             value := v.value * 10.0 + d as real, loose := v.loose * 8 + d);
    assert NumStep(s, v) == NumDigit(s, v, c);
  }

  /**
   * A literal that is a `0` followed by `k` octal digits, ending there, is a loose
   * octal: OCTAL with the digits read in base 8. The one exception is a run of `0`s
   * only (`00`, `000`), where the separator the leading `0` left pending gives ERROR.
   */
  lemma LooseOctal(text: string, k: nat)
    requires NoNul(text) && k < |text| && text[0] == '0'
    requires AllOctal(text[1..k + 1]) && EndsLiteral(At(text, k + 1))
    ensures FirstToken(text).Tok?
    ensures FirstToken(text).token.kind == if k > 0 && Zeros(text[1..k + 1]) then ERROR else OCTAL
    ensures FirstToken(text).token.kind == OCTAL ==>
      FirstToken(text).token.value == Numeric(Num(Base8(0, text[1..k + 1]) as real, 10, 0, false))
  {
    var s1 := LooseOctalBegin(text);
    var v0 := NUM_START.(setType := true, octLoose := true, hadUnder := k > 0);
    LooseRunStart(text, k, s1, v0);
    LooseOctalRun(s1, v0, text[1..k + 1]);
    LooseOctalValue(s1, v0, text[1..k + 1]);
  }

  /** Right after the leading `0`, the loop is at the run of octal digits that follows it. */
  lemma LooseRunStart(text: string, k: nat, s1: LexState, v0: NumVars)
    requires k < |text| && AllOctal(text[1..k + 1]) && EndsLiteral(At(text, k + 1))
    requires Inv(s1) && s1.it == 0 && s1.text == text && !s1.hadFloat
    requires v0 == NUM_START.(setType := true, octLoose := true, hadUnder := k > 0)
    ensures LooseRun(s1, v0, text[1..k + 1]) && v0.hadUnder == IsDec(At(text, 1))
  {
    var ds := text[1..k + 1];
    assert s1.text[s1.it + 1..s1.it + 1 + |ds|] == ds;
    assert s1.it + |ds| + 1 == k + 1 && s1.it + |ds| < |s1.text|;
    assert k > 0 ==> ds[0] == text[1];
  }

  /** A text starting with `0`: the literal loop from a state that may be a loose octal. */
  lemma LooseOctalBegin(text: string) returns (s1: LexState)
    requires NoNul(text) && |text| > 0 && text[0] == '0'
    ensures Inv(s1) && s1.it == 0 && s1.text == text && !s1.hadFloat
    ensures FirstToken(text) ==
      NumLoop(s1, NUM_START.(setType := true, octLoose := true, hadUnder := IsDec(At(text, 1)))).0
  {
    var s0 := Start(text, 0, 0);
    StartDigit(text);
    s1 := Mark(NextOf(s0).1);
    assert s1.it == 0 && s1.text == text && !s1.hadFloat && PeekOf(s1) == At(text, 1);
    var v0 := NUM_START.(setType := true, octLoose := true, hadUnder := IsDec(At(text, 1)));
    assert NumberOf(s1, '0') == NumLoop(s1, v0);
  }

  /** `8`, `9`, `.`, a base prefix, and outside hex `e` and `b`. */
  predicate ClearsLoose(c: char, isHex: bool)
  {
    c == '8' || c == '9' || c == '.' || c == 'o' || c == 'O' || c == 'x' || c == 'X' ||
    (!isHex && (c == 'e' || c == 'E' || c == 'b' || c == 'B'))
  }

  /**
   * An `8`, a `9`, a fraction point, a decimal exponent or a base prefix clears the
   * loose-octal flag whenever the loop goes on past it, and no pass sets it again.
   */
  lemma LooseOctalCleared(s: LexState, v: NumVars)
    requires Inv(s)
    ensures ClearsLoose(PeekOf(s), v.isHex) && NumStep(s, v).More? ==> !NumStep(s, v).v.octLoose
    ensures !v.octLoose && NumStep(s, v).More? ==> !NumStep(s, v).v.octLoose
  {
    var c := PeekOf(s);
    if IsDec(c) {
      assert NumStep(s, v) == NumDigit(s, v, c);
      DigitClears(s, v, c);
    } else if IsLetter(c) {
      assert NumStep(s, v) == NumLetter(s, v, c);
      LetterClears(s, v, c);
    } else if c == '.' {
      assert NumStep(s, v) == NumDot(s, v);
    } else if IsExponent(c) {
      assert NumStep(s, v) == NumExponent(s, v, c);
      ExponentClears(s, v, c);
    }
  }

  lemma DigitClears(s: LexState, v: NumVars, c: char)
    requires Inv(s) && c == PeekOf(s) && IsDec(c)
    ensures NumDigit(s, v, c).More? && (c == '8' || c == '9' || !v.octLoose) ==> !NumDigit(s, v, c).v.octLoose
  {
    if c <= '7' {
      var w := Insert(v.(hadValue := true, hadUnder := c == '0' && v.hadUnder), s.hadFloat, Digit(c));
      assert w.octLoose == v.octLoose;
      assert NumDigit(s, v, c).More? ==> NumDigit(s, v, c).v == InsertOctal(w, Digit(c));
    }
  }

  lemma LetterClears(s: LexState, v: NumVars, c: char)
    requires Inv(s) && c == PeekOf(s) && IsLetter(c)
    ensures NumLetter(s, v, c).More? && (ClearsLoose(c, v.isHex) || !v.octLoose) ==> !NumLetter(s, v, c).v.octLoose
  {
    if IsHexLetter(c) || ((c == 'b' || c == 'B') && v.isHex) {
      assert NumLetter(s, v, c) == NumHexLetter(s, v, c);
    } else {
      assert NumLetter(s, v, c) == NumPrefix(s, v, c);
    }
  }

  lemma ExponentClears(s: LexState, v: NumVars, c: char)
    requires Inv(s) && c == PeekOf(s) && IsExponent(c)
    ensures NumExponent(s, v, c).More? && (ClearsLoose(c, v.isHex) || !v.octLoose) ==> !NumExponent(s, v, c).v.octLoose
  {
  }

  /** `017` is a loose octal literal: OCTAL, its digits read in base 8. */
  lemma LooseOctalExample()
    ensures FirstToken("017").Tok?
    ensures FirstToken("017").token.kind == OCTAL
    ensures FirstToken("017").token.value == Numeric(Num(15.0, 10, 0, false))
  {
    var s1 := LexState("017", false, false, 0, 2, 1, 1, 0, 0, 0);
    var v0 := NUM_START.(setType := true, octLoose := true, hadUnder := false);
    LooseOctalStart(s1, v0);
    var s3 := LexState("017", false, false, 2, 4, 1, 1, 0, 0, 0);
    var v2 := v0.(hadValue := true, value := 17.0, loose := 15);
    LooseOctalDigits(s1, v0, s3, v2);
    LooseOctalEnd(s3, v2);
  }

  lemma LooseOctalStart(s1: LexState, v0: NumVars)
    requires s1 == LexState("017", false, false, 0, 2, 1, 1, 0, 0, 0)
    requires v0 == NUM_START.(setType := true, octLoose := true, hadUnder := false)
    ensures Inv(s1) && FirstToken("017") == NumLoop(s1, v0).0
  {
    var s0 := Start("017", 0, 0);
    StartDigit("017");
    assert Mark(NextOf(s0).1) == s1;
    assert PeekOf(s1) == '1';
  }

  lemma LooseOctalDigits(s1: LexState, v0: NumVars, s3: LexState, v2: NumVars)
    requires s1 == LexState("017", false, false, 0, 2, 1, 1, 0, 0, 0)
    requires v0 == NUM_START.(setType := true, octLoose := true, hadUnder := false)
    requires s3 == LexState("017", false, false, 2, 4, 1, 1, 0, 0, 0)
    requires v2 == v0.(hadValue := true, value := 17.0, loose := 15)
    ensures Inv(s1) && Inv(s3) && NumLoop(s1, v0) == NumLoop(s3, v2)
  {
    var s2 := LexState("017", false, false, 1, 3, 1, 1, 0, 0, 0);
    assert PeekOf(s1) == '1' && NextOf(s1).1 == s2;
    LooseOctalDigit(s1, v0);
    var v1 := v0.(hadValue := true, value := 1.0, loose := 1);
    assert PeekOf(s2) == '7' && NextOf(s2).1 == s3;
    LooseOctalDigit(s2, v1);
  }

  lemma LooseOctalEnd(s3: LexState, v2: NumVars)
    requires s3 == LexState("017", false, false, 2, 4, 1, 1, 0, 0, 0)
    requires v2 == NUM_START.(setType := true, octLoose := true, hadValue := true, value := 17.0, loose := 15)
    ensures Inv(s3) && NumLoop(s3, v2).0 == Tok(Token(OCTAL, Pos(s3), Numeric(Num(15.0, 10, 0, false)), 0))
  {
    assert PeekOf(s3) == '\0';
    EndOfLiteral(s3, v2);
  }



  /** The end of the text ends the loop. */
  lemma EndOfLiteral(s: LexState, v: NumVars)
    requires Inv(s) && PeekOf(s) == '\0'
    ensures NumStep(s, v) == Done(s, v)
  {
  }

  /** `00` leaves a separator pending and is an ERROR. */
  lemma DoubleZeroExample()
    ensures FirstToken("00").Tok? && FirstToken("00").token.kind == ERROR
  {
    var s0 := Start("00", 0, 0);
    StartDigit("00");
    var s1 := Mark(NextOf(s0).1);
    assert PeekOf(s1) == '0';
    var v0 := NUM_START.(setType := true, octLoose := true, hadUnder := true);
    assert NumberOf(s1, '0') == NumLoop(s1, v0);
    PendingStaysError(s1, v0);
  }

  /** Once a separator is pending, only a digit from `1` to `9` can save the literal. */
  lemma {:induction false} PendingStaysError(s: LexState, v: NumVars)
    requires Inv(s) && v.hadUnder && !v.isHex && v.setType
    requires forall k :: s.it < k < |s.text| ==> s.text[k] == '0'
    ensures NumLoop(s, v).0.Tok? && NumLoop(s, v).0.token.kind == ERROR
    decreases |s.text| - s.it
  {
    if PeekOf(s) == '0' {
      var s1 := NextOf(s).1;
      assert NumStep(s, v) == NumDigit(s, v, '0');
      var v1 := NumStep(s, v).v;
      assert NumStep(s, v) == More(s1, v1) && v1.hadUnder && !v1.isHex && v1.setType;
      PendingStaysError(s1, v1);
    } else {
      assert PeekOf(s) == '\0';
      assert NumStep(s, v) == Done(s, v);
    }
  }
}
