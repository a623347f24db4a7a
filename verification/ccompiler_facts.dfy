/**
 * Properties of the text src/compiler.c writes: the operator spellings, the type names,
 * argument lists, the order of statements, and where indentation can appear.
 */
module CCompilerFacts {
  import opened Base
  import opened CTypes
  import opened CParser
  import opened CCompiler

  // ---------------------------------------------------------------------------------
  // Spellings

  /** Every binary operator but BIN_UNDEF has its own spelling, and no spelling is empty. */
  lemma BinarySpellings(a: BinaryOperator, b: BinaryOperator)
    ensures GetBinaryOperator(a) == "" <==> a == BIN_UNDEF
    ensures GetBinaryOperator(a) == GetBinaryOperator(b) ==> a == b
  {
  }

  /** Every unary operator but UNARY_UNDEF has its own spelling, and no spelling is empty. */
  lemma UnarySpellings(a: UnaryOperator, b: UnaryOperator)
    ensures GetUnaryOperator(a) == "" <==> a == UNARY_UNDEF
    ensures GetUnaryOperator(a) == GetUnaryOperator(b) ==> a == b
  {
  }

  /**
   * An operator token the parser reads is written back with a spelling of its own, and
   * any other token with none; `<>` (LSHIFT), which the parser takes for BIN_RSHIFT, is
   * written `>>`.
   */
  lemma TokenSpelling(k: Type)
    ensures GetBinaryOperator(BinaryOpOf(k)) == "" <==> BinaryOpOf(k) == BIN_UNDEF
    ensures GetBinaryOperator(BinaryOpOf(LSHIFT)) == ">>"
  {
    BinarySpellings(BinaryOpOf(k), BIN_UNDEF);
  }

  /** The C string of a text that holds no NUL is the whole text. */
  lemma {:induction false} CStrOfPlain(s: seq<char>)
    requires NoNul(s)
    ensures CStr(s) == s
  {
    if s != [] {
      CStrOfPlain(s[1..]);
    }
  }

  /** `getKind` turns `i32` into `int` and `strp` into `char **`, and keeps every other type name. */
  lemma KindNames(kind: seq<char>)
    ensures CStr(kind) == "i32" ==> GetKind(kind) == "int"
    ensures CStr(kind) == "strp" ==> GetKind(kind) == "char **"
    ensures CStr(kind) != "i32" && CStr(kind) != "strp" ==> GetKind(kind) == kind
  {
  }

  /** A C type `getKind` made is given back unchanged: applying it twice is applying it once. */
  lemma KindSettles(kind: seq<char>)
    ensures GetKind(GetKind(kind)) == GetKind(kind)
  {
    if CStr(kind) == "i32" {
      CStrOfPlain("int");
      assert "int" != "i32" && "int" != "strp";
    } else if CStr(kind) == "strp" {
      CStrOfPlain("char **");
      assert "char **" != "i32" && "char **" != "strp";
    }
  }

  // ---------------------------------------------------------------------------------
  // Lists and sequences of nodes

  /** The texts of the nodes of an array, each at the same indent. */
  function Texts(ns: seq<Node>, indent: nat): (ts: seq<string>)
    ensures |ts| == |ns| && forall i :: 0 <= i < |ns| ==> ts[i] == Text(ns[i], indent)
  {
    seq(|ns|, i requires 0 <= i < |ns| => Text(ns[i], indent))
  }

  /** Texts written one after the other. */
  function Concat(ts: seq<string>): string
  {
    if ts == [] then "" else ts[0] + Concat(ts[1..])
  }

  /** Texts with ", " between each two neighbours, and before the first or after the last none. */
  function Join(ts: seq<string>): string
  {
    if ts == [] then "" else if |ts| == 1 then ts[0] else ts[0] + ", " + Join(ts[1..])
  }

  lemma {:induction false} ConcatSnoc(ts: seq<string>, t: string)
    ensures Concat(ts + [t]) == Concat(ts) + t
  {
    if ts != [] {
      assert (ts + [t])[1..] == ts[1..] + [t];
      ConcatSnoc(ts[1..], t);
    }
  }

  lemma {:induction false} JoinSnoc(ts: seq<string>, t: string)
    requires ts != []
    ensures Join(ts + [t]) == Join(ts) + ", " + t
  {
    if |ts| > 1 {
      assert (ts + [t])[1..] == ts[1..] + [t];
      JoinSnoc(ts[1..], t);
    }
  }

  /** A body's loop writes the texts of its statements, in order. */
  lemma {:induction false} EachConcat(ns: seq<Node>, k: nat, indent: nat)
    requires k <= |ns|
    ensures Each(ns, k, indent) == Concat(Texts(ns, indent)[..k])
  {
    if k > 0 {
      EachConcat(ns, k - 1, indent);
      var ts := Texts(ns, indent);
      assert ts[..k] == ts[..k - 1] + [ts[k - 1]];
      ConcatSnoc(ts[..k - 1], ts[k - 1]);
    }
  }

  /**
   * The loop over arguments has written, after `k` of them, their texts joined by ", ",
   * followed by one more ", " unless the last one has been written.
   */
  lemma {:induction false} ListedJoin(ns: seq<Node>, k: nat, indent: nat)
    requires k <= |ns|
    ensures Listed(ns, k, indent) == if k == 0 then "" else Join(Texts(ns, indent)[..k]) + Separator(k - 1, |ns|)
  {
    if k > 1 {
      ListedJoin(ns, k - 1, indent);
      var ts := Texts(ns, indent);
      assert ts[..k] == ts[..k - 1] + [ts[k - 1]];
      JoinSnoc(ts[..k - 1], ts[k - 1]);
    } else if k == 1 {
      assert Listed(ns, 0, indent) == "";
      assert Texts(ns, indent)[..1] == [Text(ns[0], indent)];
    }
  }

  /**
   * A call writes its callee, then its arguments in parentheses with ", " between each
   * two and none after the last.
   */
  lemma CallJoins(callee: Node, params: seq<Node>, indent: nat)
    ensures Text(CallExpression(callee, params), indent)
         == Text(callee, indent) + "(" + Join(Texts(params, indent + 1)) + ")"
  {
    ListedJoin(params, |params|, indent + 1);
    assert Texts(params, indent + 1)[..|params|] == Texts(params, indent + 1);
  }

  /** A program writes its top-level nodes one after the other, each at indent 0. */
  lemma ProgramConcats(body: seq<Node>)
    ensures Text(Program(body), 0) == Concat(Texts(body, 0))
  {
    EachConcat(body, |body|, 0);
    assert Texts(body, 0)[..|body|] == Texts(body, 0);
  }

  /**
   * A function declaration is written as an `int` function: its parameters joined like a
   * call's arguments, its statements one level deeper, its braces at its own indent.
   */
  lemma FunctionJoins(name: Node, params: seq<Node>, body: seq<Node>, indent: nat)
    ensures Text(FunctionDeclaration(name, params, Present(body)), indent)
         == Spaces(indent) + "int " + Text(name, 0) + "(" + Join(Texts(params, indent + 1)) + ") {\n" +
            Concat(Texts(body, indent + 1)) + Spaces(indent) + "}\n"
  {
    var n := FunctionDeclaration(name, params, Present(body));
    assert Text(n, indent) == FunctionText(n, indent);
    ListedJoin(params, |params|, indent + 1);
    assert Texts(params, indent + 1)[..|params|] == Texts(params, indent + 1);
    EachConcat(body, |body|, indent + 1);
    assert Texts(body, indent + 1)[..|body|] == Texts(body, indent + 1);
    assert Block(n.block, indent + 1) == Concat(Texts(body, indent + 1));
  }

  // ---------------------------------------------------------------------------------
  // Indentation

  /** A tree of expressions only: no statement or declaration anywhere in it. */
  predicate Flat(n: Node)
  {
    match n
    case Nil => true
    case CallExpression(callee, params) => Flat(callee) && forall p :: p in params ==> Flat(p)
    case BinaryExpression(_, left, right) => Flat(left) && Flat(right)
    case UnaryExpression(_, e) => Flat(e)
    case StringLiteral(_) => true
    case Literal(_) => true
    case Identifier(_) => true
    case TypedIdentifier(_, _) => true
    case AssignmentExpression(_, left, right) => Flat(left) && Flat(right)
    case _ => false
  }

  /**
   * Only `tab` writes indentation, and only statements and declarations call it: a tree
   * of expressions writes the same text at any depth.
   */
  lemma {:induction false} FlatIgnoresIndent(n: Node, i: nat, j: nat)
    requires Flat(n)
    ensures Text(n, i) == Text(n, j)
    decreases n, 1
  {
    match n
    case Nil =>
    case CallExpression(callee, params) =>
      FlatIgnoresIndent(callee, i, j);
      ListedIgnoresIndent(params, |params|, i + 1, j + 1);
    case BinaryExpression(_, left, right) =>
      FlatIgnoresIndent(left, i + 1, j + 1);
      FlatIgnoresIndent(right, i + 1, j + 1);
    case UnaryExpression(_, e) =>
      FlatIgnoresIndent(e, i + 1, j + 1);
    case StringLiteral(_) =>
    case Literal(_) =>
    case Identifier(_) =>
    case TypedIdentifier(_, _) =>
    case AssignmentExpression(_, _, right) =>
      FlatIgnoresIndent(right, i + 1, j + 1);
  }

  lemma {:induction false} ListedIgnoresIndent(ns: seq<Node>, k: nat, i: nat, j: nat)
    requires k <= |ns| && forall p :: p in ns ==> Flat(p)
    ensures Listed(ns, k, i) == Listed(ns, k, j)
    decreases ns, k
  {
    if k > 0 {
      ListedIgnoresIndent(ns, k - 1, i, j);
      FlatIgnoresIndent(ns[k - 1], i, j);
    }
  }

  /** An expression statement is one line: indentation, the expression, `;` and a newline. */
  lemma ExpressionStatementLine(e: Node, indent: nat)
    requires Flat(e)
    ensures Text(ExpressionStatement(e), indent) == Spaces(indent) + Text(e, 0) + ";\n"
  {
    FlatIgnoresIndent(e, indent + 1, 0);
  }

  // ---------------------------------------------------------------------------------
  // Single nodes

  /**
   * A typed identifier ends with its name, and is the bare name exactly when the type
   * name equals the name; otherwise the C type and a space come first.
   */
  lemma TypedIdentifierText(name: seq<char>, kind: seq<char>, indent: nat)
    ensures var t := Text(TypedIdentifier(name, kind), indent);
      |t| >= |CStr(name)| && t[|t| - |CStr(name)|..] == CStr(name)
    ensures Text(TypedIdentifier(name, kind), indent) == CStr(name) <==> CStr(kind) == CStr(name)
    ensures CStr(kind) != CStr(name) ==>
      Text(TypedIdentifier(name, kind), indent) == CStr(GetKind(kind)) + " " + CStr(name)
  {
  }

  /** Nothing is written for a NULL node, an async function or a class. */
  lemma Unwritten(name: Node, params: seq<Node>, block: Body, body: seq<Node>, indent: nat)
    ensures Text(Nil, indent) == ""
    ensures Text(AsyncFunctionDeclaration(name, params, block), indent) == ""
    ensures Text(ClassDeclaration(name, body), indent) == ""
  {
  }

  /** A NULL body and an empty one write the same. */
  lemma AbsentBodyIsEmpty(indent: nat)
    ensures Block(Absent, indent) == Block(Present([]), indent) == ""
  {
  }

  /** The operator of a unary expression is written after its operand: `-x` becomes `x-`. */
  lemma NegationIsPostfix()
    ensures Text(ExpressionStatement(UnaryExpression(UNARY_NEG, Identifier("x"))), 0) == "x-;\n"
  {
    CStrOfPlain("x");
  }

  /** `f(1, x)`, written back. */
  lemma CallExample()
    ensures Text(CallExpression(Identifier("f"), [Literal("1"), Identifier("x")]), 0) == "f(1, x)"
  {
    CStrOfPlain("f");
    CStrOfPlain("1");
    CStrOfPlain("x");
    assert Listed([Literal("1"), Identifier("x")], 1, 1) == "1, ";
  }
}
