/**
 * The C back end of the older front end, src/compiler.c: it walks the syntax tree of
 * src/types.h and writes C text to `compiler.out`.
 *
 * The text a node produces is stated as the function `Text`; the `Compiler` class
 * appends to its output in place, node by node, as `compile_internal` does, and is
 * proved to write exactly that text.
 */
module CCompiler {
  import opened Base
  import opened CTypes

  /**
   * A syntax tree node (`Typed *`), with `Nil` for a NULL pointer. A body that the source
   * tests for NULL before walking it is a `Body`; the other arrays are always there.
   * Text fields are C strings: only what comes before a NUL is printed or compared.
   */
  datatype Node =
    | Nil
    | Program(body: seq<Node>)
    | ImportDeclaration(source: Node, specifiers: seq<Node>)
    | ImportSpecifier(name: Node, local: Node)
    | AssignmentExpression(aop: AssignmentOperator, left: Node, right: Node)
    | CallExpression(callee: Node, params: seq<Node>)
    | BinaryExpression(bop: BinaryOperator, left: Node, right: Node)
    | UnaryExpression(uop: UnaryOperator, expr: Node)
    | FunctionDeclaration(name: Node, params: seq<Node>, block: Body)
    | AsyncFunctionDeclaration(name: Node, params: seq<Node>, block: Body)
    | ClassDeclaration(name: Node, body: seq<Node>)
    | Literal(value: seq<char>)
    | StringLiteral(value: seq<char>)
    | Identifier(id: seq<char>)
    | TypedIdentifier(id: seq<char>, kind: seq<char>)
    | ExpressionStatement(expr: Node)
    | ReturnStatement(expr: Node)
    | SwitchStatement(expr: Node)
    | CaseStatement(test: Node, body: seq<Node>)
    | DefaultStatement(body: seq<Node>)
    | ForStatement(init: Node, test: Node, update: Node, block: Body)
    | WhileStatement(test: Node, block: Body)

  /** An `Array *` of statements that the source tests for NULL before walking it. */
  datatype Body = Absent | Present(nodes: seq<Node>)

  const HEADER := "#include <stdio.h>\n\n"

  // ---------------------------------------------------------------------------------
  // Lookups

  /** What `tab(indent)` writes: two spaces per level. */
  function Spaces(indent: nat): (r: string)
    ensures |r| == 2 * indent
    ensures forall i :: 0 <= i < |r| ==> r[i] == ' '
  {
    if indent == 0 then "" else Spaces(indent - 1) + "  "
  }

  /** `getBinaryOperator`: the C spelling, and the empty text for BIN_UNDEF. */
  function GetBinaryOperator(op: BinaryOperator): string
  {
    match op
    case BIN_ADD => "+"
    case BIN_SUB => "-"
    case BIN_MUL => "*"
    case BIN_DIV => "/"
    case BIN_LAND => "&&"
    case BIN_LOR => "||"
    case BIN_BAND => "&"
    case BIN_BOR => "|"
    case BIN_BXOR => "^"
    case BIN_REM => "%"
    case BIN_RSHIFT => ">>"
    case BIN_LSHIFT => "<<"
    case BIN_POW => "**"
    case BIN_EQ => "=="
    case BIN_GT => ">"
    case BIN_LT => "<"
    case BIN_NEQ => "!="
    case BIN_LEQ => "<="
    case BIN_GEQ => ">="
    case BIN_UNDEF => ""
  }

  /** `getUnaryOperator`: the C spelling, and the empty text for UNARY_UNDEF. */
  function GetUnaryOperator(op: UnaryOperator): string
  {
    match op
    case UNARY_INCR => "++"
    case UNARY_DECR => "--"
    case UNARY_LNOT => "!"
    case UNARY_BNOT => "~"
    case UNARY_NEG => "-"
    case UNARY_UNDEF => ""
  }

  /** `getKind`: the C type for the source's type names `i32` and `strp`; others are kept. */
  function GetKind(kind: seq<char>): seq<char>
  {
    if CStr(kind) == "i32" then "int"
    else if CStr(kind) == "strp" then "char **"
    else kind
  }

  // ---------------------------------------------------------------------------------
  // The text of a tree

  /**
   * The text `compile_internal(n, indent)` writes. Each kind of node with parts of its
   * own has a function below that spells out its text.
   */
  function Text(n: Node, indent: nat): string
    decreases n, 1
  {
    match n
    case Nil => ""
    case ExpressionStatement(_) => ExpressionStatementText(n, indent)
    case ReturnStatement(_) => ReturnText(n, indent)
    case SwitchStatement(_) => SwitchText(n, indent)
    case CaseStatement(_, _) => CaseText(n, indent)
    case DefaultStatement(_) => DefaultText(n, indent)
    case ForStatement(_, _, _, _) => ForText(n, indent)
    case WhileStatement(_, _) => WhileText(n, indent)
    case CallExpression(_, _) => CallText(n, indent)
    case BinaryExpression(_, _, _) => BinaryText(n, indent)
    case UnaryExpression(_, _) => UnaryText(n, indent)
    case StringLiteral(v) => "\"" + CStr(v) + "\""
    case Literal(v) => CStr(v)
    case Identifier(name) => CStr(name)
    case TypedIdentifier(_, _) => TypedText(n)
    case Program(body) => Each(body, |body|, indent)
    case ImportDeclaration(_, _) => ImportText(n, indent)
    case FunctionDeclaration(_, _, _) => FunctionText(n, indent)
    case ImportSpecifier(_, _) => SpecifierText(n)
    case AssignmentExpression(_, _, _) => AssignmentText(n, indent)
    case AsyncFunctionDeclaration(_, _, _) => ""
    case ClassDeclaration(_, _) => ""
  }

  /** EXPRESSION_STATEMENT: the expression, indented, one level deeper inside, then `;`. */
  function ExpressionStatementText(n: Node, indent: nat): string
    requires n.ExpressionStatement?
    decreases n, 0
  {
    Spaces(indent) + Text(n.expr, indent + 1) + ";\n"
  }

  /** RETURN_STATEMENT. */
  function ReturnText(n: Node, indent: nat): string
    requires n.ReturnStatement?
    decreases n, 0
  {
    Spaces(indent) + "return " + Text(n.expr, indent + 1) + ";\n"
  }

  /** SWITCH_STATEMENT: only the head and the opening brace. */
  function SwitchText(n: Node, indent: nat): string
    requires n.SwitchStatement?
    decreases n, 0
  {
    Spaces(indent) + "switch (" + Text(n.expr, indent + 1) + ") {\n"
  }

  /** CASE_STATEMENT: one level deeper than the switch, closed by `break;`. */
  function CaseText(n: Node, indent: nat): string
    requires n.CaseStatement?
    decreases n, 0
  {
    Spaces(indent + 1) + "case " + Text(n.test, indent + 1) + ":\n" + Each(n.body, |n.body|, indent + 2) +
    Spaces(indent + 2) + "break;\n"
  }

  /** DEFAULT_STATEMENT: like a case, and it also closes the switch. */
  function DefaultText(n: Node, indent: nat): string
    requires n.DefaultStatement?
    decreases n, 0
  {
    Spaces(indent + 1) + "default:\n" + Each(n.body, |n.body|, indent + 2) +
    Spaces(indent + 2) + "break;\n" + Spaces(indent) + "}\n"
  }

  /** A body the source walks only when it is not NULL. */
  function Block(block: Body, indent: nat): string
    decreases block, 0
  {
    match block
    case Present(b) => Each(b, |b|, indent)
    case Absent => ""
  }

  /** FOR_STATEMENT. */
  function ForText(n: Node, indent: nat): string
    requires n.ForStatement?
    decreases n, 0
  {
    Spaces(indent) + "for (" + Text(n.init, indent + 1) + "; " + Text(n.test, indent + 1) + "; " +
    Text(n.update, indent + 1) + ") {\n" + Block(n.block, indent + 1) + Spaces(indent) + "}\n"
  }

  /** WHILE_STATEMENT. */
  function WhileText(n: Node, indent: nat): string
    requires n.WhileStatement?
    decreases n, 0
  {
    Spaces(indent) + "while (" + Text(n.test, indent + 1) + ") {\n" + Block(n.block, indent + 1) +
    Spaces(indent) + "}\n"
  }

  /** CALL_EXPRESSION: the callee and the argument list in parentheses. */
  function CallText(n: Node, indent: nat): string
    requires n.CallExpression?
    decreases n, 0
  {
    Text(n.callee, indent) + "(" + Listed(n.params, |n.params|, indent + 1) + ")"
  }

  /** BINARY_EXPRESSION: infix, with a space on each side of the operator. */
  function BinaryText(n: Node, indent: nat): string
    requires n.BinaryExpression?
    decreases n, 0
  {
    Text(n.left, indent + 1) + (" " + GetBinaryOperator(n.bop) + " ") + Text(n.right, indent + 1)
  }

  /** UNARY_EXPRESSION: the operator is written after its operand. */
  function UnaryText(n: Node, indent: nat): string
    requires n.UnaryExpression?
    decreases n, 0
  {
    Text(n.expr, indent + 1) + GetUnaryOperator(n.uop)
  }

  /** TYPED_IDENTIFIER: the C type and the name when the two differ, else the name. */
  function TypedText(n: Node): string
    requires n.TypedIdentifier?
  {
    if CStr(n.kind) != CStr(n.id) then CStr(GetKind(n.kind)) + " " + CStr(n.id) else CStr(n.id)
  }

  /** IMPORT_DECLARATION: the source at indent 0, then the specifiers. */
  function ImportText(n: Node, indent: nat): string
    requires n.ImportDeclaration?
    decreases n, 0
  {
    Text(n.source, 0) + Each(n.specifiers, |n.specifiers|, indent + 1)
  }

  /** FUNCTION_DECLARATION: an `int` function; the parameter array must be there. */
  function FunctionText(n: Node, indent: nat): string
    requires n.FunctionDeclaration?
    decreases n, 0
  {
    Spaces(indent) + "int " + Text(n.name, 0) + "(" + Listed(n.params, |n.params|, indent + 1) + ") {\n" +
    Block(n.block, indent + 1) + Spaces(indent) + "}\n"
  }

  /** IMPORT_SPECIFIER: the name and the local name, each at indent 0. */
  function SpecifierText(n: Node): string
    requires n.ImportSpecifier?
    decreases n, 0
  {
    Text(n.name, 0) + Text(n.local, 0)
  }

  /** ASSIGNMENT_EXPRESSION: always an `int` declaration, whatever the operator. */
  function AssignmentText(n: Node, indent: nat): string
    requires n.AssignmentExpression?
    decreases n, 0
  {
    "int " + Text(n.left, 0) + " = " + Text(n.right, indent + 1)
  }

  /** The nodes that stand for expressions: calls, operators, literals, names and assignments. */
  predicate IsExpression(n: Node)
  {
    n.CallExpression? || n.BinaryExpression? || n.UnaryExpression? || n.StringLiteral? ||
    n.Literal? || n.Identifier? || n.TypedIdentifier? || n.AssignmentExpression?
  }

  /** The loop over an array of statements: the texts of the first `k` nodes, in order. */
  function Each(ns: seq<Node>, k: nat, indent: nat): string
    requires k <= |ns|
    decreases ns, k
  {
    if k == 0 then "" else Each(ns, k - 1, indent) + Text(ns[k - 1], indent)
  }

  /**
   * The loop over the arguments of a call or the parameters of a declaration: each of
   * the first `k` nodes, followed by ", " unless it is the last of the array.
   */
  function Listed(ns: seq<Node>, k: nat, indent: nat): string
    requires k <= |ns|
    decreases ns, k
  {
    if k == 0 then "" else Listed(ns, k - 1, indent) + Text(ns[k - 1], indent) + Separator(k - 1, |ns|)
  }

  /** The text written after argument `i` of `len`. */
  function Separator(i: int, len: int): string
  {
    if i < len - 1 then ", " else ""
  }

  // ---------------------------------------------------------------------------------
  // The compiler in place

  /** Appending in two steps is appending once. */
  lemma Appended(o: string, a: string, b: string)
    ensures o + a + b == o + (a + b)
  {
  }

  /** The part of the global `compiler` this model keeps: the output written so far. */
  class Compiler {
    var out: string

    constructor ()
      ensures out == ""
    {
      out := "";
    }

    /** One `fprintf` of a fixed text. */
    method Write(s: string)
      modifies this
      ensures out == old(out) + s
    {
      out := out + s;
    }

    /** `tab(indent)`. */
    method Tab(indent: nat)
      modifies this
      ensures out == old(out) + Spaces(indent)
    {
      for i := 0 to indent
        invariant out == old(out) + Spaces(i)
      {
        out := out + "  ";
      }
    }

    /**
     * `compile_internal(v, indent)`: nothing for NULL, and for a node with parts, the
     * case of its kind, each written out as a method below.
     */
    method CompileInternal(n: Node, indent: nat)
      modifies this
      ensures out == old(out) + Text(n, indent)
      decreases n, 3
    {
      if IsExpression(n) {
        CompileExpression(n, indent);
      } else {
        match n
        case Nil =>
        case ExpressionStatement(_) => CompileExpressionStatement(n, indent);
        case ReturnStatement(_) => CompileReturn(n, indent);
        case SwitchStatement(_) => CompileSwitch(n, indent);
        case CaseStatement(_, _) => CompileCase(n, indent);
        case DefaultStatement(_) => CompileDefault(n, indent);
        case ForStatement(_, _, _, _) => CompileFor(n, indent);
        case WhileStatement(_, _) => CompileWhile(n, indent);
        case Program(body) => CompileEach(body, indent);
        case ImportDeclaration(_, _) => CompileImport(n, indent);
        case FunctionDeclaration(_, _, _) => CompileFunction(n, indent);
        case ImportSpecifier(_, _) => CompileSpecifier(n);
        case AsyncFunctionDeclaration(_, _, _) =>
        case ClassDeclaration(_, _) =>
      }
    }

    /** The cases of `compile_internal` for the nodes that stand for expressions. */
    method CompileExpression(n: Node, indent: nat)
      requires IsExpression(n)
      modifies this
      ensures out == old(out) + Text(n, indent)
      decreases n, 2
    {
      match n
      case CallExpression(_, _) => CompileCall(n, indent);
      case BinaryExpression(_, _, _) => CompileBinary(n, indent);
      case UnaryExpression(_, _) => CompileUnary(n, indent);
      case StringLiteral(v) => Write("\"" + CStr(v) + "\"");
      case Literal(v) => Write(CStr(v));
      case Identifier(name) => Write(CStr(name));
      case TypedIdentifier(_, _) => CompileTyped(n);
      case AssignmentExpression(_, _, _) => CompileAssignment(n, indent);
    }

    method CompileExpressionStatement(n: Node, indent: nat)
      requires n.ExpressionStatement?
      modifies this
      ensures out == old(out) + ExpressionStatementText(n, indent)
      decreases n, 1
    {
      ghost var o := out;
      Tab(indent);
      CompileInternal(n.expr, indent + 1);
      Appended(o, Spaces(indent), Text(n.expr, indent + 1));
      ghost var done := Spaces(indent) + Text(n.expr, indent + 1);
      Write(";\n");
      Appended(o, done, ";\n");
    }

    method CompileReturn(n: Node, indent: nat)
      requires n.ReturnStatement?
      modifies this
      ensures out == old(out) + ReturnText(n, indent)
      decreases n, 1
    {
      ghost var o := out;
      Tab(indent);
      Write("return ");
      Appended(o, Spaces(indent), "return ");
      ghost var done := Spaces(indent) + "return ";
      CompileInternal(n.expr, indent + 1);
      Appended(o, done, Text(n.expr, indent + 1));
      done := done + Text(n.expr, indent + 1);
      Write(";\n");
      Appended(o, done, ";\n");
    }

    method CompileSwitch(n: Node, indent: nat)
      requires n.SwitchStatement?
      modifies this
      ensures out == old(out) + SwitchText(n, indent)
      decreases n, 1
    {
      ghost var o := out;
      Tab(indent);
      Write("switch (");
      Appended(o, Spaces(indent), "switch (");
      ghost var done := Spaces(indent) + "switch (";
      CompileInternal(n.expr, indent + 1);
      Appended(o, done, Text(n.expr, indent + 1));
      done := done + Text(n.expr, indent + 1);
      Write(") {\n");
      Appended(o, done, ") {\n");
    }

    method CompileCase(n: Node, indent: nat)
      requires n.CaseStatement?
      modifies this
      ensures out == old(out) + CaseText(n, indent)
      decreases n, 1
    {
      ghost var o := out;
      Tab(indent + 1);
      Write("case ");
      Appended(o, Spaces(indent + 1), "case ");
      ghost var done := Spaces(indent + 1) + "case ";
      CompileInternal(n.test, indent + 1);
      Appended(o, done, Text(n.test, indent + 1));
      done := done + Text(n.test, indent + 1);
      Write(":\n");
      Appended(o, done, ":\n");
      done := done + ":\n";
      CompileEach(n.body, indent + 2);
      Appended(o, done, Each(n.body, |n.body|, indent + 2));
      done := done + Each(n.body, |n.body|, indent + 2);
      Tab(indent + 2);
      Appended(o, done, Spaces(indent + 2));
      done := done + Spaces(indent + 2);
      Write("break;\n");
      Appended(o, done, "break;\n");
    }

    method CompileDefault(n: Node, indent: nat)
      requires n.DefaultStatement?
      modifies this
      ensures out == old(out) + DefaultText(n, indent)
      decreases n, 1
    {
      ghost var o := out;
      Tab(indent + 1);
      Write("default:\n");
      Appended(o, Spaces(indent + 1), "default:\n");
      ghost var done := Spaces(indent + 1) + "default:\n";
      CompileEach(n.body, indent + 2);
      Appended(o, done, Each(n.body, |n.body|, indent + 2));
      done := done + Each(n.body, |n.body|, indent + 2);
      Tab(indent + 2);
      Appended(o, done, Spaces(indent + 2));
      done := done + Spaces(indent + 2);
      Write("break;\n");
      Appended(o, done, "break;\n");
      done := done + "break;\n";
      Tab(indent);
      Appended(o, done, Spaces(indent));
      done := done + Spaces(indent);
      Write("}\n");
      Appended(o, done, "}\n");
    }

    method CompileFor(n: Node, indent: nat)
      requires n.ForStatement?
      modifies this
      ensures out == old(out) + ForText(n, indent)
      decreases n, 1
    {
      ghost var o := out;
      Tab(indent);
      Write("for (");
      Appended(o, Spaces(indent), "for (");
      ghost var done := Spaces(indent) + "for (";
      CompileInternal(n.init, indent + 1);
      Appended(o, done, Text(n.init, indent + 1));
      done := done + Text(n.init, indent + 1);
      Write("; ");
      Appended(o, done, "; ");
      done := done + "; ";
      CompileInternal(n.test, indent + 1);
      Appended(o, done, Text(n.test, indent + 1));
      done := done + Text(n.test, indent + 1);
      Write("; ");
      Appended(o, done, "; ");
      done := done + "; ";
      CompileInternal(n.update, indent + 1);
      Appended(o, done, Text(n.update, indent + 1));
      done := done + Text(n.update, indent + 1);
      Write(") {\n");
      Appended(o, done, ") {\n");
      done := done + ") {\n";
      CompileBlock(n.block, indent + 1);
      Appended(o, done, Block(n.block, indent + 1));
      done := done + Block(n.block, indent + 1);
      Tab(indent);
      Appended(o, done, Spaces(indent));
      done := done + Spaces(indent);
      Write("}\n");
      Appended(o, done, "}\n");
    }

    method CompileWhile(n: Node, indent: nat)
      requires n.WhileStatement?
      modifies this
      ensures out == old(out) + WhileText(n, indent)
      decreases n, 1
    {
      ghost var o := out;
      Tab(indent);
      Write("while (");
      Appended(o, Spaces(indent), "while (");
      ghost var done := Spaces(indent) + "while (";
      CompileInternal(n.test, indent + 1);
      Appended(o, done, Text(n.test, indent + 1));
      done := done + Text(n.test, indent + 1);
      Write(") {\n");
      Appended(o, done, ") {\n");
      done := done + ") {\n";
      CompileBlock(n.block, indent + 1);
      Appended(o, done, Block(n.block, indent + 1));
      done := done + Block(n.block, indent + 1);
      Tab(indent);
      Appended(o, done, Spaces(indent));
      done := done + Spaces(indent);
      Write("}\n");
      Appended(o, done, "}\n");
    }

    method CompileCall(n: Node, indent: nat)
      requires n.CallExpression?
      modifies this
      ensures out == old(out) + CallText(n, indent)
      decreases n, 1
    {
      ghost var o := out;
      CompileInternal(n.callee, indent);
      Write("(");
      Appended(o, Text(n.callee, indent), "(");
      ghost var done := Text(n.callee, indent) + "(";
      CompileListed(n.params, indent + 1);
      Appended(o, done, Listed(n.params, |n.params|, indent + 1));
      done := done + Listed(n.params, |n.params|, indent + 1);
      Write(")");
      Appended(o, done, ")");
    }

    method CompileBinary(n: Node, indent: nat)
      requires n.BinaryExpression?
      modifies this
      ensures out == old(out) + BinaryText(n, indent)
      decreases n, 1
    {
      ghost var o := out;
      CompileInternal(n.left, indent + 1);
      Write(" " + GetBinaryOperator(n.bop) + " ");
      Appended(o, Text(n.left, indent + 1), " " + GetBinaryOperator(n.bop) + " ");
      ghost var done := Text(n.left, indent + 1) + " " + GetBinaryOperator(n.bop) + " ";
      CompileInternal(n.right, indent + 1);
      Appended(o, done, Text(n.right, indent + 1));
    }

    method CompileUnary(n: Node, indent: nat)
      requires n.UnaryExpression?
      modifies this
      ensures out == old(out) + UnaryText(n, indent)
      decreases n, 1
    {
      CompileInternal(n.expr, indent + 1);
      Write(GetUnaryOperator(n.uop));
    }

    method CompileTyped(n: Node)
      requires n.TypedIdentifier?
      modifies this
      ensures out == old(out) + TypedText(n)
    {
      if CStr(n.kind) != CStr(n.id) {
        Write(CStr(GetKind(n.kind)) + " ");
        Write(CStr(n.id));
      } else {
        Write(CStr(n.id));
      }
    }

    method CompileImport(n: Node, indent: nat)
      requires n.ImportDeclaration?
      modifies this
      ensures out == old(out) + ImportText(n, indent)
      decreases n, 1
    {
      CompileInternal(n.source, 0);
      CompileEach(n.specifiers, indent + 1);
    }

    method CompileFunction(n: Node, indent: nat)
      requires n.FunctionDeclaration?
      modifies this
      ensures out == old(out) + FunctionText(n, indent)
      decreases n, 1
    {
      ghost var o := out;
      Tab(indent);
      Write("int ");
      Appended(o, Spaces(indent), "int ");
      ghost var done := Spaces(indent) + "int ";
      CompileInternal(n.name, 0);
      Appended(o, done, Text(n.name, 0));
      done := done + Text(n.name, 0);
      Write("(");
      Appended(o, done, "(");
      done := done + "(";
      CompileListed(n.params, indent + 1);
      Appended(o, done, Listed(n.params, |n.params|, indent + 1));
      done := done + Listed(n.params, |n.params|, indent + 1);
      Write(") {\n");
      Appended(o, done, ") {\n");
      done := done + ") {\n";
      CompileBlock(n.block, indent + 1);
      Appended(o, done, Block(n.block, indent + 1));
      done := done + Block(n.block, indent + 1);
      Tab(indent);
      Appended(o, done, Spaces(indent));
      done := done + Spaces(indent);
      Write("}\n");
      Appended(o, done, "}\n");
    }

    method CompileSpecifier(n: Node)
      requires n.ImportSpecifier?
      modifies this
      ensures out == old(out) + SpecifierText(n)
      decreases n, 1
    {
      CompileInternal(n.name, 0);
      CompileInternal(n.local, 0);
      Appended(old(out), Text(n.name, 0), Text(n.local, 0));
    }

    method CompileAssignment(n: Node, indent: nat)
      requires n.AssignmentExpression?
      modifies this
      ensures out == old(out) + AssignmentText(n, indent)
      decreases n, 1
    {
      ghost var o := out;
      Write("int ");
      CompileInternal(n.left, 0);
      Appended(o, "int ", Text(n.left, 0));
      ghost var done := "int " + Text(n.left, 0);
      Write(" = ");
      Appended(o, done, " = ");
      done := done + " = ";
      CompileInternal(n.right, indent + 1);
      Appended(o, done, Text(n.right, indent + 1));
    }

    /** The `if (stmt->body)` test before a loop over a body. */
    method CompileBlock(block: Body, indent: nat)
      modifies this
      ensures out == old(out) + Block(block, indent)
      decreases block, 0
    {
      match block {
        case Present(b) => CompileEach(b, indent);
        case Absent =>
      }
    }

    /** The `for` loop over an array of statements. */
    method CompileEach(ns: seq<Node>, indent: nat)
      modifies this
      ensures out == old(out) + Each(ns, |ns|, indent)
      decreases ns, 0
    {
      for i := 0 to |ns|
        invariant out == old(out) + Each(ns, i, indent)
      {
        CompileInternal(ns[i], indent);
        Appended(old(out), Each(ns, i, indent), Text(ns[i], indent));
      }
    }

    /** The `for` loop over the arguments of a call or the parameters of a declaration. */
    method CompileListed(ns: seq<Node>, indent: nat)
      modifies this
      ensures out == old(out) + Listed(ns, |ns|, indent)
      decreases ns, 0
    {
      var len := |ns|;
      for i := 0 to len
        invariant out == old(out) + Listed(ns, i, indent)
      {
        CompileInternal(ns[i], indent);
        Appended(old(out), Listed(ns, i, indent), Text(ns[i], indent));
        Write(Separator(i, len));
        Appended(old(out), Listed(ns, i, indent) + Text(ns[i], indent), Separator(i, len));
      }
    }

    /**
     * `compile` once the output file is open: the include line, then the program at
     * indent 0.
     */
    method Compile(program: Node)
      modifies this
      ensures out == HEADER + Text(program, 0)
    {
      out := HEADER;
      CompileInternal(program, 0);
    }
  }
}
