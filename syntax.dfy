/**
 * A reduced form of the full_moon syntax tree that the formatter rewrites:
 * tokens with their leading and trailing trivia, punctuated lists, Lua
 * expressions, statements and blocks, and the Luau type annotations.
 * `Tokens` flattens any node into its tokens in source order and `Render`
 * prints them, which is what `to_string()` on a node does.
 */
module Syntax {
  import opened Wrappers
  import opened Text

  datatype QuoteType = DoubleQuote | SingleQuote | Brackets

  /** A token or a piece of trivia. */
  datatype Token =
    | Whitespace(characters: string)
    | SingleLineComment(comment: string)
    | MultiLineComment(blocks: nat, comment: string)
    | Symbol(symbol: string)
    | Identifier(identifier: string)
    | Number(text: string)
    | StringLiteral(literal: string, multiLine: Option<nat>, quoteType: QuoteType)
    | Eof

  datatype TokenRef = TokenRef(leading: seq<Token>, token: Token, trailing: seq<Token>)

  /** A pair of enclosing tokens such as `(` `)`, `{` `}` or `[` `]`. */
  datatype Span = Span(start: TokenRef, end: TokenRef)

  /** One element of a punctuated list, with the separator that follows it. */
  datatype Pair<T> = Pair(value: T, punctuation: Option<TokenRef>)

  datatype UnOpKind = UnaryMinus | UnaryNot | UnaryHash

  datatype BinOpKind =
    | And | Or
    | TwoEqual | TildeEqual | LessThan | LessThanEqual | GreaterThan | GreaterThanEqual
    | TwoDots
    | Plus | Minus
    | Star | Slash | Percent
    | Caret

  datatype UnOp = UnOp(unKind: UnOpKind, unToken: TokenRef)

  datatype BinOp = BinOp(binKind: BinOpKind, binToken: TokenRef)

  datatype Expr =
    | Parentheses(contained: Span, inner: Expr)
    | UnaryOperator(unop: UnOp, operand: Expr)
    | BinaryOperator(lhs: Expr, binop: BinOp, rhs: Expr)
    | FunctionExpr(functionToken: TokenRef, body: FunctionBody)
    | CallExpr(call: FunctionCall)
    | NumberExpr(numberToken: TokenRef)
    | StringExpr(stringToken: TokenRef)
    | SymbolExpr(symbolToken: TokenRef)
    | TableExpr(table: TableConstructor)
    | VarExpr(v: Var)
    | TypeAssertion(asserted: Expr, assertionOp: TokenRef, castTo: TypeInfo)

  datatype FunctionCall = FunctionCall(prefix: Prefix, suffixes: seq<Suffix>)

  datatype Prefix = NamePrefix(name: TokenRef) | ExprPrefix(expr: Expr)

  datatype Suffix = CallSuffix(callPart: Call) | IndexSuffix(index: Index)

  datatype Call =
    | AnonymousCall(args: FunctionArgs)
    | MethodCall(colon: TokenRef, methodName: TokenRef, methodArgs: FunctionArgs)

  datatype Index =
    | BracketIndex(brackets: Span, indexExpr: Expr)
    | DotIndex(dot: TokenRef, indexName: TokenRef)

  datatype FunctionArgs =
    | ParenArgs(parentheses: Span, arguments: seq<Pair<Expr>>)
    | StringArg(stringArg: TokenRef)
    | TableArg(tableArg: TableConstructor)

  datatype Var = NameVar(varName: TokenRef) | IndexedVar(varPrefix: Prefix, varSuffixes: seq<Suffix>)

  datatype TableConstructor = TableConstructor(braces: Span, fields: seq<Pair<Field>>)

  datatype Field =
    | ExpressionKey(keyBrackets: Span, key: Expr, keyEqual: TokenRef, keyValue: Expr)
    | NameKey(keyName: TokenRef, nameEqual: TokenRef, nameValue: Expr)
    | NoKey(fieldValue: Expr)

  datatype FunctionBody = FunctionBody(parameterParens: Span, parameters: seq<Pair<TokenRef>>, block: Block, endToken: TokenRef)

  datatype Block = Block(stmts: seq<StmtEntry>, lastStmt: Option<LastStmtEntry>)

  datatype StmtEntry = StmtEntry(stmt: Stmt, semicolon: Option<TokenRef>)

  datatype LastStmtEntry = LastStmtEntry(last: LastStmt, lastSemicolon: Option<TokenRef>)

  datatype ElseIf = ElseIf(elseIfToken: TokenRef, elseIfCondition: Expr, elseIfThen: TokenRef, elseIfBlock: Block)

  datatype Stmt =
    | Assignment(variables: seq<Pair<Var>>, equalToken: TokenRef, expressions: seq<Pair<Expr>>)
    | LocalAssignment(localToken: TokenRef, names: seq<Pair<TokenRef>>, typeSpecifiers: seq<Option<TypeSpecifier>>,
                      localEqual: Option<TokenRef>, localExpressions: seq<Pair<Expr>>)
    | CallStmt(stmtCall: FunctionCall)
    | Repeat(repeatToken: TokenRef, repeatBlock: Block, untilToken: TokenRef, untilExpr: Expr)
    | Do(doToken: TokenRef, doBlock: Block, doEnd: TokenRef)
    | While(whileToken: TokenRef, whileCondition: Expr, whileDo: TokenRef, whileBlock: Block, whileEnd: TokenRef)
    | If(ifToken: TokenRef, condition: Expr, thenToken: TokenRef, thenBlock: Block, elseIfs: seq<ElseIf>,
         elseToken: Option<TokenRef>, elseBlock: Option<Block>, ifEnd: TokenRef)
    | GenericFor(forToken: TokenRef, forNames: seq<Pair<TokenRef>>, inToken: TokenRef, forExprs: seq<Pair<Expr>>,
                 forDo: TokenRef, forBlock: Block, forEnd: TokenRef)
    | NumericFor(numForToken: TokenRef, numIndex: TokenRef, numBounds: seq<Pair<Expr>>,
                 numDo: TokenRef, numBlock: Block, numEnd: TokenRef)
    | FunctionDeclaration(declFunctionToken: TokenRef, declName: seq<Pair<TokenRef>>, declBody: FunctionBody)
    | LocalFunction(localFunctionLocal: TokenRef, localFunctionToken: TokenRef, localFunctionName: TokenRef,
                    localFunctionBody: FunctionBody)
    | CompoundAssignment(compoundLhs: Var, compoundOp: TokenRef, compoundRhs: Expr)

  datatype LastStmt =
    | Break(breakToken: TokenRef)
    | Continue(continueToken: TokenRef)
    | Return(returnToken: TokenRef, returnValues: seq<Pair<Expr>>)

  datatype TypeSpecifier = TypeSpecifier(specifierColon: TokenRef, specifiedType: TypeInfo)

  datatype TypeField = TypeField(fieldKey: TokenRef, fieldColon: TokenRef, fieldType: TypeInfo)

  datatype GenericDeclaration = GenericDeclaration(genericArrows: Span, genericNames: seq<Pair<TokenRef>>)

  datatype TypeInfo =
    | BasicType(basic: TokenRef)
    | ArrayType(arrayBraces: Span, elementType: TypeInfo)
    | TableType(tableBraces: Span, typeFields: seq<Pair<TypeField>>)
    | CallbackType(callbackGenerics: Option<GenericDeclaration>, callbackParens: Span, callbackArgs: seq<Pair<TypeInfo>>,
                   callbackArrow: TokenRef, returnType: TypeInfo)
    | GenericType(genericBase: TokenRef, typeArrows: Span, genericArgs: seq<Pair<TypeInfo>>)
    | OptionalType(optionalBase: TypeInfo, questionMark: TokenRef)
    | UnionType(unionLeft: TypeInfo, pipe: TokenRef, unionRight: TypeInfo)
    | IntersectionType(intersectionLeft: TypeInfo, ampersand: TokenRef, intersectionRight: TypeInfo)
    | TupleType(tupleParens: Span, tupleTypes: seq<Pair<TypeInfo>>)
    | VariadicType(ellipse: TokenRef, variadicType: TypeInfo)
    | TypeofType(typeofToken: TokenRef, typeofParens: Span, typeofExpr: Expr)

  // ---------------------------------------------------------------------
  // Printing
  // ---------------------------------------------------------------------

  function Equals(n: nat): string { Text.Repeat('=', n) }

  /** The source text of one token or piece of trivia. */
  function TokenText(t: Token): string {
    match t
    case Whitespace(c) => c
    case SingleLineComment(c) => "--" + c
    case MultiLineComment(b, c) => "--[" + Equals(b) + "[" + c + "]" + Equals(b) + "]"
    case Symbol(s) => s
    case Identifier(s) => s
    case Number(s) => s
    case StringLiteral(lit, multi, q) =>
      (match q
       case DoubleQuote => "\"" + lit + "\""
       case SingleQuote => "'" + lit + "'"
       case Brackets =>
         var n := multi.UnwrapOr(0);
         "[" + Equals(n) + "[" + lit + "]" + Equals(n) + "]")
    case Eof => ""
  }

  function TriviaText(ts: seq<Token>): string {
    if ts == [] then "" else TokenText(ts[0]) + TriviaText(ts[1..])
  }

  function TokenRefText(t: TokenRef): string {
    TriviaText(t.leading) + TokenText(t.token) + TriviaText(t.trailing)
  }

  /** `to_string()` of a node given its tokens. */
  function Render(ts: seq<TokenRef>): string {
    if ts == [] then "" else TokenRefText(ts[0]) + Render(ts[1..])
  }

  // ---------------------------------------------------------------------
  // Token sequences, in source order (`Node::tokens`)
  // ---------------------------------------------------------------------

  function OptTokens(t: Option<TokenRef>): seq<TokenRef> {
    match t
    case None => []
    case Some(x) => [x]
  }

  function SpanTokens(s: Span): seq<TokenRef> { [s.start, s.end] }

  function NamesTokens(ps: seq<Pair<TokenRef>>): seq<TokenRef> {
    if ps == [] then [] else [ps[0].value] + OptTokens(ps[0].punctuation) + NamesTokens(ps[1..])
  }

  function ExprTokens(e: Expr): seq<TokenRef>
    decreases e
  {
    match e
    case Parentheses(c, inner) => [c.start] + ExprTokens(inner) + [c.end]
    case UnaryOperator(op, x) => [op.unToken] + ExprTokens(x)
    case BinaryOperator(l, op, r) => ExprTokens(l) + [op.binToken] + ExprTokens(r)
    case FunctionExpr(t, b) => [t] + BodyTokens(b)
    case CallExpr(c) => CallTokens(c)
    case NumberExpr(t) => [t]
    case StringExpr(t) => [t]
    case SymbolExpr(t) => [t]
    case TableExpr(t) => TableTokens(t)
    case VarExpr(v) => VarTokens(v)
    case TypeAssertion(x, op, ty) => ExprTokens(x) + [op] + TypeTokens(ty)
  }

  function ExprListTokens(ps: seq<Pair<Expr>>): seq<TokenRef>
    decreases ps
  {
    if ps == [] then []
    else
      var p := ps[0];
      assert p.value < p;
      ExprTokens(p.value) + OptTokens(p.punctuation) + ExprListTokens(ps[1..])
  }

  function CallTokens(c: FunctionCall): seq<TokenRef>
    decreases c
  {
    PrefixTokens(c.prefix) + SuffixesTokens(c.suffixes)
  }

  function PrefixTokens(p: Prefix): seq<TokenRef>
    decreases p
  {
    match p
    case NamePrefix(n) => [n]
    case ExprPrefix(e) => ExprTokens(e)
  }

  function SuffixesTokens(ss: seq<Suffix>): seq<TokenRef>
    decreases ss
  {
    if ss == [] then []
    else
      var s := ss[0];
      SuffixTokens(s) + SuffixesTokens(ss[1..])
  }

  function SuffixTokens(s: Suffix): seq<TokenRef>
    decreases s
  {
    match s
    case CallSuffix(c) =>
      (match c
       case AnonymousCall(a) => ArgsTokens(a)
       case MethodCall(colon, name, a) => [colon, name] + ArgsTokens(a))
    case IndexSuffix(i) =>
      (match i
       case BracketIndex(b, e) => [b.start] + ExprTokens(e) + [b.end]
       case DotIndex(d, n) => [d, n])
  }

  function ArgsTokens(a: FunctionArgs): seq<TokenRef>
    decreases a
  {
    match a
    case ParenArgs(p, args) => [p.start] + ExprListTokens(args) + [p.end]
    case StringArg(t) => [t]
    case TableArg(t) => TableTokens(t)
  }

  function VarTokens(v: Var): seq<TokenRef>
    decreases v
  {
    match v
    case NameVar(n) => [n]
    case IndexedVar(p, ss) => PrefixTokens(p) + SuffixesTokens(ss)
  }

  function VarListTokens(ps: seq<Pair<Var>>): seq<TokenRef>
    decreases ps
  {
    if ps == [] then []
    else
      var p := ps[0];
      assert p.value < p;
      VarTokens(p.value) + OptTokens(p.punctuation) + VarListTokens(ps[1..])
  }

  function TableTokens(t: TableConstructor): seq<TokenRef>
    decreases t
  {
    [t.braces.start] + FieldsTokens(t.fields) + [t.braces.end]
  }

  function FieldsTokens(ps: seq<Pair<Field>>): seq<TokenRef>
    decreases ps
  {
    if ps == [] then []
    else
      var p := ps[0];
      assert p.value < p;
      FieldTokens(p.value) + OptTokens(p.punctuation) + FieldsTokens(ps[1..])
  }

  function FieldTokens(f: Field): seq<TokenRef>
    decreases f
  {
    match f
    case ExpressionKey(b, k, eq, v) => [b.start] + ExprTokens(k) + [b.end, eq] + ExprTokens(v)
    case NameKey(n, eq, v) => [n, eq] + ExprTokens(v)
    case NoKey(v) => ExprTokens(v)
  }

  function BodyTokens(b: FunctionBody): seq<TokenRef>
    decreases b
  {
    [b.parameterParens.start] + NamesTokens(b.parameters) + [b.parameterParens.end] + BlockTokens(b.block) + [b.endToken]
  }

  function BlockTokens(b: Block): seq<TokenRef>
    decreases b
  {
    StmtsTokens(b.stmts) +
    (match b.lastStmt
     case None => []
     case Some(l) => LastStmtTokens(l.last) + OptTokens(l.lastSemicolon))
  }

  function StmtsTokens(ss: seq<StmtEntry>): seq<TokenRef>
    decreases ss
  {
    if ss == [] then []
    else
      var s := ss[0];
      assert s.stmt < s;
      StmtTokens(s.stmt) + OptTokens(s.semicolon) + StmtsTokens(ss[1..])
  }

  function LastStmtTokens(l: LastStmt): seq<TokenRef>
    decreases l
  {
    match l
    case Break(t) => [t]
    case Continue(t) => [t]
    case Return(t, rs) => [t] + ExprListTokens(rs)
  }

  function ElseIfsTokens(es: seq<ElseIf>): seq<TokenRef>
    decreases es
  {
    if es == [] then []
    else
      var e := es[0];
      assert e.elseIfCondition < e && e.elseIfBlock < e;
      [e.elseIfToken] + ExprTokens(e.elseIfCondition) + [e.elseIfThen] + BlockTokens(e.elseIfBlock) + ElseIfsTokens(es[1..])
  }

  function SpecifierTokens(t: Option<TypeSpecifier>): seq<TokenRef>
    decreases t
  {
    match t
    case None => []
    case Some(s) =>
      assert s.specifiedType < s;
      [s.specifierColon] + TypeTokens(s.specifiedType)
  }

  /**
   * The names of a `local` statement, each followed by its type specifier
   * (the i-th specifier belongs to the i-th name) and then its comma.
   */
  function LocalNamesTokens(ns: seq<Pair<TokenRef>>, ts: seq<Option<TypeSpecifier>>): seq<TokenRef>
    decreases ts, ns
  {
    if ns == [] then []
    else if ts == [] then [ns[0].value] + OptTokens(ns[0].punctuation) + LocalNamesTokens(ns[1..], ts)
    else
      var t := ts[0];
      [ns[0].value] + SpecifierTokens(t) + OptTokens(ns[0].punctuation) + LocalNamesTokens(ns[1..], ts[1..])
  }

  function StmtTokens(s: Stmt): seq<TokenRef>
    decreases s
  {
    match s
    case Assignment(vs, eq, es) => VarListTokens(vs) + [eq] + ExprListTokens(es)
    case LocalAssignment(l, ns, ts, eq, es) => [l] + LocalNamesTokens(ns, ts) + OptTokens(eq) + ExprListTokens(es)
    case CallStmt(c) => CallTokens(c)
    case Repeat(r, b, u, e) => [r] + BlockTokens(b) + [u] + ExprTokens(e)
    case Do(d, b, e) => [d] + BlockTokens(b) + [e]
    case While(w, c, d, b, e) => [w] + ExprTokens(c) + [d] + BlockTokens(b) + [e]
    case If(i, c, t, b, eis, et, eb, e) =>
      [i] + ExprTokens(c) + [t] + BlockTokens(b) + ElseIfsTokens(eis) + OptTokens(et) +
      (match eb case None => [] case Some(x) => BlockTokens(x)) + [e]
    case GenericFor(f, ns, i, es, d, b, e) => [f] + NamesTokens(ns) + [i] + ExprListTokens(es) + [d] + BlockTokens(b) + [e]
    case NumericFor(f, i, bs, d, b, e) => [f, i] + ExprListTokens(bs) + [d] + BlockTokens(b) + [e]
    case FunctionDeclaration(f, n, b) => [f] + NamesTokens(n) + BodyTokens(b)
    case LocalFunction(l, f, n, b) => [l, f, n] + BodyTokens(b)
    case CompoundAssignment(l, op, r) => VarTokens(l) + [op] + ExprTokens(r)
  }

  function TypeTokens(t: TypeInfo): seq<TokenRef>
    decreases t
  {
    match t
    case BasicType(b) => [b]
    case ArrayType(br, e) => [br.start] + TypeTokens(e) + [br.end]
    case TableType(br, fs) => [br.start] + TypeFieldsTokens(fs) + [br.end]
    case CallbackType(g, p, args, arrow, ret) =>
      (match g case None => [] case Some(d) => [d.genericArrows.start] + NamesTokens(d.genericNames) + [d.genericArrows.end]) +
      [p.start] + TypeListTokens(args) + [p.end, arrow] + TypeTokens(ret)
    case GenericType(b, arrows, args) => [b, arrows.start] + TypeListTokens(args) + [arrows.end]
    case OptionalType(b, q) => TypeTokens(b) + [q]
    case UnionType(l, p, r) => TypeTokens(l) + [p] + TypeTokens(r)
    case IntersectionType(l, a, r) => TypeTokens(l) + [a] + TypeTokens(r)
    case TupleType(p, ts) => [p.start] + TypeListTokens(ts) + [p.end]
    case VariadicType(e, ty) => [e] + TypeTokens(ty)
    case TypeofType(k, p, e) => [k, p.start] + ExprTokens(e) + [p.end]
  }

  function TypeListTokens(ps: seq<Pair<TypeInfo>>): seq<TokenRef>
    decreases ps
  {
    if ps == [] then []
    else
      var p := ps[0];
      assert p.value < p;
      TypeTokens(p.value) + OptTokens(p.punctuation) + TypeListTokens(ps[1..])
  }

  function TypeFieldsTokens(ps: seq<Pair<TypeField>>): seq<TokenRef>
    decreases ps
  {
    if ps == [] then []
    else
      var p := ps[0];
      assert p.value < p && p.value.fieldType < p.value;
      [p.value.fieldKey, p.value.fieldColon] + TypeTokens(p.value.fieldType) + OptTokens(p.punctuation) + TypeFieldsTokens(ps[1..])
  }
}
