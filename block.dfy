/**
 * Blocks, after src/formatters/block.rs: the leading blank lines removed
 * from a block's first statement, the semicolons kept only where dropping
 * them would change how the next statement parses, the comments of dropped
 * semicolons, the layout of `return`, and the loop of `format_block`.
 */
module Blocks {
  import opened Wrappers
  import opened Syntax
  import opened Trivia
  import opened TriviaUtil
  import opened FormatContext
  import opened General
  import opened Statements
  import Layout

  // ---------------------------------------------------------------------
  // Leading newlines of the first statement
  // ---------------------------------------------------------------------

  /**
   * `trivia_remove_leading_newlines`: the trivia without its maximal prefix
   * of whitespace that holds a line break.
   */
  function TriviaRemoveLeadingNewlines(ts: seq<Token>): (r: seq<Token>)
    ensures |r| <= |ts| && r == ts[|ts| - |r|..]
    ensures forall j :: 0 <= j < |ts| - |r| ==> TriviaIsNewline(ts[j])
    ensures r != [] ==> !TriviaIsNewline(r[0])
  {
    if ts != [] && TriviaIsNewline(ts[0]) then TriviaRemoveLeadingNewlines(ts[1..]) else ts
  }

  /** Removing leading newlines keeps every comment, in order. */
  lemma {:induction false} RemoveLeadingNewlinesKeepsComments(ts: seq<Token>)
    ensures Comments(TriviaRemoveLeadingNewlines(ts)) == Comments(ts)
  {
    if ts != [] && TriviaIsNewline(ts[0]) {
      RemoveLeadingNewlinesKeepsComments(ts[1..]);
      CommentsAppend([ts[0]], ts[1..]);
      CommentsOfOne(ts[0]);
      assert ts == [ts[0]] + ts[1..];
    }
  }

  /** Removing leading newlines twice removes nothing more. */
  lemma {:induction false} RemoveLeadingNewlinesIdempotent(ts: seq<Token>)
    ensures TriviaRemoveLeadingNewlines(TriviaRemoveLeadingNewlines(ts)) == TriviaRemoveLeadingNewlines(ts)
  {
  }

  function RemoveTokenLeadingNewlines(t: TokenRef): TokenRef {
    UpdateLeadingToken(t, Replace(TriviaRemoveLeadingNewlines(t.leading)))
  }

  /**
   * A prefix as the parser builds it: a name, or an expression in
   * parentheses.
   */
  predicate ParsedPrefix(p: Prefix) {
    p.ExprPrefix? ==> p.expr.Parentheses?
  }

  /**
   * `prefix_remove_leading_newlines`. The source panics on a prefix
   * expression that is not parenthesised, which the parser never builds;
   * such a prefix is left as it is.
   */
  function PrefixRemoveLeadingNewlines(p: Prefix): Prefix {
    match p
    case NamePrefix(n) => NamePrefix(RemoveTokenLeadingNewlines(n))
    case ExprPrefix(e) =>
      if e.Parentheses? then ExprPrefix(Parentheses(e.contained.(start := RemoveTokenLeadingNewlines(e.contained.start)), e.inner))
      else p
  }

  /** `var_remove_leading_newline`. */
  function VarRemoveLeadingNewlines(v: Var): Var {
    match v
    case NameVar(n) => NameVar(RemoveTokenLeadingNewlines(n))
    case IndexedVar(p, ss) => IndexedVar(PrefixRemoveLeadingNewlines(p), ss)
  }

  /** The first assignment target loses its leading newlines; the other pairs are kept. */
  function VarListRemoveLeadingNewlines(vs: seq<Pair<Var>>): seq<Pair<Var>> {
    if vs == [] then [] else [Pair(VarRemoveLeadingNewlines(vs[0].value), vs[0].punctuation)] + vs[1..]
  }

  /** `stmt_remove_leading_newlines`: the statement's first token loses its leading newlines. */
  function StmtRemoveLeadingNewlines(s: Stmt): Stmt {
    match s
    case Assignment(vs, eq, es) => Assignment(VarListRemoveLeadingNewlines(vs), eq, es)
    case LocalAssignment(l, _, _, _, _) => s.(localToken := RemoveTokenLeadingNewlines(l))
    case CallStmt(c) => CallStmt(c.(prefix := PrefixRemoveLeadingNewlines(c.prefix)))
    case Repeat(r, _, _, _) => s.(repeatToken := RemoveTokenLeadingNewlines(r))
    case Do(d, _, _) => s.(doToken := RemoveTokenLeadingNewlines(d))
    case While(w, _, _, _, _) => s.(whileToken := RemoveTokenLeadingNewlines(w))
    case If(i, _, _, _, _, _, _, _) => s.(ifToken := RemoveTokenLeadingNewlines(i))
    case GenericFor(f, _, _, _, _, _, _) => s.(forToken := RemoveTokenLeadingNewlines(f))
    case NumericFor(f, _, _, _, _, _) => s.(numForToken := RemoveTokenLeadingNewlines(f))
    case FunctionDeclaration(f, _, _) => s.(declFunctionToken := RemoveTokenLeadingNewlines(f))
    case LocalFunction(l, _, _, _) => s.(localFunctionLocal := RemoveTokenLeadingNewlines(l))
    case CompoundAssignment(l, op, r) => CompoundAssignment(VarRemoveLeadingNewlines(l), op, r)
  }

  /** `last_stmt_remove_leading_newlines`. */
  function LastStmtRemoveLeadingNewlines(l: LastStmt): LastStmt {
    match l
    case Break(t) => Break(RemoveTokenLeadingNewlines(t))
    case Continue(t) => Continue(RemoveTokenLeadingNewlines(t))
    case Return(t, rs) => Return(RemoveTokenLeadingNewlines(t), rs)
  }

  /** A statement whose first token the parser built: a parsed prefix wherever a variable or call starts it. */
  predicate StartsParsed(s: Stmt) {
    match s
    case Assignment(vs, _, _) => vs != [] && (vs[0].value.IndexedVar? ==> ParsedPrefix(vs[0].value.varPrefix))
    case CallStmt(c) => ParsedPrefix(c.prefix)
    case CompoundAssignment(l, _, _) => l.IndexedVar? ==> ParsedPrefix(l.varPrefix)
    case _ => true
  }

  lemma {:induction false} PrefixRemoveLeadingNewlinesEdit(p: Prefix)
    requires ParsedPrefix(p)
    ensures PrefixTokens(PrefixRemoveLeadingNewlines(p))
         == EditFirst(PrefixTokens(p), Replace(TriviaRemoveLeadingNewlines(FirstLeading(PrefixTokens(p)))))
  {
    if p.ExprPrefix? {
      var c := p.expr.contained;
      var edit := Replace(TriviaRemoveLeadingNewlines(c.start.leading));
      var mid := ExprTokens(p.expr.inner);
      assert PrefixTokens(p) == [c.start] + mid + [c.end];
      assert PrefixTokens(PrefixRemoveLeadingNewlines(p)) == [UpdateLeadingToken(c.start, edit)] + mid + [c.end];
      EditFirstAppend([c.start], mid, edit);
      EditFirstAppend([c.start] + mid, [c.end], edit);
    }
  }

  lemma {:induction false} VarRemoveLeadingNewlinesEdit(v: Var)
    requires v.IndexedVar? ==> ParsedPrefix(v.varPrefix)
    ensures VarTokens(VarRemoveLeadingNewlines(v))
         == EditFirst(VarTokens(v), Replace(TriviaRemoveLeadingNewlines(FirstLeading(VarTokens(v)))))
  {
    if v.IndexedVar? {
      var p := v.varPrefix;
      PrefixTokensNonEmpty(p);
      PrefixRemoveLeadingNewlinesEdit(p);
      var edit := Replace(TriviaRemoveLeadingNewlines(FirstLeading(PrefixTokens(p))));
      FirstLeadingAppend(PrefixTokens(p), SuffixesTokens(v.varSuffixes));
      EditFirstAppend(PrefixTokens(p), SuffixesTokens(v.varSuffixes), edit);
    }
  }

  lemma {:induction false} VarTokensNonEmpty(v: Var)
    ensures VarTokens(v) != []
  {
    if v.IndexedVar? { PrefixTokensNonEmpty(v.varPrefix); }
  }

  lemma {:induction false} VarListRemoveLeadingNewlinesEdit(vs: seq<Pair<Var>>)
    requires vs != [] && (vs[0].value.IndexedVar? ==> ParsedPrefix(vs[0].value.varPrefix))
    ensures VarListTokens(VarListRemoveLeadingNewlines(vs))
         == EditFirst(VarListTokens(vs), Replace(TriviaRemoveLeadingNewlines(FirstLeading(VarListTokens(vs)))))
  {
    var v := vs[0].value;
    var vs' := VarListRemoveLeadingNewlines(vs);
    VarRemoveLeadingNewlinesEdit(v);
    VarTokensNonEmpty(v);
    assert vs'[0] == Pair(VarRemoveLeadingNewlines(v), vs[0].punctuation) && vs'[1..] == vs[1..];
    assert VarListTokens(vs') == VarTokens(VarRemoveLeadingNewlines(v)) + OptTokens(vs[0].punctuation) + VarListTokens(vs[1..]);
    EditFirstAppend(VarTokens(v), OptTokens(vs[0].punctuation), Replace(TriviaRemoveLeadingNewlines(FirstLeading(VarTokens(v)))));
    EditFirstAppend(VarTokens(v) + OptTokens(vs[0].punctuation), VarListTokens(vs[1..]),
                    Replace(TriviaRemoveLeadingNewlines(FirstLeading(VarTokens(v)))));
  }

  /** Removing leading newlines from a keyword token that opens a sequence of tokens. */
  lemma {:induction false} KeywordFirstEdit(t: TokenRef, rest: seq<TokenRef>)
    ensures [RemoveTokenLeadingNewlines(t)] + rest
         == EditFirst([t] + rest, Replace(TriviaRemoveLeadingNewlines(FirstLeading([t] + rest))))
  {
    EditFirstAppend([t], rest, Replace(TriviaRemoveLeadingNewlines(t.leading)));
  }

  /** The statements that open with a keyword, whose token list starts with that keyword. */
  lemma {:induction false} KeywordStmtRemoveLeadingNewlinesEdit(s: Stmt)
    requires !s.Assignment? && !s.CallStmt? && !s.CompoundAssignment?
    ensures StmtTokens(StmtRemoveLeadingNewlines(s))
         == EditFirst(StmtTokens(s), Replace(TriviaRemoveLeadingNewlines(FirstLeading(StmtTokens(s)))))
  {
    var k := Keyword(s);
    var x := RemoveTokenLeadingNewlines(k);
    assert WithKeyword(s, k) == s;
    KeywordStmtTokens(s, k);
    KeywordStmtTokens(s, x);
    assert StmtRemoveLeadingNewlines(s) == WithKeyword(s, x);
    KeywordFirstEdit(k, StmtTokens(s)[1..]);
  }

  /** The keyword token a statement opens with. */
  function Keyword(s: Stmt): TokenRef
    requires !s.Assignment? && !s.CallStmt? && !s.CompoundAssignment?
  {
    match s
    case LocalAssignment(l, _, _, _, _) => l
    case Repeat(r, _, _, _) => r
    case Do(d, _, _) => d
    case While(w, _, _, _, _) => w
    case If(i, _, _, _, _, _, _, _) => i
    case GenericFor(f, _, _, _, _, _, _) => f
    case NumericFor(f, _, _, _, _, _) => f
    case FunctionDeclaration(f, _, _) => f
    case LocalFunction(l, _, _, _) => l
  }

  /** Appending to two sequences that differ only in their first element keeps them so. */
  lemma {:induction false} SwapHead(a: seq<TokenRef>, a': seq<TokenRef>, b: seq<TokenRef>, x: TokenRef)
    requires a != [] && a' == [x] + a[1..]
    ensures a' + b == [x] + (a + b)[1..]
  {
    assert (a + b)[1..] == a[1..] + b;
  }

  /** Only the keyword differs between a statement and the same statement with another keyword token. */
  lemma {:induction false} KeywordStmtTokens(s: Stmt, x: TokenRef)
    requires !s.Assignment? && !s.CallStmt? && !s.CompoundAssignment?
    ensures StmtTokens(s) != []
    ensures StmtTokens(WithKeyword(s, x)) == [x] + StmtTokens(s)[1..]
  {
    match s
    case LocalAssignment(l, ns, ts, eq, es) => LocalAssignmentKeyword(l, ns, ts, eq, es, x);
    case Repeat(r, b, u, e) => RepeatKeyword(r, b, u, e, x);
    case Do(d, b, e) => DoKeyword(d, b, e, x);
    case While(w, c, d, b, e) => WhileKeyword(w, c, d, b, e, x);
    case If(i, c, th, b, eis, et, eb, e) => IfKeyword(i, c, th, b, eis, et, eb, e, x);
    case GenericFor(f, ns, i, es, d, b, e) => GenericForKeyword(f, ns, i, es, d, b, e, x);
    case NumericFor(f, i, bs, d, b, e) => NumericForKeyword(f, i, bs, d, b, e, x);
    case FunctionDeclaration(f, n, b) => FunctionDeclarationKeyword(f, n, b, x);
    case LocalFunction(l, f, n, b) => LocalFunctionKeyword(l, f, n, b, x);
  }

  /** The statement with its opening keyword token replaced. */
  function WithKeyword(s: Stmt, x: TokenRef): Stmt
    requires !s.Assignment? && !s.CallStmt? && !s.CompoundAssignment?
  {
    match s
    case LocalAssignment(_, _, _, _, _) => s.(localToken := x)
    case Repeat(_, _, _, _) => s.(repeatToken := x)
    case Do(_, _, _) => s.(doToken := x)
    case While(_, _, _, _, _) => s.(whileToken := x)
    case If(_, _, _, _, _, _, _, _) => s.(ifToken := x)
    case GenericFor(_, _, _, _, _, _, _) => s.(forToken := x)
    case NumericFor(_, _, _, _, _, _) => s.(numForToken := x)
    case FunctionDeclaration(_, _, _) => s.(declFunctionToken := x)
    case LocalFunction(_, _, _, _) => s.(localFunctionLocal := x)
  }

  lemma {:induction false} LocalAssignmentKeyword(l: TokenRef, ns: seq<Pair<TokenRef>>, ts: seq<Option<TypeSpecifier>>, eq: Option<TokenRef>, es: seq<Pair<Expr>>, x: TokenRef)
    ensures StmtTokens(LocalAssignment(l, ns, ts, eq, es)) != []
    ensures StmtTokens(LocalAssignment(x, ns, ts, eq, es)) == [x] + StmtTokens(LocalAssignment(l, ns, ts, eq, es))[1..]
  {
    var p, q := [l], [x];
    SwapHead(p, q, LocalNamesTokens(ns, ts), x); p, q := p + LocalNamesTokens(ns, ts), q + LocalNamesTokens(ns, ts);
    SwapHead(p, q, OptTokens(eq), x); p, q := p + OptTokens(eq), q + OptTokens(eq);
    SwapHead(p, q, ExprListTokens(es), x); p, q := p + ExprListTokens(es), q + ExprListTokens(es);
  }

  lemma {:induction false} RepeatKeyword(r: TokenRef, b: Block, u: TokenRef, e: Expr, x: TokenRef)
    ensures StmtTokens(Repeat(r, b, u, e)) != []
    ensures StmtTokens(Repeat(x, b, u, e)) == [x] + StmtTokens(Repeat(r, b, u, e))[1..]
  {
    var p, q := [r], [x];
    SwapHead(p, q, BlockTokens(b), x); p, q := p + BlockTokens(b), q + BlockTokens(b);
    SwapHead(p, q, [u], x); p, q := p + [u], q + [u];
    SwapHead(p, q, ExprTokens(e), x); p, q := p + ExprTokens(e), q + ExprTokens(e);
  }

  lemma {:induction false} DoKeyword(d: TokenRef, b: Block, e: TokenRef, x: TokenRef)
    ensures StmtTokens(Do(d, b, e)) != []
    ensures StmtTokens(Do(x, b, e)) == [x] + StmtTokens(Do(d, b, e))[1..]
  {
    var p, q := [d], [x];
    SwapHead(p, q, BlockTokens(b), x); p, q := p + BlockTokens(b), q + BlockTokens(b);
    SwapHead(p, q, [e], x); p, q := p + [e], q + [e];
  }

  lemma {:induction false} WhileKeyword(w: TokenRef, c: Expr, d: TokenRef, b: Block, e: TokenRef, x: TokenRef)
    ensures StmtTokens(While(w, c, d, b, e)) != []
    ensures StmtTokens(While(x, c, d, b, e)) == [x] + StmtTokens(While(w, c, d, b, e))[1..]
  {
    var p, q := [w], [x];
    SwapHead(p, q, ExprTokens(c), x); p, q := p + ExprTokens(c), q + ExprTokens(c);
    SwapHead(p, q, [d], x); p, q := p + [d], q + [d];
    SwapHead(p, q, BlockTokens(b), x); p, q := p + BlockTokens(b), q + BlockTokens(b);
    SwapHead(p, q, [e], x); p, q := p + [e], q + [e];
  }

  lemma {:induction false} IfKeyword(i: TokenRef, c: Expr, th: TokenRef, b: Block, eis: seq<ElseIf>, et: Option<TokenRef>, eb: Option<Block>, e: TokenRef, x: TokenRef)
    ensures StmtTokens(If(i, c, th, b, eis, et, eb, e)) != []
    ensures StmtTokens(If(x, c, th, b, eis, et, eb, e)) == [x] + StmtTokens(If(i, c, th, b, eis, et, eb, e))[1..]
  {
    var p, q := [i], [x];
    SwapHead(p, q, ExprTokens(c), x); p, q := p + ExprTokens(c), q + ExprTokens(c);
    SwapHead(p, q, [th], x); p, q := p + [th], q + [th];
    SwapHead(p, q, BlockTokens(b), x); p, q := p + BlockTokens(b), q + BlockTokens(b);
    SwapHead(p, q, ElseIfsTokens(eis), x); p, q := p + ElseIfsTokens(eis), q + ElseIfsTokens(eis);
    SwapHead(p, q, OptTokens(et), x); p, q := p + OptTokens(et), q + OptTokens(et);
    SwapHead(p, q, (match eb case None => [] case Some(x) => BlockTokens(x)), x); p, q := p + (match eb case None => [] case Some(x) => BlockTokens(x)), q + (match eb case None => [] case Some(x) => BlockTokens(x));
    SwapHead(p, q, [e], x); p, q := p + [e], q + [e];
  }

  lemma {:induction false} GenericForKeyword(f: TokenRef, ns: seq<Pair<TokenRef>>, i: TokenRef, es: seq<Pair<Expr>>, d: TokenRef, b: Block, e: TokenRef, x: TokenRef)
    ensures StmtTokens(GenericFor(f, ns, i, es, d, b, e)) != []
    ensures StmtTokens(GenericFor(x, ns, i, es, d, b, e)) == [x] + StmtTokens(GenericFor(f, ns, i, es, d, b, e))[1..]
  {
    var p, q := [f], [x];
    SwapHead(p, q, NamesTokens(ns), x); p, q := p + NamesTokens(ns), q + NamesTokens(ns);
    SwapHead(p, q, [i], x); p, q := p + [i], q + [i];
    SwapHead(p, q, ExprListTokens(es), x); p, q := p + ExprListTokens(es), q + ExprListTokens(es);
    SwapHead(p, q, [d], x); p, q := p + [d], q + [d];
    SwapHead(p, q, BlockTokens(b), x); p, q := p + BlockTokens(b), q + BlockTokens(b);
    SwapHead(p, q, [e], x); p, q := p + [e], q + [e];
  }

  lemma {:induction false} NumericForKeyword(f: TokenRef, i: TokenRef, bs: seq<Pair<Expr>>, d: TokenRef, b: Block, e: TokenRef, x: TokenRef)
    ensures StmtTokens(NumericFor(f, i, bs, d, b, e)) != []
    ensures StmtTokens(NumericFor(x, i, bs, d, b, e)) == [x] + StmtTokens(NumericFor(f, i, bs, d, b, e))[1..]
  {
    var p, q := [f], [x];
    SwapHead(p, q, [i], x); p, q := p + [i], q + [i];
    SwapHead(p, q, ExprListTokens(bs), x); p, q := p + ExprListTokens(bs), q + ExprListTokens(bs);
    SwapHead(p, q, [d], x); p, q := p + [d], q + [d];
    SwapHead(p, q, BlockTokens(b), x); p, q := p + BlockTokens(b), q + BlockTokens(b);
    SwapHead(p, q, [e], x); p, q := p + [e], q + [e];
  }

  lemma {:induction false} FunctionDeclarationKeyword(f: TokenRef, n: seq<Pair<TokenRef>>, b: FunctionBody, x: TokenRef)
    ensures StmtTokens(FunctionDeclaration(f, n, b)) != []
    ensures StmtTokens(FunctionDeclaration(x, n, b)) == [x] + StmtTokens(FunctionDeclaration(f, n, b))[1..]
  {
    var p, q := [f], [x];
    SwapHead(p, q, NamesTokens(n), x); p, q := p + NamesTokens(n), q + NamesTokens(n);
    SwapHead(p, q, BodyTokens(b), x); p, q := p + BodyTokens(b), q + BodyTokens(b);
  }

  lemma {:induction false} LocalFunctionKeyword(l: TokenRef, f: TokenRef, n: TokenRef, b: FunctionBody, x: TokenRef)
    ensures StmtTokens(LocalFunction(l, f, n, b)) != []
    ensures StmtTokens(LocalFunction(x, f, n, b)) == [x] + StmtTokens(LocalFunction(l, f, n, b))[1..]
  {
    var p, q := [l], [x];
    SwapHead(p, q, [f, n], x); p, q := p + [f, n], q + [f, n];
    SwapHead(p, q, BodyTokens(b), x); p, q := p + BodyTokens(b), q + BodyTokens(b);
  }

  /**
   * Removing a statement's leading newlines edits exactly the leading trivia
   * of its first token, down to that token's first non-newline trivia.
   */
  lemma {:induction false} StmtRemoveLeadingNewlinesEdit(s: Stmt)
    requires StartsParsed(s)
    ensures StmtTokens(StmtRemoveLeadingNewlines(s))
         == EditFirst(StmtTokens(s), Replace(TriviaRemoveLeadingNewlines(FirstLeading(StmtTokens(s)))))
  {
    match s
    case Assignment(vs, eq, es) =>
      VarListRemoveLeadingNewlinesEdit(vs);
      VarTokensNonEmpty(vs[0].value);
      var edit := Replace(TriviaRemoveLeadingNewlines(FirstLeading(VarListTokens(vs))));
      EditFirstAppend(VarListTokens(vs), [eq], edit);
      EditFirstAppend(VarListTokens(vs) + [eq], ExprListTokens(es), edit);
    case CallStmt(c) =>
      PrefixRemoveLeadingNewlinesEdit(c.prefix);
      PrefixTokensNonEmpty(c.prefix);
      EditFirstAppend(PrefixTokens(c.prefix), SuffixesTokens(c.suffixes),
                      Replace(TriviaRemoveLeadingNewlines(FirstLeading(PrefixTokens(c.prefix)))));
    case CompoundAssignment(l, op, r) =>
      VarRemoveLeadingNewlinesEdit(l);
      VarTokensNonEmpty(l);
      var edit := Replace(TriviaRemoveLeadingNewlines(FirstLeading(VarTokens(l))));
      EditFirstAppend(VarTokens(l), [op], edit);
      EditFirstAppend(VarTokens(l) + [op], ExprTokens(r), edit);
    case _ =>
      StmtTokensNonEmpty(s);
      KeywordStmtRemoveLeadingNewlinesEdit(s);
  }

  /** The same for a last statement. */
  lemma {:induction false} LastStmtRemoveLeadingNewlinesEdit(l: LastStmt)
    ensures LastStmtTokens(LastStmtRemoveLeadingNewlines(l))
         == EditFirst(LastStmtTokens(l), Replace(TriviaRemoveLeadingNewlines(FirstLeading(LastStmtTokens(l)))))
  {
    match l
    case Break(t) => KeywordFirstEdit(t, []);
    case Continue(t) => KeywordFirstEdit(t, []);
    case Return(t, rs) => KeywordFirstEdit(t, ExprListTokens(rs));
  }

  // ---------------------------------------------------------------------
  // When a semicolon is needed
  // ---------------------------------------------------------------------

  predicate ParenthesisedPrefix(p: Prefix) {
    p.ExprPrefix? && p.expr.Parentheses?
  }

  /** A call or an assignment whose first variable starts with a parenthesised expression. */
  predicate StartsWithParentheses(n: Stmt) {
    match n
    case CallStmt(c) => ParenthesisedPrefix(c.prefix)
    case Assignment(vs, _, _) => vs != [] && vs[0].value.IndexedVar? && ParenthesisedPrefix(vs[0].value.varPrefix)
    case _ => false
  }

  /** The opening parenthesis a statement starts with. */
  function OpeningParenthesis(n: Stmt): TokenRef
    requires StartsWithParentheses(n)
  {
    if n.CallStmt? then n.stmtCall.prefix.expr.contained.start
    else n.variables[0].value.varPrefix.expr.contained.start
  }

  /** The statements the next one could run on into: their last token could be called or indexed. */
  predicate CanRunOn(s: Stmt) {
    s.Assignment? || s.LocalAssignment? || s.CallStmt? || s.Repeat?
  }

  /**
   * `require_semicolon`: the formatted statement keeps (or gets) a
   * semicolon when it could run on into the next statement, which starts
   * with a parenthesis.
   */
  function RequireSemicolon(s: Stmt, next: Option<Stmt>): (r: bool)
    ensures r <==> CanRunOn(s) && next.Some? && StartsWithParentheses(next.value)
  {
    match s
    case Assignment(_, _, _) => NextStartsWithParentheses(next)
    case LocalAssignment(_, _, _, _, _) => NextStartsWithParentheses(next)
    case CallStmt(_) => NextStartsWithParentheses(next)
    case Repeat(_, _, _, _) => NextStartsWithParentheses(next)
    case Do(_, _, _) => false
    case While(_, _, _, _, _) => false
    case If(_, _, _, _, _, _, _, _) => false
    case GenericFor(_, _, _, _, _, _, _) => false
    case NumericFor(_, _, _, _, _, _) => false
    case FunctionDeclaration(_, _, _) => false
    case LocalFunction(_, _, _, _) => false
    case CompoundAssignment(_, _, _) => false
  }

  function NextStartsWithParentheses(next: Option<Stmt>): bool {
    match next
    case Some(CallStmt(c)) => ParenthesisedPrefix(c.prefix)
    case Some(Assignment(vs, _, _)) =>
      if vs == [] then false
      else (match vs[0].value
            case IndexedVar(p, _) => ParenthesisedPrefix(p)
            case NameVar(_) => false)
    case _ => false
  }

  /** A semicolon is only ever required before a statement whose first token is an opening parenthesis. */
  lemma {:induction false} SemicolonOnlyBeforeParenthesis(s: Stmt, next: Stmt)
    requires RequireSemicolon(s, Some(next))
    ensures StmtTokens(next) != [] && StmtTokens(next)[0] == OpeningParenthesis(next)
  {
    if next.CallStmt? {
      PrefixTokensNonEmpty(next.stmtCall.prefix);
      assert PrefixTokens(next.stmtCall.prefix)[0] == OpeningParenthesis(next);
    } else {
      var v := next.variables[0].value;
      PrefixTokensNonEmpty(v.varPrefix);
      assert PrefixTokens(v.varPrefix)[0] == OpeningParenthesis(next);
      assert VarTokens(v)[0] == OpeningParenthesis(next);
      assert VarListTokens(next.variables)[0] == OpeningParenthesis(next);
    }
  }

  // ---------------------------------------------------------------------
  // The trivia after a statement
  // ---------------------------------------------------------------------

  /**
   * `get_stmt_trailing_trivia`: the statement with the trivia after its end
   * cleared, and that trivia. For a `local` without values the trivia is
   * taken from the last name, even when a type follows that name.
   */
  function GetStmtTrailingTrivia(s: Stmt): (r: (Stmt, seq<Token>))
  {
    match s
    case Assignment(vs, eq, es) =>
      if es == [] then (s, [])
      else (Assignment(vs, eq, UpdateTrailingExprList(es, Replace([]))), ExprTrailingTrivia(es[|es| - 1].value))
    case LocalAssignment(_, ns, _, _, es) =>
      if es == [] then
        if ns == [] then (s, [])
        else (s.(names := UpdateTrailingNames(ns, Replace([]))), ns[|ns| - 1].value.trailing)
      else (s.(localExpressions := UpdateTrailingExprList(es, Replace([]))), ExprTrailingTrivia(es[|es| - 1].value))
    case CallStmt(c) =>
      (CallStmt(UpdateCall(c, NoChange, Replace([]))),
       if c.suffixes == [] then [] else SuffixTrailingTrivia(c.suffixes[|c.suffixes| - 1]))
    case Repeat(r, b, u, e) => (Repeat(r, b, u, UpdateTrailingExpr(e, Replace([]))), ExprTrailingTrivia(e))
    case Do(d, b, e) => (Do(d, b, UpdateTrailingToken(e, Replace([]))), e.trailing)
    case While(w, c, d, b, e) => (While(w, c, d, b, UpdateTrailingToken(e, Replace([]))), e.trailing)
    case If(i, c, t, b, eis, et, eb, e) => (If(i, c, t, b, eis, et, eb, UpdateTrailingToken(e, Replace([]))), e.trailing)
    case GenericFor(f, ns, i, es, d, b, e) => (GenericFor(f, ns, i, es, d, b, UpdateTrailingToken(e, Replace([]))), e.trailing)
    case NumericFor(f, i, bs, d, b, e) => (NumericFor(f, i, bs, d, b, UpdateTrailingToken(e, Replace([]))), e.trailing)
    case FunctionDeclaration(f, n, b) => (FunctionDeclaration(f, n, UpdateTrailingBody(b, Replace([]))), b.endToken.trailing)
    case LocalFunction(l, f, n, b) => (LocalFunction(l, f, n, UpdateTrailingBody(b, Replace([]))), b.endToken.trailing)
    case CompoundAssignment(l, op, r) => (CompoundAssignment(l, op, UpdateTrailingExpr(r, Replace([]))), ExprTrailingTrivia(r))
  }

  /** A `local` without values whose last name carries a type. */
  predicate TypedBareLocal(s: Stmt) {
    s.LocalAssignment? && s.localExpressions == [] && s.typeSpecifiers != []
    && s.typeSpecifiers[|s.typeSpecifiers| - 1].Some?
  }

  /**
   * The trivia after a statement, taken from where the statement's trailing
   * edit puts it: for a typed `local` without values, after the type.
   */
  function TakeStmtTrailingTrivia(s: Stmt): (r: (Stmt, seq<Token>))
  {
    if TypedBareLocal(s) then
      (UpdateLocalAssignment(s, NoChange, Replace([])),
       TypeTrailingTrivia(s.typeSpecifiers[|s.typeSpecifiers| - 1].value.specifiedType))
    else GetStmtTrailingTrivia(s)
  }

  /**
   * The statement's last token is where its trailing edits land: a value list
   * ends in a bare value, a call has a suffix, names and types line up.
   */
  predicate EndsCleanly(s: Stmt) {
    match s
    case Assignment(_, _, es) => EndsInBareValue(es)
    case LocalAssignment(_, ns, ts, eq, es) =>
      if es == [] then eq.None? && (ts == [] || |ts| == |ns|) && ns != [] && ns[|ns| - 1].punctuation.None?
      else EndsInBareValue(es)
    case CallStmt(c) => c.suffixes != []
    case Repeat(_, _, _, e) => RightEdgeHasSuffixes(e)
    case CompoundAssignment(_, _, r) => RightEdgeHasSuffixes(r)
    case Do(_, _, _) => true
    case While(_, _, _, _, _) => true
    case If(_, _, _, _, _, _, _, _) => true
    case GenericFor(_, _, _, _, _, _, _) => true
    case NumericFor(_, _, _, _, _, _) => true
    case FunctionDeclaration(_, _, _) => true
    case LocalFunction(_, _, _, _) => true
  }

  // ---------------------------------------------------------------------
  // Where a statement's trailing edit lands
  // ---------------------------------------------------------------------

  lemma {:induction false} LocalNamesSnoc(ns: seq<Pair<TokenRef>>, ts: seq<Option<TypeSpecifier>>, n: Pair<TokenRef>, t: Option<TypeSpecifier>)
    requires |ns| == |ts|
    ensures LocalNamesTokens(ns + [n], ts + [t]) == LocalNamesTokens(ns, ts) + ([n.value] + SpecifierTokens(t) + OptTokens(n.punctuation))
    decreases |ns|
  {
    var tail := [n.value] + SpecifierTokens(t) + OptTokens(n.punctuation);
    if ns == [] {
      assert (ns + [n])[1..] == [] && (ts + [t])[1..] == [];
    } else {
      var ns', ts' := ns + [n], ts + [t];
      assert ns'[0] == ns[0] && ts'[0] == ts[0];
      assert ns'[1..] == ns[1..] + [n];
      assert ts'[1..] == ts[1..] + [t];
      LocalNamesSnoc(ns[1..], ts[1..], n, t);
      var head := [ns[0].value] + SpecifierTokens(ts[0]) + OptTokens(ns[0].punctuation);
      var rest := LocalNamesTokens(ns[1..], ts[1..]);
      calc {
        LocalNamesTokens(ns', ts');
        head + LocalNamesTokens(ns[1..] + [n], ts[1..] + [t]);
        head + (rest + tail);
        { assert head + (rest + tail) == (head + rest) + tail; }
        (head + rest) + tail;
      }
    }
  }

  lemma {:induction false} UntypedNamesSnoc(ns: seq<Pair<TokenRef>>, n: Pair<TokenRef>)
    ensures LocalNamesTokens(ns + [n], []) == LocalNamesTokens(ns, []) + ([n.value] + OptTokens(n.punctuation))
    decreases |ns|
  {
    if ns == [] {
      assert (ns + [n])[1..] == [];
    } else {
      assert (ns + [n])[1..] == ns[1..] + [n];
      UntypedNamesSnoc(ns[1..], n);
    }
  }

  /** A type specifier takes a trailing edit on the last token of its type. */
  lemma {:induction false} SpecifierTrailingEdit(sp: TypeSpecifier, edit: FormatTriviaType)
    ensures SpecifierTokens(Some(UpdateTrailingSpecifier(sp, edit))) == EditLast(SpecifierTokens(Some(sp)), edit)
  {
    TypeEdit(sp.specifiedType, NoChange, edit);
    NoChangeIsIdentity(TypeTokens(sp.specifiedType));
    TypeTokensNonEmpty(sp.specifiedType);
    EditLastAppend([sp.specifierColon], TypeTokens(sp.specifiedType), edit);
  }

  /** The last name ends the list when it has neither type nor comma. */
  lemma {:induction false} UntypedNamesTrailingEdit(ns: seq<Pair<TokenRef>>, ts: seq<Option<TypeSpecifier>>, edit: FormatTriviaType)
    requires ns != [] && ns[|ns| - 1].punctuation.None?
    requires ts == [] || (|ts| == |ns| && ts[|ts| - 1].None?)
    ensures LocalNamesTokens(UpdateTrailingNames(ns, edit), ts) == EditLast(LocalNamesTokens(ns, ts), edit)
  {
    var n := |ns|;
    var init, last := ns[..n - 1], ns[n - 1];
    var last' := Pair(UpdateTrailingToken(last.value, edit), last.punctuation);
    assert ns == init + [last];
    assert UpdateTrailingNames(ns, edit) == init + [last'];
    if ts == [] {
      UntypedNamesSnoc(init, last);
      UntypedNamesSnoc(init, last');
      assert [last.value] + OptTokens(last.punctuation) == [last.value];
      assert [last'.value] + OptTokens(last'.punctuation) == [last'.value];
      EditLastAppend(LocalNamesTokens(init, ts), [last.value], edit);
    } else {
      var tinit := ts[..n - 1];
      assert ts == tinit + [None];
      LocalNamesSnoc(init, tinit, last, None);
      LocalNamesSnoc(init, tinit, last', None);
      assert [last.value] + SpecifierTokens(None) + OptTokens(last.punctuation) == [last.value];
      assert [last'.value] + SpecifierTokens(None) + OptTokens(last'.punctuation) == [last'.value];
      EditLastAppend(LocalNamesTokens(init, tinit), [last.value], edit);
    }
  }

  /** The last name's type ends the list when that name has a type and no comma. */
  lemma {:induction false} TypedNamesTrailingEdit(ns: seq<Pair<TokenRef>>, ts: seq<Option<TypeSpecifier>>, edit: FormatTriviaType)
    requires ns != [] && ns[|ns| - 1].punctuation.None?
    requires |ts| == |ns| && ts[|ts| - 1].Some?
    ensures LocalNamesTokens(ns, ts[..|ts| - 1] + [Some(UpdateTrailingSpecifier(ts[|ts| - 1].value, edit))])
         == EditLast(LocalNamesTokens(ns, ts), edit)
  {
    var n := |ns|;
    var init, last := ns[..n - 1], ns[n - 1];
    var tinit, sp := ts[..n - 1], ts[n - 1].value;
    var sp' := UpdateTrailingSpecifier(sp, edit);
    assert ns == init + [last];
    assert ts == tinit + [Some(sp)];
    LocalNamesSnoc(init, tinit, last, Some(sp));
    LocalNamesSnoc(init, tinit, last, Some(sp'));
    assert [last.value] + SpecifierTokens(Some(sp)) + OptTokens(last.punctuation) == [last.value] + SpecifierTokens(Some(sp));
    assert [last.value] + SpecifierTokens(Some(sp')) + OptTokens(last.punctuation) == [last.value] + SpecifierTokens(Some(sp'));
    SpecifierTrailingEdit(sp, edit);
    TypeTokensNonEmpty(sp.specifiedType);
    EditLastAppend([last.value], SpecifierTokens(Some(sp)), edit);
    EditLastAppend(LocalNamesTokens(init, tinit), [last.value] + SpecifierTokens(Some(sp)), edit);
  }

  lemma {:induction false} LocalNamesTokensNonEmpty(ns: seq<Pair<TokenRef>>, ts: seq<Option<TypeSpecifier>>)
    requires ns != []
    ensures LocalNamesTokens(ns, ts) != []
  {
  }

  /**
   * The names of a `local` without values end with the last name, or with
   * its type when it has one; the statement's trailing edit lands there.
   */
  lemma {:induction false} LocalWithoutValuesTrailingEdit(s: Stmt, edit: FormatTriviaType)
    requires s.LocalAssignment? && s.localExpressions == [] && EndsCleanly(s)
    ensures StmtTokens(UpdateLocalAssignment(s, NoChange, edit)) == EditLast(StmtTokens(s), edit)
  {
    var l, ns, ts := s.localToken, s.names, s.typeSpecifiers;
    var s' := UpdateLocalAssignment(s, NoChange, edit);
    assert UpdateLeadingToken(l, NoChange) == l;
    assert StmtTokens(s) == [l] + LocalNamesTokens(ns, ts) by {
      assert OptTokens(s.localEqual) == [] && ExprListTokens(s.localExpressions) == [];
    }
    assert StmtTokens(s') == [l] + LocalNamesTokens(s'.names, s'.typeSpecifiers) by {
      assert OptTokens(s'.localEqual) == [] && ExprListTokens(s'.localExpressions) == [];
    }
    LocalNamesTokensNonEmpty(ns, ts);
    EditLastAppend([l], LocalNamesTokens(ns, ts), edit);
    if ts != [] && ts[|ts| - 1].Some? {
      TypedNamesTrailingEdit(ns, ts, edit);
    } else {
      UntypedNamesTrailingEdit(ns, ts, edit);
    }
  }

  lemma {:induction false} LeadingNoChangeVar(v: Var)
    ensures UpdateLeadingVar(v, NoChange) == v
  {
    if v.NameVar? {
      assert UpdateLeadingToken(v.varName, NoChange) == v.varName;
    }
  }

  lemma {:induction false} LeadingNoChangeVarList(vs: seq<Pair<Var>>)
    ensures UpdateLeadingVarList(vs, NoChange) == vs
  {
    if vs != [] {
      LeadingNoChangeVar(vs[0].value);
      assert vs == [vs[0]] + vs[1..];
    }
  }

  lemma {:induction false} AssignmentTrailingEdit(vs: seq<Pair<Var>>, eq: TokenRef, es: seq<Pair<Expr>>, edit: FormatTriviaType)
    requires EndsInBareValue(es)
    ensures StmtTokens(UpdateStmt(Assignment(vs, eq, es), NoChange, edit)) == EditLast(StmtTokens(Assignment(vs, eq, es)), edit)
  {
    LeadingNoChangeVarList(vs);
    ExprListTrailingEdit(es, edit);
    ExprListTokensNonEmpty(es);
    EditLastAppend(VarListTokens(vs) + [eq], ExprListTokens(es), edit);
  }

  lemma {:induction false} LocalWithValuesTrailingEdit(s: Stmt, edit: FormatTriviaType)
    requires s.LocalAssignment? && s.localExpressions != [] && EndsInBareValue(s.localExpressions)
    ensures StmtTokens(UpdateLocalAssignment(s, NoChange, edit)) == EditLast(StmtTokens(s), edit)
  {
    var es := s.localExpressions;
    assert UpdateLeadingToken(s.localToken, NoChange) == s.localToken;
    ExprListTrailingEdit(es, edit);
    ExprListTokensNonEmpty(es);
    EditLastAppend([s.localToken] + LocalNamesTokens(s.names, s.typeSpecifiers) + OptTokens(s.localEqual), ExprListTokens(es), edit);
  }

  lemma {:induction false} RepeatTrailingEdit(r: TokenRef, b: Block, u: TokenRef, e: Expr, edit: FormatTriviaType)
    requires RightEdgeHasSuffixes(e)
    ensures StmtTokens(UpdateStmt(Repeat(r, b, u, e), NoChange, edit)) == EditLast(StmtTokens(Repeat(r, b, u, e)), edit)
  {
    assert UpdateLeadingToken(r, NoChange) == r;
    TrailingEditReachesLastToken(e, edit);
    ExprTokensNonEmpty(e);
    EditLastAppend([r] + BlockTokens(b) + [u], ExprTokens(e), edit);
  }

  lemma {:induction false} CompoundTrailingEdit(v: Var, op: TokenRef, e: Expr, edit: FormatTriviaType)
    requires RightEdgeHasSuffixes(e)
    ensures StmtTokens(UpdateStmt(CompoundAssignment(v, op, e), NoChange, edit)) == EditLast(StmtTokens(CompoundAssignment(v, op, e)), edit)
  {
    LeadingNoChangeVar(v);
    TrailingEditReachesLastToken(e, edit);
    ExprTokensNonEmpty(e);
    EditLastAppend(VarTokens(v) + [op], ExprTokens(e), edit);
  }

  lemma {:induction false} EndTokenEdit(init: seq<TokenRef>, e: TokenRef, edit: FormatTriviaType)
    ensures init + [UpdateTrailingToken(e, edit)] == EditLast(init + [e], edit)
  {
    assert (init + [e])[..|init|] == init;
  }

  /** Statements closed by `end` take the edit on that `end`. */
  lemma {:induction false} DoTrailingEdit(d: TokenRef, b: Block, e: TokenRef, edit: FormatTriviaType)
    ensures StmtTokens(UpdateStmt(Do(d, b, e), NoChange, edit)) == EditLast(StmtTokens(Do(d, b, e)), edit)
  {
    assert UpdateLeadingToken(d, NoChange) == d;
    EndTokenEdit([d] + BlockTokens(b), e, edit);
  }

  lemma {:induction false} WhileTrailingEdit(w: TokenRef, c: Expr, d: TokenRef, b: Block, e: TokenRef, edit: FormatTriviaType)
    ensures StmtTokens(UpdateStmt(While(w, c, d, b, e), NoChange, edit)) == EditLast(StmtTokens(While(w, c, d, b, e)), edit)
  {
    assert UpdateLeadingToken(w, NoChange) == w;
    EndTokenEdit([w] + ExprTokens(c) + [d] + BlockTokens(b), e, edit);
  }

  lemma {:induction false} IfTrailingEdit(s: Stmt, edit: FormatTriviaType)
    requires s.If?
    ensures StmtTokens(UpdateStmt(s, NoChange, edit)) == EditLast(StmtTokens(s), edit)
  {
    match s
    case If(i, c, t, b, eis, et, eb, e) =>
      assert UpdateLeadingToken(i, NoChange) == i;
      var init := [i] + ExprTokens(c) + [t] + BlockTokens(b) + ElseIfsTokens(eis) + OptTokens(et) +
                  (match eb case None => [] case Some(x) => BlockTokens(x));
      assert StmtTokens(s) == init + [e];
      EndTokenEdit(init, e, edit);
  }

  lemma {:induction false} GenericForTrailingEdit(s: Stmt, edit: FormatTriviaType)
    requires s.GenericFor?
    ensures StmtTokens(UpdateStmt(s, NoChange, edit)) == EditLast(StmtTokens(s), edit)
  {
    match s
    case GenericFor(f, ns, i, es, d, b, e) =>
      assert UpdateLeadingToken(f, NoChange) == f;
      EndTokenEdit([f] + NamesTokens(ns) + [i] + ExprListTokens(es) + [d] + BlockTokens(b), e, edit);
  }

  lemma {:induction false} NumericForTrailingEdit(s: Stmt, edit: FormatTriviaType)
    requires s.NumericFor?
    ensures StmtTokens(UpdateStmt(s, NoChange, edit)) == EditLast(StmtTokens(s), edit)
  {
    match s
    case NumericFor(f, i, bs, d, b, e) =>
      assert UpdateLeadingToken(f, NoChange) == f;
      EndTokenEdit([f, i] + ExprListTokens(bs) + [d] + BlockTokens(b), e, edit);
  }

  lemma {:induction false} FunctionDeclarationTrailingEdit(f: TokenRef, n: seq<Pair<TokenRef>>, b: FunctionBody, edit: FormatTriviaType)
    ensures StmtTokens(UpdateStmt(FunctionDeclaration(f, n, b), NoChange, edit)) == EditLast(StmtTokens(FunctionDeclaration(f, n, b)), edit)
  {
    assert UpdateLeadingToken(f, NoChange) == f;
    var init := [b.parameterParens.start] + NamesTokens(b.parameters) + [b.parameterParens.end] + BlockTokens(b.block);
    EndTokenEdit([f] + NamesTokens(n) + init, b.endToken, edit);
  }

  lemma {:induction false} LocalFunctionTrailingEdit(l: TokenRef, f: TokenRef, n: TokenRef, b: FunctionBody, edit: FormatTriviaType)
    ensures StmtTokens(UpdateStmt(LocalFunction(l, f, n, b), NoChange, edit)) == EditLast(StmtTokens(LocalFunction(l, f, n, b)), edit)
  {
    assert UpdateLeadingToken(l, NoChange) == l;
    var init := [b.parameterParens.start] + NamesTokens(b.parameters) + [b.parameterParens.end] + BlockTokens(b.block);
    EndTokenEdit([l, f, n] + init, b.endToken, edit);
  }

  /**
   * Under the parser's guarantees, a trailing edit of a statement reaches
   * exactly the trailing trivia of the statement's last token.
   */
  lemma {:induction false} StmtTrailingEdit(s: Stmt, edit: FormatTriviaType)
    requires EndsCleanly(s)
    ensures StmtTokens(UpdateStmt(s, NoChange, edit)) == EditLast(StmtTokens(s), edit)
  {
    match s
    case Assignment(vs, eq, es) => AssignmentTrailingEdit(vs, eq, es, edit);
    case LocalAssignment(_, _, _, _, es) =>
      if es == [] {
        LocalWithoutValuesTrailingEdit(s, edit);
      } else {
        LocalWithValuesTrailingEdit(s, edit);
      }
    case CallStmt(c) => CallTrailingEditReachesLastToken(c, edit);
    case Repeat(r, b, u, e) => RepeatTrailingEdit(r, b, u, e, edit);
    case CompoundAssignment(v, op, e) => CompoundTrailingEdit(v, op, e, edit);
    case Do(d, b, e) => DoTrailingEdit(d, b, e, edit);
    case While(w, c, d, b, e) => WhileTrailingEdit(w, c, d, b, e, edit);
    case If(_, _, _, _, _, _, _, _) => IfTrailingEdit(s, edit);
    case GenericFor(_, _, _, _, _, _, _) => GenericForTrailingEdit(s, edit);
    case NumericFor(_, _, _, _, _, _) => NumericForTrailingEdit(s, edit);
    case FunctionDeclaration(f, n, b) => FunctionDeclarationTrailingEdit(f, n, b, edit);
    case LocalFunction(l, f, n, b) => LocalFunctionTrailingEdit(l, f, n, b, edit);
  }

  // ---------------------------------------------------------------------
  // Taking the trivia after a statement
  // ---------------------------------------------------------------------

  /** Taking the trailing trivia clears it the way a trailing edit does. */
  lemma {:induction false} TakeAgreesWithUpdate(s: Stmt)
    ensures TakeStmtTrailingTrivia(s).0 == UpdateStmt(s, NoChange, Replace([]))
  {
    match s
    case Assignment(vs, _, _) => LeadingNoChangeVarList(vs);
    case LocalAssignment(l, _, _, _, _) => assert UpdateLeadingToken(l, NoChange) == l;
    case CallStmt(_) =>
    case CompoundAssignment(v, _, _) => LeadingNoChangeVar(v);
    case Repeat(r, _, _, _) => assert UpdateLeadingToken(r, NoChange) == r;
    case Do(d, _, _) => assert UpdateLeadingToken(d, NoChange) == d;
    case While(w, _, _, _, _) => assert UpdateLeadingToken(w, NoChange) == w;
    case If(i, _, _, _, _, _, _, _) => assert UpdateLeadingToken(i, NoChange) == i;
    case GenericFor(f, _, _, _, _, _, _) => assert UpdateLeadingToken(f, NoChange) == f;
    case NumericFor(f, _, _, _, _, _) => assert UpdateLeadingToken(f, NoChange) == f;
    case FunctionDeclaration(f, _, _) => assert UpdateLeadingToken(f, NoChange) == f;
    case LocalFunction(l, _, _, _) => assert UpdateLeadingToken(l, NoChange) == l;
  }

  /** The trivia after a value list ending in a bare value is that value's. */
  lemma {:induction false} ExprListLastTrailing(front: seq<TokenRef>, es: seq<Pair<Expr>>)
    requires EndsInBareValue(es)
    ensures ExprTrailingTrivia(es[|es| - 1].value) == LastTrailing(front + ExprListTokens(es))
  {
    var init, p := es[..|es| - 1], es[|es| - 1];
    assert es == init + [p];
    ExprListTokensSnoc(init, p);
    assert front + ExprListTokens(es) == (front + ExprListTokens(init)) + ExprTokens(p.value);
    ExprTokensNonEmpty(p.value);
    LastTrailingAppend(front + ExprListTokens(init), ExprTokens(p.value));
    ExprTrailingTriviaIsLastToken(p.value);
  }

  /** The trivia after a `local` without values sits after its last name or that name's type. */
  lemma {:induction false} LocalNamesLastTrailing(ns: seq<Pair<TokenRef>>, ts: seq<Option<TypeSpecifier>>)
    requires ns != [] && ns[|ns| - 1].punctuation.None? && (ts == [] || |ts| == |ns|)
    ensures ts != [] && ts[|ts| - 1].Some? ==>
      TypeTrailingTrivia(ts[|ts| - 1].value.specifiedType) == LastTrailing(LocalNamesTokens(ns, ts))
    ensures !(ts != [] && ts[|ts| - 1].Some?) ==> ns[|ns| - 1].value.trailing == LastTrailing(LocalNamesTokens(ns, ts))
  {
    var n := |ns|;
    var init, last := ns[..n - 1], ns[n - 1];
    assert ns == init + [last];
    if ts == [] {
      UntypedNamesSnoc(init, last);
      assert [last.value] + OptTokens(last.punctuation) == [last.value];
      LastTrailingAppend(LocalNamesTokens(init, ts), [last.value]);
    } else {
      var tinit, t := ts[..n - 1], ts[n - 1];
      assert ts == tinit + [t];
      LocalNamesSnoc(init, tinit, last, t);
      assert [last.value] + SpecifierTokens(t) + OptTokens(last.punctuation) == [last.value] + SpecifierTokens(t);
      if t.Some? {
        var ty := t.value.specifiedType;
        TypeTokensNonEmpty(ty);
        TypeTrailingTriviaIsLastToken(ty);
        LastTrailingAppend([last.value, t.value.specifierColon], TypeTokens(ty));
        assert [last.value] + SpecifierTokens(t) == [last.value, t.value.specifierColon] + TypeTokens(ty);
        LastTrailingAppend(LocalNamesTokens(init, tinit), [last.value] + SpecifierTokens(t));
      } else {
        LastTrailingAppend(LocalNamesTokens(init, tinit), [last.value]);
      }
    }
  }

  lemma {:induction false} LocalTakenTrivia(s: Stmt)
    requires s.LocalAssignment? && EndsCleanly(s)
    ensures TakeStmtTrailingTrivia(s).1 == LastTrailing(StmtTokens(s))
  {
    var l, ns, ts, es := s.localToken, s.names, s.typeSpecifiers, s.localExpressions;
    if es == [] {
      assert StmtTokens(s) == [l] + LocalNamesTokens(ns, ts) by {
        assert OptTokens(s.localEqual) == [] && ExprListTokens(es) == [];
      }
      LocalNamesTokensNonEmpty(ns, ts);
      LastTrailingAppend([l], LocalNamesTokens(ns, ts));
      LocalNamesLastTrailing(ns, ts);
    } else {
      ExprListLastTrailing([l] + LocalNamesTokens(ns, ts) + OptTokens(s.localEqual), es);
    }
  }

  lemma {:induction false} CallTakenTrivia(c: FunctionCall)
    requires c.suffixes != []
    ensures LastSuffixTrailingTrivia(c.suffixes) == LastTrailing(CallTokens(c))
  {
    SuffixesTrailingTriviaIsLastToken(c.suffixes);
    SuffixTokensNonEmpty(c.suffixes[0]);
    LastTrailingAppend(PrefixTokens(c.prefix), SuffixesTokens(c.suffixes));
  }

  lemma {:induction false} ExprTakenTrivia(front: seq<TokenRef>, e: Expr)
    requires RightEdgeHasSuffixes(e)
    ensures ExprTrailingTrivia(e) == LastTrailing(front + ExprTokens(e))
  {
    ExprTokensNonEmpty(e);
    LastTrailingAppend(front, ExprTokens(e));
    ExprTrailingTriviaIsLastToken(e);
  }

  /** The trivia taken is exactly the trivia after the statement's last token. */
  lemma {:induction false} TakenTriviaIsLastTrailing(s: Stmt)
    requires EndsCleanly(s)
    ensures TakeStmtTrailingTrivia(s).1 == LastTrailing(StmtTokens(s))
  {
    match s
    case Assignment(vs, eq, es) => ExprListLastTrailing(VarListTokens(vs) + [eq], es);
    case LocalAssignment(_, _, _, _, _) => LocalTakenTrivia(s);
    case CallStmt(c) => CallTakenTrivia(c);
    case Repeat(r, b, u, e) => ExprTakenTrivia([r] + BlockTokens(b) + [u], e);
    case CompoundAssignment(v, op, e) => ExprTakenTrivia(VarTokens(v) + [op], e);
    case Do(_, _, _) =>
    case While(_, _, _, _, _) =>
    case If(_, _, _, _, _, _, _, _) =>
    case GenericFor(_, _, _, _, _, _, _) =>
    case NumericFor(_, _, _, _, _, _) =>
    case FunctionDeclaration(_, _, b) => assert BodyTokens(b)[|BodyTokens(b)| - 1] == b.endToken;
    case LocalFunction(_, _, _, b) => assert BodyTokens(b)[|BodyTokens(b)| - 1] == b.endToken;
  }

  /**
   * Taking the trailing trivia clears the trivia after the statement's last
   * token and returns it; appending it back restores the statement's tokens.
   */
  lemma {:induction false} TakeStmtTrailingTriviaRoundTrip(s: Stmt)
    requires EndsCleanly(s)
    ensures StmtTokens(TakeStmtTrailingTrivia(s).0) == EditLast(StmtTokens(s), Replace([]))
    ensures TakeStmtTrailingTrivia(s).1 == LastTrailing(StmtTokens(s))
    ensures EditLast(StmtTokens(TakeStmtTrailingTrivia(s).0), Append(TakeStmtTrailingTrivia(s).1)) == StmtTokens(s)
  {
    TakeAgreesWithUpdate(s);
    StmtTrailingEdit(s, Replace([]));
    TakenTriviaIsLastTrailing(s);
    RestoreLast(StmtTokens(s));
  }

  /**
   * As written, the trivia of a typed `local` without values is taken from
   * the name, so the newline after `local x: number` stays after the type.
   */
  lemma {:induction false} GetStmtTrailingTriviaMissesTypedLocal()
    ensures exists s :: (EndsCleanly(s) && TypedBareLocal(s)
                         && GetStmtTrailingTrivia(s).1 == [] && LastTrailing(StmtTokens(GetStmtTrailingTrivia(s).0)) != [])
  {
    var newline := Whitespace("\n");
    var x := TokenRef([], Identifier("x"), []);
    var ty := BasicType(TokenRef([], Identifier("number"), [newline]));
    var colon := TokenRef([], Symbol(":"), []);
    var s := LocalAssignment(TokenRef([], Symbol("local"), []), [Pair(x, None)],
                             [Some(TypeSpecifier(colon, ty))], None, []);
    var got := GetStmtTrailingTrivia(s);
    assert got.0 == s.(names := [Pair(x, None)]);
    assert LocalNamesTokens([Pair(x, None)], [Some(TypeSpecifier(colon, ty))]) == [x, colon, ty.basic] by {
      assert SpecifierTokens(Some(TypeSpecifier(colon, ty))) == [colon, ty.basic];
    }
    assert StmtTokens(got.0) == [s.localToken, x, colon, ty.basic];
    assert LastTrailing(StmtTokens(got.0)) == [newline];
  }

  // ---------------------------------------------------------------------
  // Semicolons
  // ---------------------------------------------------------------------

  /** `TokenReference::symbol(";")`. */
  const Semicolon: TokenRef := TokenRef([], Symbol(";"), [])

  /** All but the last trivia: the newline that ends a formatted statement. */
  function DropLast(ts: seq<Token>): (r: seq<Token>)
    ensures ts != [] ==> ts == r + [ts[|ts| - 1]]
    ensures ts == [] ==> r == []
  {
    if ts == [] then [] else ts[..|ts| - 1]
  }

  /**
   * The trivia a dropped semicolon leaves on the statement: the statement's
   * own trailing trivia without its final newline, then the comments around
   * the semicolon, each after a space, then a newline.
   */
  function DroppedSemicolonTrivia(ctx: Context, stmtTrivia: seq<Token>, semi: TokenRef): (r: seq<Token>)
    ensures Comments(r) == Comments(DropLast(stmtTrivia)) + Comments(semi.leading) + Comments(semi.trailing)
    ensures r != [] && r[|r| - 1] == CreateNewlineTrivia(ctx)
  {
    var nl := CreateNewlineTrivia(ctx);
    var front := DropLast(stmtTrivia);
    var both := semi.leading + semi.trailing;
    CommentsAppend(semi.leading, semi.trailing);
    SpacedThenNewline(front, both, nl);
    assert Comments(front) + Comments(both) == Comments(front) + Comments(semi.leading) + Comments(semi.trailing);
    front + SpacedComments(both) + [nl]
  }

  lemma {:induction false} SpacedThenNewline(a: seq<Token>, b: seq<Token>, nl: Token)
    requires !TriviaIsComment(nl)
    ensures Comments(a + SpacedComments(b) + [nl]) == Comments(a) + Comments(b)
  {
    CommentsAppend(a + SpacedComments(b), [nl]);
    CommentsAppend(a, SpacedComments(b));
    SpacedCommentsKeepsComments(b);
    assert Comments([nl]) == [] by {
      assert [nl][1..] == [];
    }
  }

  /**
   * A statement and the semicolon after it, once the semicolon is kept or
   * dropped: a required semicolon is `;` (the old one reformatted when there
   * was one) and takes the trivia after the statement; a semicolon that is
   * not required is dropped and its comments move to the statement.
   */
  function SemicolonFor(ctx: Context, s: Stmt, semi: Option<TokenRef>, required: bool, shape: Layout.Shape): (r: StmtEntry)
    ensures r.semicolon.Some? <==> required
    ensures r.semicolon.Some? ==> r.semicolon.value.token == Symbol(";")
    ensures !required && semi.None? ==> r == StmtEntry(s, None)
  {
    if required then
      var (cleared, trivia) := TakeStmtTrailingTrivia(s);
      var sc := match semi
        case Some(given) => General.FormatSymbol(ctx, given, Semicolon, shape)
        case None => Semicolon;
      StmtEntry(cleared, Some(UpdateTrailingToken(sc, Append(trivia))))
    else
      match semi
      case Some(given) =>
        StmtEntry(UpdateStmt(s, NoChange, Replace(DroppedSemicolonTrivia(ctx, TakeStmtTrailingTrivia(s).1, given))), None)
      case None => StmtEntry(s, None)
  }

  lemma {:induction false} LastTrailingOfEdit(ts: seq<TokenRef>, x: seq<Token>)
    requires ts != []
    ensures LastTrailing(EditLast(ts, Replace(x))) == x
  {
  }

  /**
   * A required semicolon takes over what followed the statement: the
   * statement's last token loses its trailing trivia and the semicolon ends
   * with it; a new semicolon is exactly `;` followed by that trivia.
   */
  lemma {:induction false} RequiredSemicolonTakesTrivia(ctx: Context, s: Stmt, semi: Option<TokenRef>, shape: Layout.Shape)
    requires EndsCleanly(s)
    ensures var r := SemicolonFor(ctx, s, semi, true, shape);
      && StmtTokens(r.stmt) == EditLast(StmtTokens(s), Replace([]))
      && LastTrailing(StmtTokens(r.stmt)) == []
      && r.semicolon.Some?
      && |LastTrailing(StmtTokens(s))| <= |r.semicolon.value.trailing|
      && r.semicolon.value.trailing[|r.semicolon.value.trailing| - |LastTrailing(StmtTokens(s))|..] == LastTrailing(StmtTokens(s))
      && (semi.None? ==> r.semicolon.value == TokenRef([], Symbol(";"), LastTrailing(StmtTokens(s))))
  {
    TakeStmtTrailingTriviaRoundTrip(s);
    StmtTokensNonEmpty(s);
    LastTrailingOfEdit(StmtTokens(s), []);
    var r := SemicolonFor(ctx, s, semi, true, shape);
    var t := LastTrailing(StmtTokens(s));
    var sc := match semi
      case Some(given) => General.FormatSymbol(ctx, given, Semicolon, shape)
      case None => Semicolon;
    assert r.semicolon.value.trailing == sc.trailing + t;
    assert (sc.trailing + t)[|sc.trailing|..] == t;
    if semi.None? {
      assert [] + t == t;
    }
  }

  /**
   * A semicolon that is not required is dropped without losing a comment:
   * the trivia after the statement keeps its own comments and gains those
   * around the semicolon, and still ends with a newline.
   */
  lemma {:induction false} DroppedSemicolonKeepsComments(ctx: Context, s: Stmt, semi: TokenRef, shape: Layout.Shape)
    requires EndsCleanly(s)
    ensures var r := SemicolonFor(ctx, s, Some(semi), false, shape);
      && r.semicolon.None?
      && StmtTokens(r.stmt) == EditLast(StmtTokens(s), Replace(LastTrailing(StmtTokens(r.stmt))))
      && Comments(LastTrailing(StmtTokens(r.stmt)))
         == Comments(DropLast(LastTrailing(StmtTokens(s)))) + Comments(semi.leading) + Comments(semi.trailing)
      && LastTrailing(StmtTokens(r.stmt)) != []
      && LastTrailing(StmtTokens(r.stmt))[|LastTrailing(StmtTokens(r.stmt))| - 1] == CreateNewlineTrivia(ctx)
  {
    var trivia := DroppedSemicolonTrivia(ctx, TakeStmtTrailingTrivia(s).1, semi);
    TakeStmtTrailingTriviaRoundTrip(s);
    StmtTrailingEdit(s, Replace(trivia));
    StmtTokensNonEmpty(s);
    LastTrailingOfEdit(StmtTokens(s), trivia);
  }

  // ---------------------------------------------------------------------
  // `return` and the other last statements
  // ---------------------------------------------------------------------

  /** `is_function_or_table_constructor`: a table or function literal, with or without a type assertion. */
  predicate IsFunctionOrTable(e: Expr) {
    match e
    case TableExpr(_) => true
    case FunctionExpr(_, _) => true
    case TypeAssertion(x, _, _) => x.TableExpr? || x.FunctionExpr?
    case Parentheses(_, _) => false
    case UnaryOperator(_, _) => false
    case BinaryOperator(_, _, _) => false
    case CallExpr(_) => false
    case NumberExpr(_) => false
    case StringExpr(_) => false
    case SymbolExpr(_) => false
    case VarExpr(_) => false
  }

  predicate AllFunctionsOrTables(rs: seq<Pair<Expr>>) {
    forall i :: 0 <= i < |rs| ==> IsFunctionOrTable(rs[i].value)
  }

  /**
   * Whether comments sit among the returned values; the trivia after the
   * last value does not count.
   */
  predicate ReturnsContainComments(rs: seq<Pair<Expr>>) {
    ContainsComments(ExprListTokens(UpdateTrailingExprList(rs, Replace([]))))
  }

  /** How the values of a `return` are laid out. */
  datatype ReturnLayout =
    | NoValues          // `return` alone
    | SingleLine        // the values formatted on one line
    | EachOnItsOwnLine  // several values, one per line, each hung when needed
    | Hanging           // one value, hung at its operators
    | Plain             // one value, formatted normally

  /**
   * What the layout decision needs from trial formattings of the values:
   * whether the one-line form runs over the column width, and the width of
   * the first line of the hanging and the normal form of a single value.
   */
  datatype ReturnMeasures = ReturnMeasures(singleLineOverBudget: bool, hangingWidth: nat, normalWidth: nat)

  /** The layout `format_return` picks for its values. */
  function ReturnLayoutOf(rs: seq<Pair<Expr>>, m: ReturnMeasures): (r: ReturnLayout)
    ensures r == NoValues <==> rs == []
    ensures r == EachOnItsOwnLine ==> |rs| > 1
    ensures r == Hanging || r == Plain ==> |rs| == 1
  {
    if rs == [] then NoValues
    else if !ReturnsContainComments(rs) && (AllFunctionsOrTables(rs) || !m.singleLineOverBudget) then SingleLine
    else if |rs| > 1 then EachOnItsOwnLine
    else if m.hangingWidth < m.normalWidth then Hanging
    else Plain
  }

  /**
   * The layout rules: comments force a multi-line layout; without comments
   * a list of table and function literals stays on one line, and so does
   * any list that fits; a single value is hung only when that makes its
   * first line strictly narrower.
   */
  lemma {:induction false} ReturnLayoutRules(rs: seq<Pair<Expr>>, m: ReturnMeasures)
    requires rs != []
    ensures ReturnsContainComments(rs) ==> ReturnLayoutOf(rs, m) != SingleLine
    ensures !ReturnsContainComments(rs) && AllFunctionsOrTables(rs) ==> ReturnLayoutOf(rs, m) == SingleLine
    ensures ReturnLayoutOf(rs, m) == SingleLine <==>
      !ReturnsContainComments(rs) && (AllFunctionsOrTables(rs) || !m.singleLineOverBudget)
    ensures |rs| == 1 && ReturnLayoutOf(rs, m) != SingleLine ==>
      (ReturnLayoutOf(rs, m) == Hanging <==> m.hangingWidth < m.normalWidth)
  {
  }

  /** The word `return`, followed by a space when values follow. */
  function ReturnWord(withValues: bool): (r: TokenRef)
    ensures r.token == Symbol("return") && r.leading == []
    ensures r.trailing == (if withValues then [Space] else [])
  {
    TokenRef([], Symbol("return"), if withValues then [Space] else [])
  }

  /**
   * `format_return`: the `return` keyword, then the values in the chosen
   * layout. Formatting the values themselves is given.
   */
  function FormatReturn(ctx: Context, t: TokenRef, rs: seq<Pair<Expr>>, shape: Layout.Shape, m: ReturnMeasures,
                        formatValues: (ReturnLayout, seq<Pair<Expr>>) -> seq<Pair<Expr>>): (r: LastStmt)
    ensures r.Return? && r.returnToken.token == Symbol("return")
    ensures rs == [] ==> r.returnValues == []
    ensures rs != [] ==> [Space] <= r.returnToken.trailing
    ensures Comments(r.returnToken.leading) == General.FormatComments(ctx, Comments(t.leading))
    ensures Comments(r.returnToken.trailing) == General.FormatComments(ctx, Comments(t.trailing))
  {
    var word := ReturnWord(rs != []);
    General.FormatSymbolKeepsComments(ctx, t, word, shape);
    assert !HasComment([Space]) by {
      assert !TriviaIsComment([Space][0]);
    }
    if rs == [] then Return(General.FormatSymbol(ctx, t, word, shape), [])
    else Return(General.FormatSymbol(ctx, t, word, shape), formatValues(ReturnLayoutOf(rs, m), rs))
  }

  /** What formatting a last statement needs that this model does not compute. */
  datatype LastStmtFormatters = LastStmtFormatters(
    blocksOnly: LastStmt -> LastStmt,
    measure: seq<Pair<Expr>> -> ReturnMeasures,
    formatValues: (ReturnLayout, seq<Pair<Expr>>) -> seq<Pair<Expr>>)

  /** `format_last_stmt_no_trivia`: `break`, `continue` and `return`. */
  function FormatLastStmtNoTrivia(ctx: Context, l: LastStmt, shape: Layout.Shape, f: LastStmtFormatters): (r: LastStmt)
    ensures r.Break? <==> l.Break?
    ensures r.Continue? <==> l.Continue?
    ensures l.Break? ==> r.breakToken.token == Symbol("break")
    ensures l.Continue? ==> r.continueToken.token == Identifier("continue")
  {
    match l
    case Break(t) => Break(General.FormatSymbol(ctx, t, TokenRef([], Symbol("break"), []), shape))
    case Continue(t) => Continue(General.FormatSymbol(ctx, t, TokenRef([], Identifier("continue"), []), shape))
    case Return(t, rs) => FormatReturn(ctx, t, rs, shape, f.measure(rs), f.formatValues)
  }

  /** What `should_format_node` sees of a last statement. */
  function LastStmtNode(l: LastStmt, start: Option<nat>, end: Option<nat>): (r: NodeInfo)
    ensures r.leading == FirstLeading(LastStmtTokens(l))
  {
    NodeInfo(FirstLeading(LastStmtTokens(l)), start, end)
  }

  /**
   * `format_last_stmt`: a skipped last statement is kept, one outside the
   * range only has the blocks in its values formatted, and any other is
   * formatted, indented and ended with a newline.
   */
  function FormatLastStmt(ctx: Context, l: LastStmt, node: NodeInfo, shape: Layout.Shape, f: LastStmtFormatters): (r: LastStmt)
    ensures FormatNodeOf(ctx, node) == Skip ==> r == l
    ensures FormatNodeOf(ctx, node) == NotInRange ==> r == f.blocksOnly(l)
  {
    match FormatNodeOf(ctx, node)
    case Skip => l
    case NotInRange => f.blocksOnly(l)
    case Normal =>
      UpdateLastStmt(FormatLastStmtNoTrivia(ctx, l, shape, f),
                     Append([CreateIndentTrivia(ctx, shape)]), Append([CreateNewlineTrivia(ctx)]))
  }

  /**
   * A formatted `break` or `continue` is the keyword with the indent before
   * it and a newline as the last trivia after it.
   */
  lemma {:induction false} FormattedKeywordLayout(ctx: Context, l: LastStmt, node: NodeInfo, shape: Layout.Shape, f: LastStmtFormatters)
    requires FormatNodeOf(ctx, node) == Normal && (l.Break? || l.Continue?)
    ensures var ts := LastStmtTokens(FormatLastStmt(ctx, l, node, shape, f));
      && |ts| == 1
      && ts[0].leading != [] && ts[0].leading[|ts[0].leading| - 1] == CreateIndentTrivia(ctx, shape)
      && ts[0].trailing != [] && ts[0].trailing[|ts[0].trailing| - 1] == CreateNewlineTrivia(ctx)
  {
  }

  // ---------------------------------------------------------------------
  // The last statement of a block
  // ---------------------------------------------------------------------

  /** The parser's guarantee that a value list ends in a value, as `LastStmtTrailingTriviaRoundTrip` needs it. */
  predicate LastEndsCleanly(l: LastStmt) {
    l.Return? && l.returnValues != [] ==> EndsInBareValue(l.returnValues)
  }

  /**
   * The semicolon after a last statement is always dropped; when there was
   * one, its comments move before the statement's final newline.
   */
  function DropLastSemicolon(ctx: Context, l: LastStmt, semi: Option<TokenRef>): (r: LastStmtEntry)
    ensures r.lastSemicolon.None?
    ensures semi.None? ==> r.last == l
  {
    match semi
    case None => LastStmtEntry(l, None)
    case Some(given) =>
      LastStmtEntry(UpdateLastStmt(l, NoChange, Replace(DroppedSemicolonTrivia(ctx, GetLastStmtTrailingTrivia(l).1, given))), None)
  }

  lemma {:induction false} LastStmtTrailingEdit(l: LastStmt, edit: FormatTriviaType)
    requires LastEndsCleanly(l)
    ensures LastStmtTokens(UpdateLastStmt(l, NoChange, edit)) == EditLast(LastStmtTokens(l), edit)
  {
    match l
    case Return(t, rs) =>
      ReturnEdit(t, rs, NoChange, edit);
      NoChangeIsIdentity(LastStmtTokens(l));
    case Break(t) => assert UpdateLeadingToken(t, NoChange) == t;
    case Continue(t) => assert UpdateLeadingToken(t, NoChange) == t;
  }

  /** Dropping the last statement's semicolon keeps every comment around it. */
  lemma {:induction false} DroppedLastSemicolonKeepsComments(ctx: Context, l: LastStmt, semi: TokenRef)
    requires LastEndsCleanly(l)
    ensures var r := DropLastSemicolon(ctx, l, Some(semi));
      && LastStmtTokens(r.last) == EditLast(LastStmtTokens(l), Replace(LastTrailing(LastStmtTokens(r.last))))
      && Comments(LastTrailing(LastStmtTokens(r.last)))
         == Comments(DropLast(LastTrailing(LastStmtTokens(l)))) + Comments(semi.leading) + Comments(semi.trailing)
      && LastTrailing(LastStmtTokens(r.last)) != []
      && LastTrailing(LastStmtTokens(r.last))[|LastTrailing(LastStmtTokens(r.last))| - 1] == CreateNewlineTrivia(ctx)
  {
    LastStmtTrailingTriviaRoundTrip(l);
    var trivia := DroppedSemicolonTrivia(ctx, LastTrailing(LastStmtTokens(l)), semi);
    var last := UpdateLastStmt(l, NoChange, Replace(trivia));
    assert DropLastSemicolon(ctx, l, Some(semi)).last == last;
    LastStmtTrailingEdit(l, Replace(trivia));
    LastTrailingOfEdit(LastStmtTokens(l), trivia);
    assert LastTrailing(LastStmtTokens(last)) == trivia;
  }

  // ---------------------------------------------------------------------
  // The block
  // ---------------------------------------------------------------------

  /** Source positions of a node, as `should_format_node` compares them with the range. */
  datatype Position = Position(start: Option<nat>, end: Option<nat>)

  /** What formatting a block needs that this model does not compute. */
  datatype BlockFormatters = BlockFormatters(
    stmtBlocksOnly: Stmt -> Stmt,
    stmtFull: Stmt -> Stmt,
    stmtPosition: Stmt -> Position,
    lastPosition: LastStmt -> Position,
    last: LastStmtFormatters)

  function StmtNodeOf(s: Stmt, f: BlockFormatters): NodeInfo {
    StmtNode(s, f.stmtPosition(s).start, f.stmtPosition(s).end)
  }

  function LastNodeOf(l: LastStmt, f: BlockFormatters): NodeInfo {
    LastStmtNode(l, f.lastPosition(l).start, f.lastPosition(l).end)
  }

  /** The leading trivia of a statement, where its toggle comments are. */
  function Lead(e: StmtEntry): seq<Token> {
    FirstLeading(StmtTokens(e.stmt))
  }

  /** The context once the toggle comments of the first `k` statements have been read. */
  function ToggledThrough(ctx: Context, stmts: seq<StmtEntry>, k: nat): (r: Context)
    requires k <= |stmts|
    ensures r.config == ctx.config && r.range == ctx.range
    decreases k
  {
    if k == 0 then ctx else ToggledContext(ToggledThrough(ctx, stmts, k - 1), Lead(stmts[k - 1]))
  }

  /**
   * Statement `i` formatted in context `c`; the first statement of the
   * block also loses its leading newlines when it is formatted normally.
   */
  function PreparedStmt(c: Context, stmts: seq<StmtEntry>, i: nat, f: BlockFormatters): (r: Stmt)
    requires i < |stmts|
    ensures var formatted := FormatStmt(c, stmts[i].stmt, StmtNodeOf(stmts[i].stmt, f), f.stmtBlocksOnly, f.stmtFull);
      && (i > 0 || FormatNodeOf(c, StmtNodeOf(formatted, f)) != Normal ==> r == formatted)
      && (i == 0 && FormatNodeOf(c, StmtNodeOf(formatted, f)) == Normal ==> r == StmtRemoveLeadingNewlines(formatted))
  {
    var formatted := FormatStmt(c, stmts[i].stmt, StmtNodeOf(stmts[i].stmt, f), f.stmtBlocksOnly, f.stmtFull);
    if i == 0 && FormatNodeOf(c, StmtNodeOf(formatted, f)) == Normal then StmtRemoveLeadingNewlines(formatted)
    else formatted
  }

  /** The statement after statement `i`, as the loop peeks at it before formatting. */
  function NextStmt(stmts: seq<StmtEntry>, i: nat): (r: Option<Stmt>)
    ensures r.Some? <==> i + 1 < |stmts|
    ensures r.Some? ==> r.value == stmts[i + 1].stmt
  {
    if i + 1 < |stmts| then Some(stmts[i + 1].stmt) else None
  }

  /** Statement `i` and its semicolon, once formatted in context `c`. */
  function FormatEntry(c: Context, stmts: seq<StmtEntry>, i: nat, shape: Layout.Shape, f: BlockFormatters): StmtEntry
    requires i < |stmts|
  {
    var s := PreparedStmt(c, stmts, i, f);
    SemicolonFor(c, s, stmts[i].semicolon, RequireSemicolon(s, NextStmt(stmts, i)), Layout.Reset(shape))
  }

  /** Statement `j` as the block loop leaves it: formatted in the context its own toggle comments leave. */
  function EntryAt(ctx: Context, stmts: seq<StmtEntry>, shape: Layout.Shape, f: BlockFormatters): int --> StmtEntry {
    j requires 0 <= j < |stmts| => FormatEntry(ToggledThrough(ctx, stmts, j + 1), stmts, j, shape, f)
  }

  /**
   * The first `k` statements of the block, formatted: statement `j` in the
   * context left by the toggle comments up to and including it.
   */
  function EntriesUpTo(ctx: Context, stmts: seq<StmtEntry>, k: nat, shape: Layout.Shape, f: BlockFormatters): (r: seq<StmtEntry>)
    requires k <= |stmts|
    ensures |r| == k
  {
    seq(k, EntryAt(ctx, stmts, shape, f))
  }

  /** A comprehension one longer ends in the value at the new index. */
  lemma {:induction false} ComprehensionSnoc<T>(k: nat, g: int --> T)
    requires forall j :: 0 <= j <= k ==> g.requires(j)
    ensures seq(k + 1, g) == seq(k, g) + [g(k)]
  {
    forall j | 0 <= j < k + 1
      ensures seq(k + 1, g)[j] == (seq(k, g) + [g(k)])[j]
    {
      assert seq(k + 1, g)[j] == g(j);
      if j < k {
        assert seq(k, g)[j] == g(j);
      }
    }
  }

  /** One more statement formatted extends the entries by that statement's entry. */
  lemma {:induction false} EntriesUpToSnoc(ctx: Context, stmts: seq<StmtEntry>, k: nat, shape: Layout.Shape, f: BlockFormatters)
    requires k < |stmts|
    ensures EntriesUpTo(ctx, stmts, k + 1, shape, f)
      == EntriesUpTo(ctx, stmts, k, shape, f) + [FormatEntry(ToggledThrough(ctx, stmts, k + 1), stmts, k, shape, f)]
  {
    ComprehensionSnoc(k, EntryAt(ctx, stmts, shape, f));
  }

  /**
   * The last statement of the block, formatted in the context left by the
   * statements before it; it loses its leading newlines when it is the only
   * statement, and it never keeps a semicolon.
   */
  function FormatLastEntry(c: Context, last: Option<LastStmtEntry>, foundFirst: bool, shape: Layout.Shape, f: BlockFormatters): (r: Option<LastStmtEntry>)
    ensures r.Some? <==> last.Some?
    ensures r.Some? ==> r.value.lastSemicolon.None?
  {
    match last
    case None => None
    case Some(e) =>
      var c' := ToggledContext(c, FirstLeading(LastStmtTokens(e.last)));
      var formatted := FormatLastStmt(c', e.last, LastNodeOf(e.last, f), Layout.Reset(shape), f.last);
      var l := if !foundFirst && FormatNodeOf(c', LastNodeOf(formatted, f)) == Normal
               then LastStmtRemoveLeadingNewlines(formatted) else formatted;
      Some(DropLastSemicolon(c', l, e.lastSemicolon))
  }

  /** `format_block`: every statement in order, then the last statement. */
  function FormatBlockSpec(ctx: Context, b: Block, shape: Layout.Shape, f: BlockFormatters): Block {
    Block(EntriesUpTo(ctx, b.stmts, |b.stmts|, shape, f),
          FormatLastEntry(ToggledThrough(ctx, b.stmts, |b.stmts|), b.lastStmt, |b.stmts| > 0, shape, f))
  }

  /**
   * A formatted block has as many statements as the original, a last
   * statement exactly when the original has one, and no semicolon after it.
   */
  lemma {:induction false} FormatBlockKeepsStatements(ctx: Context, b: Block, shape: Layout.Shape, f: BlockFormatters)
    ensures |FormatBlockSpec(ctx, b, shape, f).stmts| == |b.stmts|
    ensures FormatBlockSpec(ctx, b, shape, f).lastStmt.Some? <==> b.lastStmt.Some?
    ensures FormatBlockSpec(ctx, b, shape, f).lastStmt.Some? ==> FormatBlockSpec(ctx, b, shape, f).lastStmt.value.lastSemicolon.None?
  {
  }

  /** A formatted statement keeps a semicolon exactly when the next statement starts with `(` and it could run on into it. */
  lemma {:induction false} EntrySemicolon(c: Context, stmts: seq<StmtEntry>, i: nat, shape: Layout.Shape, f: BlockFormatters)
    requires i < |stmts|
    ensures FormatEntry(c, stmts, i, shape, f).semicolon.Some? <==>
      CanRunOn(PreparedStmt(c, stmts, i, f)) && i + 1 < |stmts| && StartsWithParentheses(stmts[i + 1].stmt)
    ensures FormatEntry(c, stmts, i, shape, f).semicolon.Some? ==>
      StmtTokens(stmts[i + 1].stmt) != [] && StmtTokens(stmts[i + 1].stmt)[0] == OpeningParenthesis(stmts[i + 1].stmt)
  {
    var s := PreparedStmt(c, stmts, i, f);
    var next := NextStmt(stmts, i);
    if RequireSemicolon(s, next) {
      SemicolonOnlyBeforeParenthesis(s, next.value);
    }
  }

  /**
   * Statement `i` keeps a semicolon exactly when it could run on into the
   * next statement and that statement starts with `(`; so a semicolon is
   * never left after the final statement or before anything else.
   */
  lemma {:induction false} BlockSemicolons(ctx: Context, b: Block, shape: Layout.Shape, f: BlockFormatters, i: nat)
    requires i < |b.stmts|
    ensures EntriesUpTo(ctx, b.stmts, |b.stmts|, shape, f)[i].semicolon.Some? <==>
      CanRunOn(PreparedStmt(ToggledThrough(ctx, b.stmts, i + 1), b.stmts, i, f))
      && i + 1 < |b.stmts| && StartsWithParentheses(b.stmts[i + 1].stmt)
  {
    EntrySemicolon(ToggledThrough(ctx, b.stmts, i + 1), b.stmts, i, shape, f);
  }

  /**
   * Only the first statement loses its leading newlines: every later one is
   * the statement formatter's output as it is.
   */
  lemma {:induction false} LeadingNewlinesOnlyOnFirst(c: Context, stmts: seq<StmtEntry>, i: nat, f: BlockFormatters)
    requires 0 < i < |stmts|
    ensures PreparedStmt(c, stmts, i, f) == FormatStmt(c, stmts[i].stmt, StmtNodeOf(stmts[i].stmt, f), f.stmtBlocksOnly, f.stmtFull)
  {
  }

  /**
   * The first statement, when formatted normally, starts without a blank
   * line: the newlines before its first token are gone and its comments stay.
   */
  lemma {:induction false} FirstStatementStartsClean(c: Context, stmts: seq<StmtEntry>, f: BlockFormatters)
    requires stmts != []
    requires var formatted := FormatStmt(c, stmts[0].stmt, StmtNodeOf(stmts[0].stmt, f), f.stmtBlocksOnly, f.stmtFull);
      FormatNodeOf(c, StmtNodeOf(formatted, f)) == Normal && StartsParsed(formatted)
    ensures var formatted := FormatStmt(c, stmts[0].stmt, StmtNodeOf(stmts[0].stmt, f), f.stmtBlocksOnly, f.stmtFull);
      var lead := FirstLeading(StmtTokens(PreparedStmt(c, stmts, 0, f)));
      && (lead != [] ==> !TriviaIsNewline(lead[0]))
      && Comments(lead) == Comments(FirstLeading(StmtTokens(formatted)))
  {
    var formatted := FormatStmt(c, stmts[0].stmt, StmtNodeOf(stmts[0].stmt, f), f.stmtBlocksOnly, f.stmtFull);
    var old_lead := FirstLeading(StmtTokens(formatted));
    StmtRemoveLeadingNewlinesEdit(formatted);
    StmtTokensNonEmpty(formatted);
    RemoveLeadingNewlinesKeepsComments(old_lead);
  }

  /** A statement formatted in a context that skips it, with no semicolon to add or drop, is its own entry. */
  lemma {:induction false} SkippedEntryKept(c: Context, stmts: seq<StmtEntry>, i: nat, shape: Layout.Shape, f: BlockFormatters)
    requires i < |stmts|
    requires FormatNodeOf(c, StmtNodeOf(stmts[i].stmt, f)) == Skip
    requires stmts[i].semicolon.None? && !RequireSemicolon(stmts[i].stmt, NextStmt(stmts, i))
    ensures FormatEntry(c, stmts, i, shape, f) == stmts[i]
  {
    var s := stmts[i].stmt;
    assert FormatStmt(c, s, StmtNodeOf(s, f), f.stmtBlocksOnly, f.stmtFull) == s;
    assert PreparedStmt(c, stmts, i, f) == s;
  }

  /**
   * A statement that is skipped (formatting switched off, or
   * `-- stylua: ignore` before it) and has no semicolon to add or drop is
   * kept exactly as it was.
   */
  lemma {:induction false} SkippedStatementKept(ctx: Context, b: Block, shape: Layout.Shape, f: BlockFormatters, i: nat)
    requires i < |b.stmts|
    requires FormatNodeOf(ToggledThrough(ctx, b.stmts, i + 1), StmtNodeOf(b.stmts[i].stmt, f)) == Skip
    requires b.stmts[i].semicolon.None? && !RequireSemicolon(b.stmts[i].stmt, NextStmt(b.stmts, i))
    ensures EntriesUpTo(ctx, b.stmts, |b.stmts|, shape, f)[i] == b.stmts[i]
  {
    EntriesUpToAt(ctx, b.stmts, |b.stmts|, shape, f, i);
    SkippedEntryKept(ToggledThrough(ctx, b.stmts, i + 1), b.stmts, i, shape, f);
  }

  /** Entry `i` of the formatted statements is the entry `EntryAt` gives for statement `i`. */
  lemma {:induction false} EntriesUpToAt(ctx: Context, stmts: seq<StmtEntry>, k: nat, shape: Layout.Shape,
                                         f: BlockFormatters, i: nat)
    requires i < k <= |stmts|
    ensures EntriesUpTo(ctx, stmts, k, shape, f)[i] == EntryAt(ctx, stmts, shape, f)(i)
  {
  }

  /**
   * `format_block`: walks the statements with the context that their toggle
   * comments switch, formats each, strips the first one's leading newlines,
   * and keeps or drops each semicolon after peeking at the next statement;
   * then formats the last statement.
   */
  method FormatBlock(ctx: Context, b: Block, shape: Layout.Shape, f: BlockFormatters) returns (r: Block)
    ensures r == FormatBlockSpec(ctx, b, shape, f)
  {
    var c := ctx;
    var formatted: seq<StmtEntry> := [];
    var foundFirst := false;
    var i := 0;
    while i < |b.stmts|
      invariant 0 <= i <= |b.stmts|
      invariant c == ToggledThrough(ctx, b.stmts, i)
      invariant formatted == EntriesUpTo(ctx, b.stmts, i, shape, f)
      invariant foundFirst <==> i > 0
    {
      var entry := b.stmts[i];
      c := CheckToggleFormatting(c, Lead(entry));
      var stmtShape := Layout.Reset(shape);
      var s := FormatStmt(c, entry.stmt, StmtNodeOf(entry.stmt, f), f.stmtBlocksOnly, f.stmtFull);
      if !foundFirst {
        var node := ShouldFormatNode(c, StmtNodeOf(s, f));
        if node == Normal {
          s := StmtRemoveLeadingNewlines(s);
        }
        foundFirst := true;
      }
      var required := RequireSemicolon(s, NextStmt(b.stmts, i));
      EntriesUpToSnoc(ctx, b.stmts, i, shape, f);
      formatted := formatted + [SemicolonFor(c, s, entry.semicolon, required, stmtShape)];
      i := i + 1;
    }
    var last: Option<LastStmtEntry> := None;
    if b.lastStmt.Some? {
      var e := b.lastStmt.value;
      c := CheckToggleFormatting(c, FirstLeading(LastStmtTokens(e.last)));
      var l := FormatLastStmt(c, e.last, LastNodeOf(e.last, f), Layout.Reset(shape), f.last);
      if !foundFirst {
        var node := ShouldFormatNode(c, LastNodeOf(l, f));
        if node == Normal {
          l := LastStmtRemoveLeadingNewlines(l);
        }
      }
      last := Some(DropLastSemicolon(c, l, e.lastSemicolon));
    }
    r := Block(formatted, last);
  }
}
