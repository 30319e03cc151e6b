/**
 * The trivia algebra of src/formatters/trivia.rs: an edit (`Append`,
 * `Replace` or `NoChange`) of the leading or trailing trivia of a node is
 * carried down to the node's first or last token. The lemmas show that every
 * edit reaches exactly that token and nothing else in the node.
 */
module Trivia {
  import opened Wrappers
  import opened Syntax

  /** `FormatTriviaType`: how the trivia of a token is to be edited. */
  datatype FormatTriviaType = Append(appended: seq<Token>) | Replace(replacement: seq<Token>) | NoChange

  function ApplyEdit(current: seq<Token>, edit: FormatTriviaType): seq<Token> {
    match edit
    case Append(ts) => current + ts
    case Replace(ts) => ts
    case NoChange => current
  }

  /** `TokenReference::update_trivia`. */
  function UpdateToken(t: TokenRef, leading: FormatTriviaType, trailing: FormatTriviaType): (r: TokenRef)
    ensures r.token == t.token
  {
    TokenRef(ApplyEdit(t.leading, leading), t.token, ApplyEdit(t.trailing, trailing))
  }

  function UpdateLeadingToken(t: TokenRef, edit: FormatTriviaType): TokenRef {
    UpdateToken(t, edit, NoChange)
  }

  function UpdateTrailingToken(t: TokenRef, edit: FormatTriviaType): TokenRef {
    UpdateToken(t, NoChange, edit)
  }

  /** `strip_trivia` on a token. */
  function StripToken(t: TokenRef): TokenRef {
    UpdateTrailingToken(UpdateLeadingToken(t, Replace([])), Replace([]))
  }

  /** `ContainedSpan`: leading trivia on the opening token, trailing on the closing one. */
  function UpdateSpan(s: Span, leading: FormatTriviaType, trailing: FormatTriviaType): Span {
    Span(UpdateLeadingToken(s.start, leading), UpdateTrailingToken(s.end, trailing))
  }

  // ---------------------------------------------------------------------
  // Punctuated lists
  // ---------------------------------------------------------------------

  /** `Punctuated::update_leading_trivia`: only the first value is edited. */
  function UpdateFirstPair<T>(ps: seq<Pair<T>>, upd: T -> T): (r: seq<Pair<T>>)
    ensures |r| == |ps|
    ensures forall i :: 0 <= i < |ps| ==> r[i].punctuation == ps[i].punctuation
    ensures forall i :: 0 < i < |ps| ==> r[i] == ps[i]
    ensures ps != [] ==> r[0].value == upd(ps[0].value)
  {
    if ps == [] then [] else [Pair(upd(ps[0].value), ps[0].punctuation)] + ps[1..]
  }

  /**
   * The loop of `Punctuated::update_leading_trivia`: the first pair is pushed
   * with its value edited, then every other pair is pushed unchanged.
   */
  method UpdateFirstPairLoop<T>(ps: seq<Pair<T>>, upd: T -> T) returns (r: seq<Pair<T>>)
    ensures r == UpdateFirstPair(ps, upd)
  {
    r := [];
    if |ps| > 0 {
      r := [Pair(upd(ps[0].value), ps[0].punctuation)];
      var i := 1;
      while i < |ps|
        invariant 1 <= i <= |ps|
        invariant r == [Pair(upd(ps[0].value), ps[0].punctuation)] + ps[1..i]
      {
        r := r + [Pair(ps[i].value, ps[i].punctuation)];
        i := i + 1;
      }
    }
  }

  /**
   * `Punctuated::update_trailing_trivia`: the last pair is popped and pushed
   * back with its value edited; its punctuation stays as it was.
   */
  function UpdateLastPair<T>(ps: seq<Pair<T>>, upd: T -> T): (r: seq<Pair<T>>)
    ensures |r| == |ps|
    ensures forall i :: 0 <= i < |ps| ==> r[i].punctuation == ps[i].punctuation
    ensures forall i :: 0 <= i < |ps| - 1 ==> r[i] == ps[i]
    ensures ps != [] ==> r[|ps| - 1].value == upd(ps[|ps| - 1].value)
  {
    if ps == [] then [] else ps[..|ps| - 1] + [Pair(upd(ps[|ps| - 1].value), ps[|ps| - 1].punctuation)]
  }

  function UpdateLeadingNames(ps: seq<Pair<TokenRef>>, edit: FormatTriviaType): seq<Pair<TokenRef>> {
    UpdateFirstPair(ps, (t: TokenRef) => UpdateLeadingToken(t, edit))
  }

  function UpdateTrailingNames(ps: seq<Pair<TokenRef>>, edit: FormatTriviaType): seq<Pair<TokenRef>> {
    UpdateLastPair(ps, (t: TokenRef) => UpdateTrailingToken(t, edit))
  }

  function UpdateTrailingExprList(ps: seq<Pair<Expr>>, edit: FormatTriviaType): seq<Pair<Expr>> {
    UpdateLastPair(ps, (e: Expr) => UpdateTrailingExpr(e, edit))
  }

  function UpdateLeadingExprList(ps: seq<Pair<Expr>>, edit: FormatTriviaType): seq<Pair<Expr>> {
    UpdateFirstPair(ps, (e: Expr) => UpdateLeadingExpr(e, edit))
  }

  function UpdateLeadingVarList(ps: seq<Pair<Var>>, edit: FormatTriviaType): seq<Pair<Var>> {
    UpdateFirstPair(ps, (v: Var) => UpdateLeadingVar(v, edit))
  }

  // ---------------------------------------------------------------------
  // Expressions and their parts
  // ---------------------------------------------------------------------

  function UpdateLeadingExpr(e: Expr, edit: FormatTriviaType): Expr
    decreases e
  {
    match e
    case Parentheses(c, inner) => Parentheses(UpdateSpan(c, edit, NoChange), inner)
    case UnaryOperator(op, x) => UnaryOperator(op.(unToken := UpdateLeadingToken(op.unToken, edit)), x)
    case BinaryOperator(l, op, r) => BinaryOperator(UpdateLeadingExpr(l, edit), op, r)
    case FunctionExpr(t, b) => FunctionExpr(UpdateLeadingToken(t, edit), b)
    case CallExpr(c) => CallExpr(UpdateCall(c, edit, NoChange))
    case NumberExpr(t) => NumberExpr(UpdateLeadingToken(t, edit))
    case StringExpr(t) => StringExpr(UpdateLeadingToken(t, edit))
    case SymbolExpr(t) => SymbolExpr(UpdateLeadingToken(t, edit))
    case TableExpr(t) => TableExpr(UpdateTable(t, edit, NoChange))
    case VarExpr(v) => VarExpr(UpdateLeadingVar(v, edit))
    case TypeAssertion(x, op, ty) => TypeAssertion(UpdateLeadingExpr(x, edit), op, ty)
  }

  function UpdateTrailingExpr(e: Expr, edit: FormatTriviaType): Expr
    decreases e
  {
    match e
    case FunctionExpr(t, b) => FunctionExpr(t, UpdateTrailingBody(b, edit))
    case CallExpr(c) => CallExpr(UpdateCall(c, NoChange, edit))
    case NumberExpr(t) => NumberExpr(UpdateTrailingToken(t, edit))
    case StringExpr(t) => StringExpr(UpdateTrailingToken(t, edit))
    case SymbolExpr(t) => SymbolExpr(UpdateTrailingToken(t, edit))
    case TableExpr(t) => TableExpr(UpdateTable(t, NoChange, edit))
    case VarExpr(v) => VarExpr(UpdateTrailingVar(v, edit))
    case TypeAssertion(x, op, ty) => TypeAssertion(x, op, UpdateType(ty, NoChange, edit))
    case Parentheses(c, inner) => Parentheses(UpdateSpan(c, NoChange, edit), inner)
    case UnaryOperator(op, x) => UnaryOperator(op, UpdateTrailingExpr(x, edit))
    case BinaryOperator(l, op, r) => BinaryOperator(l, op, UpdateTrailingExpr(r, edit))
  }

  /**
   * `FunctionCall` and `VarExpression`: a leading edit goes to the prefix, a
   * trailing edit to the last suffix; `NoChange` leaves the part untouched.
   */
  function UpdateCall(c: FunctionCall, leading: FormatTriviaType, trailing: FormatTriviaType): FunctionCall
    decreases c
  {
    var prefix := if leading.NoChange? then c.prefix else UpdateLeadingPrefix(c.prefix, leading);
    FunctionCall(prefix, UpdateLastSuffix(c.suffixes, trailing))
  }

  function UpdateLastSuffix(ss: seq<Suffix>, trailing: FormatTriviaType): (r: seq<Suffix>)
    ensures |r| == |ss|
  {
    if trailing.NoChange? || ss == [] then ss
    else ss[..|ss| - 1] + [UpdateSuffix(ss[|ss| - 1], NoChange, trailing)]
  }

  function UpdateLeadingPrefix(p: Prefix, edit: FormatTriviaType): Prefix
    decreases p
  {
    match p
    case NamePrefix(n) => NamePrefix(UpdateLeadingToken(n, edit))
    case ExprPrefix(e) => ExprPrefix(UpdateLeadingExpr(e, edit))
  }

  function UpdateSuffix(s: Suffix, leading: FormatTriviaType, trailing: FormatTriviaType): Suffix {
    match s
    case CallSuffix(c) =>
      CallSuffix(
        match c
        case AnonymousCall(a) => AnonymousCall(UpdateArgs(a, leading, trailing))
        case MethodCall(colon, name, a) => MethodCall(UpdateLeadingToken(colon, leading), name, UpdateArgs(a, NoChange, trailing)))
    case IndexSuffix(i) =>
      IndexSuffix(
        match i
        case BracketIndex(b, e) => BracketIndex(UpdateSpan(b, leading, trailing), e)
        case DotIndex(d, n) => DotIndex(UpdateLeadingToken(d, leading), UpdateTrailingToken(n, trailing)))
  }

  function UpdateArgs(a: FunctionArgs, leading: FormatTriviaType, trailing: FormatTriviaType): FunctionArgs {
    match a
    case ParenArgs(p, args) => ParenArgs(UpdateSpan(p, leading, trailing), args)
    case StringArg(t) => StringArg(UpdateToken(t, leading, trailing))
    case TableArg(t) => TableArg(UpdateTable(t, leading, trailing))
  }

  function UpdateTable(t: TableConstructor, leading: FormatTriviaType, trailing: FormatTriviaType): TableConstructor {
    t.(braces := UpdateSpan(t.braces, leading, trailing))
  }

  function UpdateTrailingBody(b: FunctionBody, edit: FormatTriviaType): FunctionBody {
    b.(endToken := UpdateTrailingToken(b.endToken, edit))
  }

  function UpdateLeadingVar(v: Var, edit: FormatTriviaType): Var
    decreases v
  {
    match v
    case NameVar(n) => NameVar(UpdateLeadingToken(n, edit))
    case IndexedVar(p, ss) =>
      IndexedVar(if edit.NoChange? then p else UpdateLeadingPrefix(p, edit), ss)
  }

  function UpdateTrailingVar(v: Var, edit: FormatTriviaType): Var {
    match v
    case NameVar(n) => NameVar(UpdateTrailingToken(n, edit))
    case IndexedVar(p, ss) => IndexedVar(p, UpdateLastSuffix(ss, edit))
  }

  // ---------------------------------------------------------------------
  // Luau types
  // ---------------------------------------------------------------------

  function UpdateType(t: TypeInfo, leading: FormatTriviaType, trailing: FormatTriviaType): TypeInfo
    decreases t
  {
    match t
    case BasicType(b) => BasicType(UpdateToken(b, leading, trailing))
    case ArrayType(br, e) => ArrayType(UpdateSpan(br, leading, trailing), e)
    case TableType(br, fs) => TableType(UpdateSpan(br, leading, trailing), fs)
    case CallbackType(g, p, args, arrow, ret) =>
      (match g
       case Some(d) =>
         CallbackType(Some(d.(genericArrows := UpdateSpan(d.genericArrows, leading, NoChange))), p, args, arrow,
                      UpdateType(ret, NoChange, trailing))
       case None =>
         CallbackType(None, UpdateSpan(p, leading, NoChange), args, arrow, UpdateType(ret, NoChange, trailing)))
    case GenericType(b, arrows, args) => GenericType(UpdateLeadingToken(b, leading), UpdateSpan(arrows, NoChange, trailing), args)
    case OptionalType(b, q) => OptionalType(UpdateType(b, leading, NoChange), UpdateTrailingToken(q, trailing))
    case UnionType(l, p, r) => UnionType(UpdateType(l, leading, NoChange), p, UpdateType(r, NoChange, trailing))
    case IntersectionType(l, a, r) => IntersectionType(UpdateType(l, leading, NoChange), a, UpdateType(r, NoChange, trailing))
    case TupleType(p, ts) => TupleType(UpdateSpan(p, leading, trailing), ts)
    case VariadicType(e, ty) => VariadicType(UpdateLeadingToken(e, leading), UpdateType(ty, NoChange, trailing))
    case TypeofType(k, p, e) => TypeofType(UpdateLeadingToken(k, leading), UpdateSpan(p, NoChange, trailing), e)
  }

  /** `TypeSpecifier`: a trailing edit goes to the type. */
  function UpdateTrailingSpecifier(s: TypeSpecifier, edit: FormatTriviaType): TypeSpecifier {
    s.(specifiedType := UpdateType(s.specifiedType, NoChange, edit))
  }

  // ---------------------------------------------------------------------
  // Statements
  // ---------------------------------------------------------------------

  /** `Return`: with no values both edits land on `return`. */
  function UpdateLastStmt(l: LastStmt, leading: FormatTriviaType, trailing: FormatTriviaType): LastStmt {
    match l
    case Break(t) => Break(UpdateToken(t, leading, trailing))
    case Continue(t) => Continue(UpdateToken(t, leading, trailing))
    case Return(t, rs) =>
      if rs == [] then Return(UpdateToken(t, leading, trailing), rs)
      else Return(UpdateLeadingToken(t, leading), UpdateTrailingExprList(rs, trailing))
  }

  /**
   * `LocalAssignment`: with no values the trailing edit goes to the last
   * type specifier when there is one, otherwise to the last name.
   */
  function UpdateLocalAssignment(s: Stmt, leading: FormatTriviaType, trailing: FormatTriviaType): Stmt
    requires s.LocalAssignment?
  {
    var local := UpdateLeadingToken(s.localToken, leading);
    if s.localExpressions == [] then
      if s.typeSpecifiers != [] && s.typeSpecifiers[|s.typeSpecifiers| - 1].Some? then
        var n := |s.typeSpecifiers|;
        s.(localToken := local,
           typeSpecifiers := s.typeSpecifiers[..n - 1] + [Some(UpdateTrailingSpecifier(s.typeSpecifiers[n - 1].value, trailing))])
      else
        s.(localToken := local, names := UpdateTrailingNames(s.names, trailing))
    else
      s.(localToken := local, localExpressions := UpdateTrailingExprList(s.localExpressions, trailing))
  }

  function UpdateStmt(s: Stmt, leading: FormatTriviaType, trailing: FormatTriviaType): Stmt {
    match s
    case Assignment(vs, eq, es) => Assignment(UpdateLeadingVarList(vs, leading), eq, UpdateTrailingExprList(es, trailing))
    case LocalAssignment(_, _, _, _, _) => UpdateLocalAssignment(s, leading, trailing)
    case CallStmt(c) => CallStmt(UpdateCall(c, leading, trailing))
    case Repeat(r, b, u, e) => Repeat(UpdateLeadingToken(r, leading), b, u, UpdateTrailingExpr(e, trailing))
    case Do(d, b, e) => Do(UpdateLeadingToken(d, leading), b, UpdateTrailingToken(e, trailing))
    case While(w, c, d, b, e) => While(UpdateLeadingToken(w, leading), c, d, b, UpdateTrailingToken(e, trailing))
    case If(i, c, t, b, eis, et, eb, e) =>
      If(UpdateLeadingToken(i, leading), c, t, b, eis, et, eb, UpdateTrailingToken(e, trailing))
    case GenericFor(f, ns, i, es, d, b, e) =>
      GenericFor(UpdateLeadingToken(f, leading), ns, i, es, d, b, UpdateTrailingToken(e, trailing))
    case NumericFor(f, i, bs, d, b, e) => NumericFor(UpdateLeadingToken(f, leading), i, bs, d, b, UpdateTrailingToken(e, trailing))
    case FunctionDeclaration(f, n, b) => FunctionDeclaration(UpdateLeadingToken(f, leading), n, UpdateTrailingBody(b, trailing))
    case LocalFunction(l, f, n, b) => LocalFunction(UpdateLeadingToken(l, leading), f, n, UpdateTrailingBody(b, trailing))
    case CompoundAssignment(l, op, r) => CompoundAssignment(UpdateLeadingVar(l, leading), op, UpdateTrailingExpr(r, trailing))
  }

  // ---------------------------------------------------------------------
  // What an edit does to the token sequence
  // ---------------------------------------------------------------------

  /** The token sequence with the first token's leading trivia edited. */
  function EditFirst(ts: seq<TokenRef>, edit: FormatTriviaType): (r: seq<TokenRef>)
    ensures |r| == |ts|
  {
    if ts == [] then [] else [UpdateLeadingToken(ts[0], edit)] + ts[1..]
  }

  /** The token sequence with the last token's trailing trivia edited. */
  function EditLast(ts: seq<TokenRef>, edit: FormatTriviaType): (r: seq<TokenRef>)
    ensures |r| == |ts|
  {
    if ts == [] then [] else ts[..|ts| - 1] + [UpdateTrailingToken(ts[|ts| - 1], edit)]
  }

  lemma {:induction false} EditFirstAppend(a: seq<TokenRef>, b: seq<TokenRef>, edit: FormatTriviaType)
    requires a != []
    ensures EditFirst(a + b, edit) == EditFirst(a, edit) + b
  {
    assert (a + b)[1..] == a[1..] + b;
  }

  lemma {:induction false} EditLastAppend(a: seq<TokenRef>, b: seq<TokenRef>, edit: FormatTriviaType)
    requires b != []
    ensures EditLast(a + b, edit) == a + EditLast(b, edit)
  {
    assert (a + b)[..|a + b| - 1] == a + b[..|b| - 1];
  }

  /** Editing both ends of a sequence made of two non-empty parts. */
  lemma {:induction false} EditBothEnds(xs: seq<TokenRef>, ys: seq<TokenRef>, leading: FormatTriviaType, trailing: FormatTriviaType)
    requires xs != [] && ys != []
    ensures EditLast(EditFirst(xs + ys, leading), trailing) == EditFirst(xs, leading) + EditLast(ys, trailing)
  {
    EditFirstAppend(xs, ys, leading);
    EditLastAppend(EditFirst(xs, leading), ys, trailing);
  }

  /** Editing both ends of a sequence of tokens that opens with `a` and closes with `b`. */
  lemma {:induction false} EditBracketed(a: TokenRef, mid: seq<TokenRef>, b: TokenRef, leading: FormatTriviaType, trailing: FormatTriviaType)
    ensures EditLast(EditFirst([a] + mid + [b], leading), trailing)
         == [UpdateLeadingToken(a, leading)] + mid + [UpdateTrailingToken(b, trailing)]
  {
    var s := [a] + mid + [b];
    assert s[1..] == mid + [b];
    var s' := [UpdateLeadingToken(a, leading)] + mid + [b];
    assert EditFirst(s, leading) == s';
    assert s'[..|s'| - 1] == [UpdateLeadingToken(a, leading)] + mid;
  }

  /**
   * Parser guarantees the trailing edit relies on: every call and indexed
   * variable on the right edge of an expression has at least one suffix.
   */
  predicate RightEdgeHasSuffixes(e: Expr) {
    match e
    case CallExpr(c) => c.suffixes != []
    case VarExpr(v) => v.IndexedVar? ==> v.varSuffixes != []
    case UnaryOperator(_, x) => RightEdgeHasSuffixes(x)
    case BinaryOperator(_, _, r) => RightEdgeHasSuffixes(r)
    case _ => true
  }

  lemma {:induction false} ExprTokensNonEmpty(e: Expr)
    ensures ExprTokens(e) != []
    decreases e
  {
    match e
    case BinaryOperator(l, _, _) => ExprTokensNonEmpty(l);
    case TypeAssertion(x, _, _) => ExprTokensNonEmpty(x);
    case CallExpr(c) => PrefixTokensNonEmpty(c.prefix);
    case VarExpr(v) => if v.IndexedVar? { PrefixTokensNonEmpty(v.varPrefix); }
    case TableExpr(_) =>
    case _ =>
  }

  lemma {:induction false} PrefixTokensNonEmpty(p: Prefix)
    ensures PrefixTokens(p) != []
    decreases p
  {
    if p.ExprPrefix? { ExprTokensNonEmpty(p.expr); }
  }

  /** A leading edit of an expression reaches exactly its first token. */
  lemma {:induction false} LeadingEditReachesFirstToken(e: Expr, edit: FormatTriviaType)
    ensures ExprTokens(UpdateLeadingExpr(e, edit)) == EditFirst(ExprTokens(e), edit)
    decreases e
  {
    match e
    case BinaryOperator(l, op, r) =>
      LeadingEditReachesFirstToken(l, edit);
      LeadingEditBinary(l, op, r, edit);
    case TypeAssertion(x, op, ty) =>
      LeadingEditReachesFirstToken(x, edit);
      LeadingEditTypeAssertion(x, op, ty, edit);
    case CallExpr(c) => CallLeadingEditReachesFirstToken(c, edit);
    case VarExpr(v) => VarLeadingEditReachesFirstToken(v, edit);
    case _ => LeadingEditOnOwnToken(e, edit);
  }

  lemma {:induction false} LeadingEditBinary(l: Expr, op: BinOp, r: Expr, edit: FormatTriviaType)
    requires ExprTokens(UpdateLeadingExpr(l, edit)) == EditFirst(ExprTokens(l), edit)
    ensures ExprTokens(UpdateLeadingExpr(BinaryOperator(l, op, r), edit)) == EditFirst(ExprTokens(BinaryOperator(l, op, r)), edit)
  {
    ExprTokensNonEmpty(l);
    EditFirstAppend(ExprTokens(l), [op.binToken] + ExprTokens(r), edit);
    assert ExprTokens(BinaryOperator(l, op, r)) == ExprTokens(l) + ([op.binToken] + ExprTokens(r));
  }

  lemma {:induction false} LeadingEditTypeAssertion(x: Expr, op: TokenRef, ty: TypeInfo, edit: FormatTriviaType)
    requires ExprTokens(UpdateLeadingExpr(x, edit)) == EditFirst(ExprTokens(x), edit)
    ensures ExprTokens(UpdateLeadingExpr(TypeAssertion(x, op, ty), edit)) == EditFirst(ExprTokens(TypeAssertion(x, op, ty)), edit)
  {
    ExprTokensNonEmpty(x);
    EditFirstAppend(ExprTokens(x), [op] + TypeTokens(ty), edit);
    assert ExprTokens(TypeAssertion(x, op, ty)) == ExprTokens(x) + ([op] + TypeTokens(ty));
  }

  /** Expressions whose first token is one of their own fields. */
  lemma {:induction false} LeadingEditOnOwnToken(e: Expr, edit: FormatTriviaType)
    requires !e.BinaryOperator? && !e.TypeAssertion? && !e.CallExpr? && !e.VarExpr?
    ensures ExprTokens(UpdateLeadingExpr(e, edit)) == EditFirst(ExprTokens(e), edit)
  {
    match e
    case Parentheses(c, inner) => ParenthesesLeadingEdit(c, inner, edit);
    case UnaryOperator(op, x) =>
      EditFirstAppend([op.unToken], ExprTokens(x), edit);
    case FunctionExpr(t, b) =>
      EditFirstAppend([t], BodyTokens(b), edit);
    case TableExpr(t) => TableExprLeadingEdit(t, edit);
    case NumberExpr(_) =>
    case StringExpr(_) =>
    case SymbolExpr(_) =>
  }

  lemma {:induction false} ParenthesesLeadingEdit(c: Span, inner: Expr, edit: FormatTriviaType)
    ensures ExprTokens(UpdateLeadingExpr(Parentheses(c, inner), edit)) == EditFirst(ExprTokens(Parentheses(c, inner)), edit)
  {
    EditFirstAppend([c.start], ExprTokens(inner) + [c.end], edit);
    assert ExprTokens(Parentheses(c, inner)) == [c.start] + (ExprTokens(inner) + [c.end]);
  }

  lemma {:induction false} TableExprLeadingEdit(t: TableConstructor, edit: FormatTriviaType)
    ensures ExprTokens(UpdateLeadingExpr(TableExpr(t), edit)) == EditFirst(ExprTokens(TableExpr(t)), edit)
  {
    EditFirstAppend([t.braces.start], FieldsTokens(t.fields) + [t.braces.end], edit);
    assert TableTokens(t) == [t.braces.start] + (FieldsTokens(t.fields) + [t.braces.end]);
  }

  lemma {:induction false} PrefixLeadingEditReachesFirstToken(p: Prefix, edit: FormatTriviaType)
    ensures PrefixTokens(UpdateLeadingPrefix(p, edit)) == EditFirst(PrefixTokens(p), edit)
    decreases p
  {
    if p.ExprPrefix? { LeadingEditReachesFirstToken(p.expr, edit); }
  }

  lemma {:induction false} CallLeadingEditReachesFirstToken(c: FunctionCall, edit: FormatTriviaType)
    ensures CallTokens(UpdateCall(c, edit, NoChange)) == EditFirst(CallTokens(c), edit)
    decreases c
  {
    PrefixTokensNonEmpty(c.prefix);
    EditFirstAppend(PrefixTokens(c.prefix), SuffixesTokens(c.suffixes), edit);
    if edit.NoChange? {
      NoChangeIsIdentity(PrefixTokens(c.prefix));
    } else {
      PrefixLeadingEditReachesFirstToken(c.prefix, edit);
    }
  }

  lemma {:induction false} VarLeadingEditReachesFirstToken(v: Var, edit: FormatTriviaType)
    ensures VarTokens(UpdateLeadingVar(v, edit)) == EditFirst(VarTokens(v), edit)
    decreases v
  {
    if v.IndexedVar? {
      PrefixTokensNonEmpty(v.varPrefix);
      EditFirstAppend(PrefixTokens(v.varPrefix), SuffixesTokens(v.varSuffixes), edit);
      if edit.NoChange? {
        NoChangeIsIdentity(PrefixTokens(v.varPrefix));
      } else {
        PrefixLeadingEditReachesFirstToken(v.varPrefix, edit);
      }
    }
  }

  lemma {:induction false} NoChangeIsIdentity(ts: seq<TokenRef>)
    ensures EditFirst(ts, NoChange) == ts && EditLast(ts, NoChange) == ts
  {
    if ts != [] {
      assert UpdateLeadingToken(ts[0], NoChange) == ts[0];
      assert UpdateTrailingToken(ts[|ts| - 1], NoChange) == ts[|ts| - 1];
    }
  }

  lemma {:induction false} SuffixesTokensSnoc(ss: seq<Suffix>, s: Suffix)
    ensures SuffixesTokens(ss + [s]) == SuffixesTokens(ss) + SuffixTokens(s)
    decreases |ss|
  {
    if ss == [] {
      assert [s][1..] == [];
    } else {
      assert (ss + [s])[1..] == ss[1..] + [s];
      SuffixesTokensSnoc(ss[1..], s);
    }
  }

  lemma {:induction false} ExprListTokensSnoc(ps: seq<Pair<Expr>>, p: Pair<Expr>)
    ensures ExprListTokens(ps + [p]) == ExprListTokens(ps) + ExprTokens(p.value) + OptTokens(p.punctuation)
    decreases |ps|
  {
    if ps == [] {
      assert [p][1..] == [];
    } else {
      assert (ps + [p])[1..] == ps[1..] + [p];
      ExprListTokensSnoc(ps[1..], p);
    }
  }

  lemma {:induction false} ExprListTokensCons(p: Pair<Expr>, ps: seq<Pair<Expr>>)
    ensures ExprListTokens([p] + ps) == ExprTokens(p.value) + OptTokens(p.punctuation) + ExprListTokens(ps)
  {
    assert ([p] + ps)[1..] == ps;
  }

  lemma {:induction false} SuffixTokensNonEmpty(s: Suffix)
    ensures SuffixTokens(s) != []
  {
    match s
    case CallSuffix(c) =>
      match c {
        case AnonymousCall(a) => ArgsTokensNonEmpty(a);
        case MethodCall(_, _, a) =>
      }
    case IndexSuffix(_) =>
  }

  lemma {:induction false} ArgsTokensNonEmpty(a: FunctionArgs)
    ensures ArgsTokens(a) != []
  {
  }

  lemma {:induction false} TypeTokensNonEmpty(t: TypeInfo)
    ensures TypeTokens(t) != []
    decreases t
  {
    match t
    case OptionalType(b, _) => TypeTokensNonEmpty(b);
    case UnionType(l, _, _) => TypeTokensNonEmpty(l);
    case IntersectionType(l, _, _) => TypeTokensNonEmpty(l);
    case _ =>
  }

  /** Function arguments take a leading edit on their first token and a trailing edit on their last. */
  lemma {:induction false} ArgsTrailingEdit(a: FunctionArgs, leading: FormatTriviaType, trailing: FormatTriviaType)
    ensures ArgsTokens(UpdateArgs(a, leading, trailing)) == EditLast(EditFirst(ArgsTokens(a), leading), trailing)
  {
    match a
    case ParenArgs(p, args) => EditBracketed(p.start, ExprListTokens(args), p.end, leading, trailing);
    case StringArg(_) =>
    case TableArg(tc) => EditBracketed(tc.braces.start, FieldsTokens(tc.fields), tc.braces.end, leading, trailing);
  }

  /** A suffix takes a leading edit on its first token and a trailing edit on its last. */
  lemma {:induction false} SuffixEdit(s: Suffix, leading: FormatTriviaType, trailing: FormatTriviaType)
    ensures SuffixTokens(UpdateSuffix(s, leading, trailing)) == EditLast(EditFirst(SuffixTokens(s), leading), trailing)
  {
    match s
    case CallSuffix(c) =>
      match c {
        case AnonymousCall(a) => ArgsTrailingEdit(a, leading, trailing);
        case MethodCall(colon, name, a) => MethodCallEdit(colon, name, a, leading, trailing);
      }
    case IndexSuffix(i) =>
      match i {
        case BracketIndex(b, e) => EditBracketed(b.start, ExprTokens(e), b.end, leading, trailing);
        case DotIndex(d, n) => EditBracketed(d, [], n, leading, trailing);
      }
  }

  lemma {:induction false} MethodCallEdit(colon: TokenRef, name: TokenRef, a: FunctionArgs, leading: FormatTriviaType, trailing: FormatTriviaType)
    ensures SuffixTokens(UpdateSuffix(CallSuffix(MethodCall(colon, name, a)), leading, trailing))
         == EditLast(EditFirst(SuffixTokens(CallSuffix(MethodCall(colon, name, a))), leading), trailing)
  {
    ArgsTrailingEdit(a, NoChange, trailing);
    ArgsTokensNonEmpty(a);
    NoChangeIsIdentity(ArgsTokens(a));
    EditBothEnds([colon, name], ArgsTokens(a), leading, trailing);
    assert EditFirst([colon, name], leading) == [UpdateLeadingToken(colon, leading), name];
  }

  lemma {:induction false} SuffixListTrailingEdit(ss: seq<Suffix>, edit: FormatTriviaType)
    requires ss != [] || edit.NoChange?
    ensures SuffixesTokens(UpdateLastSuffix(ss, edit)) == EditLast(SuffixesTokens(ss), edit)
  {
    if edit.NoChange? {
      NoChangeIsIdentity(SuffixesTokens(ss));
    } else {
      var init, last := ss[..|ss| - 1], ss[|ss| - 1];
      assert ss == init + [last];
      SuffixesTokensSnoc(init, last);
      SuffixesTokensSnoc(init, UpdateSuffix(last, NoChange, edit));
      SuffixEdit(last, NoChange, edit);
      SuffixTokensNonEmpty(last);
      NoChangeIsIdentity(SuffixTokens(last));
      EditLastAppend(SuffixesTokens(init), SuffixTokens(last), edit);
    }
  }

  /**
   * On a function call, a trailing edit reaches exactly the last token, which
   * belongs to the last suffix.
   */
  lemma {:induction false} CallTrailingEditReachesLastToken(c: FunctionCall, edit: FormatTriviaType)
    requires c.suffixes != []
    ensures CallTokens(UpdateCall(c, NoChange, edit)) == EditLast(CallTokens(c), edit)
  {
    SuffixListTrailingEdit(c.suffixes, edit);
    SuffixesTokensSnoc(c.suffixes[..|c.suffixes| - 1], c.suffixes[|c.suffixes| - 1]);
    assert c.suffixes == c.suffixes[..|c.suffixes| - 1] + [c.suffixes[|c.suffixes| - 1]];
    SuffixTokensNonEmpty(c.suffixes[|c.suffixes| - 1]);
    EditLastAppend(PrefixTokens(c.prefix), SuffixesTokens(c.suffixes), edit);
  }

  /** `NoChange` on both sides leaves a call as it was. */
  lemma {:induction false} CallNoChange(c: FunctionCall)
    ensures UpdateCall(c, NoChange, NoChange) == c
  {
  }

  /** A trailing edit of an expression reaches exactly its last token. */
  lemma {:induction false} TrailingEditReachesLastToken(e: Expr, edit: FormatTriviaType)
    requires RightEdgeHasSuffixes(e)
    ensures ExprTokens(UpdateTrailingExpr(e, edit)) == EditLast(ExprTokens(e), edit)
    decreases e
  {
    match e
    case BinaryOperator(l, op, r) =>
      TrailingEditReachesLastToken(r, edit);
      ExprTokensNonEmpty(r);
      EditLastAppend(ExprTokens(l) + [op.binToken], ExprTokens(r), edit);
    case UnaryOperator(op, x) =>
      TrailingEditReachesLastToken(x, edit);
      ExprTokensNonEmpty(x);
      EditLastAppend([op.unToken], ExprTokens(x), edit);
    case CallExpr(c) => CallTrailingEditReachesLastToken(c, edit);
    case VarExpr(v) =>
      if v.IndexedVar? {
        CallTrailingEditReachesLastToken(FunctionCall(v.varPrefix, v.varSuffixes), edit);
      }
    case TypeAssertion(x, op, ty) =>
      TypeEdit(ty, NoChange, edit);
      TypeTokensNonEmpty(ty);
      NoChangeIsIdentity(TypeTokens(ty));
      EditLastAppend(ExprTokens(x) + [op], TypeTokens(ty), edit);
    case _ => TrailingEditOnOwnToken(e, edit);
  }

  lemma {:induction false} TrailingEditOnOwnToken(e: Expr, edit: FormatTriviaType)
    requires !e.BinaryOperator? && !e.UnaryOperator? && !e.CallExpr? && !e.VarExpr? && !e.TypeAssertion?
    ensures ExprTokens(UpdateTrailingExpr(e, edit)) == EditLast(ExprTokens(e), edit)
  {
    match e
    case Parentheses(c, inner) => ParenthesesTrailingEdit(c, inner, edit);
    case FunctionExpr(t, b) => FunctionExprTrailingEdit(t, b, edit);
    case TableExpr(tc) => TableExprTrailingEdit(tc, edit);
    case NumberExpr(_) =>
    case StringExpr(_) =>
    case SymbolExpr(_) =>
  }

  lemma {:induction false} ParenthesesTrailingEdit(c: Span, inner: Expr, edit: FormatTriviaType)
    ensures ExprTokens(UpdateTrailingExpr(Parentheses(c, inner), edit)) == EditLast(ExprTokens(Parentheses(c, inner)), edit)
  {
    EditLastAppend([c.start] + ExprTokens(inner), [c.end], edit);
  }

  lemma {:induction false} FunctionExprTrailingEdit(t: TokenRef, b: FunctionBody, edit: FormatTriviaType)
    ensures ExprTokens(UpdateTrailingExpr(FunctionExpr(t, b), edit)) == EditLast(ExprTokens(FunctionExpr(t, b)), edit)
  {
    var bt := [b.parameterParens.start] + NamesTokens(b.parameters) + [b.parameterParens.end] + BlockTokens(b.block);
    assert BodyTokens(b) == bt + [b.endToken];
    EditLastAppend([t] + bt, [b.endToken], edit);
  }

  lemma {:induction false} TableExprTrailingEdit(tc: TableConstructor, edit: FormatTriviaType)
    ensures ExprTokens(UpdateTrailingExpr(TableExpr(tc), edit)) == EditLast(ExprTokens(TableExpr(tc)), edit)
  {
    EditLastAppend([tc.braces.start] + FieldsTokens(tc.fields), [tc.braces.end], edit);
  }

  /**
   * A type takes a leading edit on its first token and a trailing edit on
   * its last token.
   */
  lemma {:induction false} TypeEdit(t: TypeInfo, leading: FormatTriviaType, trailing: FormatTriviaType)
    ensures TypeTokens(UpdateType(t, leading, trailing)) == EditLast(EditFirst(TypeTokens(t), leading), trailing)
    decreases t
  {
    match t
    case OptionalType(b, q) =>
      TypeEdit(b, leading, NoChange);
      OptionalEdit(t, leading, trailing);
    case UnionType(l, p, r) =>
      TypeEdit(l, leading, NoChange);
      TypeEdit(r, NoChange, trailing);
      UnionEdit(t, leading, trailing);
    case IntersectionType(l, a, r) =>
      TypeEdit(l, leading, NoChange);
      TypeEdit(r, NoChange, trailing);
      IntersectionEdit(t, leading, trailing);
    case CallbackType(g, p, args, arrow, ret) =>
      TypeEdit(ret, NoChange, trailing);
      CallbackEdit(t, leading, trailing);
    case VariadicType(e, ty) =>
      TypeEdit(ty, NoChange, trailing);
      VariadicEdit(t, leading, trailing);
    case _ => TypeEditOnOwnTokens(t, leading, trailing);
  }

  lemma {:induction false} OptionalEdit(t: TypeInfo, leading: FormatTriviaType, trailing: FormatTriviaType)
    requires t.OptionalType?
    requires TypeTokens(UpdateType(t.optionalBase, leading, NoChange)) == EditLast(EditFirst(TypeTokens(t.optionalBase), leading), NoChange)
    ensures TypeTokens(UpdateType(t, leading, trailing)) == EditLast(EditFirst(TypeTokens(t), leading), trailing)
  {
    var b := t.optionalBase;
    TypeTokensNonEmpty(b);
    NoChangeIsIdentity(EditFirst(TypeTokens(b), leading));
    EditFirstAppend(TypeTokens(b), [t.questionMark], leading);
  }

  lemma {:induction false} UnionEdit(t: TypeInfo, leading: FormatTriviaType, trailing: FormatTriviaType)
    requires t.UnionType?
    requires TypeTokens(UpdateType(t.unionLeft, leading, NoChange)) == EditLast(EditFirst(TypeTokens(t.unionLeft), leading), NoChange)
    requires TypeTokens(UpdateType(t.unionRight, NoChange, trailing)) == EditLast(EditFirst(TypeTokens(t.unionRight), NoChange), trailing)
    ensures TypeTokens(UpdateType(t, leading, trailing)) == EditLast(EditFirst(TypeTokens(t), leading), trailing)
  {
    var l, r := t.unionLeft, t.unionRight;
    TypeTokensNonEmpty(l);
    TypeTokensNonEmpty(r);
    SpineEdit(TypeTokens(l), [t.pipe], TypeTokens(r), TypeTokens(UpdateType(l, leading, NoChange)), TypeTokens(UpdateType(r, NoChange, trailing)), leading, trailing);
  }

  lemma {:induction false} IntersectionEdit(t: TypeInfo, leading: FormatTriviaType, trailing: FormatTriviaType)
    requires t.IntersectionType?
    requires TypeTokens(UpdateType(t.intersectionLeft, leading, NoChange)) == EditLast(EditFirst(TypeTokens(t.intersectionLeft), leading), NoChange)
    requires TypeTokens(UpdateType(t.intersectionRight, NoChange, trailing)) == EditLast(EditFirst(TypeTokens(t.intersectionRight), NoChange), trailing)
    ensures TypeTokens(UpdateType(t, leading, trailing)) == EditLast(EditFirst(TypeTokens(t), leading), trailing)
  {
    var l, r := t.intersectionLeft, t.intersectionRight;
    TypeTokensNonEmpty(l);
    TypeTokensNonEmpty(r);
    SpineEdit(TypeTokens(l), [t.ampersand], TypeTokens(r), TypeTokens(UpdateType(l, leading, NoChange)), TypeTokens(UpdateType(r, NoChange, trailing)), leading, trailing);
  }

  lemma {:induction false} VariadicEdit(t: TypeInfo, leading: FormatTriviaType, trailing: FormatTriviaType)
    requires t.VariadicType?
    requires TypeTokens(UpdateType(t.variadicType, NoChange, trailing)) == EditLast(EditFirst(TypeTokens(t.variadicType), NoChange), trailing)
    ensures TypeTokens(UpdateType(t, leading, trailing)) == EditLast(EditFirst(TypeTokens(t), leading), trailing)
  {
    var e, ty := t.ellipse, t.variadicType;
    TypeTokensNonEmpty(ty);
    NoChangeIsIdentity(TypeTokens(ty));
    EditLastAppend([e], TypeTokens(ty), trailing);
    EditFirstAppend([e], TypeTokens(ty), leading);
    EditLastAppend([UpdateLeadingToken(e, leading)], TypeTokens(ty), trailing);
  }

  /** The shared step of unions and intersections: left edited first, right edited last. */
  lemma {:induction false} SpineEdit(l: seq<TokenRef>, mid: seq<TokenRef>, r: seq<TokenRef>, l': seq<TokenRef>, r': seq<TokenRef>,
                  leading: FormatTriviaType, trailing: FormatTriviaType)
    requires l != [] && r != []
    requires l' == EditLast(EditFirst(l, leading), NoChange)
    requires r' == EditLast(EditFirst(r, NoChange), trailing)
    ensures l' + mid + r' == EditLast(EditFirst(l + mid + r, leading), trailing)
  {
    NoChangeIsIdentity(EditFirst(l, leading));
    NoChangeIsIdentity(r);
    EditFirstAppend(l, mid + r, leading);
    assert l + mid + r == l + (mid + r);
    EditLastAppend(EditFirst(l, leading) + mid, r, trailing);
    assert EditFirst(l, leading) + (mid + r) == (EditFirst(l, leading) + mid) + r;
  }

  lemma {:induction false} CallbackEdit(t: TypeInfo, leading: FormatTriviaType, trailing: FormatTriviaType)
    requires t.CallbackType?
    requires TypeTokens(UpdateType(t.returnType, NoChange, trailing)) == EditLast(EditFirst(TypeTokens(t.returnType), NoChange), trailing)
    ensures TypeTokens(UpdateType(t, leading, trailing)) == EditLast(EditFirst(TypeTokens(t), leading), trailing)
  {
    TypeTokensNonEmpty(t.returnType);
    NoChangeIsIdentity(TypeTokens(t.returnType));
    match t.callbackGenerics
    case Some(d) =>
      CallbackWithGenericsEdit(d, t.callbackParens, t.callbackArgs, t.callbackArrow, t.returnType, leading, trailing);
    case None =>
      CallbackWithoutGenericsEdit(t.callbackParens, t.callbackArgs, t.callbackArrow, t.returnType, leading, trailing);
  }

  lemma {:induction false} CallbackWithGenericsEdit(d: GenericDeclaration, p: Span, args: seq<Pair<TypeInfo>>, arrow: TokenRef, ret: TypeInfo,
                                                    leading: FormatTriviaType, trailing: FormatTriviaType)
    requires TypeTokens(ret) != []
    requires TypeTokens(UpdateType(ret, NoChange, trailing)) == EditLast(TypeTokens(ret), trailing)
    ensures var t := CallbackType(Some(d), p, args, arrow, ret);
      TypeTokens(UpdateType(t, leading, trailing)) == EditLast(EditFirst(TypeTokens(t), leading), trailing)
  {
    var s, e, ns := d.genericArrows.start, d.genericArrows.end, NamesTokens(d.genericNames);
    var g := [s] + ns + [e];
    var x := g + [p.start] + TypeListTokens(args) + [p.end, arrow];
    CallbackWithGenericsTokens(d, p, args, arrow, ret, leading, trailing);
    assert EditFirst([s], leading) == [UpdateLeadingToken(s, leading)];
    EditFirstAppend([s], ns, leading);
    EditFirstAppend([s] + ns, [e], leading);
    EditFirstAppend(g, [p.start], leading);
    EditFirstAppend(g + [p.start], TypeListTokens(args), leading);
    EditFirstAppend(g + [p.start] + TypeListTokens(args), [p.end, arrow], leading);
    EditBothEnds(x, TypeTokens(ret), leading, trailing);
  }

  lemma {:induction false} CallbackWithGenericsTokens(d: GenericDeclaration, p: Span, args: seq<Pair<TypeInfo>>, arrow: TokenRef, ret: TypeInfo,
                                                      leading: FormatTriviaType, trailing: FormatTriviaType)
    ensures var t := CallbackType(Some(d), p, args, arrow, ret);
      var s, e, ns := d.genericArrows.start, d.genericArrows.end, NamesTokens(d.genericNames);
      && TypeTokens(t) == [s] + ns + [e] + [p.start] + TypeListTokens(args) + [p.end, arrow] + TypeTokens(ret)
      && TypeTokens(UpdateType(t, leading, trailing))
         == [UpdateLeadingToken(s, leading)] + ns + [e] + [p.start] + TypeListTokens(args) + [p.end, arrow] + TypeTokens(UpdateType(ret, NoChange, trailing))
  {
    assert UpdateTrailingToken(d.genericArrows.end, NoChange) == d.genericArrows.end;
  }

  lemma {:induction false} CallbackWithoutGenericsEdit(p: Span, args: seq<Pair<TypeInfo>>, arrow: TokenRef, ret: TypeInfo,
                                                       leading: FormatTriviaType, trailing: FormatTriviaType)
    requires TypeTokens(ret) != []
    requires TypeTokens(UpdateType(ret, NoChange, trailing)) == EditLast(TypeTokens(ret), trailing)
    ensures var t := CallbackType(None, p, args, arrow, ret);
      TypeTokens(UpdateType(t, leading, trailing)) == EditLast(EditFirst(TypeTokens(t), leading), trailing)
  {
    var x := [p.start] + TypeListTokens(args) + [p.end, arrow];
    CallbackWithoutGenericsTokens(p, args, arrow, ret, leading, trailing);
    assert EditFirst([p.start], leading) == [UpdateLeadingToken(p.start, leading)];
    EditFirstAppend([p.start], TypeListTokens(args), leading);
    EditFirstAppend([p.start] + TypeListTokens(args), [p.end, arrow], leading);
    EditBothEnds(x, TypeTokens(ret), leading, trailing);
  }

  lemma {:induction false} CallbackWithoutGenericsTokens(p: Span, args: seq<Pair<TypeInfo>>, arrow: TokenRef, ret: TypeInfo,
                                                         leading: FormatTriviaType, trailing: FormatTriviaType)
    ensures var t := CallbackType(None, p, args, arrow, ret);
      && TypeTokens(t) == [p.start] + TypeListTokens(args) + [p.end, arrow] + TypeTokens(ret)
      && TypeTokens(UpdateType(t, leading, trailing))
         == [UpdateLeadingToken(p.start, leading)] + TypeListTokens(args) + [p.end, arrow] + TypeTokens(UpdateType(ret, NoChange, trailing))
  {
    CallbackWithoutGenericsUpdated(p, args, arrow, ret, leading, trailing);
  }

  lemma {:induction false} CallbackWithoutGenericsUpdated(p: Span, args: seq<Pair<TypeInfo>>, arrow: TokenRef, ret: TypeInfo,
                                                          leading: FormatTriviaType, trailing: FormatTriviaType)
    ensures TypeTokens(UpdateType(CallbackType(None, p, args, arrow, ret), leading, trailing))
         == [UpdateLeadingToken(p.start, leading)] + TypeListTokens(args) + [p.end, arrow] + TypeTokens(UpdateType(ret, NoChange, trailing))
  {
  }

  lemma {:induction false} TypeEditOnOwnTokens(t: TypeInfo, leading: FormatTriviaType, trailing: FormatTriviaType)
    requires !t.OptionalType? && !t.UnionType? && !t.IntersectionType? && !t.CallbackType? && !t.VariadicType?
    ensures TypeTokens(UpdateType(t, leading, trailing)) == EditLast(EditFirst(TypeTokens(t), leading), trailing)
  {
    match t
    case BasicType(_) =>
    case ArrayType(br, e) => EditBracketed(br.start, TypeTokens(e), br.end, leading, trailing);
    case TableType(br, fs) => EditBracketed(br.start, TypeFieldsTokens(fs), br.end, leading, trailing);
    case GenericType(b, arrows, args) => GenericTypeEdit(t, leading, trailing);
    case TupleType(p, ts) => EditBracketed(p.start, TypeListTokens(ts), p.end, leading, trailing);
    case TypeofType(k, p, e) => TypeofEdit(t, leading, trailing);
  }

  lemma {:induction false} GenericTypeEdit(t: TypeInfo, leading: FormatTriviaType, trailing: FormatTriviaType)
    requires t.GenericType?
    ensures TypeTokens(UpdateType(t, leading, trailing)) == EditLast(EditFirst(TypeTokens(t), leading), trailing)
  {
    var b, arrows, args := t.genericBase, t.typeArrows, t.genericArgs;
    assert TypeTokens(t) == [b] + ([arrows.start] + TypeListTokens(args)) + [arrows.end];
    assert TypeTokens(UpdateType(t, leading, trailing))
        == [UpdateLeadingToken(b, leading)] + ([arrows.start] + TypeListTokens(args)) + [UpdateTrailingToken(arrows.end, trailing)];
    EditBracketed(b, [arrows.start] + TypeListTokens(args), arrows.end, leading, trailing);
  }

  lemma {:induction false} TypeofEdit(t: TypeInfo, leading: FormatTriviaType, trailing: FormatTriviaType)
    requires t.TypeofType?
    ensures TypeTokens(UpdateType(t, leading, trailing)) == EditLast(EditFirst(TypeTokens(t), leading), trailing)
  {
    var k, p, e := t.typeofToken, t.typeofParens, t.typeofExpr;
    assert TypeTokens(t) == [k] + ([p.start] + ExprTokens(e)) + [p.end];
    assert TypeTokens(UpdateType(t, leading, trailing))
        == [UpdateLeadingToken(k, leading)] + ([p.start] + ExprTokens(e)) + [UpdateTrailingToken(p.end, trailing)];
    EditBracketed(k, [p.start] + ExprTokens(e), p.end, leading, trailing);
  }

  /** A leading edit of an expression list reaches exactly the first token of the list. */
  lemma {:induction false} ExprListLeadingEdit(ps: seq<Pair<Expr>>, edit: FormatTriviaType)
    ensures ExprListTokens(UpdateLeadingExprList(ps, edit)) == EditFirst(ExprListTokens(ps), edit)
  {
    if ps != [] {
      var p := ps[0];
      var p' := Pair(UpdateLeadingExpr(p.value, edit), p.punctuation);
      assert ps == [p] + ps[1..];
      assert UpdateLeadingExprList(ps, edit) == [p'] + ps[1..];
      var rest := OptTokens(p.punctuation) + ExprListTokens(ps[1..]);
      ExprListTokensCons(p, ps[1..]);
      ExprListTokensCons(p', ps[1..]);
      Text.AppendAssoc(ExprTokens(p.value), OptTokens(p.punctuation), ExprListTokens(ps[1..]));
      Text.AppendAssoc(ExprTokens(p'.value), OptTokens(p.punctuation), ExprListTokens(ps[1..]));
      assert ExprListTokens(ps) == ExprTokens(p.value) + rest;
      assert ExprListTokens([p'] + ps[1..]) == ExprTokens(p'.value) + rest;
      LeadingEditReachesFirstToken(p.value, edit);
      ExprTokensNonEmpty(p.value);
      EditFirstAppend(ExprTokens(p.value), rest, edit);
    }
  }

  /**
   * The list ends in a value with no separator after it, and that value's
   * last token is reached by a trailing edit.
   */
  predicate EndsInBareValue(ps: seq<Pair<Expr>>) {
    ps != [] && ps[|ps| - 1].punctuation.None? && RightEdgeHasSuffixes(ps[|ps| - 1].value)
  }

  /**
   * A trailing edit of an expression list goes to the last value; when that
   * value is not followed by a separator, this is the last token of the list.
   */
  lemma {:induction false} ExprListTrailingEdit(ps: seq<Pair<Expr>>, edit: FormatTriviaType)
    requires EndsInBareValue(ps)
    ensures ExprListTokens(UpdateTrailingExprList(ps, edit)) == EditLast(ExprListTokens(ps), edit)
    decreases |ps|
  {
    var ps' := UpdateTrailingExprList(ps, edit);
    TrailingEditReachesLastToken(ps[|ps| - 1].value, edit);
    if |ps| == 1 {
      assert ps'[1..] == [];
    } else {
      var rest := ps[1..];
      assert rest[|rest| - 1] == ps[|ps| - 1];
      assert ps'[0] == ps[0];
      assert ps'[1..] == UpdateTrailingExprList(rest, edit);
      ExprListTrailingEdit(rest, edit);
      ExprListTokensNonEmpty(rest);
      EditLastAppend(ExprTokens(ps[0].value) + OptTokens(ps[0].punctuation), ExprListTokens(rest), edit);
    }
  }

  lemma {:induction false} ExprListTokensNonEmpty(ps: seq<Pair<Expr>>)
    requires ps != []
    ensures ExprListTokens(ps) != []
  {
    ExprTokensNonEmpty(ps[0].value);
  }

  /**
   * `Return`: without values both edits land on the `return` keyword;
   * otherwise the leading edit lands there and the trailing edit on the last
   * value. Either way they reach the first and the last token.
   */
  lemma {:induction false} ReturnEdit(t: TokenRef, rs: seq<Pair<Expr>>, leading: FormatTriviaType, trailing: FormatTriviaType)
    requires rs != [] ==> EndsInBareValue(rs)
    ensures LastStmtTokens(UpdateLastStmt(Return(t, rs), leading, trailing))
         == EditLast(EditFirst(LastStmtTokens(Return(t, rs)), leading), trailing)
  {
    if rs != [] {
      ExprListTrailingEdit(rs, trailing);
      ExprListTokensNonEmpty(rs);
      EditBothEnds([t], ExprListTokens(rs), leading, trailing);
    }
  }

  /** `update_trivia(l, t)` is `update_leading_trivia(l)` followed by `update_trailing_trivia(t)`. */
  lemma {:induction false} UpdateTokenSplits(t: TokenRef, leading: FormatTriviaType, trailing: FormatTriviaType)
    ensures UpdateToken(t, leading, trailing) == UpdateTrailingToken(UpdateLeadingToken(t, leading), trailing)
    ensures UpdateToken(t, leading, trailing) == UpdateLeadingToken(UpdateTrailingToken(t, trailing), leading)
  {
  }

  /** Two appends are one append of both; a replacement forgets what came before. */
  lemma {:induction false} EditLaws(ts: seq<Token>, a: seq<Token>, b: seq<Token>, edit: FormatTriviaType)
    ensures ApplyEdit(ApplyEdit(ts, Append(a)), Append(b)) == ApplyEdit(ts, Append(a + b))
    ensures ApplyEdit(ApplyEdit(ts, edit), Replace(b)) == b
    ensures ApplyEdit(ts, NoChange) == ts
    ensures ApplyEdit(ts, Append([])) == ts
  {
    assert ts + a + b == ts + (a + b);
  }

  /** `strip_trivia`: no trivia is left on either side, the token is kept, and stripping twice is stripping once. */
  lemma {:induction false} StripTokenClears(t: TokenRef)
    ensures StripToken(t).leading == [] && StripToken(t).trailing == []
    ensures StripToken(t).token == t.token
    ensures StripToken(StripToken(t)) == StripToken(t)
  {
  }

  /** `strip_trivia` on an expression. */
  function StripExpr(e: Expr): Expr {
    UpdateTrailingExpr(UpdateLeadingExpr(e, Replace([])), Replace([]))
  }

  lemma {:induction false} LeadingEditKeepsRightEdge(e: Expr, edit: FormatTriviaType)
    requires RightEdgeHasSuffixes(e)
    ensures RightEdgeHasSuffixes(UpdateLeadingExpr(e, edit))
    decreases e
  {
    match e
    case BinaryOperator(_, _, _) =>
    case UnaryOperator(_, _) =>
    case _ =>
  }

  /** A stripped expression has no trivia before its first token or after its last. */
  lemma {:induction false} StripExprClearsEnds(e: Expr)
    requires RightEdgeHasSuffixes(e)
    ensures ExprTokens(StripExpr(e)) == EditLast(EditFirst(ExprTokens(e), Replace([])), Replace([]))
    ensures |ExprTokens(StripExpr(e))| == |ExprTokens(e)| > 0
    ensures ExprTokens(StripExpr(e))[0].leading == []
    ensures ExprTokens(StripExpr(e))[|ExprTokens(e)| - 1].trailing == []
  {
    LeadingEditReachesFirstToken(e, Replace([]));
    LeadingEditKeepsRightEdge(e, Replace([]));
    TrailingEditReachesLastToken(UpdateLeadingExpr(e, Replace([])), Replace([]));
    ExprTokensNonEmpty(e);
    var ts := ExprTokens(e);
    if |ts| == 1 {
      assert EditLast(EditFirst(ts, Replace([])), Replace([]))[0] == UpdateToken(ts[0], Replace([]), Replace([]));
    }
  }
}
