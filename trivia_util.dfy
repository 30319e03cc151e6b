/**
 * Queries on trivia and the extractors of src/formatters/trivia_util.rs:
 * what kind a piece of trivia is, whether a token or a node carries
 * comments or line breaks, the trivia before an expression's first token
 * and after its last one, and the functions that lift comments off a node.
 */
module TriviaUtil {
  import opened Wrappers
  import opened Syntax
  import opened Trivia

  predicate TriviaIsWhitespace(t: Token) { t.Whitespace? }

  predicate TriviaIsComment(t: Token) { t.SingleLineComment? || t.MultiLineComment? }

  /** Whitespace that holds a line break. */
  predicate TriviaIsNewline(t: Token) { t.Whitespace? && '\n' in t.characters }

  predicate HasNewline(ts: seq<Token>) { exists i :: 0 <= i < |ts| && TriviaIsNewline(ts[i]) }

  predicate HasComment(ts: seq<Token>) { exists i :: 0 <= i < |ts| && TriviaIsComment(ts[i]) }

  /** `trivia_contains_newline`: stops at the first newline. */
  method TriviaContainsNewline(ts: seq<Token>) returns (b: bool)
    ensures b <==> HasNewline(ts)
  {
    for i := 0 to |ts|
      invariant forall j :: 0 <= j < i ==> !TriviaIsNewline(ts[j])
    {
      if TriviaIsNewline(ts[i]) {
        return true;
      }
    }
    return false;
  }

  /** `token_trivia_contains_comments`: stops at the first comment. */
  method TokenTriviaContainsComments(ts: seq<Token>) returns (b: bool)
    ensures b <==> HasComment(ts)
  {
    for i := 0 to |ts|
      invariant forall j :: 0 <= j < i ==> !TriviaIsComment(ts[j])
    {
      if TriviaIsComment(ts[i]) {
        return true;
      }
    }
    return false;
  }

  /** `token_contains_comments`. */
  predicate TokenContainsComments(t: TokenRef) {
    HasComment(t.leading) || HasComment(t.trailing)
  }

  /** `contains_comments` on a node given its tokens. */
  predicate ContainsComments(ts: seq<TokenRef>) {
    exists i :: 0 <= i < |ts| && TokenContainsComments(ts[i])
  }

  lemma {:induction false} ContainsCommentsAppend(a: seq<TokenRef>, b: seq<TokenRef>)
    ensures ContainsComments(a + b) <==> ContainsComments(a) || ContainsComments(b)
  {
    if ContainsComments(a + b) {
      var i :| 0 <= i < |a + b| && TokenContainsComments((a + b)[i]);
      if i >= |a| {
        assert b[i - |a|] == (a + b)[i];
      }
    }
    if ContainsComments(a) {
      var i :| 0 <= i < |a| && TokenContainsComments(a[i]);
      assert (a + b)[i] == a[i];
    }
    if ContainsComments(b) {
      var i :| 0 <= i < |b| && TokenContainsComments(b[i]);
      assert (a + b)[|a| + i] == b[i];
    }
  }

  /** `CommentSearch`: look only for single-line comments, or for any comment. */
  datatype CommentSearch = Single | All

  predicate SearchMatches(search: CommentSearch, t: Token) {
    match search
    case Single => t.SingleLineComment?
    case All => TriviaIsComment(t)
  }

  predicate HasCommentsBy(search: CommentSearch, ts: seq<Token>) {
    exists i :: 0 <= i < |ts| && SearchMatches(search, ts[i])
  }

  lemma {:induction false} SingleSearchFindsLess(ts: seq<Token>)
    ensures HasCommentsBy(Single, ts) ==> HasCommentsBy(All, ts)
    ensures HasCommentsBy(All, ts) <==> HasComment(ts)
  {
  }

  // ---------------------------------------------------------------------
  // Filters over trivia
  // ---------------------------------------------------------------------

  /** The comments of some trivia, in order (`filter(trivia_is_comment)`). */
  function Comments(ts: seq<Token>): (r: seq<Token>)
    ensures |r| <= |ts|
    ensures forall i :: 0 <= i < |r| ==> TriviaIsComment(r[i])
    ensures r == [] <==> !HasComment(ts)
  {
    if ts == [] then []
    else
      var rest := Comments(ts[1..]);
      assert HasComment(ts) <==> TriviaIsComment(ts[0]) || HasComment(ts[1..]) by {
        if HasComment(ts) {
          var i :| 0 <= i < |ts| && TriviaIsComment(ts[i]);
          if i > 0 { assert ts[1..][i - 1] == ts[i]; }
        }
        if HasComment(ts[1..]) {
          var i :| 0 <= i < |ts[1..]| && TriviaIsComment(ts[1..][i]);
          assert ts[i + 1] == ts[1..][i];
        }
      }
      (if TriviaIsComment(ts[0]) then [ts[0]] else []) + rest
  }

  /** The trivia that is not a comment, in order (`filter(|t| !trivia_is_comment(t))`). */
  function NonComments(ts: seq<Token>): (r: seq<Token>)
    ensures |r| <= |ts|
    ensures !HasComment(r)
  {
    if ts == [] then []
    else
      var rest := NonComments(ts[1..]);
      var r := (if TriviaIsComment(ts[0]) then [] else [ts[0]]) + rest;
      assert forall i :: 0 <= i < |rest| ==> r[|r| - |rest| + i] == rest[i];
      r
  }

  /** Splitting trivia into its comments and the rest loses nothing. */
  lemma {:induction false} CommentsPartition(ts: seq<Token>)
    ensures multiset(Comments(ts)) + multiset(NonComments(ts)) == multiset(ts)
  {
    if ts != [] {
      CommentsPartition(ts[1..]);
      assert multiset(ts) == multiset{ts[0]} + multiset(ts[1..]) by {
        assert ts == [ts[0]] + ts[1..];
      }
      if TriviaIsComment(ts[0]) {
        assert Comments(ts) == [ts[0]] + Comments(ts[1..]);
        assert NonComments(ts) == NonComments(ts[1..]);
      } else {
        assert Comments(ts) == Comments(ts[1..]);
        assert NonComments(ts) == [ts[0]] + NonComments(ts[1..]);
      }
    }
  }

  /** Trivia made only of comments is its own list of comments. */
  lemma {:induction false} CommentsOfAllComments(cs: seq<Token>)
    requires forall i :: 0 <= i < |cs| ==> TriviaIsComment(cs[i])
    ensures Comments(cs) == cs
  {
    if cs != [] {
      CommentsOfAllComments(cs[1..]);
    }
  }

  /** Trivia without comments is its own list of non-comments. */
  lemma {:induction false} NonCommentsOfNoComments(ts: seq<Token>)
    requires !HasComment(ts)
    ensures NonComments(ts) == ts
  {
    if ts != [] {
      assert !TriviaIsComment(ts[0]);
      assert !HasComment(ts[1..]) by {
        forall i | 0 <= i < |ts[1..]|
          ensures !TriviaIsComment(ts[1..][i])
        {
          assert ts[1..][i] == ts[i + 1];
        }
      }
      NonCommentsOfNoComments(ts[1..]);
    }
  }

  /** Keeping the comments of the comments keeps them all. */
  lemma {:induction false} CommentsIdempotent(ts: seq<Token>)
    ensures Comments(Comments(ts)) == Comments(ts)
  {
    CommentsOfAllComments(Comments(ts));
  }

  /** Dropping the comments twice is dropping them once, and leaves none. */
  lemma {:induction false} NonCommentsIdempotent(ts: seq<Token>)
    ensures NonComments(NonComments(ts)) == NonComments(ts)
    ensures Comments(NonComments(ts)) == []
  {
    NonCommentsOfNoComments(NonComments(ts));
  }

  lemma {:induction false} CommentsAppend(a: seq<Token>, b: seq<Token>)
    ensures Comments(a + b) == Comments(a) + Comments(b)
  {
    if a != [] {
      assert (a + b)[1..] == a[1..] + b;
      CommentsAppend(a[1..], b);
    } else {
      assert a + b == b;
    }
  }

  /** The one-space trivia that `TokenType::spaces(1)` builds. */
  const Space: Token := Whitespace(" ")

  /** Each of the given comments preceded by a single space. */
  function Interleave(cs: seq<Token>): (r: seq<Token>)
    ensures |r| == 2 * |cs|
    ensures forall i :: 0 <= i < |cs| ==> r[2 * i] == Space && r[2 * i + 1] == cs[i]
  {
    if cs == [] then []
    else
      var rest := Interleave(cs[1..]);
      assert forall i :: 1 <= i < |cs| ==> ([Space, cs[0]] + rest)[2 * i] == rest[2 * (i - 1)];
      assert forall i :: 1 <= i < |cs| ==> ([Space, cs[0]] + rest)[2 * i + 1] == rest[2 * (i - 1) + 1];
      [Space, cs[0]] + rest
  }

  /**
   * The comments of some trivia, each after a single space: the shape in
   * which comments taken off a node are re-attached after it.
   */
  function SpacedComments(ts: seq<Token>): seq<Token> {
    Interleave(Comments(ts))
  }

  /** The comments among spaced comments are the original comments. */
  lemma {:induction false} InterleaveKeepsComments(cs: seq<Token>)
    requires forall i :: 0 <= i < |cs| ==> TriviaIsComment(cs[i])
    ensures Comments(Interleave(cs)) == cs
  {
    if cs != [] {
      InterleaveKeepsComments(cs[1..]);
      CommentsAppend([Space, cs[0]], Interleave(cs[1..]));
      assert [Space, cs[0]][1..][1..] == [];
      assert Comments([Space, cs[0]]) == [cs[0]];
    }
  }

  lemma {:induction false} SpacedCommentsKeepsComments(ts: seq<Token>)
    ensures Comments(SpacedComments(ts)) == Comments(ts)
  {
    InterleaveKeepsComments(Comments(ts));
  }

  /** `binop_leading_comments`: the comments before the operator. */
  function BinopLeadingComments(op: BinOp): (r: seq<Token>)
    ensures forall i :: 0 <= i < |r| ==> TriviaIsComment(r[i])
    ensures r == [] <==> !HasComment(op.binToken.leading)
  {
    Comments(op.binToken.leading)
  }

  /** `binop_trailing_comments`: a space and a comment per comment after the operator. */
  function BinopTrailingComments(op: BinOp): (r: seq<Token>)
    ensures |r| == 2 * |Comments(op.binToken.trailing)|
    ensures forall i :: 0 <= i < |r| / 2 ==> r[2 * i] == Space && TriviaIsComment(r[2 * i + 1])
  {
    SpacedComments(op.binToken.trailing)
  }

  // ---------------------------------------------------------------------
  // Trivia at the edges of a node
  // ---------------------------------------------------------------------

  /** The leading trivia of the first token of a sequence, if any. */
  function FirstLeading(ts: seq<TokenRef>): seq<Token> {
    if ts == [] then [] else ts[0].leading
  }

  /** The trailing trivia of the last token of a sequence, if any. */
  function LastTrailing(ts: seq<TokenRef>): seq<Token> {
    if ts == [] then [] else ts[|ts| - 1].trailing
  }

  lemma {:induction false} FirstLeadingAppend(a: seq<TokenRef>, b: seq<TokenRef>)
    requires a != []
    ensures FirstLeading(a + b) == FirstLeading(a)
  {
  }

  lemma {:induction false} LastTrailingAppend(a: seq<TokenRef>, b: seq<TokenRef>)
    requires b != []
    ensures LastTrailing(a + b) == LastTrailing(b)
  {
  }

  /** `get_expression_leading_trivia`. */
  function ExprLeadingTrivia(e: Expr): seq<Token>
    decreases e
  {
    match e
    case Parentheses(c, _) => c.start.leading
    case UnaryOperator(op, _) => op.unToken.leading
    case BinaryOperator(l, _, _) => ExprLeadingTrivia(l)
    case FunctionExpr(t, _) => t.leading
    case CallExpr(FunctionCall(p, _)) => PrefixLeadingTrivia(p)
    case TableExpr(t) => t.braces.start.leading
    case NumberExpr(t) => t.leading
    case StringExpr(t) => t.leading
    case SymbolExpr(t) => t.leading
    case VarExpr(NameVar(n)) => n.leading
    case VarExpr(IndexedVar(p, _)) => PrefixLeadingTrivia(p)
    case TypeAssertion(x, _, _) => ExprLeadingTrivia(x)
  }

  function PrefixLeadingTrivia(p: Prefix): seq<Token>
    decreases p
  {
    match p
    case NamePrefix(n) => n.leading
    case ExprPrefix(e) => ExprLeadingTrivia(e)
  }

  function ArgsTrailingTrivia(a: FunctionArgs): seq<Token> {
    match a
    case ParenArgs(p, _) => p.end.trailing
    case StringArg(t) => t.trailing
    case TableArg(t) => t.braces.end.trailing
  }

  function SuffixTrailingTrivia(s: Suffix): seq<Token> {
    match s
    case IndexSuffix(BracketIndex(b, _)) => b.end.trailing
    case IndexSuffix(DotIndex(_, n)) => n.trailing
    case CallSuffix(AnonymousCall(a)) => ArgsTrailingTrivia(a)
    case CallSuffix(MethodCall(_, _, a)) => ArgsTrailingTrivia(a)
  }

  /** The trailing trivia of the last suffix, or none when there is no suffix. */
  function LastSuffixTrailingTrivia(ss: seq<Suffix>): seq<Token> {
    if ss == [] then [] else SuffixTrailingTrivia(ss[|ss| - 1])
  }

  /** `type_info_trailing_trivia`. */
  function TypeTrailingTrivia(t: TypeInfo): seq<Token>
    decreases t
  {
    match t
    case ArrayType(br, _) => br.end.trailing
    case BasicType(b) => b.trailing
    case CallbackType(_, _, _, _, ret) => TypeTrailingTrivia(ret)
    case GenericType(_, arrows, _) => arrows.end.trailing
    case IntersectionType(_, _, r) => TypeTrailingTrivia(r)
    case OptionalType(_, q) => q.trailing
    case TableType(br, _) => br.end.trailing
    case TypeofType(_, p, _) => p.end.trailing
    case TupleType(p, _) => p.end.trailing
    case UnionType(_, _, r) => TypeTrailingTrivia(r)
    case VariadicType(_, ty) => TypeTrailingTrivia(ty)
  }

  /** `get_expression_trailing_trivia`. */
  function ExprTrailingTrivia(e: Expr): seq<Token>
    decreases e
  {
    match e
    case Parentheses(c, _) => c.end.trailing
    case UnaryOperator(_, x) => ExprTrailingTrivia(x)
    case BinaryOperator(_, _, r) => ExprTrailingTrivia(r)
    case TypeAssertion(_, _, ty) => TypeTrailingTrivia(ty)
    case FunctionExpr(_, b) => b.endToken.trailing
    case CallExpr(c) => LastSuffixTrailingTrivia(c.suffixes)
    case StringExpr(t) => t.trailing
    case TableExpr(t) => t.braces.end.trailing
    case NumberExpr(t) => t.trailing
    case SymbolExpr(t) => t.trailing
    case VarExpr(NameVar(n)) => n.trailing
    case VarExpr(IndexedVar(_, ss)) => LastSuffixTrailingTrivia(ss)
  }

  /** The leading trivia of an expression is the leading trivia of its first token. */
  lemma {:induction false} ExprLeadingTriviaIsFirstToken(e: Expr)
    ensures ExprLeadingTrivia(e) == FirstLeading(ExprTokens(e))
    decreases e
  {
    match e
    case BinaryOperator(l, op, r) =>
      ExprLeadingTriviaIsFirstToken(l);
      ExprTokensNonEmpty(l);
      FirstLeadingAppend(ExprTokens(l), [op.binToken] + ExprTokens(r));
      assert ExprTokens(e) == ExprTokens(l) + ([op.binToken] + ExprTokens(r));
    case TypeAssertion(x, op, ty) =>
      ExprLeadingTriviaIsFirstToken(x);
      ExprTokensNonEmpty(x);
      FirstLeadingAppend(ExprTokens(x), [op] + TypeTokens(ty));
      assert ExprTokens(e) == ExprTokens(x) + ([op] + TypeTokens(ty));
    case CallExpr(c) =>
      PrefixLeadingTriviaIsFirstToken(c.prefix);
      PrefixTokensNonEmpty(c.prefix);
      FirstLeadingAppend(PrefixTokens(c.prefix), SuffixesTokens(c.suffixes));
    case VarExpr(v) =>
      if v.IndexedVar? {
        PrefixLeadingTriviaIsFirstToken(v.varPrefix);
        PrefixTokensNonEmpty(v.varPrefix);
        FirstLeadingAppend(PrefixTokens(v.varPrefix), SuffixesTokens(v.varSuffixes));
      }
    case Parentheses(c, x) => FirstLeadingAppend([c.start], ExprTokens(x) + [c.end]);
    case UnaryOperator(op, x) => FirstLeadingAppend([op.unToken], ExprTokens(x));
    case FunctionExpr(t, b) => FirstLeadingAppend([t], BodyTokens(b));
    case TableExpr(t) =>
    case NumberExpr(_) =>
    case StringExpr(_) =>
    case SymbolExpr(_) =>
  }

  lemma {:induction false} PrefixLeadingTriviaIsFirstToken(p: Prefix)
    ensures PrefixLeadingTrivia(p) == FirstLeading(PrefixTokens(p))
    decreases p
  {
    match p
    case NamePrefix(_) =>
    case ExprPrefix(e) => ExprLeadingTriviaIsFirstToken(e);
  }

  lemma {:induction false} ArgsTrailingTriviaIsLastToken(a: FunctionArgs)
    ensures ArgsTrailingTrivia(a) == LastTrailing(ArgsTokens(a))
  {
    match a
    case ParenArgs(p, args) =>
      LastTrailingAppend([p.start] + ExprListTokens(args), [p.end]);
    case StringArg(_) =>
    case TableArg(t) =>
      LastTrailingAppend([t.braces.start] + FieldsTokens(t.fields), [t.braces.end]);
  }

  lemma {:induction false} SuffixTrailingTriviaIsLastToken(s: Suffix)
    ensures SuffixTrailingTrivia(s) == LastTrailing(SuffixTokens(s))
  {
    match s
    case CallSuffix(c) =>
      match c {
        case AnonymousCall(a) => ArgsTrailingTriviaIsLastToken(a);
        case MethodCall(colon, name, a) =>
          ArgsTrailingTriviaIsLastToken(a);
          ArgsTokensNonEmpty(a);
          LastTrailingAppend([colon, name], ArgsTokens(a));
      }
    case IndexSuffix(i) =>
      match i {
        case BracketIndex(b, e) => LastTrailingAppend([b.start] + ExprTokens(e), [b.end]);
        case DotIndex(_, _) =>
      }
  }

  lemma {:induction false} SuffixesTrailingTriviaIsLastToken(ss: seq<Suffix>)
    ensures LastSuffixTrailingTrivia(ss) == LastTrailing(SuffixesTokens(ss))
  {
    if ss != [] {
      var init, s := ss[..|ss| - 1], ss[|ss| - 1];
      assert ss == init + [s];
      SuffixesTokensSnoc(init, s);
      SuffixTokensNonEmpty(s);
      LastTrailingAppend(SuffixesTokens(init), SuffixTokens(s));
      SuffixTrailingTriviaIsLastToken(s);
    }
  }

  lemma {:induction false} TypeTrailingTriviaIsLastToken(t: TypeInfo)
    ensures TypeTrailingTrivia(t) == LastTrailing(TypeTokens(t))
    decreases t
  {
    match t
    case CallbackType(g, p, args, arrow, ret) =>
      TypeTrailingTriviaIsLastToken(ret);
      TypeTokensNonEmpty(ret);
      var front := (match g case None => [] case Some(d) => [d.genericArrows.start] + NamesTokens(d.genericNames) + [d.genericArrows.end]) +
        [p.start] + TypeListTokens(args) + [p.end, arrow];
      assert TypeTokens(t) == front + TypeTokens(ret);
      LastTrailingAppend(front, TypeTokens(ret));
    case UnionType(l, p, r) =>
      TypeTrailingTriviaIsLastToken(r);
      TypeTokensNonEmpty(r);
      LastTrailingAppend(TypeTokens(l) + [p], TypeTokens(r));
    case IntersectionType(l, a, r) =>
      TypeTrailingTriviaIsLastToken(r);
      TypeTokensNonEmpty(r);
      LastTrailingAppend(TypeTokens(l) + [a], TypeTokens(r));
    case VariadicType(e, ty) =>
      TypeTrailingTriviaIsLastToken(ty);
      TypeTokensNonEmpty(ty);
      LastTrailingAppend([e], TypeTokens(ty));
    case _ =>
  }

  /**
   * The trailing trivia of an expression is the trailing trivia of its last
   * token (calls and indexed variables always carry a suffix).
   */
  lemma {:induction false} ExprTrailingTriviaIsLastToken(e: Expr)
    requires RightEdgeHasSuffixes(e)
    ensures ExprTrailingTrivia(e) == LastTrailing(ExprTokens(e))
    decreases e
  {
    match e
    case UnaryOperator(op, x) =>
      ExprTrailingTriviaIsLastToken(x);
      ExprTokensNonEmpty(x);
      LastTrailingAppend([op.unToken], ExprTokens(x));
    case BinaryOperator(l, op, r) =>
      ExprTrailingTriviaIsLastToken(r);
      ExprTokensNonEmpty(r);
      LastTrailingAppend(ExprTokens(l) + [op.binToken], ExprTokens(r));
    case TypeAssertion(x, op, ty) =>
      TypeTrailingTriviaIsLastToken(ty);
      TypeTokensNonEmpty(ty);
      LastTrailingAppend(ExprTokens(x) + [op], TypeTokens(ty));
    case CallExpr(c) =>
      SuffixesTrailingTriviaIsLastToken(c.suffixes);
      SuffixTokensNonEmpty(c.suffixes[|c.suffixes| - 1]);
      SuffixesTokensSnoc(c.suffixes[..|c.suffixes| - 1], c.suffixes[|c.suffixes| - 1]);
      assert c.suffixes == c.suffixes[..|c.suffixes| - 1] + [c.suffixes[|c.suffixes| - 1]];
      LastTrailingAppend(PrefixTokens(c.prefix), SuffixesTokens(c.suffixes));
    case VarExpr(v) =>
      if v.IndexedVar? {
        var ss := v.varSuffixes;
        SuffixesTrailingTriviaIsLastToken(ss);
        SuffixTokensNonEmpty(ss[|ss| - 1]);
        SuffixesTokensSnoc(ss[..|ss| - 1], ss[|ss| - 1]);
        assert ss == ss[..|ss| - 1] + [ss[|ss| - 1]];
        LastTrailingAppend(PrefixTokens(v.varPrefix), SuffixesTokens(ss));
      }
    case FunctionExpr(t, b) =>
      LastTrailingAppend([t] + [b.parameterParens.start] + NamesTokens(b.parameters) + [b.parameterParens.end] + BlockTokens(b.block), [b.endToken]);
    case _ =>
  }

  // ---------------------------------------------------------------------
  // Lifting comments off a node
  // ---------------------------------------------------------------------

  /**
   * `take_expression_trailing_comments`: the expression without trailing
   * trivia, and the comments that were there, each after one space.
   */
  function TakeExpressionTrailingComments(e: Expr): (r: (Expr, seq<Token>))
    ensures r.1 == SpacedComments(ExprTrailingTrivia(e))
  {
    (UpdateTrailingExpr(e, Replace([])), SpacedComments(ExprTrailingTrivia(e)))
  }

  /**
   * Taking the trailing comments clears the trivia after the last token,
   * keeps every other token, and hands back all the comments that were
   * there, in order.
   */
  lemma {:induction false} TakeTrailingCommentsSpec(e: Expr)
    requires RightEdgeHasSuffixes(e)
    ensures ExprTokens(TakeExpressionTrailingComments(e).0) == EditLast(ExprTokens(e), Replace([]))
    ensures LastTrailing(ExprTokens(TakeExpressionTrailingComments(e).0)) == []
    ensures Comments(TakeExpressionTrailingComments(e).1) == Comments(LastTrailing(ExprTokens(e)))
  {
    TrailingEditReachesLastToken(e, Replace([]));
    ExprTrailingTriviaIsLastToken(e);
    SpacedCommentsKeepsComments(ExprTrailingTrivia(e));
    ExprTokensNonEmpty(e);
  }

  /** `take_expression_leading_comments`: the expression without leading trivia, and its leading comments. */
  function TakeExpressionLeadingComments(e: Expr): (r: (Expr, seq<Token>))
    ensures r.1 == Comments(ExprLeadingTrivia(e))
  {
    (UpdateLeadingExpr(e, Replace([])), Comments(ExprLeadingTrivia(e)))
  }

  lemma {:induction false} TakeLeadingCommentsSpec(e: Expr)
    ensures ExprTokens(TakeExpressionLeadingComments(e).0) == EditFirst(ExprTokens(e), Replace([]))
    ensures FirstLeading(ExprTokens(TakeExpressionLeadingComments(e).0)) == []
    ensures TakeExpressionLeadingComments(e).1 == Comments(FirstLeading(ExprTokens(e)))
  {
    LeadingEditReachesFirstToken(e, Replace([]));
    ExprLeadingTriviaIsFirstToken(e);
    ExprTokensNonEmpty(e);
  }

  /**
   * `get_last_stmt_trailing_trivia`: the last statement with the trivia
   * after its last token cleared, and that trivia.
   */
  function GetLastStmtTrailingTrivia(l: LastStmt): (r: (LastStmt, seq<Token>))
    ensures l.Return? && l.returnValues == [] ==>
      r.1 == l.returnToken.trailing && r.0 == Return(l.returnToken.(trailing := []), [])
  {
    match l
    case Return(t, rs) =>
      if rs == [] then (Return(UpdateTrailingToken(t, Replace([])), rs), t.trailing)
      else (Return(t, UpdateTrailingExprList(rs, Replace([]))), ExprTrailingTrivia(rs[|rs| - 1].value))
    case Break(t) => (Break(UpdateTrailingToken(t, Replace([]))), t.trailing)
    case Continue(t) => (Continue(UpdateTrailingToken(t, Replace([]))), t.trailing)
  }

  /** Clearing the trivia after the last token and appending it again is the identity. */
  lemma {:induction false} RestoreLast(ts: seq<TokenRef>)
    ensures EditLast(EditLast(ts, Replace([])), Append(LastTrailing(ts))) == ts
  {
    if ts != [] {
      var n := |ts|;
      var t := ts[n - 1];
      var cleared := UpdateTrailingToken(t, Replace([]));
      assert EditLast(ts, Replace([])) == ts[..n - 1] + [cleared];
      assert (ts[..n - 1] + [cleared])[..n - 1] == ts[..n - 1];
      assert UpdateTrailingToken(cleared, Append(t.trailing)) == t by {
        assert [] + t.trailing == t.trailing;
      }
      assert ts == ts[..n - 1] + [t];
    }
  }

  /**
   * The returned trivia is what followed the statement's last token, that
   * token loses it, and appending it back restores the statement's tokens.
   */
  lemma {:induction false} LastStmtTrailingTriviaRoundTrip(l: LastStmt)
    requires l.Return? && l.returnValues != [] ==> EndsInBareValue(l.returnValues)
    ensures LastStmtTokens(GetLastStmtTrailingTrivia(l).0) == EditLast(LastStmtTokens(l), Replace([]))
    ensures GetLastStmtTrailingTrivia(l).1 == LastTrailing(LastStmtTokens(l))
    ensures EditLast(LastStmtTokens(GetLastStmtTrailingTrivia(l).0), Append(GetLastStmtTrailingTrivia(l).1)) == LastStmtTokens(l)
  {
    RestoreLast(LastStmtTokens(l));
    match l
    case Return(t, rs) =>
      ReturnEdit(t, rs, NoChange, Replace([]));
      NoChangeIsIdentity(LastStmtTokens(l));
      if rs != [] {
        assert rs == rs[..|rs| - 1] + [rs[|rs| - 1]];
        ReturnTrailingTrivia(t, rs[..|rs| - 1], rs[|rs| - 1]);
      }
    case Break(_) =>
    case Continue(_) =>
  }

  /** With values, the trivia after `return ...` is the trivia after its last value. */
  lemma {:induction false} ReturnTrailingTrivia(t: TokenRef, init: seq<Pair<Expr>>, p: Pair<Expr>)
    requires p.punctuation.None? && RightEdgeHasSuffixes(p.value)
    ensures ExprTrailingTrivia(p.value) == LastTrailing([t] + ExprListTokens(init + [p]))
  {
    ExprListTokensSnoc(init, p);
    ExprTokensNonEmpty(p.value);
    LastTrailingAppend([t] + ExprListTokens(init), ExprTokens(p.value));
    ExprTrailingTriviaIsLastToken(p.value);
  }

  // ---------------------------------------------------------------------
  // Shape queries
  // ---------------------------------------------------------------------

  /**
   * `can_hang_expression`: a binary operator, possibly under parentheses,
   * unary operators or a parenthesised call or index prefix.
   */
  function CanHangExpression(e: Expr): bool
    decreases e
  {
    match e
    case Parentheses(_, x) => CanHangExpression(x)
    case UnaryOperator(_, x) => CanHangExpression(x)
    case BinaryOperator(_, _, _) => true
    case CallExpr(FunctionCall(ExprPrefix(x), _)) => CanHangExpression(x)
    case VarExpr(IndexedVar(ExprPrefix(x), _)) => CanHangExpression(x)
    case TypeAssertion(x, _, _) => CanHangExpression(x)
    case _ => false
  }

  /** Editing an expression's leading trivia never changes whether it can hang. */
  lemma {:induction false} CanHangIgnoresLeadingTrivia(e: Expr, edit: FormatTriviaType)
    ensures CanHangExpression(UpdateLeadingExpr(e, edit)) == CanHangExpression(e)
    decreases e
  {
    match e
    case Parentheses(_, x) =>
    case UnaryOperator(_, x) =>
    case CallExpr(c) =>
      var c' := UpdateCall(c, edit, NoChange);
      if edit.NoChange? {
        assert c'.prefix == c.prefix;
      } else if c.prefix.ExprPrefix? {
        CanHangIgnoresLeadingTrivia(c.prefix.expr, edit);
        assert c'.prefix == UpdateLeadingPrefix(c.prefix, edit);
        assert c'.prefix == ExprPrefix(UpdateLeadingExpr(c.prefix.expr, edit));
      } else {
        assert c'.prefix == UpdateLeadingPrefix(c.prefix, edit);
        assert c'.prefix.NamePrefix?;
      }
    case VarExpr(v) =>
      if v.IndexedVar? && !edit.NoChange? {
        var v' := UpdateLeadingVar(v, edit);
        if v.varPrefix.ExprPrefix? {
          CanHangIgnoresLeadingTrivia(v.varPrefix.expr, edit);
          assert v'.varPrefix == UpdateLeadingPrefix(v.varPrefix, edit);
          assert v'.varPrefix == ExprPrefix(UpdateLeadingExpr(v.varPrefix.expr, edit));
        } else {
          assert v'.varPrefix == UpdateLeadingPrefix(v.varPrefix, edit);
          assert v'.varPrefix.NamePrefix?;
        }
      }
    case TypeAssertion(x, _, _) => CanHangIgnoresLeadingTrivia(x, edit);
    case _ =>
  }

  /** Editing an expression's trailing trivia never changes whether it can hang. */
  lemma {:induction false} CanHangIgnoresTrailingTrivia(e: Expr, edit: FormatTriviaType)
    ensures CanHangExpression(UpdateTrailingExpr(e, edit)) == CanHangExpression(e)
    decreases e
  {
    match e
    case Parentheses(_, x) =>
    case UnaryOperator(_, x) => CanHangIgnoresTrailingTrivia(x, edit);
    case CallExpr(c) =>
      assert UpdateCall(c, NoChange, edit).prefix == c.prefix;
    case _ =>
  }

  /** `is_block_empty`. */
  predicate IsBlockEmpty(b: Block) {
    b.stmts == [] && b.lastStmt.None?
  }

  /** `is_function_empty`: an empty block and no comment after `)` or before `end`. */
  predicate IsFunctionEmpty(b: FunctionBody) {
    IsBlockEmpty(b.block) && !HasComment(b.parameterParens.end.trailing) && !HasComment(b.endToken.leading)
  }

  lemma {:induction false} StmtTokensNonEmpty(s: Stmt)
    ensures StmtTokens(s) != []
  {
    if s.CallStmt? {
      PrefixTokensNonEmpty(s.stmtCall.prefix);
    }
  }

  /** A block is empty exactly when it has no tokens. */
  lemma {:induction false} BlockEmptyIffNoTokens(b: Block)
    ensures IsBlockEmpty(b) <==> BlockTokens(b) == []
  {
    if b.stmts != [] {
      StmtTokensNonEmpty(b.stmts[0].stmt);
    }
  }

  /**
   * A function body is empty exactly when its block has no tokens and no
   * comment sits between its `)` and its `end`.
   */
  lemma {:induction false} FunctionEmptyIffNothingInside(b: FunctionBody)
    ensures IsFunctionEmpty(b) <==>
      BlockTokens(b.block) == [] && Comments(b.parameterParens.end.trailing + b.endToken.leading) == []
  {
    BlockEmptyIffNoTokens(b.block);
    CommentsAppend(b.parameterParens.end.trailing, b.endToken.leading);
  }

  /**
   * `expression_contains_inline_comments`: comments inside a binary
   * operator chain, not counting those after the whole expression.
   */
  function ExpressionContainsInlineComments(e: Expr): bool
    decreases e
  {
    match e
    case BinaryOperator(l, op, r) =>
      TokenContainsComments(op.binToken) || ContainsComments(ExprTokens(l)) ||
      (match r
       case BinaryOperator(_, _, _) => ExpressionContainsInlineComments(r)
       case UnaryOperator(u, x) => TokenContainsComments(u.unToken) || ExpressionContainsInlineComments(x)
       case Parentheses(_, _) => ContainsComments(ExprTokens(r))
       case _ => false)
    case _ => false
  }

  /** Inline comments are comments of the expression. */
  lemma {:induction false} InlineCommentsAreComments(e: Expr)
    ensures ExpressionContainsInlineComments(e) ==> ContainsComments(ExprTokens(e))
    decreases e
  {
    match e
    case BinaryOperator(l, op, r) =>
      ContainsCommentsAppend(ExprTokens(l), [op.binToken]);
      ContainsCommentsAppend(ExprTokens(l) + [op.binToken], ExprTokens(r));
      assert TokenContainsComments(op.binToken) ==> ContainsComments([op.binToken]) by {
        assert [op.binToken][0] == op.binToken;
      }
      match r {
        case BinaryOperator(_, _, _) => InlineCommentsAreComments(r);
        case UnaryOperator(u, x) =>
          InlineCommentsAreComments(x);
          ContainsCommentsAppend([u.unToken], ExprTokens(x));
          assert TokenContainsComments(u.unToken) ==> ContainsComments([u.unToken]) by {
            assert [u.unToken][0] == u.unToken;
          }
        case _ =>
      }
    case _ =>
  }
}
