/**
 * Statement-level decisions of src/formatters/stmt.rs: removing the
 * parentheses around a condition, hugging a generic `for` over a single
 * table call, spelling its `in` token, indenting comments before `elseif`
 * and `else`, recognising an if guard, and which statements are formatted
 * at all.
 */
module Statements {
  import opened Wrappers
  import opened Text
  import opened Syntax
  import opened Trivia
  import opened TriviaUtil
  import opened FormatContext
  import Layout
  import General

  // ---------------------------------------------------------------------
  // Conditions
  // ---------------------------------------------------------------------

  /**
   * `remove_condition_parentheses`: one outer pair of parentheses is dropped
   * and the comments after `)`, each after a space, follow the inner
   * expression; anything else is returned as it is.
   */
  function RemoveConditionParentheses(e: Expr): (r: Expr)
    ensures !e.Parentheses? ==> r == e
    ensures e.Parentheses? ==> r == UpdateTrailingExpr(e.inner, Append(SpacedComments(e.contained.end.trailing)))
  {
    match e
    case Parentheses(_, inner) =>
      var (_, comments) := TakeExpressionTrailingComments(e);
      UpdateTrailingExpr(inner, Append(comments))
    case _ => e
  }

  /**
   * Exactly one layer goes: the result is parenthesised iff the inner
   * expression was, the tokens are the inner ones with the closing
   * parenthesis' comments appended to the last, and no comment is lost.
   */
  lemma {:induction false} RemoveConditionParenthesesSpec(c: Span, inner: Expr)
    requires RightEdgeHasSuffixes(inner)
    ensures var r := RemoveConditionParentheses(Parentheses(c, inner));
      && (r.Parentheses? <==> inner.Parentheses?)
      && ExprTokens(r) == EditLast(ExprTokens(inner), Append(SpacedComments(c.end.trailing)))
      && Comments(LastTrailing(ExprTokens(r))) == Comments(LastTrailing(ExprTokens(inner))) + Comments(c.end.trailing)
  {
    var comments := SpacedComments(c.end.trailing);
    var r := RemoveConditionParentheses(Parentheses(c, inner));
    TrailingEditReachesLastToken(inner, Append(comments));
    ExprTokensNonEmpty(inner);
    assert LastTrailing(ExprTokens(r)) == LastTrailing(ExprTokens(inner)) + comments;
    CommentsAppend(LastTrailing(ExprTokens(inner)), comments);
    SpacedCommentsKeepsComments(c.end.trailing);
  }

  // ---------------------------------------------------------------------
  // Generic for
  // ---------------------------------------------------------------------

  /** The argument forms that hug: a table constructor, alone. */
  predicate SingleTableArgument(a: FunctionArgs) {
    a.TableArg? || (a.ParenArgs? && |a.arguments| == 1 && a.arguments[0].value.TableExpr?)
  }

  /**
   * `hug_generic_for`: a single expression without leading or trailing
   * comments that is a call with exactly one suffix, an anonymous call whose
   * only argument is a table constructor.
   */
  function HugGenericFor(exprs: seq<Pair<Expr>>): (r: bool)
    ensures r <==>
      && |exprs| == 1
      && !HasComment(ExprLeadingTrivia(exprs[0].value))
      && !HasComment(ExprTrailingTrivia(exprs[0].value))
      && exprs[0].value.CallExpr?
      && |exprs[0].value.call.suffixes| == 1
      && exprs[0].value.call.suffixes[0].CallSuffix?
      && exprs[0].value.call.suffixes[0].callPart.AnonymousCall?
      && SingleTableArgument(exprs[0].value.call.suffixes[0].callPart.args)
  {
    if |exprs| != 1 then false
    else
      var e := exprs[0].value;
      if HasComment(ExprLeadingTrivia(e)) || HasComment(ExprTrailingTrivia(e)) then false
      else match e
        case CallExpr(FunctionCall(_, suffixes)) =>
          if |suffixes| != 1 then false
          else (match suffixes[0]
                case CallSuffix(AnonymousCall(args)) => SingleTableArgument(args)
                case _ => false)
        case _ => false
  }

  /**
   * Whether the expression list of a generic `for` goes multiline: a comment
   * after `in` or in the list, a list that spans lines or goes over budget,
   * unless it hugs.
   */
  function RequiresExprMultiline(inToken: TokenRef, exprs: seq<Pair<Expr>>, spansLines: bool, overBudget: bool): (r: bool)
    ensures HugGenericFor(exprs) ==> !r
    ensures !HugGenericFor(exprs) && ContainsComments(ExprListTokens(exprs)) ==> r
    ensures !HugGenericFor(exprs) && (spansLines || overBudget) ==> r
    ensures !HugGenericFor(exprs) && HasComment(inToken.trailing) ==> r
    ensures r ==> HasComment(inToken.trailing) || ContainsComments(ExprListTokens(exprs)) || spansLines || overBudget
  {
    (HasComment(inToken.trailing) || ContainsComments(ExprListTokens(exprs)) || spansLines || overBudget)
    && !HugGenericFor(exprs)
  }

  /** The `in` token `TokenReference::symbol` builds for each layout. */
  function InTokenWanted(namesMultiline: bool, exprsMultiline: bool): (r: TokenRef)
    ensures r.token == Symbol("in")
  {
    TokenRef(if namesMultiline then [] else [Space], Symbol("in"), if exprsMultiline then [] else [Space])
  }

  /**
   * The four spellings of `in`: a space before it unless the names went
   * multiline, and a space after it unless the expressions did.
   */
  lemma {:induction false} InTokenSpellings()
    ensures TokenRefText(InTokenWanted(true, true)) == "in"
    ensures TokenRefText(InTokenWanted(true, false)) == "in "
    ensures TokenRefText(InTokenWanted(false, true)) == " in"
    ensures TokenRefText(InTokenWanted(false, false)) == " in "
  {
    assert TriviaText([Space]) == " " by {
      assert [Space][1..] == [];
    }
  }

  /**
   * The formatted `in` token: multiline names put it on a new line at the
   * shape's indentation. Comments around the original token are kept, and a
   * token without trivia becomes exactly the chosen spelling.
   */
  function FormatInToken(ctx: Context, inToken: TokenRef, shape: Layout.Shape,
                         namesMultiline: bool, exprsMultiline: bool): (r: TokenRef)
    ensures r.token == Symbol("in")
    ensures Comments(r.leading) == General.FormatComments(ctx, Comments(inToken.leading))
    ensures Comments(r.trailing) == General.FormatComments(ctx, Comments(inToken.trailing))
    ensures inToken.leading == [] && inToken.trailing == [] ==>
      && r.leading == (if namesMultiline then [CreateNewlineTrivia(ctx), CreateIndentTrivia(ctx, shape)] else [Space])
      && r.trailing == (if exprsMultiline then [] else [Space])
  {
    var wanted := InTokenWanted(namesMultiline, exprsMultiline);
    General.FormatSymbolKeepsComments(ctx, inToken, wanted, shape);
    var symbol := General.FormatSymbol(ctx, inToken, wanted, shape);
    if namesMultiline then BreakBefore(ctx, symbol, shape) else symbol
  }

  /** A line break and the shape's indentation added to a token's leading trivia, which keeps its comments. */
  function BreakBefore(ctx: Context, t: TokenRef, shape: Layout.Shape): (r: TokenRef)
    ensures r.token == t.token && r.trailing == t.trailing
    ensures r.leading == t.leading + [CreateNewlineTrivia(ctx), CreateIndentTrivia(ctx, shape)]
    ensures Comments(r.leading) == Comments(t.leading)
  {
    var extra := [CreateNewlineTrivia(ctx), CreateIndentTrivia(ctx, shape)];
    assert Comments(extra) == [] by {
      assert extra[1..][1..] == [];
    }
    CommentsAppend(t.leading, extra);
    assert t.leading + [] == t.leading;
    UpdateLeadingToken(t, Append(extra))
  }

  // ---------------------------------------------------------------------
  // Comments before elseif / else
  // ---------------------------------------------------------------------

  predicate IsLineBreak(c: char) { c == '\n' || c == '\r' }

  /** The characters after the last line break (all of them when there is none). */
  function LastLine(s: string): (r: string)
    ensures |r| <= |s|
    ensures forall i :: 0 <= i < |r| ==> !IsLineBreak(r[i])
  {
    if s == [] then []
    else if IsLineBreak(s[|s| - 1]) then []
    else LastLine(s[..|s| - 1]) + [s[|s| - 1]]
  }

  /** The last line is the longest suffix without a line break. */
  lemma {:induction false} LastLineIsLongestSuffix(s: string)
    ensures var r := LastLine(s);
      && r == s[|s| - |r|..]
      && (|r| < |s| ==> IsLineBreak(s[|s| - |r| - 1]))
    decreases |s|
  {
    if s != [] && !IsLineBreak(s[|s| - 1]) {
      var front := s[..|s| - 1];
      LastLineIsLongestSuffix(front);
      var rest := LastLine(front);
      assert front[|front| - |rest|..] + [s[|s| - 1]] == s[|s| - |rest| - 1..];
    }
  }

  /**
   * The level a comment was indented at, from the whitespace before it: the
   * tabs of its last line if it has any, otherwise its spaces divided by the
   * indent width. That division panics on a zero width, which is `None` here.
   */
  function IndentLevelOf(whitespace: string, indentWidth: nat): (r: Option<nat>)
    ensures r.None? <==> indentWidth == 0 && Count(LastLine(whitespace), '\t') == 0
    ensures r.Some? && Count(LastLine(whitespace), '\t') == 0 ==>
      LevelOfSpaces(r.value, Count(LastLine(whitespace), ' '), indentWidth)
  {
    var last := LastLine(whitespace);
    var tabs := Count(last, '\t');
    if tabs > 0 then Some(tabs)
    else if indentWidth == 0 then None
    else
      var spaces := Count(last, ' ');
      DivisionBounds(spaces, indentWidth);
      Some(spaces / indentWidth)
  }

  /** `level` whole indents of `width` fit in `spaces`, and one more does not. */
  predicate LevelOfSpaces(level: nat, spaces: nat, width: nat) {
    level * width <= spaces < (level + 1) * width
  }

  /** Euclidean division by a positive width gives the level of those spaces. */
  lemma {:induction false} DivisionBounds(a: nat, w: nat)
    requires w > 0
    ensures LevelOfSpaces(a / w, a, w)
  {
    var q := a / w;
    assert a == q * w + a % w;
    assert (q + 1) * w == q * w + w;
  }

  /** Whitespace ending in a line break puts the comment at level 0. */
  lemma {:induction false} LineBreakResetsLevel(whitespace: string, indentWidth: nat)
    requires indentWidth > 0
    requires whitespace != [] && IsLineBreak(whitespace[|whitespace| - 1])
    ensures IndentLevelOf(whitespace, indentWidth) == Some(0)
  {
  }

  /** Only the last line counts: what comes before a line break is forgotten. */
  lemma {:induction false} LastLineAfterBreak(before: string, after: string)
    requires forall i :: 0 <= i < |after| ==> !IsLineBreak(after[i])
    ensures LastLine(before + "\n" + after) == after
    decreases |after|
  {
    var s := before + "\n" + after;
    if after == [] {
      assert s[|s| - 1] == '\n';
    } else {
      assert s[..|s| - 1] == before + "\n" + after[..|after| - 1];
      LastLineAfterBreak(before, after[..|after| - 1]);
      assert after[..|after| - 1] + [after[|after| - 1]] == after;
    }
  }

  /** Whitespace at `k` directly before a comment. */
  predicate BeforeComment(trivia: seq<Token>, k: int) {
    0 <= k < |trivia| - 1 && trivia[k].Whitespace? && TriviaIsComment(trivia[k + 1])
  }

  /** Whitespace at `k` is followed by a comment indented deeper than the shape's level. */
  predicate FurtherAt(trivia: seq<Token>, k: int, shape: Layout.Shape) {
    && BeforeComment(trivia, k)
    && var level := IndentLevelOf(trivia[k].characters, shape.indent.indentWidth);
       level.Some? && level.value > shape.indent.blockIndent + shape.indent.additionalIndent
  }

  /** Measuring the whitespace at `k` divides by a zero indent width. */
  predicate PanicsAt(trivia: seq<Token>, k: int, shape: Layout.Shape) {
    BeforeComment(trivia, k) && IndentLevelOf(trivia[k].characters, shape.indent.indentWidth).None?
  }

  /** What `should_indent_further` decides when it returns. */
  predicate IndentsFurther(trivia: seq<Token>, shape: Layout.Shape) {
    exists k :: 0 <= k < |trivia| - 1 && FurtherAt(trivia, k, shape)
  }

  /** The scan reaches a division by zero at `k` before finding a deeper comment. */
  predicate PanicsFirst(trivia: seq<Token>, k: int, shape: Layout.Shape) {
    PanicsAt(trivia, k, shape) && forall j :: 0 <= j < k ==> !FurtherAt(trivia, j, shape)
  }

  /**
   * `should_indent_further`: scans the trivia for whitespace directly before
   * a comment whose last line is indented beyond the current level. `None`
   * is the panic of a division by a zero indent width, which happens only
   * for a comment indented with spaces reached before any deeper comment.
   */
  method ShouldIndentFurther(trivia: seq<Token>, shape: Layout.Shape) returns (r: Option<bool>)
    ensures r.None? <==> exists k :: 0 <= k < |trivia| - 1 && PanicsFirst(trivia, k, shape)
    ensures r.Some? ==> r.value == IndentsFurther(trivia, shape)
    ensures shape.indent.indentWidth > 0 ==> r.Some?
  {
    var current := shape.indent.blockIndent + shape.indent.additionalIndent;
    var i := 0;
    while i < |trivia|
      invariant 0 <= i <= |trivia|
      invariant forall k :: 0 <= k < i ==> !FurtherAt(trivia, k, shape) && !PanicsAt(trivia, k, shape)
    {
      if i + 1 < |trivia| && trivia[i].Whitespace? && TriviaIsComment(trivia[i + 1]) {
        var level := IndentLevelOf(trivia[i].characters, shape.indent.indentWidth);
        if level.None? {
          assert PanicsFirst(trivia, i, shape);
          return None;
        }
        if level.value > current {
          assert FurtherAt(trivia, i, shape);
          assert forall k :: 0 <= k < |trivia| - 1 ==> !PanicsFirst(trivia, k, shape) by {
            forall k | 0 <= k < |trivia| - 1 && k > i
              ensures !PanicsFirst(trivia, k, shape)
            {
              assert FurtherAt(trivia, i, shape);
            }
          }
          return Some(true);
        }
      }
      i := i + 1;
    }
    return Some(false);
  }

  /** Without any comment in the trivia nothing is indented further, and nothing divides. */
  lemma {:induction false} NoCommentNoFurtherIndent(trivia: seq<Token>, shape: Layout.Shape)
    requires !HasComment(trivia)
    ensures !IndentsFurther(trivia, shape)
    ensures forall k :: !PanicsAt(trivia, k, shape)
  {
    forall k | 0 <= k < |trivia| - 1
      ensures !BeforeComment(trivia, k)
    {
      assert trivia[k + 1] in trivia;
    }
  }

  // ---------------------------------------------------------------------
  // If guards
  // ---------------------------------------------------------------------

  /**
   * `is_if_guard`: no `elseif`, no `else`, a simple block, and no comment in
   * the block or on `then`. Whether the block is simple is decided by
   * `is_block_simple`, which is given.
   */
  predicate IsIfGuard(s: Stmt, blockSimple: bool)
    requires s.If?
  {
    && s.elseIfs == []
    && s.elseBlock.None?
    && blockSimple
    && !ContainsComments(BlockTokens(s.thenBlock))
    && !TokenContainsComments(s.thenToken)
  }

  /**
   * An if guard has comments only where the statement's header or `end`
   * carries them: its tokens are `if`, the condition, `then`, the block and
   * `end`, and the middle ones are comment-free.
   */
  lemma {:induction false} IfGuardComments(s: Stmt, blockSimple: bool)
    requires s.If? && s.elseToken.None?
    requires IsIfGuard(s, blockSimple)
    ensures ContainsComments(StmtTokens(s)) <==>
      ContainsComments([s.ifToken] + ExprTokens(s.condition)) || TokenContainsComments(s.ifEnd)
  {
    var head := [s.ifToken] + ExprTokens(s.condition);
    assert ElseIfsTokens(s.elseIfs) == [];
    assert StmtTokens(s) == head + [s.thenToken] + BlockTokens(s.thenBlock) + [s.ifEnd];
    ContainsCommentsAppend(head, [s.thenToken]);
    ContainsCommentsAppend(head + [s.thenToken], BlockTokens(s.thenBlock));
    ContainsCommentsAppend(head + [s.thenToken] + BlockTokens(s.thenBlock), [s.ifEnd]);
    SingleTokenComments(s.thenToken);
    SingleTokenComments(s.ifEnd);
  }

  lemma {:induction false} SingleTokenComments(t: TokenRef)
    ensures ContainsComments([t]) <==> TokenContainsComments(t)
  {
    assert [t][0] == t;
  }

  // ---------------------------------------------------------------------
  // Which statements are formatted
  // ---------------------------------------------------------------------

  /** What `should_format_node` sees of a statement: its leading trivia and position. */
  function StmtNode(s: Stmt, start: Option<nat>, end: Option<nat>): (r: NodeInfo)
    ensures r.leading == FirstLeading(StmtTokens(s))
  {
    NodeInfo(FirstLeading(StmtTokens(s)), start, end)
  }

  /**
   * `format_stmt`: a skipped statement is returned as it is, one outside the
   * range only has its blocks formatted, and any other is formatted in full.
   * The two formatters are given.
   */
  function FormatStmt(ctx: Context, s: Stmt, node: NodeInfo,
                      formatBlocksOnly: Stmt -> Stmt, formatFull: Stmt -> Stmt): (r: Stmt)
    ensures FormatNodeOf(ctx, node) == Skip ==> r == s
    ensures FormatNodeOf(ctx, node) == NotInRange ==> r == formatBlocksOnly(s)
    ensures FormatNodeOf(ctx, node) == Normal ==> r == formatFull(s)
  {
    match FormatNodeOf(ctx, node)
    case Skip => s
    case NotInRange => formatBlocksOnly(s)
    case Normal => formatFull(s)
  }

  /**
   * A statement behind `-- stylua: ignore`, or any statement while
   * formatting is switched off, comes out unchanged.
   */
  lemma {:induction false} IgnoredStatementUnchanged(ctx: Context, s: Stmt, start: Option<nat>, end: Option<nat>,
                                  before: seq<Token>, c: string, after: seq<Token>,
                                  formatBlocksOnly: Stmt -> Stmt, formatFull: Stmt -> Stmt)
    requires ctx.formattingDisabled
          || (FirstLeading(StmtTokens(s)) == before + [SingleLineComment(c)] + after && IgnoreNode in TrimEach(Lines(c)))
    ensures FormatStmt(ctx, s, StmtNode(s, start, end), formatBlocksOnly, formatFull) == s
  {
    FormatNodeOutcomes(ctx, StmtNode(s, start, end), before, c, after);
  }

  /** The formatter `format_stmt_no_trivia` hands a statement to. */
  datatype NoTriviaFormatter = LocalAssignmentNoTrivia | AssignmentNoTrivia | FunctionCallNoTrivia

  /**
   * `format_stmt_no_trivia`: only for a statement that is formatted normally,
   * and only for assignments and calls; the source panics otherwise.
   */
  function NoTriviaFormatterFor(ctx: Context, s: Stmt, node: NodeInfo): (r: NoTriviaFormatter)
    requires FormatNodeOf(ctx, node) == Normal
    requires s.LocalAssignment? || s.Assignment? || s.CallStmt?
    ensures r == LocalAssignmentNoTrivia <==> s.LocalAssignment?
    ensures r == AssignmentNoTrivia <==> s.Assignment?
    ensures r == FunctionCallNoTrivia <==> s.CallStmt?
  {
    match s
    case LocalAssignment(_, _, _, _, _) => LocalAssignmentNoTrivia
    case Assignment(_, _, _) => AssignmentNoTrivia
    case CallStmt(_) => FunctionCallNoTrivia
  }
}
