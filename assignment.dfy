/**
 * Assignments and local assignments (formatters/assignment.rs). The
 * statement is first laid out on one line at an unbounded width; when the
 * values hold a comment or that line is too wide, a tactic is chosen: hang
 * the values at their operators, move them after the `=` sign, put them
 * one per line, or keep them and move only an over-wide single value
 * after the `=`. Hanging records the values' byte range in the
 * formatter's indent ranges, so that what is nested in them is indented
 * one level more.
 */
module Assignments {
  import opened Wrappers
  import opened Syntax
  import opened Trivia
  import opened TriviaUtil
  import opened FormatContext
  import opened General
  import Layout
  import Expressions
  import Blocks
  import CF = CodeFormatting

  // ---------------------------------------------------------------------
  // What the layout delegates to
  // ---------------------------------------------------------------------

  /**
   * The formatters the layout calls but that are not part of it:
   * `format_var`, `format_expression` and `hang_expression` (which see
   * the formatter's indent ranges), `format_type_specifier`, and the
   * shape's `with_additional_indent` taking an optional level.
   */
  datatype AssignmentFormatters = AssignmentFormatters(
    formatVar: (Context, set<CF.IndentRange>, Var, Layout.Shape) -> Var,
    formatExpression: (Context, set<CF.IndentRange>, Expr, Layout.Shape) -> Expr,
    hangExpression: (Context, set<CF.IndentRange>, Expr, Layout.Shape, Option<nat>) -> Expr,
    formatTypeSpecifier: (Context, TypeSpecifier) -> TypeSpecifier,
    withAdditionalIndent: (Layout.Shape, Option<nat>) -> Layout.Shape)

  function VarFormatter(f: AssignmentFormatters, ranges: set<CF.IndentRange>): (Context, Var, Layout.Shape) -> Var {
    (c: Context, v: Var, sh: Layout.Shape) => f.formatVar(c, ranges, v, sh)
  }

  function ExprFormatter(f: AssignmentFormatters, ranges: set<CF.IndentRange>): (Context, Expr, Layout.Shape) -> Expr {
    (c: Context, e: Expr, sh: Layout.Shape) => f.formatExpression(c, ranges, e, sh)
  }

  /** The printed text of a value, as `format_punctuated` measures it. */
  function VarText(v: Var): string { Render(VarTokens(v)) }

  function ExprText(e: Expr): string { Render(ExprTokens(e)) }

  /** The tokens of a list of names: each name, then its separator. */
  function NameListTokens(ns: seq<Pair<TokenRef>>): seq<TokenRef> { LocalNamesTokens(ns, []) }

  /** `strip_leading_trivia(x).to_string()`. */
  function LeadingStrippedText(ts: seq<TokenRef>): string { Render(EditFirst(ts, Replace([]))) }

  /** `strip_trailing_trivia(x).to_string()`. */
  function TrailingStrippedText(ts: seq<TokenRef>): string { Render(EditLast(ts, Replace([]))) }

  const EqualsSpaced: TokenRef := TokenRef([Space], Symbol("="), [Space])
  const LocalWord: TokenRef := TokenRef([], Symbol("local"), [Space])

  // ---------------------------------------------------------------------
  // Hanging at the equals sign
  // ---------------------------------------------------------------------

  /** Trivia with its leading whitespace skipped (`skip_while(Whitespace)`). */
  function DropLeadingWhitespace(ts: seq<Token>): (r: seq<Token>)
    ensures |r| <= |ts| && r == ts[|ts| - |r|..]
    ensures forall j :: 0 <= j < |ts| - |r| ==> TriviaIsWhitespace(ts[j])
    ensures r != [] ==> !TriviaIsWhitespace(r[0])
  {
    if ts != [] && TriviaIsWhitespace(ts[0]) then DropLeadingWhitespace(ts[1..]) else ts
  }

  /** Skipping whitespace keeps every comment, in order. */
  lemma {:induction false} DropLeadingWhitespaceKeepsComments(ts: seq<Token>)
    ensures Comments(DropLeadingWhitespace(ts)) == Comments(ts)
  {
    if ts != [] && TriviaIsWhitespace(ts[0]) {
      DropLeadingWhitespaceKeepsComments(ts[1..]);
      CommentsAppend([ts[0]], ts[1..]);
      CommentsOfOne(ts[0]);
      assert ts == [ts[0]] + ts[1..];
    }
  }

  /**
   * `hang_equal_token`: the `=` keeps its token and leading trivia; after
   * it come a line break and the indent one level past the additional
   * level, then its old trailing trivia without the whitespace in front.
   */
  function HangEqualToken(fmt: CF.CodeFormatter, equal: TokenRef, additional: Option<nat>): (r: TokenRef)
    reads fmt`indentLevel
    requires fmt.indentLevel >= 1
    ensures r.leading == equal.leading && r.token == equal.token
    ensures |r.trailing| >= 2 && TriviaIsNewline(r.trailing[0])
    ensures r.trailing[1] == fmt.CreateIndentTrivia(Some(additional.UnwrapOr(0) + 1))
    ensures r.trailing[2..] == DropLeadingWhitespace(equal.trailing)
    ensures Comments(r.trailing) == Comments(equal.trailing)
  {
    var head := [CreateNewlineTrivia(fmt.AsContext()), fmt.CreateIndentTrivia(Some(additional.UnwrapOr(0) + 1))];
    var rest := DropLeadingWhitespace(equal.trailing);
    WhitespaceCarriesNoComments(head[0], head[1], rest);
    DropLeadingWhitespaceKeepsComments(equal.trailing);
    var trailing := head + rest;
    assert trailing[0] == head[0] && trailing[1] == head[1] && trailing[2..] == rest;
    var r := UpdateTrailingToken(equal, Replace(trailing));
    assert r.trailing == trailing && r.leading == equal.leading;
    r
  }

  /** Two pieces of whitespace in front of some trivia add no comment to it. */
  lemma {:induction false} WhitespaceCarriesNoComments(a: Token, b: Token, rest: seq<Token>)
    requires a.Whitespace? && b.Whitespace?
    ensures Comments([a, b] + rest) == Comments(rest)
  {
    assert [a, b] + rest == [a] + ([b] + rest);
    CommentsAppend([a], [b] + rest);
    CommentsAppend([b], rest);
    CommentsOfOne(a);
    CommentsOfOne(b);
  }

  /**
   * The values moved after `=` sit exactly one indent level deeper than
   * the statement's own indentation.
   */
  lemma {:induction false} HangedValuesOneLevelDeeper(fmt: CF.CodeFormatter, equal: TokenRef, additional: Option<nat>)
    requires fmt.indentLevel >= 1
    ensures fmt.config.indentType.Spaces? ==>
      |HangEqualToken(fmt, equal, additional).trailing[1].characters|
        == |fmt.CreateIndentTrivia(additional).characters| + fmt.config.indentWidth
    ensures fmt.config.indentType.Tabs? ==>
      |HangEqualToken(fmt, equal, additional).trailing[1].characters|
        == |fmt.CreateIndentTrivia(additional).characters| + 1
  {
    var n := fmt.indentLevel - 1 + additional.UnwrapOr(0);
    assert fmt.CreateIndentTrivia(Some(additional.UnwrapOr(0) + 1)) == CreatePlainIndentTrivia(fmt.AsContext(), n + 1);
    assert fmt.CreateIndentTrivia(additional) == CreatePlainIndentTrivia(fmt.AsContext(), n);
    if fmt.config.indentType.Spaces? {
      assert (n + 1) * fmt.config.indentWidth == n * fmt.config.indentWidth + fmt.config.indentWidth;
    }
  }

  // ---------------------------------------------------------------------
  // The tactics
  // ---------------------------------------------------------------------

  /** How the values of an assignment end up laid out. */
  datatype Tactic =
    | SingleLine          // the whole statement on one line
    | HangList            // a value that can hang is hung at its operators
    | HangAtEquals        // several values moved to the next line, after `=`
    | OnePerLine          // several values, one per line
    | KeepValue           // one value at the normal width
    | HangSingleAtEquals  // one over-wide value moved after `=`

  predicate HangsAtEquals(t: Tactic) { t.HangAtEquals? || t.HangSingleAtEquals? }

  predicate RecordsRange(t: Tactic) { t.HangList? || t.HangSingleAtEquals? }

  /**
   * The decision tree shared by `format_assignment` and
   * `format_local_assignment`. A single value is never put one per line,
   * several values are never left on the statement's line once it
   * overflows, and the values move after `=` only when they fit there or
   * when a single value overflows at the normal width.
   */
  function ChooseTactic(overflow: bool, anyHangable: bool, several: bool, hangingFits: bool, normalFits: bool): (r: Tactic)
    ensures r.SingleLine? <==> !overflow
    ensures r.HangList? <==> overflow && anyHangable
    ensures (r.HangAtEquals? || r.OnePerLine?) <==> overflow && !anyHangable && several
    ensures r.HangAtEquals? ==> hangingFits
    ensures r.OnePerLine? ==> !hangingFits
    ensures r.KeepValue? <==> overflow && !anyHangable && !several && normalFits
    ensures r.HangSingleAtEquals? <==> overflow && !anyHangable && !several && !normalFits
  {
    if !overflow then SingleLine
    else if anyHangable then HangList
    else if several then (if hangingFits then HangAtEquals else OnePerLine)
    else if normalFits then KeepValue
    else HangSingleAtEquals
  }

  /** A separator or a value of the list holds a comment (`contains_comments`). */
  predicate ValuesContainComments(es: seq<Pair<Expr>>) {
    exists i :: 0 <= i < |es| &&
      ((es[i].punctuation.Some? && TokenContainsComments(es[i].punctuation.value))
       || ExpressionContainsInlineComments(es[i].value))
  }

  /** Some value can hang at its operators. */
  predicate AnyHangable(es: seq<Pair<Expr>>) {
    exists i :: 0 <= i < |es| && CanHangExpression(es[i].value)
  }

  /** The shape of the line after `=`: at its start, one level past the additional indent. */
  function HangingShapeOf(f: AssignmentFormatters, shape: Layout.Shape, additional: Option<nat>): Layout.Shape {
    f.withAdditionalIndent(Layout.Reset(shape), Some(additional.UnwrapOr(0) + 1))
  }

  /** The values on the line after `=`, at an unbounded width. */
  function HangingList(ctx: Context, ranges: set<CF.IndentRange>, es: seq<Pair<Expr>>, shape: Layout.Shape,
                       additional: Option<nat>, f: AssignmentFormatters): seq<Pair<Expr>> {
    Punctuated(ctx, es, Layout.WithInfiniteWidth(HangingShapeOf(f, shape, additional)), ExprFormatter(f, ranges), ExprText)
  }

  predicate HangingFits(ctx: Context, ranges: set<CF.IndentRange>, es: seq<Pair<Expr>>, shape: Layout.Shape,
                        additional: Option<nat>, f: AssignmentFormatters) {
    var hanging := HangingShapeOf(f, shape, additional);
    !Layout.OverBudget(Layout.TakeFirstLine(hanging, Expressions.StrippedText(ExprListTokens(HangingList(ctx, ranges, es, shape, additional, f)))))
  }

  /** The values at the normal width. */
  function NormalList(ctx: Context, ranges: set<CF.IndentRange>, es: seq<Pair<Expr>>, shape: Layout.Shape,
                      f: AssignmentFormatters): seq<Pair<Expr>> {
    Punctuated(ctx, es, shape, ExprFormatter(f, ranges), ExprText)
  }

  predicate NormalFits(ctx: Context, ranges: set<CF.IndentRange>, es: seq<Pair<Expr>>, shape: Layout.Shape,
                       f: AssignmentFormatters) {
    !Layout.OverBudget(Layout.TakeFirstLine(shape, TrailingStrippedText(ExprListTokens(NormalList(ctx, ranges, es, shape, f)))))
  }

  function TacticFor(ctx: Context, ranges: set<CF.IndentRange>, es: seq<Pair<Expr>>, shape: Layout.Shape,
                     additional: Option<nat>, overflow: bool, f: AssignmentFormatters): Tactic {
    ChooseTactic(overflow, AnyHangable(es), |es| > 1, HangingFits(ctx, ranges, es, shape, additional, f),
                 NormalFits(ctx, ranges, es, shape, f))
  }

  // ---------------------------------------------------------------------
  // Hanging the value list
  // ---------------------------------------------------------------------

  /**
   * One value of `hang_punctuated_list`: hung at the current shape; the
   * shape moves to the end of the value's last line, then past `, `.
   */
  function HungPair(ctx: Context, ranges: set<CF.IndentRange>, p: Pair<Expr>, shape: Layout.Shape,
                    additional: Option<nat>, f: AssignmentFormatters): (r: (Pair<Expr>, Layout.Shape))
    ensures r.0.punctuation.Some? <==> p.punctuation.Some?
    ensures r.0.punctuation.Some? ==> r.0.punctuation.value.token == Symbol(",")
  {
    var value := f.hangExpression(ctx, ranges, p.value, shape, additional);
    var next := Layout.TakeLastLine(shape, Expressions.StrippedText(ExprTokens(value)));
    match p.punctuation
    case Some(q) => (Pair(value, Some(FormatSymbol(ctx, q, CommaSpace, next))), Layout.Plus(next, 2))
    case None => (Pair(value, None), Layout.Plus(next, 2))
  }

  /** `hang_punctuated_list` from a given shape on: every value hung, every separator `, `. */
  function HungList(ctx: Context, ranges: set<CF.IndentRange>, es: seq<Pair<Expr>>, shape: Layout.Shape,
                    additional: Option<nat>, f: AssignmentFormatters): (r: seq<Pair<Expr>>)
    ensures |r| == |es|
    decreases |es|
  {
    if es == [] then []
    else
      var step := HungPair(ctx, ranges, es[0], shape, additional, f);
      [step.0] + HungList(ctx, ranges, es[1..], step.1, additional, f)
  }

  /** The hung list keeps every separator, each turned into `, `, and adds none. */
  lemma {:induction false} HungListSeparators(ctx: Context, ranges: set<CF.IndentRange>, es: seq<Pair<Expr>>,
                                              shape: Layout.Shape, additional: Option<nat>, f: AssignmentFormatters,
                                              i: nat)
    requires i < |es|
    ensures var r := HungList(ctx, ranges, es, shape, additional, f);
      (r[i].punctuation.Some? <==> es[i].punctuation.Some?)
      && (r[i].punctuation.Some? ==> r[i].punctuation.value.token == Symbol(","))
    decreases i
  {
    var step := HungPair(ctx, ranges, es[0], shape, additional, f);
    var rest := HungList(ctx, ranges, es[1..], step.1, additional, f);
    assert HungList(ctx, ranges, es, shape, additional, f) == [step.0] + rest;
    if i > 0 {
      HungListSeparators(ctx, ranges, es[1..], step.1, additional, f, i - 1);
      assert es[1..][i - 1] == es[i];
    }
  }

  /**
   * `hang_punctuated_list`: the values' range is recorded first, so that
   * hanging sees it; the indent level does not change.
   */
  method HangPunctuatedList(fmt: CF.CodeFormatter, es: seq<Pair<Expr>>, shape: Layout.Shape,
                            additional: Option<nat>, exprRange: CF.IndentRange, f: AssignmentFormatters)
    returns (list: seq<Pair<Expr>>)
    modifies fmt
    ensures fmt.indentLevel == old(fmt.indentLevel)
    ensures fmt.indentRanges == old(fmt.indentRanges) + {exprRange}
    ensures list == HungList(fmt.AsContext(), fmt.indentRanges, es, shape, additional, f)
  {
    fmt.AddIndentRange(exprRange);
    list := HangValues(fmt.AsContext(), fmt.indentRanges, es, shape, additional, f);
  }

  /** The loop of `hang_punctuated_list`, with the indent ranges it sees. */
  method HangValues(ctx: Context, ranges: set<CF.IndentRange>, es: seq<Pair<Expr>>, shape: Layout.Shape,
                    additional: Option<nat>, f: AssignmentFormatters)
    returns (list: seq<Pair<Expr>>)
    ensures list == HungList(ctx, ranges, es, shape, additional, f)
  {
    list := [];
    var current := shape;
    for i := 0 to |es|
      invariant list + HungList(ctx, ranges, es[i..], current, additional, f) == HungList(ctx, ranges, es, shape, additional, f)
    {
      var step := HungPair(ctx, ranges, es[i], current, additional, f);
      ghost var tail := HungList(ctx, ranges, es[i + 1..], step.1, additional, f);
      assert HungList(ctx, ranges, es[i..], current, additional, f) == [step.0] + tail by {
        assert es[i..][0] == es[i] && es[i..][1..] == es[i + 1..];
      }
      Text.AppendAssoc(list, [step.0], tail);
      list := list + [step.0];
      current := step.1;
    }
    assert es[|es|..] == [];
  }

  // ---------------------------------------------------------------------
  // Laying out the values once the single line overflows
  // ---------------------------------------------------------------------

  /** The laid-out values, the `=` token and the indent ranges afterwards. */
  datatype Values = Values(list: seq<Pair<Expr>>, equal: TokenRef, ranges: set<CF.IndentRange>)

  /**
   * The tactic branches of `format_assignment`: the list keeps its length,
   * the `=` moves only when the tactic hangs there, and the values' range
   * is recorded exactly when the tactic hangs the list or a single value.
   */
  function ValuesLayout(fmt: CF.CodeFormatter, ranges: set<CF.IndentRange>, es: seq<Pair<Expr>>, equal: TokenRef,
                        shape: Layout.Shape, additional: Option<nat>, exprRange: CF.IndentRange,
                        f: AssignmentFormatters): (r: Values)
    reads fmt`indentLevel
    requires fmt.indentLevel >= 1
    ensures |r.list| == |es|
    ensures r.equal.token == equal.token
    ensures r.ranges == ranges || r.ranges == ranges + {exprRange}
  {
    var ctx := fmt.AsContext();
    if AnyHangable(es) then
      Values(HungList(ctx, ranges + {exprRange}, es, shape, additional, f), equal, ranges + {exprRange})
    else if |es| > 1 then
      if HangingFits(ctx, ranges, es, shape, additional, f) then
        Values(HangingList(ctx, ranges, es, shape, additional, f), HangEqualToken(fmt, equal, additional), ranges)
      else
        Values(PunctuatedMultiline(ctx, es, shape, ExprFormatter(f, ranges), Some(1)), equal, ranges)
    else if NormalFits(ctx, ranges, es, shape, f) then
      Values(NormalList(ctx, ranges, es, shape, f), equal, ranges)
    else
      Values(NormalList(ctx, ranges + {exprRange}, es, shape, f), HangEqualToken(fmt, equal, additional), ranges + {exprRange})
  }

  /**
   * The tactic decides the layout: the `=` moves exactly when the tactic
   * hangs there, and the values' range is recorded exactly when it hangs
   * the list or a single value.
   */
  lemma {:induction false} ValuesLayoutFollowsTactic(fmt: CF.CodeFormatter, ranges: set<CF.IndentRange>, es: seq<Pair<Expr>>,
                                                     equal: TokenRef, shape: Layout.Shape, additional: Option<nat>,
                                                     exprRange: CF.IndentRange, f: AssignmentFormatters)
    requires fmt.indentLevel >= 1
    ensures var t := TacticFor(fmt.AsContext(), ranges, es, shape, additional, true, f);
      var r := ValuesLayout(fmt, ranges, es, equal, shape, additional, exprRange, f);
      !t.SingleLine?
      && r.equal == (if HangsAtEquals(t) then HangEqualToken(fmt, equal, additional) else equal)
      && r.ranges == (if RecordsRange(t) then ranges + {exprRange} else ranges)
  {
  }

  /** The tactic part of `format_assignment` and `format_local_assignment`. */
  method LayOutValues(fmt: CF.CodeFormatter, es: seq<Pair<Expr>>, equal: TokenRef, shape: Layout.Shape,
                      additional: Option<nat>, exprRange: CF.IndentRange, f: AssignmentFormatters)
    returns (list: seq<Pair<Expr>>, equalOut: TokenRef)
    requires fmt.indentLevel >= 1
    modifies fmt
    ensures fmt.indentLevel == old(fmt.indentLevel)
    ensures Values(list, equalOut, fmt.indentRanges)
      == ValuesLayout(fmt, old(fmt.indentRanges), es, equal, shape, additional, exprRange, f)
  {
    var ctx := fmt.AsContext();
    if AnyHangable(es) {
      list := HangPunctuatedList(fmt, es, shape, additional, exprRange, f);
      equalOut := equal;
    } else if |es| > 1 {
      var hangingEqual := HangEqualToken(fmt, equal, additional);
      var hangingShape := HangingShapeOf(f, shape, additional);
      list := FormatPunctuated(ctx, es, Layout.WithInfiniteWidth(hangingShape), ExprFormatter(f, fmt.indentRanges), ExprText);
      if Layout.OverBudget(Layout.TakeFirstLine(hangingShape, Expressions.StrippedText(ExprListTokens(list)))) {
        list := FormatPunctuatedMultiline(ctx, es, shape, ExprFormatter(f, fmt.indentRanges), Some(1));
        equalOut := equal;
      } else {
        equalOut := hangingEqual;
      }
    } else {
      list := FormatPunctuated(ctx, es, shape, ExprFormatter(f, fmt.indentRanges), ExprText);
      equalOut := equal;
      if Layout.OverBudget(Layout.TakeFirstLine(shape, TrailingStrippedText(ExprListTokens(list)))) {
        equalOut := HangEqualToken(fmt, equal, additional);
        fmt.AddIndentRange(exprRange);
        list := FormatPunctuated(ctx, es, shape, ExprFormatter(f, fmt.indentRanges), ExprText);
      }
    }
  }

  /**
   * The single-line attempt fails: the values hold a comment, or the
   * statement's first line, `prefixWidth` characters before the values at
   * an unbounded width, is over budget.
   */
  predicate Overflows(es: seq<Pair<Expr>>, shape: Layout.Shape, prefixWidth: nat, singleLineValues: seq<Pair<Expr>>) {
    ValuesContainComments(es)
    || Layout.OverBudget(Layout.TakeFirstLine(Layout.AddWidth(shape, prefixWidth), TrailingStrippedText(ExprListTokens(singleLineValues))))
  }

  // ---------------------------------------------------------------------
  // Assignment
  // ---------------------------------------------------------------------

  /** The statement before its trivia is added, and the indent ranges afterwards. */
  datatype Parts<L> = Parts(head: L, values: Values)

  /** The values of the one-line attempt, formatted at an unbounded width. */
  function SingleLineValues(ctx: Context, ranges: set<CF.IndentRange>, es: seq<Pair<Expr>>, shape: Layout.Shape,
                            f: AssignmentFormatters): seq<Pair<Expr>> {
    Punctuated(ctx, es, Layout.WithInfiniteWidth(shape), ExprFormatter(f, ranges), ExprText)
  }

  /**
   * The one-line test of `format_assignment`: no value or separator holds a
   * comment, and the variables, ` = ` and the values, measured at an
   * unbounded width, leave the first line within budget.
   */
  predicate AssignmentFits(fmt: CF.CodeFormatter, ranges: set<CF.IndentRange>, s: Stmt, eqRange: CF.IndentRange,
                           shape0: Layout.Shape, f: AssignmentFormatters)
    requires s.Assignment?
  {
    var ctx := fmt.AsContext();
    var shape := f.withAdditionalIndent(shape0, CF.RangeIndentIncrease(ranges, eqRange));
    var vars := TryPunctuated(ctx, s.variables, Layout.WithInfiniteWidth(shape), VarFormatter(f, ranges), VarText, None);
    && !ValuesContainComments(s.expressions)
    && !Layout.OverBudget(Layout.TakeFirstLine(Layout.AddWidth(shape, |LeadingStrippedText(VarListTokens(vars))| + 3),
                                               TrailingStrippedText(ExprListTokens(SingleLineValues(ctx, ranges, s.expressions, shape, f)))))
  }

  /**
   * The variables and values of `format_assignment` before the leading
   * indent and the trailing line break are added.
   */
  function AssignmentParts(fmt: CF.CodeFormatter, ranges: set<CF.IndentRange>, s: Stmt, eqRange: CF.IndentRange,
                           exprRange: CF.IndentRange, shape0: Layout.Shape, f: AssignmentFormatters)
    : (r: Parts<seq<Pair<Var>>>)
    reads fmt`indentLevel
    requires s.Assignment? && fmt.indentLevel >= 1
    ensures |r.head| == |s.variables| && |r.values.list| == |s.expressions|
    ensures r.values.equal.token == Symbol("=")
    ensures r.values.ranges == ranges || r.values.ranges == ranges + {exprRange}
    ensures var shape := f.withAdditionalIndent(shape0, CF.RangeIndentIncrease(ranges, eqRange));
      AssignmentFits(fmt, ranges, s, eqRange, shape0, f) ==>
        && r.head == TryPunctuated(fmt.AsContext(), s.variables, Layout.WithInfiniteWidth(shape), VarFormatter(f, ranges), VarText, None)
        && r.values.list == SingleLineValues(fmt.AsContext(), ranges, s.expressions, shape, f)
        && r.values.equal == FormatSymbol(fmt.AsContext(), s.equalToken, EqualsSpaced, shape)
        && r.values.ranges == ranges
    ensures var additional := CF.RangeIndentIncrease(ranges, eqRange);
      var shape := f.withAdditionalIndent(shape0, additional);
      !AssignmentFits(fmt, ranges, s, eqRange, shape0, f) ==>
        && r.head == TryPunctuated(fmt.AsContext(), s.variables, shape, VarFormatter(f, ranges), VarText, None)
        && r.values == ValuesLayout(fmt, ranges, s.expressions, FormatSymbol(fmt.AsContext(), s.equalToken, EqualsSpaced, shape),
                                    Layout.Plus(shape, |LeadingStrippedText(VarListTokens(r.head))| + 3), additional, exprRange, f)
  {
    var ctx := fmt.AsContext();
    var additional := CF.RangeIndentIncrease(ranges, eqRange);
    var shape := f.withAdditionalIndent(shape0, additional);
    var vars := TryPunctuated(ctx, s.variables, Layout.WithInfiniteWidth(shape), VarFormatter(f, ranges), VarText, None);
    var equal := FormatSymbol(ctx, s.equalToken, EqualsSpaced, shape);
    var exprs := Punctuated(ctx, s.expressions, Layout.WithInfiniteWidth(shape), ExprFormatter(f, ranges), ExprText);
    var singleLine := Layout.TakeFirstLine(Layout.AddWidth(shape, |LeadingStrippedText(VarListTokens(vars))| + 3),
                                           TrailingStrippedText(ExprListTokens(exprs)));
    if ValuesContainComments(s.expressions) || Layout.OverBudget(singleLine) then
      var vars' := TryPunctuated(ctx, s.variables, shape, VarFormatter(f, ranges), VarText, None);
      var valueShape := Layout.Plus(shape, |LeadingStrippedText(VarListTokens(vars'))| + 3);
      Parts(vars', ValuesLayout(fmt, ranges, s.expressions, equal, valueShape, additional, exprRange, f))
    else
      Parts(vars, Values(exprs, equal, ranges))
  }

  /** The indent before the statement and the line break after it. */
  function StatementLeading(fmt: CF.CodeFormatter, ranges: set<CF.IndentRange>, query: CF.IndentRange): seq<Token>
    reads fmt`indentLevel
    requires fmt.indentLevel >= 1
  {
    [fmt.CreateIndentTrivia(CF.RangeIndentIncrease(ranges, query))]
  }

  function StatementTrailing(fmt: CF.CodeFormatter): seq<Token> {
    [CreateNewlineTrivia(fmt.AsContext())]
  }

  /** `format_assignment` as a value: the statement and the indent ranges afterwards. */
  function AssignmentLayout(fmt: CF.CodeFormatter, ranges: set<CF.IndentRange>, s: Stmt, eqRange: CF.IndentRange,
                            exprRange: CF.IndentRange, shape: Layout.Shape, f: AssignmentFormatters)
    : (r: (Stmt, set<CF.IndentRange>))
    reads fmt`indentLevel
    requires s.Assignment? && fmt.indentLevel >= 1
    ensures r.0.Assignment?
    ensures |r.0.variables| == |s.variables| && |r.0.expressions| == |s.expressions|
    ensures r.0.equalToken.token == Symbol("=")
    ensures r.1 == ranges || r.1 == ranges + {exprRange}
  {
    var p := AssignmentParts(fmt, ranges, s, eqRange, exprRange, shape, f);
    (Assignment(UpdateLeadingVarList(p.head, Append(StatementLeading(fmt, ranges, eqRange))), p.values.equal,
                UpdateTrailingExprList(p.values.list, Append(StatementTrailing(fmt)))),
     p.values.ranges)
  }

  /**
   * The line break goes after the last token of the statement and nowhere
   * else, whenever the laid-out values end in a value that owns its last
   * token.
   */
  lemma {:induction false} AssignmentEndsWithLineBreak(fmt: CF.CodeFormatter, ranges: set<CF.IndentRange>, s: Stmt,
                                                       eqRange: CF.IndentRange, exprRange: CF.IndentRange,
                                                       shape: Layout.Shape, f: AssignmentFormatters)
    requires s.Assignment? && fmt.indentLevel >= 1
    requires EndsInBareValue(AssignmentParts(fmt, ranges, s, eqRange, exprRange, shape, f).values.list)
    ensures var p := AssignmentParts(fmt, ranges, s, eqRange, exprRange, shape, f);
      var unfinished := Assignment(UpdateLeadingVarList(p.head, Append(StatementLeading(fmt, ranges, eqRange))),
                                   p.values.equal, p.values.list);
      StmtTokens(AssignmentLayout(fmt, ranges, s, eqRange, exprRange, shape, f).0)
        == EditLast(StmtTokens(unfinished), Append(StatementTrailing(fmt)))
  {
    var p := AssignmentParts(fmt, ranges, s, eqRange, exprRange, shape, f);
    var vs := UpdateLeadingVarList(p.head, Append(StatementLeading(fmt, ranges, eqRange)));
    Blocks.AssignmentTrailingEdit(vs, p.values.equal, p.values.list, Append(StatementTrailing(fmt)));
    Blocks.LeadingNoChangeVarList(vs);
  }

  /**
   * The body of `format_assignment` up to its trivia: the variables, the
   * `=` token and the values as `AssignmentParts` lays them out.
   */
  method LayOutAssignment(fmt: CF.CodeFormatter, s: Stmt, eqRange: CF.IndentRange, exprRange: CF.IndentRange,
                          shape: Layout.Shape, f: AssignmentFormatters)
    returns (vars: seq<Pair<Var>>, equal: TokenRef, exprs: seq<Pair<Expr>>)
    requires s.Assignment? && fmt.indentLevel >= 1
    modifies fmt
    ensures fmt.indentLevel == old(fmt.indentLevel)
    ensures Parts(vars, Values(exprs, equal, fmt.indentRanges))
      == AssignmentParts(fmt, old(fmt.indentRanges), s, eqRange, exprRange, shape, f)
  {
    var ctx := fmt.AsContext();
    var additional := fmt.GetRangeIndentIncrease(eqRange);
    var sh := f.withAdditionalIndent(shape, additional);
    var containsComments := ValuesContainComments(s.expressions);
    vars := TryFormatPunctuated(ctx, s.variables, Layout.WithInfiniteWidth(sh), VarFormatter(f, fmt.indentRanges), VarText, None);
    equal := FormatSymbol(ctx, s.equalToken, EqualsSpaced, sh);
    exprs := FormatPunctuated(ctx, s.expressions, Layout.WithInfiniteWidth(sh), ExprFormatter(f, fmt.indentRanges), ExprText);
    var singleLine := Layout.TakeFirstLine(Layout.AddWidth(sh, |LeadingStrippedText(VarListTokens(vars))| + 3),
                                           TrailingStrippedText(ExprListTokens(exprs)));
    ghost var expected := AssignmentParts(fmt, fmt.indentRanges, s, eqRange, exprRange, shape, f);
    assert vars == TryPunctuated(ctx, s.variables, Layout.WithInfiniteWidth(sh), VarFormatter(f, fmt.indentRanges), VarText, None);
    if containsComments || Layout.OverBudget(singleLine) {
      vars := TryFormatPunctuated(ctx, s.variables, sh, VarFormatter(f, fmt.indentRanges), VarText, None);
      var valueShape := Layout.Plus(sh, |LeadingStrippedText(VarListTokens(vars))| + 3);
      exprs, equal := LayOutValues(fmt, s.expressions, equal, valueShape, additional, exprRange, f);
      assert expected == Parts(vars, Values(exprs, equal, fmt.indentRanges));
    } else {
      assert exprs == SingleLineValues(ctx, fmt.indentRanges, s.expressions, sh, f);
      assert AssignmentFits(fmt, fmt.indentRanges, s, eqRange, shape, f);
    }
  }

  /**
   * `format_assignment`: the statement as `AssignmentLayout` lays it out;
   * the formatter's indent level is unchanged and its indent ranges gain
   * at most the values' range.
   */
  method FormatAssignment(fmt: CF.CodeFormatter, s: Stmt, eqRange: CF.IndentRange, exprRange: CF.IndentRange,
                          shape: Layout.Shape, f: AssignmentFormatters)
    returns (r: Stmt)
    requires s.Assignment? && fmt.indentLevel >= 1
    modifies fmt
    ensures fmt.indentLevel == old(fmt.indentLevel)
    ensures (r, fmt.indentRanges) == AssignmentLayout(fmt, old(fmt.indentRanges), s, eqRange, exprRange, shape, f)
  {
    var additional := fmt.GetRangeIndentIncrease(eqRange);
    var leading := [fmt.CreateIndentTrivia(additional)];
    var trailing := [CreateNewlineTrivia(fmt.AsContext())];
    var vars, equal, exprs := LayOutAssignment(fmt, s, eqRange, exprRange, shape, f);
    r := Assignment(UpdateLeadingVarList(vars, Append(leading)), equal, UpdateTrailingExprList(exprs, Append(trailing)));
  }

  // ---------------------------------------------------------------------
  // Local assignment
  // ---------------------------------------------------------------------

  /** The type specifiers, each present one formatted. */
  function FormattedSpecifiers(ctx: Context, ts: seq<Option<TypeSpecifier>>, f: AssignmentFormatters)
    : (r: seq<Option<TypeSpecifier>>)
    ensures |r| == |ts|
    ensures forall i :: 0 <= i < |ts| ==> (r[i].Some? <==> ts[i].Some?)
  {
    seq(|ts|, i requires 0 <= i < |ts| =>
      match ts[i] case Some(sp) => Some(f.formatTypeSpecifier(ctx, sp)) case None => None)
  }

  /** The printed width of the type specifiers (`type_specifier_len`). */
  function SpecifiersWidth(ts: seq<Option<TypeSpecifier>>): nat
    decreases |ts|
  {
    if ts == [] then 0 else |Render(SpecifierTokens(ts[0]))| + SpecifiersWidth(ts[1..])
  }

  /** The `local` keyword, followed by a space, after the statement's indent. */
  function LocalKeyword(ctx: Context, t: TokenRef, shape: Layout.Shape, leading: seq<Token>): (r: TokenRef)
    ensures r.token == Symbol("local")
  {
    UpdateLeadingToken(FormatSymbol(ctx, t, LocalWord, shape), Append(leading))
  }

  /**
   * The end of `format_local_no_assignment`: the line break goes after the
   * last type specifier when the last name has one, otherwise after the
   * names, and a trailing entry without a type is dropped.
   */
  function NoValuesDeclaration(local: TokenRef, names: seq<Pair<TokenRef>>, specifiers: seq<Option<TypeSpecifier>>,
                               trailing: seq<Token>): (r: Stmt)
    ensures r.LocalAssignment? && r.localEqual.None? && r.localExpressions == []
    ensures r.localToken == local && |r.names| == |names|
    ensures |r.typeSpecifiers| ==
      (if specifiers != [] && specifiers[|specifiers| - 1].None? then |specifiers| - 1 else |specifiers|)
  {
    var n := |specifiers|;
    if n > 0 && specifiers[n - 1].Some? then
      var last := UpdateTrailingSpecifier(specifiers[n - 1].value, Append(trailing));
      LocalAssignment(local, names, specifiers[..n - 1] + [Some(last)], None, [])
    else if n > 0 then
      LocalAssignment(local, UpdateTrailingNames(names, Append(trailing)), specifiers[..n - 1], None, [])
    else
      LocalAssignment(local, UpdateTrailingNames(names, Append(trailing)), specifiers, None, [])
  }

  /**
   * `format_local_no_assignment`: `local ` after the indent, the names
   * formatted past it, the type specifiers formatted, then the line break.
   */
  function LocalNoAssignment(ctx: Context, s: Stmt, shape: Layout.Shape, leading: seq<Token>, trailing: seq<Token>,
                             f: AssignmentFormatters): (r: Stmt)
    requires s.LocalAssignment?
    ensures r.LocalAssignment? && r.localEqual.None? && r.localExpressions == []
    ensures r.localToken.token == Symbol("local")
    ensures |r.names| == |s.names|
    ensures var ts := s.typeSpecifiers;
      |r.typeSpecifiers| == (if ts != [] && ts[|ts| - 1].None? then |ts| - 1 else |ts|)
  {
    NoValuesDeclaration(LocalKeyword(ctx, s.localToken, shape, leading),
                        TryPunctuated(ctx, s.names, Layout.Plus(shape, 6), FormatTokenReference, TokenRefText, None),
                        FormattedSpecifiers(ctx, s.typeSpecifiers, f), trailing)
  }

  /**
   * `format_local_no_assignment`: the last type specifier is popped and
   * pushed back with the line break when present; a popped empty entry is
   * not pushed back.
   */
  method FormatLocalNoAssignment(ctx: Context, s: Stmt, shape: Layout.Shape, leading: seq<Token>, trailing: seq<Token>,
                                 f: AssignmentFormatters)
    returns (r: Stmt)
    requires s.LocalAssignment?
    ensures r == LocalNoAssignment(ctx, s, shape, leading, trailing, f)
  {
    var local := LocalKeyword(ctx, s.localToken, shape, leading);
    var names := TryFormatPunctuated(ctx, s.names, Layout.Plus(shape, 6), FormatTokenReference, TokenRefText, None);
    var specifiers := FormattedSpecifiers(ctx, s.typeSpecifiers, f);
    var newLineAdded := false;
    if specifiers != [] {
      var popped := specifiers[|specifiers| - 1];
      specifiers := specifiers[..|specifiers| - 1];
      if popped.Some? {
        specifiers := specifiers + [Some(UpdateTrailingSpecifier(popped.value, Append(trailing)))];
        newLineAdded := true;
      }
    }
    if !newLineAdded {
      names := UpdateTrailingNames(names, Append(trailing));
    }
    r := LocalAssignment(local, names, specifiers, None, []);
  }

  /** Dropping a trailing name entry without a type changes no token. */
  lemma {:induction false} DroppedUntypedEntryKeepsTokens(ns: seq<Pair<TokenRef>>, ts: seq<Option<TypeSpecifier>>)
    requires ts != [] && ts[|ts| - 1].None?
    ensures LocalNamesTokens(ns, ts[..|ts| - 1]) == LocalNamesTokens(ns, ts)
  {
    var init := ts[..|ts| - 1];
    assert ts == init + [None];
    UntypedEntryAppended(ns, init);
  }

  /** An untyped entry after the type list adds no token. */
  lemma {:induction false} UntypedEntryAppended(ns: seq<Pair<TokenRef>>, init: seq<Option<TypeSpecifier>>)
    ensures LocalNamesTokens(ns, init + [None]) == LocalNamesTokens(ns, init)
    decreases |ns|
  {
    if ns != [] {
      var ts := init + [None];
      var head := [ns[0].value] + SpecifierTokens(ts[0]) + OptTokens(ns[0].punctuation);
      assert LocalNamesTokens(ns, ts) == head + LocalNamesTokens(ns[1..], ts[1..]);
      if init == [] {
        assert ts[1..] == [] && SpecifierTokens(ts[0]) == [];
      } else {
        assert ts[0] == init[0] && ts[1..] == init[1..] + [None];
        UntypedEntryAppended(ns[1..], init[1..]);
      }
    }
  }

  /**
   * The line break of a local declaration without values goes after its
   * last token and nowhere else, whether that token ends a type or a name.
   */
  lemma {:induction false} NoValuesEndsWithLineBreak(local: TokenRef, names: seq<Pair<TokenRef>>,
                                                     specifiers: seq<Option<TypeSpecifier>>, trailing: seq<Token>)
    requires Blocks.EndsCleanly(LocalAssignment(local, names, specifiers, None, []))
    ensures StmtTokens(NoValuesDeclaration(local, names, specifiers, trailing))
      == EditLast(StmtTokens(LocalAssignment(local, names, specifiers, None, [])), Append(trailing))
  {
    var unfinished := LocalAssignment(local, names, specifiers, None, []);
    var updated := UpdateLocalAssignment(unfinished, NoChange, Append(trailing));
    Blocks.LocalWithoutValuesTrailingEdit(unfinished, Append(trailing));
    assert UpdateLeadingToken(local, NoChange) == local;
    var n := |specifiers|;
    if n > 0 && specifiers[n - 1].None? {
      assert NoValuesDeclaration(local, names, specifiers, trailing) == updated.(typeSpecifiers := specifiers[..n - 1]);
      DroppedUntypedEntryKeepsTokens(updated.names, specifiers);
    }
  }

  /**
   * `format_local_assignment` before the trailing line break is added:
   * the `local` keyword, the names, the type specifiers and the values.
   */
  function LocalParts(fmt: CF.CodeFormatter, ranges: set<CF.IndentRange>, s: Stmt, localRange: CF.IndentRange,
                      exprRange: CF.IndentRange, shape0: Layout.Shape, f: AssignmentFormatters)
    : (r: Parts<(TokenRef, seq<Pair<TokenRef>>, seq<Option<TypeSpecifier>>)>)
    reads fmt`indentLevel
    requires s.LocalAssignment? && s.localEqual.Some? && fmt.indentLevel >= 1
    ensures r.head.0.token == Symbol("local")
    ensures |r.head.1| == |s.names| && |r.head.2| == |s.typeSpecifiers|
    ensures |r.values.list| == |s.localExpressions|
    ensures r.values.equal.token == Symbol("=")
    ensures r.values.ranges == ranges || r.values.ranges == ranges + {exprRange}
  {
    var additional := CF.RangeIndentIncrease(ranges, localRange);
    LocalValuesParts(fmt, ranges, s, f.withAdditionalIndent(shape0, additional), additional,
                     StatementLeading(fmt, ranges, localRange), exprRange, f)
  }

  /**
   * The one-line test of `format_local_assignment`: no value or separator
   * holds a comment, and `local `, the names, the type specifiers, ` = ` and
   * the values, measured at an unbounded width, leave the first line within
   * budget.
   */
  predicate LocalFits(fmt: CF.CodeFormatter, ranges: set<CF.IndentRange>, s: Stmt, shape: Layout.Shape,
                      f: AssignmentFormatters)
    requires s.LocalAssignment?
  {
    var ctx := fmt.AsContext();
    var names := TryPunctuated(ctx, s.names, Layout.WithInfiniteWidth(shape), FormatTokenReference, TokenRefText, None);
    var width := SpecifiersWidth(FormattedSpecifiers(ctx, s.typeSpecifiers, f));
    && !ValuesContainComments(s.localExpressions)
    && !Layout.OverBudget(Layout.TakeFirstLine(Layout.AddWidth(shape, |LeadingStrippedText(NameListTokens(names))| + 6 + 3 + width),
                                               TrailingStrippedText(ExprListTokens(SingleLineValues(ctx, ranges, s.localExpressions, shape, f)))))
  }

  /** `LocalParts` once the shape, the additional indent and the leading indent are known. */
  function LocalValuesParts(fmt: CF.CodeFormatter, ranges: set<CF.IndentRange>, s: Stmt, shape: Layout.Shape,
                            additional: Option<nat>, leading: seq<Token>, exprRange: CF.IndentRange,
                            f: AssignmentFormatters)
    : (r: Parts<(TokenRef, seq<Pair<TokenRef>>, seq<Option<TypeSpecifier>>)>)
    reads fmt`indentLevel
    requires s.LocalAssignment? && s.localEqual.Some? && fmt.indentLevel >= 1
    ensures r.head.0.token == Symbol("local")
    ensures |r.head.1| == |s.names| && |r.head.2| == |s.typeSpecifiers|
    ensures |r.values.list| == |s.localExpressions|
    ensures r.values.equal.token == Symbol("=")
    ensures r.values.ranges == ranges || r.values.ranges == ranges + {exprRange}
    ensures r.head.0 == LocalKeyword(fmt.AsContext(), s.localToken, shape, leading)
    ensures r.head.2 == FormattedSpecifiers(fmt.AsContext(), s.typeSpecifiers, f)
    ensures LocalFits(fmt, ranges, s, shape, f) ==>
      && r.head.1 == TryPunctuated(fmt.AsContext(), s.names, Layout.WithInfiniteWidth(shape), FormatTokenReference, TokenRefText, None)
      && r.values.list == SingleLineValues(fmt.AsContext(), ranges, s.localExpressions, shape, f)
      && r.values.equal == FormatSymbol(fmt.AsContext(), s.localEqual.value, EqualsSpaced, shape)
      && r.values.ranges == ranges
    ensures !LocalFits(fmt, ranges, s, shape, f) ==>
      && r.head.1 == TryPunctuated(fmt.AsContext(), s.names, shape, FormatTokenReference, TokenRefText, None)
      && r.values == OverflowValues(fmt, ranges, s, r.head.1,
                                    SpecifiersWidth(FormattedSpecifiers(fmt.AsContext(), s.typeSpecifiers, f)),
                                    shape, additional, exprRange, f)
  {
    var ctx := fmt.AsContext();
    var local := LocalKeyword(ctx, s.localToken, shape, leading);
    var names := TryPunctuated(ctx, s.names, Layout.WithInfiniteWidth(shape), FormatTokenReference, TokenRefText, None);
    var equal := FormatSymbol(ctx, s.localEqual.value, EqualsSpaced, shape);
    var exprs := Punctuated(ctx, s.localExpressions, Layout.WithInfiniteWidth(shape), ExprFormatter(f, ranges), ExprText);
    var specifiers := FormattedSpecifiers(ctx, s.typeSpecifiers, f);
    var width := SpecifiersWidth(specifiers);
    if Overflows(s.localExpressions, shape, |LeadingStrippedText(NameListTokens(names))| + 6 + 3 + width, exprs) then
      var names' := TryPunctuated(ctx, s.names, shape, FormatTokenReference, TokenRefText, None);
      Parts((local, names', specifiers), OverflowValues(fmt, ranges, s, names', width, shape, additional, exprRange, f))
    else
      Parts((local, names, specifiers), Values(exprs, equal, ranges))
  }

  /**
   * The values of a declaration whose single line overflows: laid out by a
   * tactic in the shape left after `local`, the names, the type
   * specifiers and ` = `.
   */
  function OverflowValues(fmt: CF.CodeFormatter, ranges: set<CF.IndentRange>, s: Stmt, names: seq<Pair<TokenRef>>,
                          width: nat, shape: Layout.Shape, additional: Option<nat>, exprRange: CF.IndentRange,
                          f: AssignmentFormatters): (r: Values)
    reads fmt`indentLevel
    requires s.LocalAssignment? && s.localEqual.Some? && fmt.indentLevel >= 1
    ensures |r.list| == |s.localExpressions|
    ensures r.equal.token == Symbol("=")
    ensures r.ranges == ranges || r.ranges == ranges + {exprRange}
  {
    var equal := FormatSymbol(fmt.AsContext(), s.localEqual.value, EqualsSpaced, shape);
    var valueShape := Layout.Plus(shape, |LeadingStrippedText(NameListTokens(names))| + 6 + 3 + width);
    ValuesLayout(fmt, ranges, s.localExpressions, equal, valueShape, additional, exprRange, f)
  }

  /** The end of `format_local_assignment` with values: the line break after the values. */
  function WithValuesDeclaration(head: (TokenRef, seq<Pair<TokenRef>>, seq<Option<TypeSpecifier>>), values: Values,
                                 trailing: seq<Token>): (r: Stmt)
    ensures r.LocalAssignment? && r.localToken == head.0 && r.names == head.1 && r.typeSpecifiers == head.2
    ensures r.localEqual == Some(values.equal) && |r.localExpressions| == |values.list|
  {
    LocalAssignment(head.0, head.1, head.2, Some(values.equal), UpdateTrailingExprList(values.list, Append(trailing)))
  }

  /**
   * `format_local_assignment` as a value. Without values the declaration
   * goes to `format_local_no_assignment` and no range is recorded; with
   * values, the `=` stays and the values keep their number.
   */
  function LocalLayout(fmt: CF.CodeFormatter, ranges: set<CF.IndentRange>, s: Stmt, localRange: CF.IndentRange,
                       exprRange: CF.IndentRange, shape0: Layout.Shape, f: AssignmentFormatters)
    : (r: (Stmt, set<CF.IndentRange>))
    reads fmt`indentLevel
    requires s.LocalAssignment? && fmt.indentLevel >= 1
    requires s.localExpressions == [] || s.localEqual.Some?
    ensures r.0.LocalAssignment? && |r.0.names| == |s.names|
    ensures r.0.localToken.token == Symbol("local")
    ensures |r.0.localExpressions| == |s.localExpressions|
    ensures r.0.localEqual.Some? <==> s.localExpressions != []
    ensures r.0.localEqual.Some? ==> r.0.localEqual.value.token == Symbol("=")
    ensures s.localExpressions == [] ==> r.1 == ranges
    ensures r.1 == ranges || r.1 == ranges + {exprRange}
  {
    if s.localExpressions == [] then
      var shape := f.withAdditionalIndent(shape0, CF.RangeIndentIncrease(ranges, localRange));
      (LocalNoAssignment(fmt.AsContext(), s, shape, StatementLeading(fmt, ranges, localRange), StatementTrailing(fmt), f), ranges)
    else
      var p := LocalParts(fmt, ranges, s, localRange, exprRange, shape0, f);
      (WithValuesDeclaration(p.head, p.values, StatementTrailing(fmt)), p.values.ranges)
  }

  /**
   * With values, the line break goes after the last token of the
   * declaration and nowhere else, whenever the values end in a value that
   * owns its last token.
   */
  lemma {:induction false} WithValuesEndsWithLineBreak(head: (TokenRef, seq<Pair<TokenRef>>, seq<Option<TypeSpecifier>>),
                                                       values: Values, trailing: seq<Token>)
    requires EndsInBareValue(values.list)
    ensures StmtTokens(WithValuesDeclaration(head, values, trailing))
      == EditLast(StmtTokens(LocalAssignment(head.0, head.1, head.2, Some(values.equal), values.list)), Append(trailing))
  {
    var unfinished := LocalAssignment(head.0, head.1, head.2, Some(values.equal), values.list);
    Blocks.LocalWithValuesTrailingEdit(unfinished, Append(trailing));
    assert UpdateLeadingToken(head.0, NoChange) == head.0;
  }

  /**
   * `format_local_assignment`: the declaration as `LocalLayout` lays it
   * out; the indent level is unchanged and the indent ranges gain at most
   * the values' range.
   */
  method FormatLocalAssignment(fmt: CF.CodeFormatter, s: Stmt, localRange: CF.IndentRange, exprRange: CF.IndentRange,
                               shape: Layout.Shape, f: AssignmentFormatters)
    returns (r: Stmt)
    requires s.LocalAssignment? && fmt.indentLevel >= 1
    requires s.localExpressions == [] || s.localEqual.Some?
    modifies fmt
    ensures fmt.indentLevel == old(fmt.indentLevel)
    ensures (r, fmt.indentRanges) == LocalLayout(fmt, old(fmt.indentRanges), s, localRange, exprRange, shape, f)
  {
    var ctx := fmt.AsContext();
    ghost var ranges := fmt.indentRanges;
    var additional := fmt.GetRangeIndentIncrease(localRange);
    assert additional == CF.RangeIndentIncrease(ranges, localRange);
    var sh := f.withAdditionalIndent(shape, additional);
    var leading := [fmt.CreateIndentTrivia(additional)];
    var trailing := [CreateNewlineTrivia(ctx)];
    if s.localExpressions == [] {
      r := FormatLocalNoAssignment(ctx, s, sh, leading, trailing, f);
      return;
    }
    var head, values := LayOutLocalValues(fmt, s, sh, additional, leading, exprRange, f);
    r := WithValuesDeclaration(head, values, trailing);
  }

  /** The part of `format_local_assignment` that lays out a declaration with values. */
  method LayOutLocalValues(fmt: CF.CodeFormatter, s: Stmt, sh: Layout.Shape, additional: Option<nat>,
                           leading: seq<Token>, exprRange: CF.IndentRange, f: AssignmentFormatters)
    returns (head: (TokenRef, seq<Pair<TokenRef>>, seq<Option<TypeSpecifier>>), values: Values)
    requires s.LocalAssignment? && s.localEqual.Some? && fmt.indentLevel >= 1
    modifies fmt
    ensures fmt.indentLevel == old(fmt.indentLevel) && values.ranges == fmt.indentRanges
    ensures Parts(head, values) == LocalValuesParts(fmt, old(fmt.indentRanges), s, sh, additional, leading, exprRange, f)
  {
    var ctx := fmt.AsContext();
    ghost var ranges := fmt.indentRanges;
    var local := LocalKeyword(ctx, s.localToken, sh, leading);
    var names := TryFormatPunctuated(ctx, s.names, Layout.WithInfiniteWidth(sh), FormatTokenReference, TokenRefText, None);
    assert names == TryPunctuated(ctx, s.names, Layout.WithInfiniteWidth(sh), FormatTokenReference, TokenRefText, None);
    var equal := FormatSymbol(ctx, s.localEqual.value, EqualsSpaced, sh);
    var exprs := FormatPunctuated(ctx, s.localExpressions, Layout.WithInfiniteWidth(sh), ExprFormatter(f, fmt.indentRanges), ExprText);
    var specifiers := FormattedSpecifiers(ctx, s.typeSpecifiers, f);
    var width := SpecifiersWidth(specifiers);
    if Overflows(s.localExpressions, sh, |LeadingStrippedText(NameListTokens(names))| + 6 + 3 + width, exprs) {
      names := TryFormatPunctuated(ctx, s.names, sh, FormatTokenReference, TokenRefText, None);
      assert names == TryPunctuated(ctx, s.names, sh, FormatTokenReference, TokenRefText, None);
      assert !LocalFits(fmt, ranges, s, sh, f);
      exprs, equal := LayOutOverflowValues(fmt, s, names, width, sh, additional, exprRange, f);
    } else {
      assert exprs == SingleLineValues(ctx, ranges, s.localExpressions, sh, f);
      assert LocalFits(fmt, ranges, s, sh, f);
    }
    head := (local, names, specifiers);
    values := Values(exprs, equal, fmt.indentRanges);
  }

  /** The values of an overflowing declaration, laid out as `OverflowValues` says. */
  method LayOutOverflowValues(fmt: CF.CodeFormatter, s: Stmt, names: seq<Pair<TokenRef>>, width: nat, sh: Layout.Shape,
                              additional: Option<nat>, exprRange: CF.IndentRange, f: AssignmentFormatters)
    returns (list: seq<Pair<Expr>>, equal: TokenRef)
    requires s.LocalAssignment? && s.localEqual.Some? && fmt.indentLevel >= 1
    modifies fmt
    ensures fmt.indentLevel == old(fmt.indentLevel)
    ensures Values(list, equal, fmt.indentRanges)
      == OverflowValues(fmt, old(fmt.indentRanges), s, names, width, sh, additional, exprRange, f)
  {
    equal := FormatSymbol(fmt.AsContext(), s.localEqual.value, EqualsSpaced, sh);
    var valueShape := Layout.Plus(sh, |LeadingStrippedText(NameListTokens(names))| + 6 + 3 + width);
    list, equal := LayOutValues(fmt, s.localExpressions, equal, valueShape, additional, exprRange, f);
  }
}
