/**
 * Expression decisions of src/formatters/expression.rs: operator spelling,
 * which parentheses are redundant, the `- -x` guard, and the measures the
 * binary-operator hanging relies on (operator precedence levels, the width of
 * a same-precedence chain, the leftmost operand and its indentation).
 */
module Expressions {
  import opened Wrappers
  import opened Text
  import opened Syntax
  import opened Trivia
  import opened TriviaUtil
  import opened FormatContext
  import opened Layout
  import General
  import Functions

  // ---------------------------------------------------------------------
  // Operators
  // ---------------------------------------------------------------------

  /** The spelling `format_binop` gives each binary operator, between its two spaces. */
  function BinopSymbol(k: BinOpKind): string {
    match k
    case And => "and"
    case Caret => "^"
    case GreaterThan => ">"
    case GreaterThanEqual => ">="
    case LessThan => "<"
    case LessThanEqual => "<="
    case Minus => "-"
    case Or => "or"
    case Percent => "%"
    case Plus => "+"
    case Slash => "/"
    case Star => "*"
    case TildeEqual => "~="
    case TwoDots => ".."
    case TwoEqual => "=="
  }

  /** Reading an operator back from its spelling. */
  function BinopKindOf(sym: string): Option<BinOpKind> {
    if sym == "and" then Some(And)
    else if sym == "^" then Some(Caret)
    else if sym == ">" then Some(GreaterThan)
    else if sym == ">=" then Some(GreaterThanEqual)
    else if sym == "<" then Some(LessThan)
    else if sym == "<=" then Some(LessThanEqual)
    else if sym == "-" then Some(Minus)
    else if sym == "or" then Some(Or)
    else if sym == "%" then Some(Percent)
    else if sym == "+" then Some(Plus)
    else if sym == "/" then Some(Slash)
    else if sym == "*" then Some(Star)
    else if sym == "~=" then Some(TildeEqual)
    else if sym == ".." then Some(TwoDots)
    else if sym == "==" then Some(TwoEqual)
    else None
  }

  /** Every operator keeps its identity through its spelling: no two share one. */
  lemma {:induction false} BinopSymbolRoundTrip(k: BinOpKind)
    ensures BinopKindOf(BinopSymbol(k)) == Some(k)
  {
  }

  /** `TokenReference::symbol(" op ")`: the operator with one space on each side. */
  function SpacedBinop(k: BinOpKind): (r: TokenRef)
    ensures TokenRefText(r) == " " + BinopSymbol(k) + " "
    ensures !HasComment(r.leading) && !HasComment(r.trailing)
  {
    assert TriviaText([Space]) == " " by {
      assert [Space][1..] == [];
    }
    TokenRef([Space], Symbol(BinopSymbol(k)), [Space])
  }

  /**
   * `format_binop`: the operator re-spelled with exactly one space on each
   * side; the comments around it stay on their side.
   */
  function FormatBinop(ctx: Context, op: BinOp, shape: Shape): (r: BinOp)
    ensures r.binKind == op.binKind
    ensures r.binToken.token == Symbol(BinopSymbol(op.binKind))
    ensures Comments(r.binToken.leading) == General.FormatComments(ctx, Comments(op.binToken.leading))
    ensures Comments(r.binToken.trailing) == General.FormatComments(ctx, Comments(op.binToken.trailing))
    ensures op.binToken.leading == [] && op.binToken.trailing == [] ==>
      TokenRefText(r.binToken) == " " + BinopSymbol(op.binKind) + " "
  {
    var wanted := SpacedBinop(op.binKind);
    General.FormatSymbolKeepsComments(ctx, op.binToken, wanted, shape);
    BinOp(op.binKind, General.FormatSymbol(ctx, op.binToken, wanted, shape))
  }

  /** The token `format_unop` puts in place of each unary operator: `-`, `not ` and `#`. */
  function UnopWanted(k: UnOpKind): (r: TokenRef)
    ensures !HasComment(r.leading) && !HasComment(r.trailing)
  {
    match k
    case UnaryMinus => TokenRef([], Symbol("-"), [])
    case UnaryNot => TokenRef([], Symbol("not"), [Space])
    case UnaryHash => TokenRef([], Symbol("#"), [])
  }

  /** `not` is followed by one space; `-` and `#` stick to their operand. */
  lemma {:induction false} UnopSpellings()
    ensures TokenRefText(UnopWanted(UnaryMinus)) == "-"
    ensures TokenRefText(UnopWanted(UnaryNot)) == "not "
    ensures TokenRefText(UnopWanted(UnaryHash)) == "#"
  {
    assert TriviaText([]) == "";
    assert TriviaText([Space]) == " " by {
      assert [Space][1..] == [];
    }
  }

  /** `format_unop`: the operator re-spelled, its comments kept on their side. */
  function FormatUnop(ctx: Context, op: UnOp, shape: Shape): (r: UnOp)
    ensures r.unKind == op.unKind
    ensures r.unToken.token == UnopWanted(op.unKind).token
    ensures Comments(r.unToken.leading) == General.FormatComments(ctx, Comments(op.unToken.leading))
    ensures Comments(r.unToken.trailing) == General.FormatComments(ctx, Comments(op.unToken.trailing))
    ensures op.unToken.leading == [] && op.unToken.trailing == [] ==> r.unToken == UnopWanted(op.unKind)
  {
    var wanted := UnopWanted(op.unKind);
    General.FormatSymbolKeepsComments(ctx, op.unToken, wanted, shape);
    UnOp(op.unKind, General.FormatSymbol(ctx, op.unToken, wanted, shape))
  }

  // ---------------------------------------------------------------------
  // Redundant parentheses
  // ---------------------------------------------------------------------

  /** The `...` symbol, whose parentheses truncate a list of values. */
  predicate IsEllipsis(e: Expr) {
    e.SymbolExpr? && e.symbolToken.token == Symbol("...")
  }

  /**
   * `check_excess_parentheses`: whether parentheses around the expression can
   * go. Nested parentheses can; a binary operator, a call, `...` or a type
   * assertion keeps them; unary operators are looked through; any other
   * value can lose them.
   */
  function CheckExcessParentheses(e: Expr): (r: bool)
    ensures e.Parentheses? ==> r
    ensures e.BinaryOperator? || e.CallExpr? || e.TypeAssertion? || IsEllipsis(e) ==> !r
    ensures e.UnaryOperator? ==> r == CheckExcessParentheses(e.operand)
  {
    match e
    case Parentheses(_, _) => true
    case UnaryOperator(_, x) => CheckExcessParentheses(x)
    case BinaryOperator(_, _, _) => false
    case TypeAssertion(_, _, _) => false
    case CallExpr(_) => false
    case SymbolExpr(t) => t.token != Symbol("...")
    case _ => true
  }

  /** The expression under any number of unary operators. */
  function Operand(e: Expr): (r: Expr)
    ensures !r.UnaryOperator?
  {
    if e.UnaryOperator? then Operand(e.operand) else e
  }

  /**
   * Parentheses are redundant exactly when what they hold, under its unary
   * operators, is not something whose value a bracket can change: a binary
   * operation (grouping), a call or `...` (truncation to one value) or a
   * type assertion.
   */
  lemma {:induction false} ExcessParenthesesIff(e: Expr)
    ensures CheckExcessParentheses(e) <==>
      var x := Operand(e);
      !(x.BinaryOperator? || x.CallExpr? || x.TypeAssertion? || IsEllipsis(x))
  {
    if e.UnaryOperator? {
      ExcessParenthesesIff(e.operand);
    }
  }

  /** Where an expression sits: anywhere, or as the prefix of a call or index. */
  datatype ExpressionContext = StandardContext | PrefixContext

  /**
   * The parentheses case of `format_expression_internal`. `formatInner(s)` is
   * the inner expression formatted at shape `s`. Redundant parentheses
   * outside a prefix are dropped and the comments after `)`, each after one
   * space, follow the inner expression; otherwise the parentheses stay and the
   * inner expression is formatted one column further right.
   */
  function FormatParentheses(ctx: Context, contained: Span, inner: Expr, context: ExpressionContext,
                             shape: Shape, formatInner: Shape -> Expr): (r: Expr)
    ensures CheckExcessParentheses(inner) && context == StandardContext ==>
      r == UpdateTrailingExpr(formatInner(shape), Append(SpacedComments(contained.end.trailing)))
    ensures !(CheckExcessParentheses(inner) && context == StandardContext) ==>
      r == Parentheses(General.FormatContainedSpan(ctx, contained, shape), formatInner(Layout.Plus(shape, 1)))
  {
    if CheckExcessParentheses(inner) && context == StandardContext then
      var comments := SpacedComments(contained.end.trailing);
      UpdateTrailingExpr(formatInner(shape), Append(comments))
    else
      Parentheses(General.FormatContainedSpan(ctx, contained, shape), formatInner(Layout.Plus(shape, 1)))
  }

  /** A prefix keeps its parentheses, whatever they hold. */
  lemma {:induction false} PrefixKeepsParentheses(ctx: Context, contained: Span, inner: Expr, shape: Shape, formatInner: Shape -> Expr)
    ensures FormatParentheses(ctx, contained, inner, PrefixContext, shape, formatInner).Parentheses?
  {
  }

  /**
   * Dropping parentheses loses no comment: the tokens are the formatted inner
   * ones with the comments that followed `)` appended after the last, in
   * order.
   */
  lemma {:induction false} DroppedParenthesesKeepComments(ctx: Context, contained: Span, inner: Expr, shape: Shape, formatInner: Shape -> Expr)
    requires CheckExcessParentheses(inner)
    requires RightEdgeHasSuffixes(formatInner(shape))
    ensures var r := FormatParentheses(ctx, contained, inner, StandardContext, shape, formatInner);
      && ExprTokens(r) == EditLast(ExprTokens(formatInner(shape)), Append(SpacedComments(contained.end.trailing)))
      && Comments(LastTrailing(ExprTokens(r)))
         == Comments(LastTrailing(ExprTokens(formatInner(shape)))) + Comments(contained.end.trailing)
  {
    var e := formatInner(shape);
    var comments := SpacedComments(contained.end.trailing);
    TrailingEditReachesLastToken(e, Append(comments));
    ExprTokensNonEmpty(e);
    CommentsAppend(LastTrailing(ExprTokens(e)), comments);
    SpacedCommentsKeepsComments(contained.end.trailing);
  }

  // ---------------------------------------------------------------------
  // Suffixes of a variable expression
  // ---------------------------------------------------------------------

  /** A suffix that would read as applying to a call's argument if the call lost its parentheses. */
  predicate ObscuresCall(s: Suffix) {
    s.IndexSuffix? || s.callPart.MethodCall?
  }

  /**
   * The loop of `format_var_expression`, reduced to what it hands each
   * suffix: whether the suffix after it is an index or a method call.
   */
  method SuffixNextNodes(ss: seq<Suffix>) returns (ns: seq<Functions.CallNextNode>)
    ensures |ns| == |ss|
    ensures forall i :: 0 <= i < |ss| ==>
      (ns[i] == Functions.ObscureWithoutParens <==> i + 1 < |ss| && ObscuresCall(ss[i + 1]))
  {
    ns := [];
    var i := 0;
    while i < |ss|
      invariant 0 <= i <= |ss| && |ns| == i
      invariant forall k :: 0 <= k < i ==>
        (ns[k] == Functions.ObscureWithoutParens <==> k + 1 < |ss| && ObscuresCall(ss[k + 1]))
    {
      var next := if i + 1 < |ss| && ObscuresCall(ss[i + 1]) then Functions.ObscureWithoutParens
                  else Functions.NoNextNode;
      ns := ns + [next];
      i := i + 1;
    }
  }

  /**
   * In `f("x").y` or `f{}:m()`, the call keeps its parentheses, whatever the
   * configuration says.
   */
  lemma {:induction false} ObscuredCallKeepsParentheses(ctx: Context, ss: seq<Suffix>, ns: seq<Functions.CallNextNode>, i: nat,
                                     parens: Span, arguments: seq<Pair<Expr>>)
    requires |ns| == |ss| && i + 1 < |ss| && ObscuresCall(ss[i + 1])
    requires forall k :: 0 <= k < |ss| ==>
      (ns[k] == Functions.ObscureWithoutParens <==> k + 1 < |ss| && ObscuresCall(ss[k + 1]))
    ensures Functions.OmitParentheses(ctx, parens, arguments, ns[i]).None?
  {
  }

  // ---------------------------------------------------------------------
  // Unary minus
  // ---------------------------------------------------------------------

  /**
   * The operand shapes the guard wraps: a negation, or a negation under a type
   * assertion. The source's second arm matches `Expression::Value { .. }`,
   * whose `..` ignores the assertion, so `-(-x) :: T` is wrapped too.
   */
  predicate IsNegation(e: Expr)
    decreases e
  {
    match e
    case UnaryOperator(op, _) => op.unKind == UnaryMinus
    case TypeAssertion(a, _, _) => IsNegation(a)
    case _ => false
  }

  /** The first token of `e` is a unary minus. */
  predicate StartsWithMinus(e: Expr)
    decreases e
  {
    match e
    case UnaryOperator(op, _) => op.unKind == UnaryMinus
    case TypeAssertion(a, _, _) => StartsWithMinus(a)
    case BinaryOperator(l, _, _) => StartsWithMinus(l)
    case _ => false
  }

  /** A minus that starts `e` inside the left operand of a binary operation. */
  predicate MinusUnderBinary(e: Expr)
    decreases e
  {
    match e
    case BinaryOperator(l, _, _) => StartsWithMinus(l)
    case TypeAssertion(a, _, _) => MinusUnderBinary(a)
    case _ => false
  }

  /** An expression starts with a minus exactly when it is a negation or has one at the left of a binary operation. */
  lemma {:induction false} StartsWithMinusCases(e: Expr)
    ensures StartsWithMinus(e) <==> IsNegation(e) || MinusUnderBinary(e)
    ensures !(IsNegation(e) && MinusUnderBinary(e))
    decreases e
  {
    match e
    case TypeAssertion(a, _, _) => StartsWithMinusCases(a);
    case _ =>
  }

  const OpenParen: TokenRef := TokenRef([], Symbol("("), [])
  const CloseParen: TokenRef := TokenRef([], Symbol(")"), [])

  /**
   * The operand step of the unary case of `format_expression_internal`:
   * `formatted` is the operand already formatted (its parentheses may have
   * been dropped). Under a minus, a negated operand is wrapped in new
   * parentheses that take over its trailing comments, since `--` would open
   * a comment.
   */
  function GuardNegation(unop: UnOp, formatted: Expr): (r: Expr)
    ensures !(unop.unKind == UnaryMinus && IsNegation(formatted)) ==> r == formatted
    ensures unop.unKind == UnaryMinus && IsNegation(formatted) ==>
      && r.Parentheses?
      && r.inner == TakeExpressionTrailingComments(formatted).0
      && r.contained == Span(OpenParen, CloseParen.(trailing := SpacedComments(ExprTrailingTrivia(formatted))))
  {
    if unop.unKind == UnaryMinus && IsNegation(formatted) then
      var (inner, comments) := TakeExpressionTrailingComments(formatted);
      Parentheses(UpdateSpan(Span(OpenParen, CloseParen), NoChange, Append(comments)), inner)
    else formatted
  }

  /**
   * After the guard, the operand is never a negation: a wrapped operand starts
   * with the new `(`, and the comments that ended the operand end the result.
   * The operand can still start with a minus only through the left operand of
   * a binary operation, a shape the source does not guard either.
   */
  lemma {:induction false} NoDoubleMinus(unop: UnOp, formatted: Expr)
    requires unop.unKind == UnaryMinus
    requires RightEdgeHasSuffixes(formatted)
    ensures !IsNegation(GuardNegation(unop, formatted))
    ensures StartsWithMinus(GuardNegation(unop, formatted)) <==> MinusUnderBinary(formatted)
    ensures IsNegation(formatted) ==>
      && [OpenParen] <= ExprTokens(GuardNegation(unop, formatted))
      && Comments(LastTrailing(ExprTokens(GuardNegation(unop, formatted))))
         == Comments(LastTrailing(ExprTokens(formatted)))
  {
    StartsWithMinusCases(formatted);
    if IsNegation(formatted) {
      var r := GuardNegation(unop, formatted);
      var cut := TakeExpressionTrailingComments(formatted).0;
      TakeTrailingCommentsSpec(formatted);
      ExprTrailingTriviaIsLastToken(formatted);
      SpacedCommentsKeepsComments(ExprTrailingTrivia(formatted));
      assert ExprTokens(r) == [r.contained.start] + ExprTokens(cut) + [r.contained.end];
      assert LastTrailing(ExprTokens(r)) == r.contained.end.trailing;
    }
  }

  // ---------------------------------------------------------------------
  // Precedence
  // ---------------------------------------------------------------------

  /**
   * Binding strength of each binary operator, as the parser library reports
   * it (the order of section 2.5.6 of the Lua 5.1 reference manual; 7 is the
   * unary operators' level).
   */
  function Precedence(k: BinOpKind): (r: nat)
    ensures 1 <= r <= 8 && r != 7
  {
    match k
    case Caret => 8
    case Star => 6
    case Slash => 6
    case Percent => 6
    case Plus => 5
    case Minus => 5
    case TwoDots => 4
    case LessThan => 3
    case GreaterThan => 3
    case LessThanEqual => 3
    case GreaterThanEqual => 3
    case TildeEqual => 3
    case TwoEqual => 3
    case And => 2
    case Or => 1
  }

  /** `..` and `^` group to the right; every other binary operator to the left. */
  predicate IsRightAssociative(k: BinOpKind) {
    k == TwoDots || k == Caret
  }

  /** `binop_precedence_level`: the top operator's precedence, 0 for anything else. */
  function BinopPrecedenceLevel(e: Expr): (r: nat)
    ensures r == 0 <==> !e.BinaryOperator?
    ensures e.BinaryOperator? ==> r == Precedence(e.binop.binKind)
  {
    match e
    case BinaryOperator(_, op, _) => Precedence(op.binKind)
    case _ => 0
  }

  /** `did_hang_expression`: a binary operation whose operator starts a new line. */
  function DidHangExpression(e: Expr): (r: bool)
    ensures r <==> e.BinaryOperator? && HasNewline(e.binop.binToken.leading)
    ensures !e.BinaryOperator? ==> !r
  {
    match e
    case BinaryOperator(_, op, _) =>
      if exists i :: 0 <= i < |op.binToken.leading| && TriviaIsNewline(op.binToken.leading[i]) then true else false
    case _ => false
  }

  // ---------------------------------------------------------------------
  // Hanging an operator
  // ---------------------------------------------------------------------

  /** Each comment on its own line at the shape's indentation: newline, indent, comment. */
  function OnOwnLines(ctx: Context, shape: Shape, cs: seq<Token>): (r: seq<Token>)
    ensures |r| == 3 * |cs|
  {
    if cs == [] then []
    else [CreateNewlineTrivia(ctx), CreateIndentTrivia(ctx, shape), cs[0]] + OnOwnLines(ctx, shape, cs[1..])
  }

  /** Comment lines carry exactly the comments they were built from. */
  lemma {:induction false} OnOwnLinesKeepsComments(ctx: Context, shape: Shape, cs: seq<Token>)
    requires forall i :: 0 <= i < |cs| ==> TriviaIsComment(cs[i])
    ensures Comments(OnOwnLines(ctx, shape, cs)) == cs
  {
    if cs != [] {
      var head := [CreateNewlineTrivia(ctx), CreateIndentTrivia(ctx, shape), cs[0]];
      OnOwnLinesKeepsComments(ctx, shape, cs[1..]);
      CommentsAppend(head, OnOwnLines(ctx, shape, cs[1..]));
      assert head[1..][1..][1..] == [];
      assert !TriviaIsComment(head[0]) && !TriviaIsComment(head[1]);
      assert Comments(head[2..]) == [cs[0]];
      assert Comments(head) == Comments(head[1..]) == Comments(head[2..]);
    }
  }

  /**
   * `hang_binop`: the operator moves to a new line at the shape's
   * indentation. Its own leading comments, then its trailing comments, then
   * the leading comments of the right operand come first, each leading comment
   * on a line of its own; a single space follows the operator.
   */
  function HangBinop(ctx: Context, op: BinOp, shape: Shape, rhs: Expr): (r: BinOp)
    ensures r.binKind == op.binKind && r.binToken.token == op.binToken.token
    ensures r.binToken.trailing == [Space]
    ensures |r.binToken.leading| >= 2
    ensures r.binToken.leading[|r.binToken.leading| - 2..] == [CreateNewlineTrivia(ctx), CreateIndentTrivia(ctx, shape)]
  {
    var leading :=
      OnOwnLines(ctx, shape, BinopLeadingComments(op))
      + BinopTrailingComments(op)
      + OnOwnLines(ctx, shape, Comments(ExprLeadingTrivia(rhs)))
      + [CreateNewlineTrivia(ctx), CreateIndentTrivia(ctx, shape)];
    BinOp(op.binKind, UpdateToken(op.binToken, Replace(leading), Replace([Space])))
  }

  /** Hanging an operator is what `did_hang_expression` later detects. */
  lemma {:induction false} HungOperatorIsDetected(ctx: Context, l: Expr, op: BinOp, shape: Shape, r: Expr)
    ensures DidHangExpression(BinaryOperator(l, HangBinop(ctx, op, shape, r), r))
  {
    var h := HangBinop(ctx, op, shape, r);
    var n := |h.binToken.leading|;
    assert h.binToken.leading[n - 2] == CreateNewlineTrivia(ctx);
    assert TriviaIsNewline(h.binToken.leading[n - 2]);
  }

  /**
   * Hanging keeps every comment: those before the operator, after it and
   * before the right operand all end up, in that order, before it.
   */
  lemma {:induction false} HangBinopKeepsComments(ctx: Context, op: BinOp, shape: Shape, rhs: Expr)
    ensures Comments(HangBinop(ctx, op, shape, rhs).binToken.leading)
      == Comments(op.binToken.leading) + Comments(op.binToken.trailing) + Comments(ExprLeadingTrivia(rhs))
  {
    var a := OnOwnLines(ctx, shape, BinopLeadingComments(op));
    var b := BinopTrailingComments(op);
    var c := OnOwnLines(ctx, shape, Comments(ExprLeadingTrivia(rhs)));
    var d := [CreateNewlineTrivia(ctx), CreateIndentTrivia(ctx, shape)];
    OnOwnLinesKeepsComments(ctx, shape, BinopLeadingComments(op));
    OnOwnLinesKeepsComments(ctx, shape, Comments(ExprLeadingTrivia(rhs)));
    SpacedCommentsKeepsComments(op.binToken.trailing);
    CommentsAppend(a, b);
    CommentsAppend(a + b, c);
    CommentsAppend(a + b + c, d);
    assert d[1..][1..] == [];
    assert Comments(d) == [];
  }

  // ---------------------------------------------------------------------
  // Width of a same-precedence chain
  // ---------------------------------------------------------------------

  /** `strip_trivia(x).to_string()`: the text of some tokens without the trivia at either end. */
  function StrippedText(ts: seq<TokenRef>): string {
    Render(EditLast(EditFirst(ts, Replace([])), Replace([])))
  }

  /** An operator that groups with the top one: at least as tight, and the same associativity. */
  predicate Groups(op: BinOp, top: BinOp) {
    Precedence(op.binKind) >= Precedence(top.binKind)
    && IsRightAssociative(op.binKind) == IsRightAssociative(top.binKind)
  }

  /**
   * `binop_expression_length`: the width of the chain of operators grouping
   * with the top one, following the side the operators associate to; an
   * operand is measured by its stripped text.
   */
  function BinopExpressionLength(e: Expr, top: BinOp): (r: nat)
    ensures e.BinaryOperator? && !Groups(e.binop, top) ==> r == 0
    ensures !e.BinaryOperator? ==> r == |StrippedText(ExprTokens(e))|
    decreases e
  {
    match e
    case BinaryOperator(lhs, op, rhs) =>
      if Groups(op, top) then
        var opWidth := |TokenText(op.binToken.token)| + 2;
        if IsRightAssociative(op.binKind) then
          BinopExpressionLength(rhs, top) + opWidth + |StrippedText(ExprTokens(lhs))|
        else
          BinopExpressionLength(lhs, top) + opWidth + |StrippedText(ExprTokens(rhs))|
      else 0
    case _ => |StrippedText(ExprTokens(e))|
  }

  /**
   * A looser top operator of the same associativity measures at least as
   * much: every operator grouping with the tighter one groups with it too.
   */
  lemma {:induction false} BinopLengthMonotone(e: Expr, loose: BinOp, tight: BinOp)
    requires Precedence(loose.binKind) <= Precedence(tight.binKind)
    requires IsRightAssociative(loose.binKind) == IsRightAssociative(tight.binKind)
    ensures BinopExpressionLength(e, tight) <= BinopExpressionLength(e, loose)
    decreases e
  {
    match e
    case BinaryOperator(lhs, op, rhs) =>
      if Groups(op, tight) {
        assert Groups(op, loose);
        if IsRightAssociative(op.binKind) {
          BinopLengthMonotone(rhs, loose, tight);
        } else {
          BinopLengthMonotone(lhs, loose, tight);
        }
      }
    case _ =>
  }

  // ---------------------------------------------------------------------
  // The leftmost operand
  // ---------------------------------------------------------------------

  /** A byte range of the original source, start and end. */
  datatype Range = Range(start: nat, end: nat)

  /**
   * `LeftmostRangeHang`: where the leftmost operand of a hanging chain sits,
   * and the additional indent level in force where the chain began.
   */
  datatype LeftmostRangeHang = LeftmostRangeHang(range: Range, originalAdditionalIndentLevel: usize)

  /** The leftmost operand of a binary-operator tree. */
  function LeftmostOperand(e: Expr): (r: Expr)
    ensures !r.BinaryOperator?
    decreases e
  {
    if e.BinaryOperator? then LeftmostOperand(e.lhs) else e
  }

  /** The leftmost operand's tokens start the expression's tokens. */
  lemma {:induction false} LeftmostOperandStarts(e: Expr)
    ensures ExprTokens(LeftmostOperand(e)) <= ExprTokens(e)
    decreases e
  {
    if e.BinaryOperator? {
      LeftmostOperandStarts(e.lhs);
    }
  }

  /**
   * `LeftmostRangeHang::find`: the range of the leftmost operand, with the
   * given indent level. `rangeOf` gives a node's position in the original
   * source, which the model does not track.
   */
  function FindLeftmost(e: Expr, originalAdditionalIndentLevel: usize, rangeOf: Expr -> Range): (r: LeftmostRangeHang)
    ensures r.range == rangeOf(LeftmostOperand(e))
    ensures r.originalAdditionalIndentLevel == originalAdditionalIndentLevel
    decreases e
  {
    match e
    case BinaryOperator(lhs, _, _) => FindLeftmost(lhs, originalAdditionalIndentLevel, rangeOf)
    case _ => LeftmostRangeHang(rangeOf(e), originalAdditionalIndentLevel)
  }

  predicate Within(inner: Range, outer: Range) {
    inner.start >= outer.start && inner.end <= outer.end
  }

  /**
   * `LeftmostRangeHang::required_shape`: an item containing the leftmost
   * operand is still on the line the chain started on, so it takes the
   * original additional indent; any other item keeps the shape.
   */
  function RequiredShape(h: LeftmostRangeHang, shape: Shape, item: Range): (r: Shape)
    ensures Within(h.range, item) ==> r.indent.additionalIndent == h.originalAdditionalIndentLevel
    ensures !Within(h.range, item) ==> r == shape
    ensures r.(indent := shape.indent) == shape
    ensures r.indent.blockIndent == shape.indent.blockIndent && r.indent.indentWidth == shape.indent.indentWidth
  {
    if Within(h.range, item) then
      WithIndent(shape, WithAdditionalIndent(shape.indent, h.originalAdditionalIndentLevel))
    else shape
  }

  /** Asking twice gives the same shape as asking once. */
  lemma {:induction false} RequiredShapeIdempotent(h: LeftmostRangeHang, shape: Shape, item: Range)
    ensures RequiredShape(h, RequiredShape(h, shape, item), item) == RequiredShape(h, shape, item)
  {
  }

  /**
   * `is_hang_binop_over_width`: the chain grouping with the top operator,
   * at the shape it will take, runs past the column budget.
   */
  function IsHangBinopOverWidth(shape: Shape, e: Expr, top: BinOp, lhsRange: Option<LeftmostRangeHang>,
                                rangeOf: Expr -> Range): (r: bool)
    ensures var s := if lhsRange.Some? then RequiredShape(lhsRange.value, shape, rangeOf(e)) else shape;
      r <==> UsedWidth(s) + BinopExpressionLength(e, top) > s.columnWidth
  {
    var s := match lhsRange
      case Some(h) => RequiredShape(h, shape, rangeOf(e))
      case None => shape;
    OverBudget(AddWidth(s, BinopExpressionLength(e, top)))
  }
}
