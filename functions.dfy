/**
 * Call and function-body decisions of src/formatters/functions.rs: the
 * argument-state machine and the width walk that decide whether a call's
 * arguments go multiline, when the parentheses of a call are dropped or hug
 * a table, whether an anonymous function collapses onto one line, and when a
 * call prefix stays inline.
 */
module Functions {
  import opened Wrappers
  import opened Text
  import opened Syntax
  import opened Trivia
  import opened TriviaUtil
  import opened FormatContext
  import opened Layout
  import C = Configuration

  // ---------------------------------------------------------------------
  // ArgumentState
  // ---------------------------------------------------------------------

  /** What the multiline heuristic has seen of the arguments so far. */
  datatype ArgumentState =
    | NothingSeen
    | SeenMultilineArguments
    | SeenNonMultilineArgumentAfterMultiline

  /** `record_multiline_arg`: the first multiline argument is noted; nothing else changes. */
  function RecordMultilineArg(s: ArgumentState): (r: ArgumentState)
    ensures s == NothingSeen ==> r == SeenMultilineArguments
    ensures s != NothingSeen ==> r == s
  {
    match s
    case NothingSeen => SeenMultilineArguments
    case _ => s
  }

  /** `record_standard_arg`: a plain argument after a multiline one is noted; nothing else changes. */
  function RecordStandardArg(s: ArgumentState): (r: ArgumentState)
    ensures s == SeenMultilineArguments ==> r == SeenNonMultilineArgumentAfterMultiline
    ensures s != SeenMultilineArguments ==> r == s
  {
    match s
    case SeenMultilineArguments => SeenNonMultilineArgumentAfterMultiline
    case _ => s
  }

  predicate ShouldHang(s: ArgumentState) {
    s == SeenNonMultilineArgumentAfterMultiline
  }

  /** The hanging state is absorbing: once there, every recorded argument keeps it there. */
  lemma {:induction false} HangingIsAbsorbing(s: ArgumentState)
    requires ShouldHang(s)
    ensures RecordMultilineArg(s) == s && RecordStandardArg(s) == s
  {
  }

  // ---------------------------------------------------------------------
  // The multiline heuristic
  // ---------------------------------------------------------------------

  /**
   * The kind of an argument formatted at infinite width: an anonymous
   * function or a table constructor, each either expanded over several lines
   * or collapsed, or any other expression (noting whether it is parenthesised
   * or an operator, which skips the complexity test).
   */
  datatype ArgKind =
    | FunctionArgument(expanded: bool)
    | TableArgument(expanded: bool)
    | OtherArgument(parenthesisedOrOperator: bool)

  /** An argument as the heuristic reads it: its kind, its text, and the comma after it. */
  datatype ArgInfo = ArgInfo(kind: ArgKind, text: string, punctuation: Option<TokenRef>)

  predicate IsExpanded(a: ArgInfo) {
    (a.kind.FunctionArgument? || a.kind.TableArgument?) && a.kind.expanded
  }

  /** The state change an argument causes. */
  function Transition(s: ArgumentState, a: ArgInfo): ArgumentState {
    if IsExpanded(a) then RecordMultilineArg(s)
    else if a.kind.OtherArgument? then RecordStandardArg(s)
    else s
  }

  /** `is_complex_arg`: the trimmed text spans several lines. */
  predicate IsComplexArg(text: string) {
    '\n' in Trim(text)
  }

  /** The printed width of the comments in some trivia. */
  function CommentWidth(ts: seq<Token>): nat {
    if ts == [] then 0
    else (if TriviaIsComment(ts[0]) then |TokenText(ts[0])| else 0) + CommentWidth(ts[1..])
  }

  /** One step of the walk: either the call must expand, or the state and shape carry on. */
  datatype Step = Expand | Carry(state: ArgumentState, shape: Shape)

  /**
   * An expanded function or table: it hangs the call if a plain argument
   * already followed a multiline one; otherwise its first line must fit, and
   * the line continues after its last line, whose width is `lastWidth`.
   */
  function ExpandedStep(s: ArgumentState, shape: Shape, text: string, lastWidth: nat): (r: Step)
    ensures r.Carry? ==> r.state == RecordMultilineArg(s)
    ensures ShouldHang(s) ==> r == Expand
  {
    if ShouldHang(s) then Expand
    else
      var first := TakeFirstLine(shape, text);
      if OverBudget(first) then Expand else Carry(RecordMultilineArg(s), AddWidth(Reset(first), lastWidth))
  }

  /** What one argument does to the state and the line, before the comma after it. */
  function KindStep(s: ArgumentState, shape: Shape, a: ArgInfo, count: nat): (r: Step)
    ensures r.Carry? ==> r.state == Transition(s, a)
    ensures IsExpanded(a) && ShouldHang(s) ==> r == Expand
  {
    match a.kind
    case FunctionArgument(expanded) =>
      if !expanded then Carry(s, AddWidth(shape, |a.text|)) else ExpandedStep(s, shape, a.text, 3)
    case TableArgument(expanded) =>
      if !expanded then Carry(s, AddWidth(shape, |a.text|)) else ExpandedStep(s, shape, a.text, 1)
    case OtherArgument(parenthesisedOrOperator) =>
      if !parenthesisedOrOperator && IsComplexArg(a.text) && count > 1 then Expand
      else if OverBudget(TakeFirstLine(shape, a.text)) then Expand
      else Carry(RecordStandardArg(s), TakeLastLine(shape, a.text))
  }

  /** What one argument of the loop in `function_args_multiline_heuristic` does. */
  function StepArg(s: ArgumentState, shape: Shape, a: ArgInfo, count: nat): (r: Step)
    ensures r.Carry? ==> r.state == Transition(s, a)
    ensures IsExpanded(a) && ShouldHang(s) ==> r == Expand
  {
    match KindStep(s, shape, a, count)
    case Expand => Expand
    case Carry(st, sh) =>
      if OverBudget(sh) then Expand
      else Carry(st, match a.punctuation case None => sh case Some(p) => AddWidth(sh, 2 + CommentWidth(p.trailing)))
  }

  /** The rest of the walk from a given state and shape; at the end the closing `)` must fit. */
  function Walk(s: ArgumentState, shape: Shape, args: seq<ArgInfo>, count: nat): bool
    decreases |args|
  {
    if args == [] then OverBudget(AddWidth(shape, 1))
    else match StepArg(s, shape, args[0], count)
      case Expand => true
      case Carry(st, sh) => Walk(st, sh, args[1..], count)
  }

  /** What `function_args_multiline_heuristic` decides. */
  function MultilineHeuristic(args: seq<ArgInfo>, shape: Shape): (r: bool)
    ensures args == [] ==> !r
    ensures shape.simpleHeuristics ==> !r
  {
    if args == [] then false
    else if shape.simpleHeuristics then false
    else Walk(NothingSeen, AddWidth(shape, 1), args, |args|)
  }

  /**
   * `function_args_multiline_heuristic`: walks the arguments keeping the
   * width of the current line, and expands as soon as a line goes over
   * budget, a complex argument appears among several, or a multiline
   * argument follows a plain one that followed a multiline one.
   */
  method FunctionArgsMultilineHeuristic(args: seq<ArgInfo>, shape: Shape) returns (b: bool)
    ensures b == MultilineHeuristic(args, shape)
  {
    if |args| == 0 {
      return false;
    }
    if shape.simpleHeuristics {
      return false;
    }
    var line := AddWidth(shape, 1);
    var state := NothingSeen;
    var i := 0;
    while i < |args|
      invariant 0 <= i <= |args|
      invariant MultilineHeuristic(args, shape) == Walk(state, line, args[i..], |args|)
    {
      assert args[i..][0] == args[i] && args[i..][1..] == args[i + 1..];
      var expand;
      expand, state, line := ArgumentStep(state, line, args[i], |args|);
      if expand {
        return true;
      }
      i := i + 1;
    }
    return OverBudget(AddWidth(line, 1));
  }

  /** The body of the loop over the arguments, for one argument. */
  method ArgumentStep(state: ArgumentState, line: Shape, a: ArgInfo, count: nat)
    returns (expand: bool, state': ArgumentState, line': Shape)
    ensures expand <==> StepArg(state, line, a, count) == Expand
    ensures !expand ==> StepArg(state, line, a, count) == Carry(state', line')
  {
    expand, state', line' := KindArgumentStep(state, line, a, count);
    if expand {
      return;
    }
    if OverBudget(line') {
      return true, state', line';
    }
    if a.punctuation.Some? {
      line' := AddWidth(line', 2 + CommentWidth(a.punctuation.value.trailing));
    }
  }

  /** The part of the loop body that depends on the kind of the argument. */
  method KindArgumentStep(state: ArgumentState, line: Shape, a: ArgInfo, count: nat)
    returns (expand: bool, state': ArgumentState, line': Shape)
    ensures expand <==> KindStep(state, line, a, count) == Expand
    ensures !expand ==> KindStep(state, line, a, count) == Carry(state', line')
  {
    expand, state', line' := false, state, line;
    match a.kind {
      case FunctionArgument(expanded) =>
        if expanded {
          expand, state', line' := ExpandedArgumentStep(state, line, a.text, 3);
        } else {
          line' := AddWidth(line', |a.text|);
        }
      case TableArgument(expanded) =>
        if expanded {
          expand, state', line' := ExpandedArgumentStep(state, line, a.text, 1);
        } else {
          line' := AddWidth(line', |a.text|);
        }
      case OtherArgument(parenthesisedOrOperator) =>
        state' := RecordStandardArg(state');
        if !parenthesisedOrOperator && IsComplexArg(a.text) && count > 1 {
          return true, state', line';
        }
        if OverBudget(TakeFirstLine(line', a.text)) {
          return true, state', line';
        }
        line' := TakeLastLine(line', a.text);
    }
  }

  /** The loop body for an expanded function or table argument. */
  method ExpandedArgumentStep(state: ArgumentState, line: Shape, text: string, lastWidth: nat)
    returns (expand: bool, state': ArgumentState, line': Shape)
    ensures expand <==> ExpandedStep(state, line, text, lastWidth) == Expand
    ensures !expand ==> ExpandedStep(state, line, text, lastWidth) == Carry(state', line')
  {
    expand, state', line' := false, state, line;
    if ShouldHang(state') {
      return true, state', line';
    }
    state' := RecordMultilineArg(state');
    line' := TakeFirstLine(line', text);
    if OverBudget(line') {
      return true, state', line';
    }
    line' := AddWidth(Reset(line'), lastWidth);
  }

  /** The state after a run of arguments. */
  function RunStates(s: ArgumentState, args: seq<ArgInfo>): ArgumentState
    decreases |args|
  {
    if args == [] then s else RunStates(Transition(s, args[0]), args[1..])
  }

  /** Some multiline argument is followed, later, by a plain one. */
  predicate MultilineThenPlain(args: seq<ArgInfo>) {
    exists i, j :: 0 <= i < j < |args| && IsExpanded(args[i]) && args[j].kind.OtherArgument?
  }

  /**
   * The state machine reaches the hanging state exactly when a multiline
   * argument has been followed by a plain one (starting from nothing seen).
   */
  lemma {:induction false} RunHangsIff(s: ArgumentState, args: seq<ArgInfo>)
    ensures ShouldHang(RunStates(s, args)) <==>
      || ShouldHang(s)
      || (s == SeenMultilineArguments && exists j :: 0 <= j < |args| && args[j].kind.OtherArgument?)
      || MultilineThenPlain(args)
    decreases |args|
  {
    if args != [] {
      var t := Transition(s, args[0]);
      var rest := args[1..];
      RunHangsIff(t, rest);
      assert forall j :: 0 <= j < |rest| ==> rest[j] == args[j + 1];
      if MultilineThenPlain(args) {
        var i, j :| 0 <= i < j < |args| && IsExpanded(args[i]) && args[j].kind.OtherArgument?;
        if i == 0 {
          assert t != NothingSeen;
          assert rest[j - 1].kind.OtherArgument?;
        } else {
          assert IsExpanded(rest[i - 1]) && rest[j - 1].kind.OtherArgument?;
        }
      }
      if s == SeenMultilineArguments && exists j :: 0 <= j < |args| && args[j].kind.OtherArgument? {
        var j :| 0 <= j < |args| && args[j].kind.OtherArgument?;
        if j > 0 {
          assert rest[j - 1].kind.OtherArgument?;
        }
      }
      if MultilineThenPlain(rest) {
        var i, j :| 0 <= i < j < |rest| && IsExpanded(rest[i]) && rest[j].kind.OtherArgument?;
        assert IsExpanded(args[i + 1]) && args[j + 1].kind.OtherArgument?;
      }
      if t == SeenMultilineArguments && exists j :: 0 <= j < |rest| && rest[j].kind.OtherArgument? {
        var j :| 0 <= j < |rest| && rest[j].kind.OtherArgument?;
        assert args[j + 1].kind.OtherArgument?;
        if s == NothingSeen {
          assert IsExpanded(args[0]);
        }
      }
    }
  }

  /** An expanded argument met in the hanging state ends the walk with "expand". */
  lemma {:induction false} WalkExpandsAtHang(s: ArgumentState, shape: Shape, args: seq<ArgInfo>, count: nat, k: nat)
    requires k < |args| && IsExpanded(args[k]) && ShouldHang(RunStates(s, args[..k]))
    ensures Walk(s, shape, args, count)
    decreases |args|
  {
    if k == 0 {
      assert args[..0] == [];
    } else {
      match StepArg(s, shape, args[0], count)
      case Expand =>
      case Carry(st, sh) =>
        assert args[..k][0] == args[0] && args[..k][1..] == args[1..][..k - 1];
        WalkExpandsAtHang(st, sh, args[1..], count, k - 1);
    }
  }

  /**
   * `call({ ... }, foo, { ... })` always expands: a multiline argument, then
   * a plain one, then another multiline one force the arguments multiline.
   */
  lemma {:induction false} MixedArgumentsExpand(args: seq<ArgInfo>, shape: Shape, i: nat, j: nat, k: nat)
    requires i < j < k < |args|
    requires IsExpanded(args[i]) && args[j].kind.OtherArgument? && IsExpanded(args[k])
    requires !shape.simpleHeuristics
    ensures MultilineHeuristic(args, shape)
  {
    var front := args[..k];
    assert IsExpanded(front[i]) && front[j].kind.OtherArgument?;
    RunHangsIff(NothingSeen, front);
    WalkExpandsAtHang(NothingSeen, AddWidth(shape, 1), args, |args|, k);
  }

  // ---------------------------------------------------------------------
  // Parentheses of a call
  // ---------------------------------------------------------------------

  /** `FunctionCallNextNode`: whether dropping the parentheses would read as indexing the argument. */
  datatype CallNextNode = ObscureWithoutParens | NoNextNode

  /** A table passed without parentheses, with the trivia after `)` after its `}`. */
  function UnparenthesisedTable(tc: TableConstructor, trailing: seq<Token>): (r: FunctionArgs)
    ensures ArgsTokens(r) == EditLast(TableTokens(tc), Append(trailing))
  {
    EditBracketed(tc.braces.start, FieldsTokens(tc.fields), tc.braces.end, NoChange, Append(trailing));
    NoChangeIsIdentity(TableTokens(tc));
    TableArg(UpdateTable(tc, NoChange, Append(trailing)))
  }

  /**
   * The single argument passed without parentheses: a string when string
   * parentheses are omitted, a table when table parentheses are, with the
   * trivia after `)` moved onto its last token.
   */
  function OmitArgument(ctx: Context, parens: Span, e: Expr): (r: Option<FunctionArgs>)
    ensures r.Some? <==> (e.StringExpr? && ShouldOmitStringParens(ctx)) || (e.TableExpr? && ShouldOmitTableParens(ctx))
    ensures r.Some? ==> ArgsTokens(r.value) == EditLast(ExprTokens(e), Append(parens.end.trailing))
  {
    if e.StringExpr? && ShouldOmitStringParens(ctx) then
      assert ExprTokens(e) == [e.stringToken];
      Some(StringArg(UpdateTrailingToken(e.stringToken, Append(parens.end.trailing))))
    else if e.TableExpr? && ShouldOmitTableParens(ctx) then
      assert ExprTokens(e) == TableTokens(e.table);
      Some(UnparenthesisedTable(e.table, parens.end.trailing))
    else None
  }

  /**
   * The parentheses-omission branch of `format_function_args`: with a
   * configuration that omits them, a single string or table argument is
   * passed without parentheses, keeping the trivia after `)`.
   */
  function OmitParentheses(ctx: Context, parens: Span, arguments: seq<Pair<Expr>>, next: CallNextNode): (r: Option<FunctionArgs>)
    ensures r.Some? <==>
      && ctx.config.callParentheses != C.CallParenType.Input
      && (ShouldOmitStringParens(ctx) || ShouldOmitTableParens(ctx))
      && |arguments| == 1
      && next != ObscureWithoutParens
      && ((arguments[0].value.StringExpr? && ShouldOmitStringParens(ctx))
          || (arguments[0].value.TableExpr? && ShouldOmitTableParens(ctx)))
    ensures r.Some? ==> ArgsTokens(r.value) == EditLast(ExprTokens(arguments[0].value), Append(parens.end.trailing))
  {
    if ctx.config.callParentheses != C.CallParenType.Input
       && (ShouldOmitStringParens(ctx) || ShouldOmitTableParens(ctx))
       && |arguments| == 1
       && next != ObscureWithoutParens
    then OmitArgument(ctx, parens, arguments[0].value)
    else None
  }

  /** A parenthesised call never loses its parentheses under `Always` or `Input` without the deprecated flag. */
  lemma {:induction false} ParenthesesKept(ctx: Context, parens: Span, arguments: seq<Pair<Expr>>, next: CallNextNode)
    requires ctx.config.callParentheses.Always? || ctx.config.callParentheses.Input?
    requires !ctx.config.noCallParentheses
    ensures OmitParentheses(ctx, parens, arguments, next).None?
  {
  }

  /** `function_trivia_contains_comments`: a single-line comment, or a multi-line one spanning lines. */
  predicate ForcingComment(t: Token) {
    t.SingleLineComment? || (t.MultiLineComment? && |Lines(t.comment)| > 1)
  }

  predicate AnyForcingComment(ts: seq<Token>) {
    exists i :: 0 <= i < |ts| && ForcingComment(ts[i])
  }

  predicate ArgumentHasComments(p: Pair<Expr>) {
    || AnyForcingComment(ExprLeadingTrivia(p.value) + ExprTrailingTrivia(p.value))
    || (p.punctuation.Some? && AnyForcingComment(p.punctuation.value.leading + p.punctuation.value.trailing))
  }

  /** `function_args_contains_comments`. */
  predicate FunctionArgsContainsComments(parens: Span, arguments: seq<Pair<Expr>>) {
    || HasCommentsBy(Single, parens.start.trailing)
    || HasCommentsBy(Single, parens.end.leading)
    || exists i :: 0 <= i < |arguments| && ArgumentHasComments(arguments[i])
  }

  /** How `format_function_args` lays out parenthesised arguments. */
  datatype ArgsLayout = ArgsMultiline | ArgsSingleLine(hugTable: bool)

  /**
   * Comments force multiline; otherwise the heuristic does, except that a
   * lone table argument then hugs the parentheses and is formatted on one
   * line with room for both of them.
   */
  function ArgsLayoutOf(parens: Span, arguments: seq<Pair<Expr>>, heuristic: bool): (r: ArgsLayout)
    ensures r.ArgsMultiline? <==>
      FunctionArgsContainsComments(parens, arguments) || (heuristic && !(|arguments| == 1 && arguments[0].value.TableExpr?))
    ensures r == ArgsSingleLine(true) <==>
      !FunctionArgsContainsComments(parens, arguments) && heuristic && |arguments| == 1 && arguments[0].value.TableExpr?
  {
    var force := FunctionArgsContainsComments(parens, arguments);
    var multiline := force || heuristic;
    var hug := multiline && !force && |arguments| == 1 && arguments[0].value.TableExpr?;
    if multiline && !hug then ArgsMultiline else ArgsSingleLine(hug)
  }

  // ---------------------------------------------------------------------
  // Nested functions
  // ---------------------------------------------------------------------

  /** `contains_nested_function`: a function literal somewhere inside the expression. */
  function ContainsNestedFunction(e: Expr): bool
    decreases e
  {
    match e
    case FunctionExpr(_, _) => true
    case CallExpr(c) => CallContainsNestedFunction(c)
    case TableExpr(t) => FieldsContainNestedFunction(t.fields)
    case VarExpr(v) => VarContainsNestedFunction(v)
    case BinaryOperator(l, _, r) => ContainsNestedFunction(l) || ContainsNestedFunction(r)
    case Parentheses(_, x) => ContainsNestedFunction(x)
    case UnaryOperator(_, x) => ContainsNestedFunction(x)
    case TypeAssertion(x, _, _) => ContainsNestedFunction(x)
    case _ => false
  }

  function CallContainsNestedFunction(c: FunctionCall): bool
    decreases c
  {
    SuffixesContainNestedFunction(c.suffixes) || (c.prefix.ExprPrefix? && ContainsNestedFunction(c.prefix.expr))
  }

  function VarContainsNestedFunction(v: Var): bool
    decreases v
  {
    match v
    case NameVar(_) => false
    case IndexedVar(p, ss) => SuffixesContainNestedFunction(ss) || (p.ExprPrefix? && ContainsNestedFunction(p.expr))
  }

  function SuffixesContainNestedFunction(ss: seq<Suffix>): bool
    decreases ss
  {
    if ss == [] then false
    else
      SuffixContainsNestedFunction(ss[0]) || SuffixesContainNestedFunction(ss[1..])
  }

  function SuffixContainsNestedFunction(s: Suffix): bool
    decreases s
  {
    match s
    case IndexSuffix(BracketIndex(_, x)) => ContainsNestedFunction(x)
    case IndexSuffix(DotIndex(_, _)) => false
    case CallSuffix(AnonymousCall(a)) => ArgsContainNestedFunction(a)
    case CallSuffix(MethodCall(_, _, a)) => ArgsContainNestedFunction(a)
  }

  function ArgsContainNestedFunction(a: FunctionArgs): bool
    decreases a
  {
    match a
    case ParenArgs(_, args) => ExprListContainsNestedFunction(args)
    case TableArg(t) => FieldsContainNestedFunction(t.fields)
    case StringArg(_) => false
  }

  function ExprListContainsNestedFunction(ps: seq<Pair<Expr>>): bool
    decreases ps
  {
    if ps == [] then false
    else
      var p := ps[0];
      assert p.value < p;
      ContainsNestedFunction(p.value) || ExprListContainsNestedFunction(ps[1..])
  }

  function FieldsContainNestedFunction(ps: seq<Pair<Field>>): bool
    decreases ps
  {
    if ps == [] then false
    else
      var p := ps[0];
      var f := p.value;
      assert f < p;
      (match f
       case NoKey(x) => ContainsNestedFunction(x)
       case ExpressionKey(_, k, _, x) => ContainsNestedFunction(k) || ContainsNestedFunction(x)
       case NameKey(_, _, x) => ContainsNestedFunction(x))
      || FieldsContainNestedFunction(ps[1..])
  }

  lemma {:induction false} SuffixesSnocNestedFunction(ss: seq<Suffix>, x: Suffix)
    ensures SuffixesContainNestedFunction(ss + [x]) == (SuffixesContainNestedFunction(ss) || SuffixContainsNestedFunction(x))
    decreases |ss|
  {
    if ss == [] {
      assert [x][1..] == [];
    } else {
      assert (ss + [x])[1..] == ss[1..] + [x];
      SuffixesSnocNestedFunction(ss[1..], x);
    }
  }

  /** Editing the trivia after the last suffix does not change what the suffixes contain. */
  lemma {:induction false} LastSuffixEditNestedFunction(ss: seq<Suffix>, edit: FormatTriviaType)
    ensures SuffixesContainNestedFunction(UpdateLastSuffix(ss, edit)) == SuffixesContainNestedFunction(ss)
  {
    if !edit.NoChange? && ss != [] {
      var front := ss[..|ss| - 1];
      assert ss == front + [ss[|ss| - 1]];
      SuffixesSnocNestedFunction(front, ss[|ss| - 1]);
      SuffixesSnocNestedFunction(front, UpdateSuffix(ss[|ss| - 1], NoChange, edit));
    }
  }

  /**
   * Formatting the trailing trivia of an expression never changes whether
   * it holds a nested function, so deciding on the formatted arguments is
   * the same as deciding on the originals.
   */
  lemma {:induction false} TrailingEditKeepsNestedFunction(e: Expr, edit: FormatTriviaType)
    ensures ContainsNestedFunction(UpdateTrailingExpr(e, edit)) == ContainsNestedFunction(e)
    decreases e
  {
    match e
    case CallExpr(c) => LastSuffixEditNestedFunction(c.suffixes, edit);
    case VarExpr(v) =>
      if v.IndexedVar? {
        LastSuffixEditNestedFunction(v.varSuffixes, edit);
      }
    case UnaryOperator(_, x) => TrailingEditKeepsNestedFunction(x, edit);
    case BinaryOperator(_, _, r) => TrailingEditKeepsNestedFunction(r, edit);
    case _ =>
  }

  // ---------------------------------------------------------------------
  // Collapsing function bodies
  // ---------------------------------------------------------------------

  /**
   * What `is_block_simple` guarantees about a block it accepts: at most one
   * statement, an assignment, a local assignment or a call.
   */
  predicate SimpleShape(b: Block) {
    && |b.stmts| <= 1
    && forall i :: 0 <= i < |b.stmts| ==>
         b.stmts[i].stmt.Assignment? || b.stmts[i].stmt.LocalAssignment? || b.stmts[i].stmt.CallStmt?
  }

  function VarListContainsNestedFunction(ps: seq<Pair<Var>>): bool
    decreases ps
  {
    if ps == [] then false
    else
      var p := ps[0];
      assert p.value < p;
      VarContainsNestedFunction(p.value) || VarListContainsNestedFunction(ps[1..])
  }

  /** `block_contains_nested_function`, on a block of the simple shape. */
  function BlockContainsNestedFunction(b: Block): bool
    requires SimpleShape(b)
  {
    var inStmt :=
      if b.stmts == [] then false
      else match b.stmts[0].stmt
        case Assignment(vs, _, es) => VarListContainsNestedFunction(vs) || ExprListContainsNestedFunction(es)
        case LocalAssignment(_, _, _, _, es) => ExprListContainsNestedFunction(es)
        case CallStmt(c) => CallContainsNestedFunction(c);
    inStmt
    || (b.lastStmt.Some? && b.lastStmt.value.last.Return? && ExprListContainsNestedFunction(b.lastStmt.value.last.returnValues))
  }

  /**
   * `should_collapse_function_body`: never with a comment after `)`, before
   * `end` or in the block; always for an empty block; otherwise only for a
   * simple block, with the option on, and without a nested function.
   * `blockSimple` is the answer of `is_block_simple`, which is given.
   */
  function ShouldCollapseFunctionBody(ctx: Context, body: FunctionBody, blockSimple: bool): (r: bool)
    requires blockSimple ==> SimpleShape(body.block)
    ensures (HasComment(body.parameterParens.end.trailing) || HasComment(body.endToken.leading)
             || ContainsComments(BlockTokens(body.block))) ==> !r
    ensures r <==>
      && !HasComment(body.parameterParens.end.trailing)
      && !HasComment(body.endToken.leading)
      && !ContainsComments(BlockTokens(body.block))
      && (IsBlockEmpty(body.block)
          || (blockSimple && ShouldCollapseSimpleFunctions(ctx) && !BlockContainsNestedFunction(body.block)))
  {
    var requireMultiline :=
      HasComment(body.parameterParens.end.trailing) || HasComment(body.endToken.leading)
      || ContainsComments(BlockTokens(body.block));
    !requireMultiline
    && (IsBlockEmpty(body.block)
        || (blockSimple && ShouldCollapseSimpleFunctions(ctx) && !BlockContainsNestedFunction(body.block)))
  }

  /** An empty function (`function() end` with no comment inside) always collapses. */
  lemma {:induction false} EmptyFunctionCollapses(ctx: Context, body: FunctionBody, blockSimple: bool)
    requires blockSimple ==> SimpleShape(body.block)
    requires IsFunctionEmpty(body)
    ensures ShouldCollapseFunctionBody(ctx, body, blockSimple)
  {
    BlockEmptyIffNoTokens(body.block);
  }

  /** With simple functions not collapsed by the options, only empty ones collapse. */
  lemma {:induction false} OnlyEmptyCollapsesWhenOff(ctx: Context, body: FunctionBody, blockSimple: bool)
    requires blockSimple ==> SimpleShape(body.block)
    requires !ShouldCollapseSimpleFunctions(ctx)
    ensures ShouldCollapseFunctionBody(ctx, body, blockSimple) <==> IsFunctionEmpty(body)
  {
    BlockEmptyIffNoTokens(body.block);
  }

  // ---------------------------------------------------------------------
  // Inline prefixes
  // ---------------------------------------------------------------------

  /** The prefix printed without the trivia around it (`strip_trivia(prefix).to_string()`). */
  function PrefixText(p: Prefix): string {
    Render(EditLast(EditFirst(PrefixTokens(p), Replace([])), Replace([])))
  }

  /**
   * `should_inline_prefix`: a prefix starting with an upper-case letter, or
   * no longer than the indent width. The source reads the first character
   * unconditionally, so the prefix text is not empty.
   */
  function ShouldInlinePrefix(ctx: Context, p: Prefix): (r: bool)
    requires PrefixText(p) != []
    ensures r <==> IsUpper(PrefixText(p)[0]) || |PrefixText(p)| <= ctx.config.indentWidth
  {
    var text := PrefixText(p);
    IsUpper(text[0]) || |text| <= ctx.config.indentWidth
  }

  /** A name prefix is measured by its own text, whatever trivia surrounds it. */
  lemma {:induction false} NamePrefixText(n: TokenRef)
    ensures PrefixText(NamePrefix(n)) == TokenText(n.token)
  {
    var stripped := EditLast(EditFirst([n], Replace([])), Replace([]));
    assert stripped == [TokenRef([], n.token, [])];
    assert TriviaText([]) == "";
    assert stripped[1..] == [];
    assert Render(stripped) == TokenRefText(stripped[0]) + Render([]);
    assert TokenRefText(stripped[0]) == "" + TokenText(n.token) + "";
  }
}
