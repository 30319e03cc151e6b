/**
 * The formatting context of src/context.rs: the configuration, an optional
 * byte range to format, and whether `-- stylua: ignore start` has switched
 * formatting off. It decides whether a node is formatted, skipped, or only
 * looked into, and builds indentation and newline trivia.
 */
module FormatContext {
  import opened Wrappers
  import opened Text
  import opened Syntax
  import opened TriviaUtil
  import C = Configuration
  import Layout

  /** `FormatNode`: what to do with a node. */
  datatype FormatNode = Skip | NotInRange | Normal

  /** `Range`: byte bounds of the region to format; each bound may be absent. */
  datatype FormatRange = FormatRange(start: Option<usize>, end: Option<usize>)

  datatype Context = Context(config: C.Config, range: Option<FormatRange>, formattingDisabled: bool)

  /**
   * What the context reads from a node: its leading trivia and the byte
   * positions of its start and end (absent for a node without tokens).
   */
  datatype NodeInfo = NodeInfo(leading: seq<Token>, startPosition: Option<nat>, endPosition: Option<nat>)

  /** `Context::new`: formatting starts switched on. */
  function NewContext(config: C.Config, range: Option<FormatRange>): (r: Context)
    ensures r.config == config && r.range == range && !r.formattingDisabled
  {
    Context(config, range, false)
  }

  const IgnoreStart := "stylua: ignore start"
  const IgnoreEnd := "stylua: ignore end"
  const IgnoreNode := "stylua: ignore"

  /** The text of a comment trivia, if it is one. */
  function CommentText(t: Token): (r: Option<string>)
    ensures r.Some? <==> TriviaIsComment(t)
  {
    match t
    case SingleLineComment(c) => Some(c)
    case MultiLineComment(_, c) => Some(c)
    case _ => None
  }

  /** Every line trimmed, as `lines().map(str::trim)` yields them. */
  function TrimEach(ls: seq<string>): (r: seq<string>)
    ensures |r| == |ls|
    ensures forall i :: 0 <= i < |ls| ==> r[i] == Trim(ls[i])
  {
    seq(|ls|, i requires 0 <= i < |ls| => Trim(ls[i]))
  }

  /** The trimmed lines of one trivia: none unless it is a comment. */
  function TriviaCommentLines(t: Token): seq<string> {
    match CommentText(t)
    case None => []
    case Some(c) => TrimEach(Lines(c))
  }

  /** The trimmed lines of every comment in some trivia, in order. */
  function CommentLines(ts: seq<Token>): seq<string> {
    if ts == [] then [] else TriviaCommentLines(ts[0]) + CommentLines(ts[1..])
  }

  /** A line is in the comment lines exactly when one trivia holds it. */
  lemma {:induction false} CommentLinesMembership(ts: seq<Token>, line: string)
    ensures line in CommentLines(ts) <==> exists j :: 0 <= j < |ts| && line in TriviaCommentLines(ts[j])
  {
    if ts != [] {
      CommentLinesMembership(ts[1..], line);
      if line in CommentLines(ts[1..]) {
        var j :| 0 <= j < |ts[1..]| && line in TriviaCommentLines(ts[1..][j]);
        assert ts[1..][j] == ts[j + 1];
      }
      if exists j :: 0 <= j < |ts| && line in TriviaCommentLines(ts[j]) {
        var j :| 0 <= j < |ts| && line in TriviaCommentLines(ts[j]);
        if j > 0 {
          assert ts[1..][j - 1] == ts[j];
        }
      }
    }
  }

  /** Whether a comment line switches formatting off (`Some(true)`) or on (`Some(false)`). */
  function ToggleOf(line: string): Option<bool> {
    if line == IgnoreStart then Some(true)
    else if line == IgnoreEnd then Some(false)
    else None
  }

  /** The switch set by the last toggling line, if any line toggles. */
  function LastToggle(lines: seq<string>): Option<bool> {
    if lines == [] then None
    else
      var n := |lines| - 1;
      match ToggleOf(lines[n])
      case Some(b) => Some(b)
      case None => LastToggle(lines[..n])
  }

  /** Some line sets the switch exactly when some line is a toggle line. */
  lemma {:induction false} LastToggleFindsToggleLines(lines: seq<string>)
    ensures LastToggle(lines).Some? <==> exists i :: 0 <= i < |lines| && ToggleOf(lines[i]).Some?
  {
    if lines != [] {
      var n := |lines| - 1;
      LastToggleFindsToggleLines(lines[..n]);
      forall i | 0 <= i < n
        ensures lines[..n][i] == lines[i]
      {
      }
    }
  }

  /**
   * The context after the toggle comments of a node's leading trivia: the
   * last toggling line decides, and without one nothing changes.
   */
  function ToggledContext(ctx: Context, leading: seq<Token>): (r: Context)
    ensures r.config == ctx.config && r.range == ctx.range
    ensures LastToggle(CommentLines(leading)).None? ==> r == ctx
    ensures LastToggle(CommentLines(leading)).Some? ==> r.formattingDisabled == LastToggle(CommentLines(leading)).value
  {
    ctx.(formattingDisabled := LastToggle(CommentLines(leading)).UnwrapOr(ctx.formattingDisabled))
  }

  /**
   * `check_toggle_formatting`: walks the trimmed comment lines of the
   * node's leading trivia; `ignore start` switches formatting off and
   * `ignore end` on again.
   */
  method CheckToggleFormatting(ctx: Context, leading: seq<Token>) returns (r: Context)
    ensures r == ToggledContext(ctx, leading)
  {
    var disabled := ApplyToggles(ctx.formattingDisabled, CommentLines(leading));
    r := ctx.(formattingDisabled := disabled);
  }

  /** The loop of `check_toggle_formatting` over the comment lines, in order. */
  method ApplyToggles(initial: bool, lines: seq<string>) returns (disabled: bool)
    ensures disabled == LastToggle(lines).UnwrapOr(initial)
  {
    disabled := initial;
    for i := 0 to |lines|
      invariant disabled == LastToggle(lines[..i]).UnwrapOr(initial)
    {
      assert lines[..i + 1][..i] == lines[..i];
      match ToggleOf(lines[i])
      case Some(b) => disabled := b;
      case None =>
    }
    assert lines[..|lines|] == lines;
  }

  /**
   * The toggle state depends only on the last toggling line: with none the
   * state is kept, and a final `ignore start` always leaves formatting off.
   */
  lemma {:induction false} LastToggleWins(lines: seq<string>, more: seq<string>)
    ensures (forall i :: 0 <= i < |more| ==> ToggleOf(more[i]).None?) ==> LastToggle(lines + more) == LastToggle(lines)
    ensures LastToggle(lines + [IgnoreStart] + more) == Some(true) || LastToggle(more).Some?
    ensures LastToggle(lines + [IgnoreEnd] + more) == Some(false) || LastToggle(more).Some?
    decreases |more|
  {
    if more == [] {
      assert lines + more == lines;
      assert lines + [IgnoreStart] + more == lines + [IgnoreStart];
      assert (lines + [IgnoreStart])[..|lines|] == lines;
      assert lines + [IgnoreEnd] + more == lines + [IgnoreEnd];
      assert (lines + [IgnoreEnd])[..|lines|] == lines;
    } else {
      var n := |more| - 1;
      LastToggleWins(lines, more[..n]);
      assert (lines + more)[..|lines| + n] == lines + more[..n];
      assert (lines + [IgnoreStart] + more)[..|lines| + 1 + n] == lines + [IgnoreStart] + more[..n];
      assert (lines + [IgnoreEnd] + more)[..|lines| + 1 + n] == lines + [IgnoreEnd] + more[..n];
      assert more[..n + 1][..n] == more[..n];
      assert (lines + more)[|lines| + n] == more[n];
      assert (lines + [IgnoreStart] + more)[|lines| + 1 + n] == more[n];
      assert (lines + [IgnoreEnd] + more)[|lines| + 1 + n] == more[n];
      if ToggleOf(more[n]).None? {
        assert LastToggle(more) == LastToggle(more[..n]);
      }
    }
  }

  /** Whether the node is outside the range to format. */
  predicate OutsideRange(range: Option<FormatRange>, node: NodeInfo) {
    match range
    case None => false
    case Some(FormatRange(lo, hi)) =>
      (lo.Some? && node.startPosition.Some? && node.startPosition.value < lo.value)
      || (hi.Some? && node.endPosition.Some? && node.endPosition.value > hi.value)
  }

  /** The loops of `should_format_node`: is some trimmed comment line `stylua: ignore`? */
  method AnyIgnoreLine(lines: seq<string>) returns (b: bool)
    ensures b <==> IgnoreNode in lines
  {
    for k := 0 to |lines|
      invariant IgnoreNode !in lines[..k]
    {
      if lines[k] == IgnoreNode {
        return true;
      }
    }
    return false;
  }

  /** What `should_format_node` decides, in order of its checks. */
  function FormatNodeOf(ctx: Context, node: NodeInfo): FormatNode {
    if ctx.formattingDisabled then Skip
    else if IgnoreNode in CommentLines(node.leading) then Skip
    else if OutsideRange(ctx.range, node) then NotInRange
    else Normal
  }

  /**
   * `should_format_node`: skip when formatting is off or a leading comment
   * line reads `stylua: ignore`; otherwise not in range when the node starts
   * before or ends after the range; otherwise normal.
   */
  method ShouldFormatNode(ctx: Context, node: NodeInfo) returns (r: FormatNode)
    ensures r == FormatNodeOf(ctx, node)
  {
    if ctx.formattingDisabled {
      return Skip;
    }
    var ignored := AnyIgnoreLine(CommentLines(node.leading));
    if ignored {
      return Skip;
    }
    if ctx.range.Some? {
      var range := ctx.range.value;
      if range.start.Some? && node.startPosition.Some? && node.startPosition.value < range.start.value {
        return NotInRange;
      }
      if range.end.Some? && node.endPosition.Some? && node.endPosition.value > range.end.value {
        return NotInRange;
      }
    }
    return Normal;
  }

  /**
   * The outcomes of `should_format_node`: a disabled context skips every
   * node, an ignore line skips the node, and a node with no such comment in
   * an enabled context is formatted exactly when it is inside the range.
   */
  lemma {:induction false} FormatNodeOutcomes(ctx: Context, node: NodeInfo, before: seq<Token>, c: string, after: seq<Token>)
    ensures ctx.formattingDisabled ==> FormatNodeOf(ctx, node) == Skip
    ensures node.leading == before + [SingleLineComment(c)] + after && IgnoreNode in TrimEach(Lines(c))
      ==> FormatNodeOf(ctx, node) == Skip
    ensures FormatNodeOf(ctx, node) == NotInRange <==>
      !ctx.formattingDisabled && IgnoreNode !in CommentLines(node.leading) && OutsideRange(ctx.range, node)
    ensures ctx.range.None? && !ctx.formattingDisabled && IgnoreNode !in CommentLines(node.leading)
      ==> FormatNodeOf(ctx, node) == Normal
  {
    if node.leading == before + [SingleLineComment(c)] + after && IgnoreNode in TrimEach(Lines(c)) {
      CommentLinesMembership(node.leading, IgnoreNode);
      assert node.leading[|before|] == SingleLineComment(c);
    }
  }

  /** After a final `ignore start`, every following node is skipped. */
  lemma {:induction false} IgnoreStartSkips(ctx: Context, leading: seq<Token>, node: NodeInfo)
    requires LastToggle(CommentLines(leading)) == Some(true)
    ensures FormatNodeOf(ctx.(formattingDisabled := LastToggle(CommentLines(leading)).UnwrapOr(ctx.formattingDisabled)), node) == Skip
  {
  }

  /** `should_omit_string_parens`. */
  predicate ShouldOmitStringParens(ctx: Context) {
    ctx.config.noCallParentheses
    || ctx.config.callParentheses == C.CallParenType.None
    || ctx.config.callParentheses == C.CallParenType.NoSingleString
  }

  /** `should_omit_table_parens`. */
  predicate ShouldOmitTableParens(ctx: Context) {
    ctx.config.noCallParentheses
    || ctx.config.callParentheses == C.CallParenType.None
    || ctx.config.callParentheses == C.CallParenType.NoSingleTable
  }

  /** `should_collapse_simple_functions`. */
  predicate ShouldCollapseSimpleFunctions(ctx: Context) {
    ctx.config.collapseSimpleStatement.FunctionOnly? || ctx.config.collapseSimpleStatement.Always?
  }

  /** `should_collapse_simple_conditionals`. */
  predicate ShouldCollapseSimpleConditionals(ctx: Context) {
    ctx.config.collapseSimpleStatement.ConditionalOnly? || ctx.config.collapseSimpleStatement.Always?
  }

  /**
   * The two omission options differ only on the one-sided settings, `Always`
   * and `Input` keep every parenthesis unless the deprecated flag is set, and
   * the two collapse options hold together exactly under `Always`.
   */
  lemma {:induction false} CallAndCollapseOptions(ctx: Context)
    ensures ShouldOmitStringParens(ctx) != ShouldOmitTableParens(ctx) <==>
      !ctx.config.noCallParentheses && (ctx.config.callParentheses.NoSingleString? || ctx.config.callParentheses.NoSingleTable?)
    ensures (ctx.config.callParentheses.Always? || ctx.config.callParentheses.Input?) ==>
      (ShouldOmitStringParens(ctx) <==> ctx.config.noCallParentheses) && (ShouldOmitTableParens(ctx) <==> ctx.config.noCallParentheses)
    ensures ShouldCollapseSimpleFunctions(ctx) && ShouldCollapseSimpleConditionals(ctx) <==> ctx.config.collapseSimpleStatement.Always?
    ensures !ShouldCollapseSimpleFunctions(ctx) && !ShouldCollapseSimpleConditionals(ctx) <==> ctx.config.collapseSimpleStatement.Never?
  {
  }

  /** `line_ending_character`. */
  function LineEndingCharacter(le: C.LineEndings): (r: string)
    ensures r == (if le.Unix? then "\n" else "\r\n")
  {
    match le
    case Unix => "\n"
    case Windows => "\r\n"
  }

  /** `create_newline_trivia`: whitespace holding the configured line ending. */
  function CreateNewlineTrivia(ctx: Context): (r: Token)
    ensures r.Whitespace? && r.characters == LineEndingCharacter(ctx.config.lineEndings)
    ensures TriviaIsNewline(r)
  {
    var le := LineEndingCharacter(ctx.config.lineEndings);
    assert le[|le| - 1] == '\n';
    Whitespace(le)
  }

  /** `create_plain_indent_trivia`: `level` tabs, or `level` indent widths of spaces. */
  function CreatePlainIndentTrivia(ctx: Context, level: nat): (r: Token)
    ensures r.Whitespace?
    ensures ctx.config.indentType.Tabs? ==> r.characters == Text.Repeat('\t', level)
    ensures ctx.config.indentType.Spaces? ==> r.characters == Text.Repeat(' ', level * ctx.config.indentWidth)
    ensures !TriviaIsNewline(r)
  {
    match ctx.config.indentType
    case Tabs => Whitespace(Text.Repeat('\t', level))
    case Spaces => Whitespace(Text.Repeat(' ', level * ctx.config.indentWidth))
  }

  /** `create_indent_trivia`: indentation for the block plus additional levels of a shape. */
  function CreateIndentTrivia(ctx: Context, shape: Layout.Shape): (r: Token)
    ensures r == CreatePlainIndentTrivia(ctx, shape.indent.blockIndent + shape.indent.additionalIndent)
  {
    CreatePlainIndentTrivia(ctx, shape.indent.blockIndent + shape.indent.additionalIndent)
  }

  /**
   * With spaces, the indent trivia is exactly as wide as the shape's
   * indentation (when the shape uses the configured indent width); with
   * tabs, it is one character per level.
   */
  lemma {:induction false} IndentTriviaMatchesShape(ctx: Context, shape: Layout.Shape)
    requires shape.indent.indentWidth == ctx.config.indentWidth
    ensures ctx.config.indentType.Spaces? ==> |CreateIndentTrivia(ctx, shape).characters| == Layout.IndentWidth(shape.indent)
    ensures ctx.config.indentType.Tabs? ==>
      |CreateIndentTrivia(ctx, shape).characters| == shape.indent.blockIndent + shape.indent.additionalIndent
  {
  }
}
