/**
 * Width and indentation accounting of src/shape.rs. An `Indent` counts block
 * and additional indent levels, a `Shape` adds the width already taken on the
 * current line and the column budget. Both are immutable values: every
 * operation builds a new one from the old (`..*self`).
 */
module Layout {
  import opened Text
  import opened Syntax
  import opened Trivia
  import opened TriviaUtil

  /**
   * `Indent`: the width of one indent level (from the configuration), the
   * block indent level and any additional level (inside a multi-line table,
   * a hanging expression, ...).
   */
  datatype Indent = Indent(indentWidth: usize, blockIndent: usize, additionalIndent: usize)

  /** `Indent::new`: base level, width taken from the configuration. */
  function NewIndent(configIndentWidth: usize): (r: Indent)
    ensures r.blockIndent == 0 && r.additionalIndent == 0 && r.indentWidth == configIndentWidth
    ensures IndentWidth(r) == 0
  {
    Indent(configIndentWidth, 0, 0)
  }

  /** `Indent::indent_width`: the characters taken up by indentation. */
  function IndentWidth(i: Indent): nat {
    (i.blockIndent + i.additionalIndent) * i.indentWidth
  }

  /** `with_additional_indent`: only the additional level is replaced. */
  function WithAdditionalIndent(i: Indent, additional: usize): (r: Indent)
    ensures r.additionalIndent == additional
    ensures r.blockIndent == i.blockIndent && r.indentWidth == i.indentWidth
  {
    i.(additionalIndent := additional)
  }

  /** `increment_block_indent`: one more block level, saturating at `usize::MAX`. */
  function IncrementBlockIndent(i: Indent): (r: Indent)
    ensures i.blockIndent < USIZE_MAX ==> r.blockIndent == i.blockIndent + 1
    ensures i.blockIndent == USIZE_MAX ==> r.blockIndent == USIZE_MAX
    ensures r.additionalIndent == i.additionalIndent && r.indentWidth == i.indentWidth
  {
    i.(blockIndent := SaturatingAdd(i.blockIndent, 1))
  }

  /** `increment_additional_indent`: one more additional level, saturating. */
  function IncrementAdditionalIndent(i: Indent): (r: Indent)
    ensures i.additionalIndent < USIZE_MAX ==> r.additionalIndent == i.additionalIndent + 1
    ensures i.additionalIndent == USIZE_MAX ==> r.additionalIndent == USIZE_MAX
    ensures r.blockIndent == i.blockIndent && r.indentWidth == i.indentWidth
  {
    i.(additionalIndent := SaturatingAdd(i.additionalIndent, 1))
  }

  /** `add_indent_level`: `amount` more additional levels, saturating. */
  function AddIndentLevel(i: Indent, amount: usize): (r: Indent)
    ensures i.additionalIndent + amount <= USIZE_MAX ==> r.additionalIndent == i.additionalIndent + amount
    ensures i.additionalIndent + amount > USIZE_MAX ==> r.additionalIndent == USIZE_MAX
    ensures r.blockIndent == i.blockIndent && r.indentWidth == i.indentWidth
  {
    i.(additionalIndent := SaturatingAdd(i.additionalIndent, amount))
  }

  /**
   * One more level of either kind widens the indentation by exactly one
   * indent width, unless that level is already saturated; `amount` more
   * additional levels widen it by `amount` widths.
   */
  lemma {:induction false} IncrementsWidenByOneLevel(i: Indent, amount: usize)
    ensures i.blockIndent < USIZE_MAX ==> IndentWidth(IncrementBlockIndent(i)) == IndentWidth(i) + i.indentWidth
    ensures i.additionalIndent < USIZE_MAX ==> IndentWidth(IncrementAdditionalIndent(i)) == IndentWidth(i) + i.indentWidth
    ensures i.additionalIndent + amount <= USIZE_MAX ==>
      IndentWidth(AddIndentLevel(i, amount)) == IndentWidth(i) + amount * i.indentWidth
    ensures IndentWidth(i) <= IndentWidth(IncrementBlockIndent(i))
    ensures IndentWidth(i) <= IndentWidth(IncrementAdditionalIndent(i))
    ensures IndentWidth(i) <= IndentWidth(AddIndentLevel(i, amount))
  {
    var b, a, w := i.blockIndent, i.additionalIndent, i.indentWidth;
    assert (b + 1 + a) * w == (b + a) * w + w;
    assert (b + (a + 1)) * w == (b + a) * w + w;
    assert (b + (a + amount)) * w == (b + a) * w + amount * w;
    var b' := IncrementBlockIndent(i).blockIndent;
    var a' := IncrementAdditionalIndent(i).additionalIndent;
    var a'' := AddIndentLevel(i, amount).additionalIndent;
    MulMonotone(b + a, b' + a, w);
    MulMonotone(b + a, b + a', w);
    MulMonotone(b + a, b + a'', w);
  }

  lemma {:induction false} MulMonotone(x: nat, y: nat, w: nat)
    requires x <= y
    ensures x * w <= y * w
  {
  }

  /**
   * `Shape`: the indentation, the width taken on the line beyond it, the
   * column budget, and whether cheaper heuristics are in force.
   */
  datatype Shape = Shape(indent: Indent, offset: nat, columnWidth: usize, simpleHeuristics: bool)

  /** `Shape::new`: base indentation, nothing taken, the configured budget. */
  function NewShape(configIndentWidth: usize, configColumnWidth: usize): (r: Shape)
    ensures r.indent == NewIndent(configIndentWidth) && r.offset == 0
    ensures r.columnWidth == configColumnWidth && !r.simpleHeuristics
    ensures UsedWidth(r) == 0
  {
    Shape(NewIndent(configIndentWidth), 0, configColumnWidth, false)
  }

  function WithColumnWidth(s: Shape, columnWidth: usize): (r: Shape)
    ensures r.columnWidth == columnWidth && r.(columnWidth := s.columnWidth) == s
  {
    s.(columnWidth := columnWidth)
  }

  function WithIndent(s: Shape, i: Indent): (r: Shape)
    ensures r.indent == i && r.(indent := s.indent) == s
  {
    s.(indent := i)
  }

  /** `with_infinite_width`: the budget becomes `usize::MAX`. */
  function WithInfiniteWidth(s: Shape): (r: Shape)
    ensures r.columnWidth == USIZE_MAX && r.(columnWidth := s.columnWidth) == s
  {
    WithColumnWidth(s, USIZE_MAX)
  }

  function ShapeIncrementBlockIndent(s: Shape): (r: Shape)
    ensures r == WithIndent(s, IncrementBlockIndent(s.indent))
    ensures UsedWidth(s) <= UsedWidth(r)
  {
    IncrementsWidenByOneLevel(s.indent, 0);
    s.(indent := IncrementBlockIndent(s.indent))
  }

  function ShapeIncrementAdditionalIndent(s: Shape): (r: Shape)
    ensures r == WithIndent(s, IncrementAdditionalIndent(s.indent))
    ensures UsedWidth(s) <= UsedWidth(r)
  {
    IncrementsWidenByOneLevel(s.indent, 0);
    s.(indent := IncrementAdditionalIndent(s.indent))
  }

  /** `used_width`: indentation plus what the line already holds. */
  function UsedWidth(s: Shape): nat {
    IndentWidth(s.indent) + s.offset
  }

  /** `over_budget`. */
  predicate OverBudget(s: Shape) {
    UsedWidth(s) > s.columnWidth
  }

  /** `add_width`: `width` more characters on the line. */
  function AddWidth(s: Shape, width: nat): (r: Shape)
    ensures r.offset == s.offset + width && r.(offset := s.offset) == s
    ensures UsedWidth(r) == UsedWidth(s) + width
  {
    s.(offset := s.offset + width)
  }

  /** `impl Add<usize> for Shape`: `shape + w` is `shape.add_width(w)`. */
  function Plus(s: Shape, rhs: nat): (r: Shape)
    ensures r.offset == s.offset + rhs && r.(offset := s.offset) == s
  {
    AddWidth(s, rhs)
  }

  function WithSimpleHeuristics(s: Shape): (r: Shape)
    ensures r.simpleHeuristics && r.(simpleHeuristics := s.simpleHeuristics) == s
  {
    s.(simpleHeuristics := true)
  }

  /** `reset`: back to the start of a line at the same indentation. */
  function Reset(s: Shape): (r: Shape)
    ensures r.offset == 0 && r.(offset := s.offset) == s
    ensures UsedWidth(r) == IndentWidth(s.indent)
  {
    s.(offset := 0)
  }

  /**
   * Widths add up, adding can only push a shape over budget, and a reset
   * is idempotent and forgets everything added.
   */
  lemma {:induction false} WidthLaws(s: Shape, a: nat, b: nat)
    ensures AddWidth(AddWidth(s, a), b) == AddWidth(s, a + b)
    ensures OverBudget(s) ==> OverBudget(AddWidth(s, a))
    ensures OverBudget(AddWidth(s, a)) <==> UsedWidth(s) + a > s.columnWidth
    ensures Reset(Reset(s)) == Reset(s)
    ensures Reset(AddWidth(s, a)) == Reset(s)
    ensures OverBudget(s) ==> OverBudget(AddWidth(Reset(s), s.offset))
  {
  }

  /**
   * An infinite budget is exceeded only by a width past `usize::MAX`:
   * nothing a realistic line holds.
   */
  lemma {:induction false} InfiniteWidthNeverOverBudget(s: Shape)
    ensures OverBudget(WithInfiniteWidth(s)) <==> UsedWidth(s) > USIZE_MAX
    ensures UsedWidth(s) <= USIZE_MAX ==> !OverBudget(WithInfiniteWidth(s))
  {
  }

  /** `take_first_line`: the width of the first line of `text` is added. */
  function TakeFirstLine(s: Shape, text: string): (r: Shape)
    ensures r == AddWidth(s, FirstLineLength(text))
  {
    AddWidth(s, FirstLineLength(text))
  }

  /**
   * `take_last_line`: when `text` spans several lines the shape is reset
   * before the last line's width is added; otherwise it is added in place.
   */
  function TakeLastLine(s: Shape, text: string): Shape {
    var ls := Lines(text);
    if |ls| > 1 then AddWidth(Reset(s), LastLineLength(text))
    else AddWidth(s, LastLineLength(text))
  }

  /** On single-line text, taking the first and the last line agree: the whole text is added. */
  lemma {:induction false} TakeSingleLine(s: Shape, text: string)
    requires '\n' !in text
    ensures TakeFirstLine(s, text) == AddWidth(s, |text|)
    ensures TakeLastLine(s, text) == AddWidth(s, |text|)
  {
  }

  /**
   * On `first + "\n" + rest`, `take_first_line` adds just `first`, and
   * `take_last_line` starts from a fresh line and adds just the last line.
   */
  lemma {:induction false} TakeLinesOfMultilineText(s: Shape, first: string, rest: string)
    requires '\n' !in first && first != [] && first[|first| - 1] != '\r'
    requires rest != []
    ensures TakeFirstLine(s, first + "\n" + rest) == AddWidth(s, |first|)
    ensures TakeLastLine(s, first + "\n" + rest) == AddWidth(Reset(s), LastLineLength(rest))
  {
    LinesOfConcatenation(first, rest);
    var ls := Lines(first + "\n" + rest);
    assert ls[1..] == Lines(rest);
    assert |ls| > 1;
    assert ls[|ls| - 1] == Lines(rest)[|Lines(rest)| - 1];
  }

  // ---------------------------------------------------------------------
  // test_over_budget
  // ---------------------------------------------------------------------

  /** A token with every comment dropped from both of its trivia lists. */
  function StripTokenComments(t: TokenRef): (r: TokenRef)
    ensures r.token == t.token && !HasComment(r.leading) && !HasComment(r.trailing)
  {
    UpdateToken(t, Replace(NonComments(t.leading)), Replace(NonComments(t.trailing)))
  }

  function StripComments(ts: seq<TokenRef>): (r: seq<TokenRef>)
    ensures |r| == |ts|
    ensures forall i :: 0 <= i < |ts| ==> r[i] == StripTokenComments(ts[i])
  {
    if ts == [] then [] else [StripTokenComments(ts[0])] + StripComments(ts[1..])
  }

  /** The text `test_over_budget` measures: the node printed without comments. */
  function CommentFreeText(ts: seq<TokenRef>): string {
    Render(StripComments(ts))
  }

  /**
   * Whether some line goes over budget when the first is measured from the
   * shape and every later one from the start of a line.
   */
  function LinesOverBudget(s: Shape, ls: seq<string>): (r: bool)
    ensures r <==> exists i :: 0 <= i < |ls| && OverBudget(AddWidth(if i == 0 then s else Reset(s), |ls[i]|))
    decreases |ls|
  {
    if ls == [] then false
    else
      var rest := LinesOverBudget(Reset(s), ls[1..]);
      assert rest <==> exists i :: 1 <= i < |ls| && OverBudget(AddWidth(Reset(s), |ls[i]|)) by {
        if rest {
          var j :| 0 <= j < |ls[1..]| && OverBudget(AddWidth(if j == 0 then Reset(s) else Reset(Reset(s)), |ls[1..][j]|));
          assert ls[1..][j] == ls[j + 1];
        }
        if exists i :: 1 <= i < |ls| && OverBudget(AddWidth(Reset(s), |ls[i]|)) {
          var i :| 1 <= i < |ls| && OverBudget(AddWidth(Reset(s), |ls[i]|));
          assert ls[1..][i - 1] == ls[i];
          assert OverBudget(AddWidth(if i - 1 == 0 then Reset(s) else Reset(Reset(s)), |ls[1..][i - 1]|));
        }
      }
      OverBudget(AddWidth(s, |ls[0]|)) || rest
  }

  /** `test_over_budget`: would any line of the node, comments removed, go over budget? */
  function TestOverBudget(s: Shape, ts: seq<TokenRef>): bool {
    LinesOverBudget(s, Lines(CommentFreeText(ts)))
  }

  /** Comments are already ignored: removing them first changes nothing. */
  lemma {:induction false} TestOverBudgetIgnoresComments(s: Shape, ts: seq<TokenRef>)
    ensures StripComments(StripComments(ts)) == StripComments(ts)
    ensures TestOverBudget(s, StripComments(ts)) == TestOverBudget(s, ts)
  {
    forall i | 0 <= i < |ts|
      ensures StripTokenComments(StripTokenComments(ts[i])) == StripTokenComments(ts[i])
    {
      NonCommentsIdempotent(ts[i].leading);
      NonCommentsIdempotent(ts[i].trailing);
    }
  }

  /**
   * On a node printed on one line, `test_over_budget` is exactly whether
   * adding that line to the shape goes over budget.
   */
  lemma {:induction false} TestOverBudgetSingleLine(s: Shape, ts: seq<TokenRef>)
    requires CommentFreeText(ts) != [] && '\n' !in CommentFreeText(ts)
    ensures TestOverBudget(s, ts) <==> OverBudget(AddWidth(s, |CommentFreeText(ts)|))
  {
    assert Lines(CommentFreeText(ts)) == [CommentFreeText(ts)];
  }

  /** The more the line already holds, the sooner the node goes over budget. */
  lemma {:induction false} TestOverBudgetMonotone(s: Shape, extra: nat, ts: seq<TokenRef>)
    requires TestOverBudget(s, ts)
    ensures TestOverBudget(AddWidth(s, extra), ts)
  {
    var ls := Lines(CommentFreeText(ts));
    var i :| 0 <= i < |ls| && OverBudget(AddWidth(if i == 0 then s else Reset(s), |ls[i]|));
    assert OverBudget(AddWidth(if i == 0 then AddWidth(s, extra) else Reset(AddWidth(s, extra)), |ls[i]|));
  }
}
