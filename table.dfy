/**
 * Table constructors, after src/formatters/table.rs: whether a table is
 * empty, kept on one line or expanded, the braces each layout gets, and the
 * separators of the single-line and multi-line field lists.
 */
module Tables {
  import opened Wrappers
  import opened Syntax
  import opened Trivia
  import opened TriviaUtil
  import opened FormatContext
  import opened TokenFormat
  import opened General
  import Layout
  import Functions

  /** `TableType`. */
  datatype TableType = MultiLine | SingleLine | Empty

  /** What the field formatter returns: the field, and the trivia it took off the field's end. */
  datatype FormattedField = FormattedField(field: Field, taken: seq<Token>)

  /**
   * The field formatter a table is formatted with (`format_field` for table
   * constructors), which is not part of this model.
   */
  type FieldFormatter = (Context, Field, TableType, Layout.Shape) -> FormattedField

  // ---------------------------------------------------------------------
  // Fields
  // ---------------------------------------------------------------------

  /** The value of a field, which ends it. */
  function FieldValue(f: Field): Expr {
    match f
    case ExpressionKey(_, _, _, v) => v
    case NameKey(_, _, v) => v
    case NoKey(v) => v
  }

  /** The trivia after a field, which is the trivia after its value. */
  function FieldTrailingTrivia(f: Field): seq<Token> {
    ExprTrailingTrivia(FieldValue(f))
  }

  /** `table_fields_contains_comments`: a comment in some field or in the separator after it. */
  predicate TableFieldsContainsComments(fields: seq<Pair<Field>>) {
    exists i :: 0 <= i < |fields| &&
      (ContainsComments(FieldTokens(fields[i].value)) || ContainsComments(OptTokens(fields[i].punctuation)))
  }

  /** A comment right inside the braces or among the fields. */
  predicate TableCommentsInside(t: TableConstructor) {
    HasComment(t.braces.start.trailing) || HasComment(t.braces.end.leading) || TableFieldsContainsComments(t.fields)
  }

  /**
   * `expression_is_multiline_function`: an anonymous function whose body will
   * not collapse. `isBlockSimple` stands for `is_block_simple`, which is not
   * part of this model; its answer is taken only for blocks of the simple
   * shape it guarantees.
   */
  predicate IsMultilineFunction(ctx: Context, e: Expr, isBlockSimple: Block -> bool) {
    e.FunctionExpr?
    && var b := e.body.block;
       !Functions.ShouldCollapseFunctionBody(ctx, e.body, isBlockSimple(b) && Functions.SimpleShape(b))
  }

  predicate FieldHasMultilineFunction(ctx: Context, f: Field, isBlockSimple: Block -> bool) {
    match f
    case ExpressionKey(_, k, _, v) => IsMultilineFunction(ctx, k, isBlockSimple) || IsMultilineFunction(ctx, v, isBlockSimple)
    case NameKey(_, _, v) => IsMultilineFunction(ctx, v, isBlockSimple)
    case NoKey(v) => IsMultilineFunction(ctx, v, isBlockSimple)
  }

  /** When a table is forced onto several lines: comments inside it, or a function field that will expand. */
  predicate ExpandsTable(ctx: Context, t: TableConstructor, isBlockSimple: Block -> bool) {
    TableCommentsInside(t)
    || exists i :: 0 <= i < |t.fields| && FieldHasMultilineFunction(ctx, t.fields[i].value, isBlockSimple)
  }

  /** `should_expand`: the comment test, then the loop over the fields that returns at the first expanding one. */
  method ShouldExpand(ctx: Context, t: TableConstructor, isBlockSimple: Block -> bool) returns (b: bool)
    ensures b == ExpandsTable(ctx, t, isBlockSimple)
  {
    if HasComment(t.braces.start.trailing) || HasComment(t.braces.end.leading) || TableFieldsContainsComments(t.fields) {
      return true;
    }
    for i := 0 to |t.fields|
      invariant forall k :: 0 <= k < i ==> !FieldHasMultilineFunction(ctx, t.fields[k].value, isBlockSimple)
    {
      if FieldHasMultilineFunction(ctx, t.fields[i].value, isBlockSimple) {
        return true;
      }
    }
    return false;
  }

  /**
   * A table without comments whose function fields are all empty functions
   * is never forced to expand: empty functions always collapse.
   */
  lemma {:induction false} EmptyFunctionsNeverExpand(ctx: Context, t: TableConstructor, isBlockSimple: Block -> bool)
    requires !TableCommentsInside(t)
    requires forall i :: 0 <= i < |t.fields| ==>
      var v := FieldValue(t.fields[i].value);
      v.FunctionExpr? ==> IsFunctionEmpty(v.body)
    requires forall i :: 0 <= i < |t.fields| ==>
      var f := t.fields[i].value;
      f.ExpressionKey? ==> !f.key.FunctionExpr?
    ensures !ExpandsTable(ctx, t, isBlockSimple)
  {
    forall i | 0 <= i < |t.fields|
      ensures !FieldHasMultilineFunction(ctx, t.fields[i].value, isBlockSimple)
    {
      var v := FieldValue(t.fields[i].value);
      if v.FunctionExpr? {
        var b := v.body.block;
        Functions.EmptyFunctionCollapses(ctx, v.body, isBlockSimple(b) && Functions.SimpleShape(b));
      }
    }
  }

  // ---------------------------------------------------------------------
  // The table type
  // ---------------------------------------------------------------------

  /**
   * The spaces a single-line table still needs inside its braces: one after
   * `{` unless whitespace already follows it, and one before `}` unless the
   * last field (or its separator) already ends with whitespace.
   */
  function AdditionalShape(startHasWhitespace: bool, endHasWhitespace: bool): (r: nat)
    ensures r <= 2
    ensures r == (if startHasWhitespace then 0 else 1) + (if endHasWhitespace then 0 else 1)
  {
    match (startHasWhitespace, endHasWhitespace)
    case (true, true) => 0
    case (true, false) => 1
    case (false, true) => 1
    case (false, false) => 2
  }

  predicate AnyWhitespace(ts: seq<Token>) {
    exists i :: 0 <= i < |ts| && TriviaIsWhitespace(ts[i])
  }

  /** Whether the last field ends with whitespace: after its separator if it has one, else after its value. */
  predicate LastFieldEndsWithWhitespace(last: Pair<Field>) {
    match last.punctuation
    case Some(p) => AnyWhitespace(p.trailing)
    case None => AnyWhitespace(FieldTrailingTrivia(last.value))
  }

  /**
   * The table-type decision of `format_table_constructor`. `braceSpan` is the
   * distance in the original source between the end of `{` (or of the trivia
   * before it) and the start of `}`, positions the model does not track.
   * A table with fields goes multiline after a newline right after `{`, or
   * when the estimated single line (the span, the missing inner spaces and
   * the closing brace) runs over budget, or when it must expand; otherwise it
   * stays on one line. A table without fields is empty unless it must expand.
   */
  function TableTypeOf(ctx: Context, t: TableConstructor, shape: Layout.Shape, braceSpan: nat,
                       isBlockSimple: Block -> bool): (r: TableType)
    ensures t.fields == [] ==> (r == Empty <==> !ExpandsTable(ctx, t, isBlockSimple)) && r != SingleLine
    ensures t.fields != [] && HasNewline(t.braces.start.trailing) ==> r == MultiLine
    ensures t.fields != [] && !HasNewline(t.braces.start.trailing) ==>
      var extra := AdditionalShape(AnyWhitespace(t.braces.start.trailing), LastFieldEndsWithWhitespace(t.fields[|t.fields| - 1]));
      && r != Empty
      && (r == MultiLine <==>
           Layout.OverBudget(Layout.Plus(shape, braceSpan + extra + 1)) || ExpandsTable(ctx, t, isBlockSimple))
  {
    if t.fields == [] then
      if ExpandsTable(ctx, t, isBlockSimple) then MultiLine else Empty
    else if exists i :: 0 <= i < |t.braces.start.trailing| && TriviaIsNewline(t.braces.start.trailing[i]) then
      MultiLine
    else
      var last := t.fields[|t.fields| - 1];
      var additional := AdditionalShape(AnyWhitespace(t.braces.start.trailing), LastFieldEndsWithWhitespace(last));
      var singleline := Layout.Plus(shape, braceSpan + additional + 1);
      if Layout.OverBudget(singleline) then MultiLine
      else if ExpandsTable(ctx, t, isBlockSimple) then MultiLine
      else SingleLine
  }

  /** Only a table without fields can be laid out as empty, and then exactly when nothing forces it open. */
  lemma {:induction false} EmptyOnlyWithoutFields(ctx: Context, t: TableConstructor, shape: Layout.Shape, braceSpan: nat, isBlockSimple: Block -> bool)
    ensures TableTypeOf(ctx, t, shape, braceSpan, isBlockSimple) == Empty <==>
      t.fields == [] && !ExpandsTable(ctx, t, isBlockSimple)
  {
  }

  // ---------------------------------------------------------------------
  // Braces
  // ---------------------------------------------------------------------

  const OpenBrace: TokenRef := TokenRef([], Symbol("{"), [])
  const CloseBrace: TokenRef := TokenRef([], Symbol("}"), [])
  /** `TokenReference::symbol("{ ")` and `TokenReference::symbol(" }")`. */
  const OpenBraceSpaced: TokenRef := TokenRef([], Symbol("{"), [Space])
  const CloseBraceSpaced: TokenRef := TokenRef([Space], Symbol("}"), [])

  /** The trivia without its newline whitespace, in order. */
  function DropNewlines(ts: seq<Token>): (r: seq<Token>)
    ensures !HasNewline(r)
    ensures Comments(r) == Comments(ts)
  {
    if ts == [] then []
    else
      var rest := DropNewlines(ts[1..]);
      CommentsOfOne(ts[0]);
      CommentsAppend([ts[0]], ts[1..]);
      assert ts == [ts[0]] + ts[1..];
      if TriviaIsNewline(ts[0]) then rest
      else
        CommentsAppend([ts[0]], rest);
        assert forall i :: 1 <= i < |[ts[0]] + rest| ==> ([ts[0]] + rest)[i] == rest[i - 1];
        [ts[0]] + rest
  }

  /** The closing token as `format_end_token` formats it. */
  function EndToken(ctx: Context, t: TokenRef, shape: Layout.Shape): TokenRef {
    TokenRef(
      EndTrim(LoadTrivia(ctx, t.leading, AsLeadingTrivia, Layout.ShapeIncrementAdditionalIndent(shape), 0)),
      t.token,
      LoadTrivia(ctx, t.trailing, AsTrailingTrivia, shape, 0))
  }

  /**
   * The braces `create_table_braces` builds for each table type. Multi-line:
   * `{` then a newline, and the closing brace with its comments indented and
   * the shape's indentation before it. Single-line: `{ ` and ` }`. Empty:
   * `{` and `}` with no newline between them.
   */
  function TableBraces(ctx: Context, start: TokenRef, end: TokenRef, tableType: TableType, shape: Layout.Shape): (r: Span)
    ensures r.start.token == Symbol("{") && (tableType != MultiLine ==> r.end.token == Symbol("}"))
    ensures tableType == MultiLine ==>
      && r.end.token == end.token
      && |r.start.trailing| >= 1 && r.start.trailing[|r.start.trailing| - 1] == CreateNewlineTrivia(ctx)
      && |r.end.leading| >= 1 && r.end.leading[|r.end.leading| - 1] == CreateIndentTrivia(ctx, shape)
    ensures tableType == SingleLine ==>
      && [Space] <= r.start.trailing
      && |r.end.leading| >= 1 && r.end.leading[|r.end.leading| - 1] == Space
    ensures tableType == Empty ==>
      && !HasNewline(r.start.trailing) && !HasNewline(r.end.leading)
      && Comments(r.start.trailing) == FormatComments(ctx, Comments(start.trailing))
      && Comments(r.end.leading) == FormatComments(ctx, Comments(end.leading))
  {
    match tableType
    case MultiLine =>
      var open := FormatSymbol(ctx, start, OpenBrace, shape);
      var close := EndToken(ctx, end, shape);
      Span(UpdateTrailingToken(open, Append([CreateNewlineTrivia(ctx)])),
           UpdateLeadingToken(close, Append([CreateIndentTrivia(ctx, shape)])))
    case SingleLine =>
      Span(FormatSymbol(ctx, start, OpenBraceSpaced, shape), FormatSymbol(ctx, end, CloseBraceSpaced, shape))
    case Empty =>
      var open := FormatSymbol(ctx, start, OpenBrace, shape);
      var close := FormatSymbol(ctx, end, CloseBrace, shape);
      FormatSymbolKeepsComments(ctx, start, OpenBrace, shape);
      FormatSymbolKeepsComments(ctx, end, CloseBrace, shape);
      Span(UpdateTrailingToken(open, Replace(DropNewlines(open.trailing))),
           UpdateLeadingToken(close, Replace(DropNewlines(close.leading))))
  }

  /** `create_table_braces`. */
  method CreateTableBraces(ctx: Context, start: TokenRef, end: TokenRef, tableType: TableType, shape: Layout.Shape)
    returns (r: Span)
    ensures r == TableBraces(ctx, start, end, tableType, shape)
  {
    match tableType {
      case MultiLine =>
        var open := FormatSymbol(ctx, start, OpenBrace, shape);
        var close := FormatEndToken(ctx, end, ClosingBrace, shape);
        r := Span(UpdateTrailingToken(open, Append([CreateNewlineTrivia(ctx)])),
                  UpdateLeadingToken(close, Append([CreateIndentTrivia(ctx, shape)])));
      case SingleLine =>
        r := Span(FormatSymbol(ctx, start, OpenBraceSpaced, shape), FormatSymbol(ctx, end, CloseBraceSpaced, shape));
      case Empty =>
        var open := FormatSymbol(ctx, start, OpenBrace, shape);
        var close := FormatSymbol(ctx, end, CloseBrace, shape);
        r := Span(UpdateTrailingToken(open, Replace(DropNewlines(open.trailing))),
                  UpdateLeadingToken(close, Replace(DropNewlines(close.leading))));
    }
  }

  // ---------------------------------------------------------------------
  // Single-line tables
  // ---------------------------------------------------------------------

  /** The printed width of a field. */
  function FieldWidth(f: Field): nat {
    |Render(FieldTokens(f))|
  }

  /**
   * The fields of a single-line table from the shape after `{ `: each field
   * formatted in turn, every field but the last followed by `, ` (the old
   * separator re-spelled, or a new one), the shape moving past the field and
   * its separator. The trivia the field formatter takes off a field is
   * dropped: a single-line table has no comments to take.
   */
  function SinglelineFields(ctx: Context, fields: seq<Pair<Field>>, shape: Layout.Shape,
                            formatField: FieldFormatter): (r: seq<Pair<Field>>)
    ensures |r| == |fields|
    decreases |fields|
  {
    if fields == [] then []
    else
      var (p, next) := SinglelineField(ctx, fields, shape, formatField);
      [p] + SinglelineFields(ctx, fields[1..], next, formatField)
  }

  /** The first field of a single-line list, with its separator, and the shape for the next field. */
  function SinglelineField(ctx: Context, fields: seq<Pair<Field>>, shape: Layout.Shape,
                           formatField: FieldFormatter): (Pair<Field>, Layout.Shape)
    requires fields != []
  {
    var f := formatField(ctx, fields[0].value, SingleLine, shape).field;
    if |fields| == 1 then (Pair(f, None), shape)
    else
      var next := Layout.Plus(shape, FieldWidth(f) + 2);
      var sep := match fields[0].punctuation
        case Some(p) => FormatSymbol(ctx, p, CommaSpace, next)
        case None => CommaSpace;
      (Pair(f, Some(sep)), next)
  }

  /**
   * Between single-line fields there is a `,` followed by a space, and
   * nothing after the last field.
   */
  lemma {:induction false} SinglelineSeparators(ctx: Context, fields: seq<Pair<Field>>, shape: Layout.Shape,
                                                formatField: FieldFormatter)
    requires fields != []
    ensures var r := SinglelineFields(ctx, fields, shape, formatField);
      && r[|r| - 1].punctuation.None?
      && forall i :: 0 <= i < |r| - 1 ==>
           r[i].punctuation.Some? && r[i].punctuation.value.token == Symbol(",")
           && [Space] <= r[i].punctuation.value.trailing
    decreases |fields|
  {
    var r := SinglelineFields(ctx, fields, shape, formatField);
    var (p, next) := SinglelineField(ctx, fields, shape, formatField);
    if |fields| > 1 {
      SinglelineSeparators(ctx, fields[1..], next, formatField);
      var rest := SinglelineFields(ctx, fields[1..], next, formatField);
      assert forall i :: 1 <= i < |r| ==> r[i] == rest[i - 1];
    }
  }

  /**
   * One turn of the field loop of `format_singleline_table`: the field, and
   * when another field follows, the shape moved past it and its `, `.
   */
  method SinglelineStep(ctx: Context, fields: seq<Pair<Field>>, i: nat, s: Layout.Shape, formatField: FieldFormatter)
    returns (s': Layout.Shape, field: Pair<Field>)
    requires i < |fields|
    ensures SinglelineFields(ctx, fields[i..], s, formatField) == [field] + SinglelineFields(ctx, fields[i + 1..], s', formatField)
  {
    assert fields[i..][0] == fields[i] && fields[i..][1..] == fields[i + 1..];
    var f := formatField(ctx, fields[i].value, SingleLine, s).field;
    var sep: Option<TokenRef> := None;
    s' := s;
    if i + 1 < |fields| {
      s' := Layout.Plus(s, FieldWidth(f) + 2);
      match fields[i].punctuation {
        case Some(p) => sep := Some(FormatSymbol(ctx, p, CommaSpace, s'));
        case None => sep := Some(CommaSpace);
      }
    }
    field := Pair(f, sep);
    assert SinglelineField(ctx, fields[i..], s, formatField) == (field, s');
  }

  /** `format_singleline_table`: the braces, then the loop over the fields with a peek at the next one. */
  method FormatSinglelineTable(ctx: Context, braces: Span, fields: seq<Pair<Field>>, shape: Layout.Shape,
                               formatField: FieldFormatter)
    returns (braces': Span, fields': seq<Pair<Field>>)
    ensures braces' == TableBraces(ctx, braces.start, braces.end, SingleLine, shape)
    ensures fields' == SinglelineFields(ctx, fields, Layout.Plus(shape, 2), formatField)
  {
    braces' := CreateTableBraces(ctx, braces.start, braces.end, SingleLine, shape);
    var s := Layout.Plus(shape, 2);
    fields' := [];
    assert fields[0..] == fields;
    for i := 0 to |fields|
      invariant fields' + SinglelineFields(ctx, fields[i..], s, formatField)
                == SinglelineFields(ctx, fields, Layout.Plus(shape, 2), formatField)
    {
      var field;
      s, field := SinglelineStep(ctx, fields, i, s, formatField);
      Text.AppendAssoc(fields', [field], SinglelineFields(ctx, fields[i + 1..], s, formatField));
      fields' := fields' + [field];
    }
  }

  // ---------------------------------------------------------------------
  // Multi-line tables
  // ---------------------------------------------------------------------

  /** Each trivia formatted as trailing trivia, in order (`trivia_to_vec(format_token(..))`). */
  function EmitTrailing(ctx: Context, ts: seq<Token>, shape: Layout.Shape): seq<Token> {
    if ts == [] then [] else Emit(FormatToken(ctx, ts[0], AsTrailingTrivia, shape)) + EmitTrailing(ctx, ts[1..], shape)
  }

  function NonWhitespace(ts: seq<Token>): (r: seq<Token>)
    ensures forall i :: 0 <= i < |r| ==> !TriviaIsWhitespace(r[i])
  {
    if ts == [] then []
    else (if TriviaIsWhitespace(ts[0]) then [] else [ts[0]]) + NonWhitespace(ts[1..])
  }

  /**
   * What follows the `,` of a multi-line field: the trivia taken off the
   * field (nothing if it is only whitespace, else its non-whitespace trivia
   * formatted), then a newline.
   */
  function CommaTrailing(ctx: Context, taken: seq<Token>, shape: Layout.Shape): (r: seq<Token>)
    ensures |r| >= 1 && r[|r| - 1] == CreateNewlineTrivia(ctx)
  {
    var kept := if AllWhitespaceTrivia(taken) then [] else EmitTrailing(ctx, NonWhitespace(taken), shape);
    kept + [CreateNewlineTrivia(ctx)]
  }

  lemma {:induction false} EmitTrailingComments(ctx: Context, ts: seq<Token>, shape: Layout.Shape)
    ensures Comments(EmitTrailing(ctx, ts, shape)) == FormatComments(ctx, Comments(ts))
  {
    if ts != [] {
      EmitTrailingComments(ctx, ts[1..], shape);
      EmitComments(ctx, ts[0], AsTrailingTrivia, shape);
      CommentsAppend(Emit(FormatToken(ctx, ts[0], AsTrailingTrivia, shape)), EmitTrailing(ctx, ts[1..], shape));
      CommentsOfOne(ts[0]);
      CommentsAppend([ts[0]], ts[1..]);
      assert ts == [ts[0]] + ts[1..];
      FormatCommentsAppend(ctx, Comments([ts[0]]), Comments(ts[1..]));
      assert FormatComments(ctx, [ts[0]]) == [FormatTokenText(ctx, ts[0])];
    }
  }

  lemma {:induction false} NonWhitespaceComments(ts: seq<Token>)
    ensures Comments(NonWhitespace(ts)) == Comments(ts)
  {
    if ts != [] {
      NonWhitespaceComments(ts[1..]);
      var head := if TriviaIsWhitespace(ts[0]) then [] else [ts[0]];
      CommentsAppend(head, NonWhitespace(ts[1..]));
      CommentsAppend([ts[0]], ts[1..]);
      assert ts == [ts[0]] + ts[1..];
      CommentsOfOne(ts[0]);
    }
  }

  /** The comments taken off a multi-line field all follow its `,`, formatted and in order. */
  lemma {:induction false} CommaTrailingKeepsComments(ctx: Context, taken: seq<Token>, shape: Layout.Shape)
    ensures Comments(CommaTrailing(ctx, taken, shape)) == FormatComments(ctx, Comments(taken))
  {
    var kept := if AllWhitespaceTrivia(taken) then [] else EmitTrailing(ctx, NonWhitespace(taken), shape);
    if AllWhitespaceTrivia(taken) {
      assert !HasComment(taken);
    } else {
      EmitTrailingComments(ctx, NonWhitespace(taken), shape);
      NonWhitespaceComments(taken);
    }
    CommentsAppend(kept, [CreateNewlineTrivia(ctx)]);
    CommentsOfOne(CreateNewlineTrivia(ctx));
  }

  /** A field followed by `,` and, last, a newline. */
  predicate EndsWithCommaLine(p: Pair<Field>) {
    && p.punctuation.Some? && p.punctuation.value.token == Symbol(",")
    && var tr := p.punctuation.value.trailing;
       |tr| >= 1 && TriviaIsNewline(tr[|tr| - 1])
  }

  /**
   * One field of a multi-line table, formatted in context `c` from shape
   * `s`: the field, then `,` (the old separator re-spelled, or a new one)
   * followed by the trivia taken off the field and a newline.
   */
  function MultilineField(c: Context, p: Pair<Field>, s: Layout.Shape,
                          formatField: FieldFormatter): (r: Pair<Field>)
    ensures EndsWithCommaLine(r)
  {
    var ff := formatField(c, p.value, MultiLine, s);
    var comma := match p.punctuation
      case Some(q) => FormatSymbol(c, q, Comma, s)
      case None => Comma;
    var tr := CommaTrailing(c, ff.taken, s);
    assert UpdateTrailingToken(comma, Append(tr)).trailing == comma.trailing + tr;
    Pair(ff.field, Some(UpdateTrailingToken(comma, Append(tr))))
  }

  /**
   * The fields of a multi-line table: the toggle comments before each field
   * update the context, and each field starts a fresh line, one column kept
   * for its comma.
   */
  function MultilineFields(ctx: Context, fields: seq<Pair<Field>>, shape: Layout.Shape,
                           formatField: FieldFormatter): (r: seq<Pair<Field>>)
    ensures |r| == |fields|
    decreases |fields|
  {
    if fields == [] then []
    else
      var c := ToggledContext(ctx, FirstLeading(FieldTokens(fields[0].value)));
      var s := Layout.AddWidth(Layout.Reset(shape), 1);
      [MultilineField(c, fields[0], s, formatField)] + MultilineFields(c, fields[1..], s, formatField)
  }

  /** Every multi-line field, the last included, ends with `,` and a newline. */
  lemma {:induction false} MultilineSeparator(ctx: Context, fields: seq<Pair<Field>>, shape: Layout.Shape,
                                              formatField: FieldFormatter, i: nat)
    requires i < |fields|
    ensures EndsWithCommaLine(MultilineFields(ctx, fields, shape, formatField)[i])
    decreases i
  {
    var c := ToggledContext(ctx, FirstLeading(FieldTokens(fields[0].value)));
    var s := Layout.AddWidth(Layout.Reset(shape), 1);
    var rest := MultilineFields(c, fields[1..], s, formatField);
    if i > 0 {
      MultilineSeparator(c, fields[1..], s, formatField, i - 1);
      assert MultilineFields(ctx, fields, shape, formatField)[i] == rest[i - 1];
    }
  }

  /** One turn of the field loop of `format_multiline_table`: the toggle check, the fresh line, the field. */
  method MultilineStep(c: Context, fields: seq<Pair<Field>>, i: nat, s: Layout.Shape, formatField: FieldFormatter)
    returns (c': Context, s': Layout.Shape, field: Pair<Field>)
    requires i < |fields|
    ensures MultilineFields(c, fields[i..], s, formatField) == [field] + MultilineFields(c', fields[i + 1..], s', formatField)
  {
    assert fields[i..][0] == fields[i] && fields[i..][1..] == fields[i + 1..];
    c' := CheckToggleFormatting(c, FirstLeading(FieldTokens(fields[i].value)));
    s' := Layout.AddWidth(Layout.Reset(s), 1);
    field := MultilineField(c', fields[i], s', formatField);
  }

  /**
   * `format_multiline_table`: the braces, then the loop over the fields that
   * carries the context and the shape from one field to the next.
   */
  method FormatMultilineTable(ctx: Context, braces: Span, fields: seq<Pair<Field>>, shape: Layout.Shape,
                              formatField: FieldFormatter)
    returns (braces': Span, fields': seq<Pair<Field>>)
    ensures braces' == TableBraces(ctx, braces.start, braces.end, MultiLine, shape)
    ensures fields' == MultilineFields(ctx, fields, Layout.ShapeIncrementAdditionalIndent(Layout.Reset(shape)), formatField)
  {
    braces' := CreateTableBraces(ctx, braces.start, braces.end, MultiLine, shape);
    var s := Layout.ShapeIncrementAdditionalIndent(Layout.Reset(shape));
    var c := ctx;
    fields' := [];
    assert fields[0..] == fields;
    for i := 0 to |fields|
      invariant fields' + MultilineFields(c, fields[i..], s, formatField)
                == MultilineFields(ctx, fields, Layout.ShapeIncrementAdditionalIndent(Layout.Reset(shape)), formatField)
    {
      var field;
      c, s, field := MultilineStep(c, fields, i, s, formatField);
      Text.AppendAssoc(fields', [field], MultilineFields(c, fields[i + 1..], s, formatField));
      fields' := fields' + [field];
    }
  }

  // ---------------------------------------------------------------------
  // The table constructor
  // ---------------------------------------------------------------------

  /**
   * A formatted table constructor: the braces and fields of the layout
   * `TableTypeOf` picks. Every field is kept, and the braces are `{` `}`.
   */
  function FormatTable(ctx: Context, t: TableConstructor, shape: Layout.Shape, braceSpan: nat,
                       isBlockSimple: Block -> bool, formatField: FieldFormatter): (r: TableConstructor)
    ensures |r.fields| == |t.fields|
    ensures r.braces.start.token == Symbol("{")
  {
    var tableType := TableTypeOf(ctx, t, shape, braceSpan, isBlockSimple);
    var braces := TableBraces(ctx, t.braces.start, t.braces.end, tableType, shape);
    match tableType
    case Empty => TableConstructor(braces, [])
    case SingleLine => TableConstructor(braces, SinglelineFields(ctx, t.fields, Layout.Plus(shape, 2), formatField))
    case MultiLine =>
      TableConstructor(braces, MultilineFields(ctx, t.fields, Layout.ShapeIncrementAdditionalIndent(Layout.Reset(shape)), formatField))
  }

  /**
   * A table that stays on one line has `, ` between its fields and no
   * separator after the last; an expanded one ends every field with `,`
   * and a newline.
   */
  lemma {:induction false} TableSeparators(ctx: Context, t: TableConstructor, shape: Layout.Shape, braceSpan: nat,
                        isBlockSimple: Block -> bool, formatField: FieldFormatter, i: nat)
    requires i < |t.fields|
    ensures var r := FormatTable(ctx, t, shape, braceSpan, isBlockSimple, formatField);
      match TableTypeOf(ctx, t, shape, braceSpan, isBlockSimple)
      case MultiLine => EndsWithCommaLine(r.fields[i])
      case SingleLine => (i == |t.fields| - 1 <==> r.fields[i].punctuation.None?)
      case Empty => false
  {
    match TableTypeOf(ctx, t, shape, braceSpan, isBlockSimple)
    case MultiLine =>
      MultilineSeparator(ctx, t.fields, Layout.ShapeIncrementAdditionalIndent(Layout.Reset(shape)), formatField, i);
    case SingleLine =>
      SinglelineSeparators(ctx, t.fields, Layout.Plus(shape, 2), formatField);
    case Empty =>
  }

  /** `format_table_constructor`. */
  method FormatTableConstructor(ctx: Context, t: TableConstructor, shape: Layout.Shape, braceSpan: nat,
                                isBlockSimple: Block -> bool, formatField: FieldFormatter)
    returns (r: TableConstructor)
    ensures r == FormatTable(ctx, t, shape, braceSpan, isBlockSimple, formatField)
  {
    var tableType: TableType;
    if |t.fields| > 0 {
      if HasNewline(t.braces.start.trailing) {
        tableType := MultiLine;
      } else {
        var last := t.fields[|t.fields| - 1];
        var additional := AdditionalShape(AnyWhitespace(t.braces.start.trailing), LastFieldEndsWithWhitespace(last));
        var singleline := Layout.Plus(shape, braceSpan + additional + 1);
        if Layout.OverBudget(singleline) {
          tableType := MultiLine;
        } else {
          var expand := ShouldExpand(ctx, t, isBlockSimple);
          tableType := if expand then MultiLine else SingleLine;
        }
      }
    } else {
      var expand := ShouldExpand(ctx, t, isBlockSimple);
      tableType := if expand then MultiLine else Empty;
    }
    assert tableType == TableTypeOf(ctx, t, shape, braceSpan, isBlockSimple);
    match tableType {
      case Empty =>
        var braces := CreateTableBraces(ctx, t.braces.start, t.braces.end, Empty, shape);
        r := TableConstructor(braces, []);
      case SingleLine =>
        var braces, fields := FormatSinglelineTable(ctx, t.braces, t.fields, shape, formatField);
        r := TableConstructor(braces, fields);
      case MultiLine =>
        var braces, fields := FormatMultilineTable(ctx, t.braces, t.fields, shape, formatField);
        r := TableConstructor(braces, fields);
    }
  }
}
