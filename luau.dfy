/**
 * The Luau type formatting decisions of src/formatters/luau.rs: which
 * parentheses around a type are kept, when a union or intersection is hugged
 * or hung, when a parenthesised single type is unwrapped, and how compound
 * assignment operators are spaced.
 */
module Luau {
  import opened Wrappers
  import opened Syntax
  import opened Trivia
  import opened TriviaUtil
  import opened FormatContext
  import Layout
  import General

  // ---------------------------------------------------------------------
  // TypeInfoContext
  // ---------------------------------------------------------------------

  /** Where a type sits: inside `?`, `...` or `<...>`, or beside `|` / `&`. */
  datatype TypeInfoContext = TypeInfoContext(
    withinOptional: bool,
    withinVariadic: bool,
    withinGeneric: bool,
    containsUnion: bool,
    containsIntersect: bool)

  /** The partial order "at least the flags of". */
  predicate FlagsWithin(a: TypeInfoContext, b: TypeInfoContext) {
    && (a.withinOptional ==> b.withinOptional)
    && (a.withinVariadic ==> b.withinVariadic)
    && (a.withinGeneric ==> b.withinGeneric)
    && (a.containsUnion ==> b.containsUnion)
    && (a.containsIntersect ==> b.containsIntersect)
  }

  /** `TypeInfoContext::new`: no flag is set, so it lies below every context. */
  function NewTypeInfoContext(): (r: TypeInfoContext)
    ensures forall c :: FlagsWithin(r, c)
  {
    TypeInfoContext(false, false, false, false, false)
  }

  function MarkWithinOptional(c: TypeInfoContext): (r: TypeInfoContext)
    ensures r.withinOptional && r.(withinOptional := c.withinOptional) == c && FlagsWithin(c, r)
  {
    c.(withinOptional := true)
  }

  function MarkWithinVariadic(c: TypeInfoContext): (r: TypeInfoContext)
    ensures r.withinVariadic && r.(withinVariadic := c.withinVariadic) == c && FlagsWithin(c, r)
  {
    c.(withinVariadic := true)
  }

  function MarkWithinGeneric(c: TypeInfoContext): (r: TypeInfoContext)
    ensures r.withinGeneric && r.(withinGeneric := c.withinGeneric) == c && FlagsWithin(c, r)
  {
    c.(withinGeneric := true)
  }

  function MarkContainsUnion(c: TypeInfoContext): (r: TypeInfoContext)
    ensures r.containsUnion && r.(containsUnion := c.containsUnion) == c && FlagsWithin(c, r)
  {
    c.(containsUnion := true)
  }

  function MarkContainsIntersect(c: TypeInfoContext): (r: TypeInfoContext)
    ensures r.containsIntersect && r.(containsIntersect := c.containsIntersect) == c && FlagsWithin(c, r)
  {
    c.(containsIntersect := true)
  }

  /**
   * `keep_parentheses`: whether the parentheses around `t` are needed in
   * context. A callback needs them next to `?`, `...`, `|` or `&`; a union
   * or optional next to `?`, `...` or `&`; an intersection next to `?`,
   * `...` or `|`; and anything inside generic arguments.
   */
  function KeepParentheses(t: TypeInfo, c: TypeInfoContext): (r: bool)
    ensures r <==>
      || c.withinGeneric
      || ((c.withinOptional || c.withinVariadic) && (t.CallbackType? || t.UnionType? || t.OptionalType? || t.IntersectionType?))
      || (c.containsIntersect && (t.CallbackType? || t.UnionType? || t.OptionalType?))
      || (c.containsUnion && (t.CallbackType? || t.IntersectionType?))
  {
    match t
    case CallbackType(_, _, _, _, _) =>
      if c.withinOptional || c.withinVariadic || c.containsIntersect || c.containsUnion then true
      else c.withinGeneric
    case UnionType(_, _, _) =>
      if c.withinOptional || c.withinVariadic || c.containsIntersect then true
      else c.withinGeneric
    case OptionalType(_, _) =>
      if c.withinOptional || c.withinVariadic || c.containsIntersect then true
      else c.withinGeneric
    case IntersectionType(_, _, _) =>
      if c.withinOptional || c.withinVariadic || c.containsUnion then true
      else c.withinGeneric
    case _ => c.withinGeneric
  }

  /** With no flag set, no parentheses are needed. */
  lemma {:induction false} KeepParenthesesUnderNew(t: TypeInfo)
    ensures !KeepParentheses(t, NewTypeInfoContext())
  {
  }

  /** Setting more flags never lets parentheses go that were kept. */
  lemma {:induction false} KeepParenthesesMonotone(t: TypeInfo, a: TypeInfoContext, b: TypeInfoContext)
    requires FlagsWithin(a, b) && KeepParentheses(t, a)
    ensures KeepParentheses(t, b)
  {
  }

  /**
   * `A | (B | C)` and `A & (B & C)` lose their parentheses: a union beside a
   * union, or an intersection beside an intersection, is not kept outside
   * `?`, `...` and generics.
   */
  lemma {:induction false} SameOperatorDropsParentheses(t: TypeInfo, c: TypeInfoContext)
    requires !c.withinOptional && !c.withinVariadic && !c.withinGeneric
    ensures t.UnionType? && !c.containsIntersect ==> !KeepParentheses(t, c)
    ensures t.IntersectionType? && !c.containsUnion ==> !KeepParentheses(t, c)
    ensures t.UnionType? && c.containsIntersect ==> KeepParentheses(t, c)
    ensures t.IntersectionType? && c.containsUnion ==> KeepParentheses(t, c)
  {
  }

  // ---------------------------------------------------------------------
  // Hugging and hanging unions and intersections
  // ---------------------------------------------------------------------

  /** The operands along the union/intersection spine of a type, left to right. */
  function SpineLeaves(t: TypeInfo): (r: seq<TypeInfo>)
    ensures r != []
    ensures forall i :: 0 <= i < |r| ==> !r[i].UnionType? && !r[i].IntersectionType?
    decreases t
  {
    match t
    case UnionType(l, _, r) => SpineLeaves(l) + SpineLeaves(r)
    case IntersectionType(l, _, r) => SpineLeaves(l) + SpineLeaves(r)
    case _ => [t]
  }

  predicate AnyTable(ts: seq<TypeInfo>) {
    exists i :: 0 <= i < |ts| && ts[i].TableType?
  }

  lemma {:induction false} AnyTableAppend(a: seq<TypeInfo>, b: seq<TypeInfo>)
    ensures AnyTable(a + b) <==> AnyTable(a) || AnyTable(b)
  {
    if AnyTable(b) {
      var i :| 0 <= i < |b| && b[i].TableType?;
      assert (a + b)[|a| + i] == b[i];
    }
    if AnyTable(a) {
      var i :| 0 <= i < |a| && a[i].TableType?;
      assert (a + b)[i] == a[i];
    }
  }

  /** `should_hug_type`: a table type appears among the operands of the spine. */
  function ShouldHugType(t: TypeInfo): (r: bool)
    ensures r <==> AnyTable(SpineLeaves(t))
    decreases t
  {
    match t
    case UnionType(l, _, r) =>
      var b := ShouldHugType(l) || ShouldHugType(r);
      AnyTableAppend(SpineLeaves(l), SpineLeaves(r));
      b
    case IntersectionType(l, _, r) =>
      var b := ShouldHugType(l) || ShouldHugType(r);
      AnyTableAppend(SpineLeaves(l), SpineLeaves(r));
      b
    case TableType(_, _) =>
      assert SpineLeaves(t)[0] == t;
      true
    case _ =>
      assert SpineLeaves(t) == [t];
      false
  }

  /** `can_hang_type`: only a binary type operation can be hung. */
  predicate CanHangType(t: TypeInfo) {
    t.UnionType? || t.IntersectionType?
  }

  /** `has_trailing_comments`: in the trailing trivia of the type's last token. */
  predicate TypeHasTrailingComments(t: TypeInfo, search: CommentSearch) {
    HasCommentsBy(search, TypeTrailingTrivia(t))
  }

  /** `has_leading_comments`: in the leading trivia of the type's first token. */
  predicate TypeHasLeadingComments(t: TypeInfo, search: CommentSearch) {
    HasCommentsBy(search, FirstLeading(TypeTokens(t)))
  }

  /**
   * `should_hang_type`: a union or intersection whose operator carries
   * comments, or whose operands have comments at the operator's side, at any
   * depth of the spine. Every other type is never hung for comments.
   */
  function ShouldHangType(t: TypeInfo, search: CommentSearch): (r: bool)
    ensures r ==> CanHangType(t)
    decreases t
  {
    match t
    case UnionType(l, op, r) =>
      TypeHasTrailingComments(l, search) || ShouldHangType(l, search) || TokenContainsComments(op)
      || TypeHasLeadingComments(r, search) || ShouldHangType(r, search)
    case IntersectionType(l, op, r) =>
      TypeHasTrailingComments(l, search) || ShouldHangType(l, search) || TokenContainsComments(op)
      || TypeHasLeadingComments(r, search) || ShouldHangType(r, search)
    case _ => false
  }

  /** Searching for single-line comments only never finds a reason to hang that the full search misses. */
  lemma {:induction false} SingleSearchImpliesAll(t: TypeInfo)
    ensures ShouldHangType(t, Single) ==> ShouldHangType(t, All)
    decreases t
  {
    match t
    case UnionType(l, _, r) =>
      SingleSearchImpliesAll(l);
      SingleSearchImpliesAll(r);
      SingleSearchFindsLess(TypeTrailingTrivia(l));
      SingleSearchFindsLess(FirstLeading(TypeTokens(r)));
    case IntersectionType(l, _, r) =>
      SingleSearchImpliesAll(l);
      SingleSearchImpliesAll(r);
      SingleSearchFindsLess(TypeTrailingTrivia(l));
      SingleSearchFindsLess(FirstLeading(TypeTokens(r)));
    case _ =>
  }

  /** The comments of a token's own trivia are comments of any sequence holding it. */
  lemma {:induction false} EdgeCommentsContained(ts: seq<TokenRef>, search: CommentSearch)
    ensures HasCommentsBy(search, FirstLeading(ts)) ==> ContainsComments(ts)
    ensures HasCommentsBy(search, LastTrailing(ts)) ==> ContainsComments(ts)
  {
    SingleSearchFindsLess(FirstLeading(ts));
    SingleSearchFindsLess(LastTrailing(ts));
    if ts != [] {
      assert TokenContainsComments(ts[0]) ==> ContainsComments(ts);
      assert TokenContainsComments(ts[|ts| - 1]) ==> ContainsComments(ts);
    }
  }

  /** A type is only hung for comments that are really inside it. */
  lemma {:induction false} ShouldHangHasComments(t: TypeInfo, search: CommentSearch)
    ensures ShouldHangType(t, search) ==> ContainsComments(TypeTokens(t))
    decreases t
  {
    match t
    case UnionType(l, op, r) =>
      ShouldHangHasComments(l, search);
      ShouldHangHasComments(r, search);
      SpineComments(l, op, r, search);
    case IntersectionType(l, op, r) =>
      ShouldHangHasComments(l, search);
      ShouldHangHasComments(r, search);
      SpineComments(l, op, r, search);
    case _ =>
  }

  /** The binary step: every reason to hang names a comment of the left operand, the operator or the right operand. */
  lemma {:induction false} SpineComments(l: TypeInfo, op: TokenRef, r: TypeInfo, search: CommentSearch)
    requires ShouldHangType(l, search) ==> ContainsComments(TypeTokens(l))
    requires ShouldHangType(r, search) ==> ContainsComments(TypeTokens(r))
    ensures TypeHasTrailingComments(l, search) || ShouldHangType(l, search) || TokenContainsComments(op)
            || TypeHasLeadingComments(r, search) || ShouldHangType(r, search)
            ==> ContainsComments(TypeTokens(l) + [op] + TypeTokens(r))
  {
    TypeTrailingTriviaIsLastToken(l);
    EdgeCommentsContained(TypeTokens(l), search);
    EdgeCommentsContained(TypeTokens(r), search);
    ContainsCommentsAppend(TypeTokens(l), [op]);
    ContainsCommentsAppend(TypeTokens(l) + [op], TypeTokens(r));
    assert TokenContainsComments(op) ==> ContainsComments([op]) by {
      assert [op][0] == op;
    }
  }

  // ---------------------------------------------------------------------
  // Parenthesised types
  // ---------------------------------------------------------------------

  /** How `format_type_info_internal` lays out a parenthesised tuple type. */
  datatype TupleLayout = TupleMultiline | TupleUnwrap | TupleSingleLine

  /** A pair forces multiline when its separator, or the trailing trivia of a last type, has a comment. */
  predicate PairForcesMultiline(p: Pair<TypeInfo>) {
    match p.punctuation
    case None => TypeHasTrailingComments(p.value, All)
    case Some(sep) => TokenContainsComments(sep)
  }

  /** The comments that force a tuple type onto several lines. */
  predicate TupleForcedMultiline(parens: Span, types: seq<Pair<TypeInfo>>) {
    || HasCommentsBy(Single, parens.start.trailing)
    || HasCommentsBy(Single, parens.end.leading)
    || exists i :: 0 <= i < |types| && PairForcesMultiline(types[i])
  }

  /**
   * The tuple decision: multiline when comments force it or the single-line
   * types (measured two characters in, for the parentheses) go over budget;
   * otherwise a lone type loses its parentheses unless the context needs them.
   */
  function TupleLayoutOf(parens: Span, types: seq<Pair<TypeInfo>>, c: TypeInfoContext,
                         shape: Layout.Shape, singleline: seq<TokenRef>): (r: TupleLayout)
    ensures r.TupleMultiline? <==>
      TupleForcedMultiline(parens, types) || Layout.TestOverBudget(Layout.AddWidth(shape, 2), singleline)
    ensures r.TupleUnwrap? <==>
      && !TupleForcedMultiline(parens, types)
      && !Layout.TestOverBudget(Layout.AddWidth(shape, 2), singleline)
      && |types| == 1
      && !KeepParentheses(types[0].value, c)
  {
    if TupleForcedMultiline(parens, types) || Layout.TestOverBudget(Layout.AddWidth(shape, 2), singleline) then TupleMultiline
    else if |types| == 1 && !KeepParentheses(types[0].value, c) then TupleUnwrap
    else TupleSingleLine
  }

  /** A lone type without forcing comments that fits is unwrapped whenever no flag is set. */
  lemma {:induction false} TopLevelTupleUnwraps(parens: Span, ty: TypeInfo, shape: Layout.Shape, singleline: seq<TokenRef>)
    requires !TupleForcedMultiline(parens, [Pair(ty, None)])
    requires !Layout.TestOverBudget(Layout.AddWidth(shape, 2), singleline)
    ensures TupleLayoutOf(parens, [Pair(ty, None)], NewTypeInfoContext(), shape, singleline) == TupleUnwrap
  {
    KeepParenthesesUnderNew(ty);
  }

  /** Inside generic arguments parentheses are never unwrapped. */
  lemma {:induction false} GenericTupleNeverUnwraps(parens: Span, types: seq<Pair<TypeInfo>>, c: TypeInfoContext,
                                 shape: Layout.Shape, singleline: seq<TokenRef>)
    requires c.withinGeneric
    ensures TupleLayoutOf(parens, types, c, shape, singleline) != TupleUnwrap
  {
  }

  /**
   * The unwrapped type: the formatted inner type, with the comments after the
   * closing parenthesis appended to its trailing trivia.
   */
  function UnwrapTuple(closing: TokenRef, inner: TypeInfo): (r: TypeInfo)
    ensures TypeTokens(r) == EditLast(TypeTokens(inner), Append(Comments(closing.trailing)))
    ensures TypeTrailingTrivia(r) == TypeTrailingTrivia(inner) + Comments(closing.trailing)
    ensures Comments(TypeTrailingTrivia(r)) == Comments(TypeTrailingTrivia(inner)) + Comments(closing.trailing)
  {
    var r := UpdateType(inner, NoChange, Append(Comments(closing.trailing)));
    TypeEdit(inner, NoChange, Append(Comments(closing.trailing)));
    NoChangeIsIdentity(TypeTokens(inner));
    TypeTrailingTriviaIsLastToken(inner);
    TypeTrailingTriviaIsLastToken(r);
    TypeTokensNonEmpty(inner);
    CommentsAppend(TypeTrailingTrivia(inner), Comments(closing.trailing));
    CommentsIdempotent(closing.trailing);
    r
  }

  // ---------------------------------------------------------------------
  // Compound assignment operators
  // ---------------------------------------------------------------------

  /** The compound operators of Luau and the symbol of each. */
  datatype CompoundOp = PlusEqual | MinusEqual | StarEqual | SlashEqual | PercentEqual | CaretEqual | TwoDotsEqual

  function CompoundSymbol(op: CompoundOp): string {
    match op
    case PlusEqual => "+="
    case MinusEqual => "-="
    case StarEqual => "*="
    case SlashEqual => "/="
    case PercentEqual => "%="
    case CaretEqual => "^="
    case TwoDotsEqual => "..="
  }

  /** The operator a token spells, if it is one of the seven. */
  function CompoundOpOf(t: TokenRef): (r: Option<CompoundOp>)
    ensures r.Some? ==> t.token == Symbol(CompoundSymbol(r.value))
    ensures (exists op :: t.token == Symbol(CompoundSymbol(op))) ==> r.Some?
  {
    if !t.token.Symbol? then None
    else match t.token.symbol
      case "+=" => Some(PlusEqual)
      case "-=" => Some(MinusEqual)
      case "*=" => Some(StarEqual)
      case "/=" => Some(SlashEqual)
      case "%=" => Some(PercentEqual)
      case "^=" => Some(CaretEqual)
      case "..=" => Some(TwoDotsEqual)
      case _ => None
  }

  /** The token `TokenReference::symbol(" += ")` builds: one space on each side. */
  function SpacedSymbol(op: CompoundOp): (r: TokenRef)
    ensures TokenRefText(r) == " " + CompoundSymbol(op) + " "
  {
    assert TriviaText([Space]) == " " by {
      assert [Space][1..] == [];
    }
    TokenRef([Space], Symbol(CompoundSymbol(op)), [Space])
  }

  /**
   * `format_compound_op`: the operator re-spelled with a single space on each
   * side; any comments around it stay where they were. The source panics on
   * a token that is not a compound operator.
   */
  function FormatCompoundOp(ctx: Context, current: TokenRef, shape: Layout.Shape): (r: TokenRef)
    requires CompoundOpOf(current).Some?
    ensures r.token == current.token
    ensures Comments(r.leading) == General.FormatComments(ctx, Comments(current.leading))
    ensures Comments(r.trailing) == General.FormatComments(ctx, Comments(current.trailing))
    ensures current.leading == [] && current.trailing == [] ==>
      TokenRefText(r) == " " + CompoundSymbol(CompoundOpOf(current).value) + " "
  {
    var wanted := SpacedSymbol(CompoundOpOf(current).value);
    assert !HasComment(wanted.leading) && !HasComment(wanted.trailing) by {
      assert wanted.leading == [Space] && wanted.trailing == [Space];
    }
    General.FormatSymbolKeepsComments(ctx, current, wanted, shape);
    General.FormatSymbol(ctx, current, wanted, shape)
  }
}
