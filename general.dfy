/**
 * The token-level formatters of formatters/general.rs that work on trivia:
 * `load_token_trivia` (which rebuilds the trivia around a token, keeping
 * comments and collapsing blank lines), `format_token_reference`,
 * `format_symbol`, the three punctuated-list formatters, `format_end_token`
 * (which drops blank lines before a block's closing token),
 * `pop_until_no_whitespace` and `format_eof`.
 */
module General {
  import opened Wrappers
  import opened Text
  import opened Syntax
  import opened Trivia
  import opened TriviaUtil
  import opened FormatContext
  import opened TokenFormat
  import Layout

  /** `EndTokenType`; `format_end_token` accepts it but does not look at it. */
  datatype EndTokenType = BlockEnd | ClosingBrace | ClosingParens

  /** The trivia `format_token` puts around a token, with the token in between. */
  function Emit(f: Formatted): seq<Token> {
    f.before.UnwrapOr([]) + [f.token] + f.after.UnwrapOr([])
  }

  // ---------------------------------------------------------------------
  // load_token_trivia
  // ---------------------------------------------------------------------

  /**
   * One step of `load_token_trivia`: the trivia it emits for the first
   * trivia of `ts`, how many trivia that consumes (a comment in leading
   * trivia also takes the newline after it) and the new count of newline
   * whitespace seen in succession.
   */
  datatype Loaded = Loaded(out: seq<Token>, consumed: nat, newlines: nat)

  /**
   * In leading trivia, whitespace is dropped except that the first of a run
   * of newline whitespace becomes one newline; in trailing trivia,
   * whitespace is dropped except a single space before a multi-line comment
   * on the same line. Every other trivia goes through `format_token`.
   */
  function LoadStep(ctx: Context, ts: seq<Token>, kind: FormatTokenType, shape: Layout.Shape, newlines: nat): (r: Loaded)
    requires ts != []
    ensures 1 <= r.consumed <= |ts|
  {
    var t := ts[0];
    if t.Whitespace? then
      if kind.AsLeadingTrivia? && '\n' in t.characters then
        Loaded(if newlines + 1 == 1 then [CreateNewlineTrivia(ctx)] else [], 1, newlines + 1)
      else if kind.AsTrailingTrivia? && |ts| > 1 && ts[1].MultiLineComment? && '\n' !in t.characters then
        Loaded([Space], 1, newlines)
      else Loaded([], 1, newlines)
    else
      var skip := if TriviaIsComment(t) && kind.AsLeadingTrivia? && |ts| > 1 && TriviaIsNewline(ts[1]) then 2 else 1;
      Loaded(Emit(FormatToken(ctx, t, kind, shape)), skip, 0)
  }

  /** What `load_token_trivia` builds from `ts`, given the newline count so far. */
  function LoadTrivia(ctx: Context, ts: seq<Token>, kind: FormatTokenType, shape: Layout.Shape, newlines: nat): seq<Token>
    decreases |ts|
  {
    if ts == [] then []
    else
      var s := LoadStep(ctx, ts, kind, shape, newlines);
      s.out + LoadTrivia(ctx, ts[s.consumed..], kind, shape, s.newlines)
  }

  /**
   * One turn of the loop of `load_token_trivia` at trivia `i`: what it
   * pushes, where the next turn starts, and the newline count after it.
   */
  method LoadOne(ctx: Context, current: seq<Token>, i: nat, kind: FormatTokenType, shape: Layout.Shape, newlines: nat)
    returns (out: seq<Token>, next: nat, newlines': nat)
    requires i < |current|
    ensures i < next <= |current|
    ensures LoadStep(ctx, current[i..], kind, shape, newlines) == Loaded(out, next - i, newlines')
  {
    assert current[i..][0] == current[i] && |current[i..]| == |current| - i;
    var trivia := current[i];
    next := i + 1;
    out := [];
    newlines' := newlines;
    if trivia.Whitespace? {
      if kind.AsLeadingTrivia? {
        if '\n' in trivia.characters {
          newlines' := newlines + 1;
          if newlines' == 1 {
            out := [CreateNewlineTrivia(ctx)];
          }
        }
      } else if kind.AsTrailingTrivia? {
        if next < |current| && current[next].MultiLineComment? && '\n' !in trivia.characters {
          assert current[i..][1] == current[next];
          out := [Space];
        }
      }
    } else {
      if TriviaIsComment(trivia) {
        if kind.AsLeadingTrivia? && next < |current| && TriviaIsNewline(current[next]) {
          assert current[i..][1] == current[next];
          next := next + 1;
        }
      }
      newlines' := 0;
      var formatted := FormatToken(ctx, trivia, kind, shape);
      out := formatted.before.UnwrapOr([]) + [formatted.token] + formatted.after.UnwrapOr([]);
    }
  }

  /** `load_token_trivia`: one pass over the trivia with a peek at the next one. */
  method LoadTokenTrivia(ctx: Context, current: seq<Token>, kind: FormatTokenType, shape: Layout.Shape)
    returns (tokenTrivia: seq<Token>)
    ensures tokenTrivia == LoadTrivia(ctx, current, kind, shape, 0)
  {
    tokenTrivia := [];
    var newlines: nat := 0;
    var i := 0;
    assert current[0..] == current;
    while i < |current|
      invariant 0 <= i <= |current|
      invariant tokenTrivia + LoadTrivia(ctx, current[i..], kind, shape, newlines) == LoadTrivia(ctx, current, kind, shape, 0)
      decreases |current| - i
    {
      var out, next, newlines' := LoadOne(ctx, current, i, kind, shape, newlines);
      assert current[i..][next - i..] == current[next..];
      AppendAssoc(tokenTrivia, out, LoadTrivia(ctx, current[next..], kind, shape, newlines'));
      tokenTrivia := tokenTrivia + out;
      i, newlines := next, newlines';
    }
  }

  /** The formatted form of each of some comments, in order. */
  function FormatComments(ctx: Context, cs: seq<Token>): (r: seq<Token>)
    ensures |r| == |cs|
  {
    if cs == [] then [] else [FormatTokenText(ctx, cs[0])] + FormatComments(ctx, cs[1..])
  }

  lemma {:induction false} FormatCommentsAppend(ctx: Context, a: seq<Token>, b: seq<Token>)
    ensures FormatComments(ctx, a + b) == FormatComments(ctx, a) + FormatComments(ctx, b)
  {
    if a != [] {
      assert (a + b)[1..] == a[1..] + b;
      FormatCommentsAppend(ctx, a[1..], b);
    } else {
      assert a + b == b;
    }
  }

  lemma {:induction false} CommentsOfOne(t: Token)
    ensures Comments([t]) == if TriviaIsComment(t) then [t] else []
  {
    assert [t][1..] == [];
  }

  /** Single non-comment trivia around a token adds no comment to it. */
  lemma {:induction false} EmitCommentsOf(f: Formatted)
    requires f.before.Some? ==> |f.before.value| == 1 && !TriviaIsComment(f.before.value[0])
    requires f.after.Some? ==> |f.after.value| == 1 && !TriviaIsComment(f.after.value[0])
    ensures Comments(Emit(f)) == Comments([f.token])
  {
    CommentsAppend(f.before.UnwrapOr([]) + [f.token], f.after.UnwrapOr([]));
    CommentsAppend(f.before.UnwrapOr([]), [f.token]);
    if f.before.Some? {
      CommentsOfOne(f.before.value[0]);
      assert f.before.value == [f.before.value[0]];
    }
    if f.after.Some? {
      CommentsOfOne(f.after.value[0]);
      assert f.after.value == [f.after.value[0]];
    }
  }

  /** The trivia `format_token` puts around a comment holds no comment. */
  lemma {:induction false} EmitComments(ctx: Context, t: Token, kind: FormatTokenType, shape: Layout.Shape)
    ensures Comments(Emit(FormatToken(ctx, t, kind, shape))) ==
      if TriviaIsComment(t) then [FormatTokenText(ctx, t)] else []
  {
    var f := FormatToken(ctx, t, kind, shape);
    FormatTokenPreservesMeaning(ctx, t);
    EmitCommentsOf(f);
    CommentsOfOne(f.token);
  }

  /** One step keeps the comments it consumes, formatted, and adds none. */
  lemma {:induction false} StepComments(ctx: Context, ts: seq<Token>, kind: FormatTokenType, shape: Layout.Shape, newlines: nat)
    requires ts != []
    ensures var s := LoadStep(ctx, ts, kind, shape, newlines);
      Comments(s.out) == FormatComments(ctx, Comments(ts[..s.consumed]))
  {
    if ts[0].Whitespace? {
      StepCommentsWhitespace(ctx, ts, kind, shape, newlines);
    } else {
      StepCommentsEmitted(ctx, ts, kind, shape, newlines);
    }
  }

  lemma {:induction false} StepCommentsWhitespace(ctx: Context, ts: seq<Token>, kind: FormatTokenType, shape: Layout.Shape, newlines: nat)
    requires ts != [] && ts[0].Whitespace?
    ensures var s := LoadStep(ctx, ts, kind, shape, newlines);
      Comments(s.out) == FormatComments(ctx, Comments(ts[..s.consumed]))
  {
    var s := LoadStep(ctx, ts, kind, shape, newlines);
    CommentsOfOne(ts[0]);
    assert ts[..s.consumed] == [ts[0]];
    if s.out != [] {
      assert s.out == [s.out[0]] && s.out[0].Whitespace?;
      CommentsOfOne(s.out[0]);
    }
  }

  lemma {:induction false} StepCommentsEmitted(ctx: Context, ts: seq<Token>, kind: FormatTokenType, shape: Layout.Shape, newlines: nat)
    requires ts != [] && !ts[0].Whitespace?
    ensures var s := LoadStep(ctx, ts, kind, shape, newlines);
      Comments(s.out) == FormatComments(ctx, Comments(ts[..s.consumed]))
  {
    var s := LoadStep(ctx, ts, kind, shape, newlines);
    CommentsOfOne(ts[0]);
    EmitComments(ctx, ts[0], kind, shape);
    if s.consumed == 2 {
      assert ts[..2] == [ts[0]] + [ts[1]];
      CommentsAppend([ts[0]], [ts[1]]);
      CommentsOfOne(ts[1]);
    } else {
      assert ts[..1] == [ts[0]];
    }
    assert FormatComments(ctx, [ts[0]]) == [FormatTokenText(ctx, ts[0])];
  }

  /**
   * `load_token_trivia` keeps every comment, in order, each formatted by
   * `format_token`, and adds no other comment.
   */
  lemma {:induction false} LoadTriviaKeepsComments(ctx: Context, ts: seq<Token>, kind: FormatTokenType, shape: Layout.Shape, newlines: nat)
    ensures Comments(LoadTrivia(ctx, ts, kind, shape, newlines)) == FormatComments(ctx, Comments(ts))
    decreases |ts|
  {
    if ts != [] {
      var s := LoadStep(ctx, ts, kind, shape, newlines);
      var head, rest := ts[..s.consumed], ts[s.consumed..];
      var loaded := LoadTrivia(ctx, rest, kind, shape, s.newlines);
      assert LoadTrivia(ctx, ts, kind, shape, newlines) == s.out + loaded;
      calc {
        Comments(s.out + loaded);
        { CommentsAppend(s.out, loaded); }
        Comments(s.out) + Comments(loaded);
        { StepComments(ctx, ts, kind, shape, newlines);
          LoadTriviaKeepsComments(ctx, rest, kind, shape, s.newlines); }
        FormatComments(ctx, Comments(head)) + FormatComments(ctx, Comments(rest));
        { FormatCommentsAppend(ctx, Comments(head), Comments(rest)); }
        FormatComments(ctx, Comments(head) + Comments(rest));
        { assert ts == head + rest;
          CommentsAppend(head, rest); }
        FormatComments(ctx, Comments(ts));
      }
    }
  }

  /** Whitespace that `load_token_trivia` may produce in leading trivia: a newline or the indent. */
  predicate LayoutWhitespaceOnly(ctx: Context, shape: Layout.Shape, ts: seq<Token>) {
    forall i :: 0 <= i < |ts| && ts[i].Whitespace? ==>
      ts[i] == CreateNewlineTrivia(ctx) || ts[i] == CreateIndentTrivia(ctx, shape)
  }

  /** Whitespace that `load_token_trivia` may produce in trailing trivia: single spaces. */
  predicate SpacesOnly(ts: seq<Token>) {
    forall i :: 0 <= i < |ts| && ts[i].Whitespace? ==> ts[i] == Space
  }

  lemma {:induction false} StepWhitespace(ctx: Context, ts: seq<Token>, kind: FormatTokenType, shape: Layout.Shape, newlines: nat)
    requires ts != []
    ensures kind.AsLeadingTrivia? ==> LayoutWhitespaceOnly(ctx, shape, LoadStep(ctx, ts, kind, shape, newlines).out)
    ensures kind.AsTrailingTrivia? ==> SpacesOnly(LoadStep(ctx, ts, kind, shape, newlines).out)
  {
    var f := FormatToken(ctx, ts[0], kind, shape);
    FormatTokenPreservesMeaning(ctx, ts[0]);
    if !ts[0].Whitespace? {
      assert Emit(f) == f.before.UnwrapOr([]) + [f.token] + f.after.UnwrapOr([]);
    }
  }

  /**
   * No whitespace is copied: in leading trivia every whitespace produced is
   * the configured newline or the indent, and in trailing trivia it is a
   * single space, so trailing trivia never gains a line break.
   */
  lemma {:induction false} LoadTriviaWhitespace(ctx: Context, ts: seq<Token>, kind: FormatTokenType, shape: Layout.Shape, newlines: nat)
    ensures kind.AsLeadingTrivia? ==> LayoutWhitespaceOnly(ctx, shape, LoadTrivia(ctx, ts, kind, shape, newlines))
    ensures kind.AsTrailingTrivia? ==> SpacesOnly(LoadTrivia(ctx, ts, kind, shape, newlines))
    ensures kind.AsTrailingTrivia? ==> !HasNewline(LoadTrivia(ctx, ts, kind, shape, newlines))
    decreases |ts|
  {
    var out := LoadTrivia(ctx, ts, kind, shape, newlines);
    if ts != [] {
      var s := LoadStep(ctx, ts, kind, shape, newlines);
      var rest := LoadTrivia(ctx, ts[s.consumed..], kind, shape, s.newlines);
      LoadTriviaWhitespace(ctx, ts[s.consumed..], kind, shape, s.newlines);
      StepWhitespace(ctx, ts, kind, shape, newlines);
      assert out == s.out + rest;
      forall i | 0 <= i < |out|
        ensures out[i] == if i < |s.out| then s.out[i] else rest[i - |s.out|]
      {
      }
    }
    if kind.AsTrailingTrivia? {
      forall i | 0 <= i < |out|
        ensures !TriviaIsNewline(out[i])
      {
        if out[i].Whitespace? {
          assert out[i] == Space;
        }
      }
    }
  }

  /** Three newline trivia in a row, that is two blank lines. */
  predicate HasTripleNewline(nl: Token, ts: seq<Token>)
    decreases |ts|
  {
    |ts| >= 3 && ((ts[0] == nl && ts[1] == nl && ts[2] == nl) || HasTripleNewline(nl, ts[1..]))
  }

  predicate StartsWithNewline(nl: Token, ts: seq<Token>) {
    ts != [] && ts[0] == nl
  }

  predicate StartsWithTwoNewlines(nl: Token, ts: seq<Token>) {
    |ts| >= 2 && ts[0] == nl && ts[1] == nl
  }

  /** Putting one trivia in front starts a triple only with two newlines behind it. */
  lemma {:induction false} TripleCons(nl: Token, x: Token, ts: seq<Token>)
    ensures HasTripleNewline(nl, [x] + ts) <==> (x == nl && StartsWithTwoNewlines(nl, ts)) || HasTripleNewline(nl, ts)
  {
    assert ([x] + ts)[1..] == ts;
  }

  /**
   * The four forms one step of leading trivia can take: nothing (and a
   * newline count that stays positive), the first newline of a run, an
   * indented comment ending its line, or a single other token.
   */
  predicate LeadingStepForm(nl: Token, out: seq<Token>, newlines: nat, next: nat) {
    (out == [] && (newlines > 0 ==> next > 0))
    || (out == [nl] && newlines == 0 && next == 1)
    || (|out| == 3 && out[0] != nl && out[1] != nl && out[2] == nl && next == 0)
    || (|out| == 1 && out[0] != nl && next == 0)
  }

  lemma {:induction false} StepLeadingForms(ctx: Context, ts: seq<Token>, shape: Layout.Shape, newlines: nat)
    requires ts != []
    ensures var s := LoadStep(ctx, ts, AsLeadingTrivia, shape, newlines);
      LeadingStepForm(CreateNewlineTrivia(ctx), s.out, newlines, s.newlines)
  {
    var nl := CreateNewlineTrivia(ctx);
    if !ts[0].Whitespace? {
      var f := FormatToken(ctx, ts[0], AsLeadingTrivia, shape);
      FormatTokenPreservesMeaning(ctx, ts[0]);
      assert f.token != nl;
      if TriviaIsComment(ts[0]) {
        assert CreateIndentTrivia(ctx, shape) != nl;
        assert Emit(f) == [CreateIndentTrivia(ctx, shape), f.token, nl];
      } else {
        assert Emit(f) == [f.token];
      }
    }
  }

  /** No two blank lines, and no newline first after a newline already seen. */
  predicate BlankLinesCollapsed(nl: Token, out: seq<Token>, newlines: nat) {
    !HasTripleNewline(nl, out)
    && (newlines > 0 ==> !StartsWithNewline(nl, out))
    && !StartsWithTwoNewlines(nl, out)
  }

  lemma {:induction false} StepKeepsBlankLinesCollapsed(nl: Token, out: seq<Token>, rest: seq<Token>, newlines: nat, next: nat)
    requires LeadingStepForm(nl, out, newlines, next)
    requires BlankLinesCollapsed(nl, rest, next)
    ensures BlankLinesCollapsed(nl, out + rest, newlines)
  {
    if |out| == 1 {
      assert out + rest == [out[0]] + rest;
      TripleCons(nl, out[0], rest);
    } else if |out| == 3 {
      assert out + rest == [out[0]] + ([out[1]] + ([nl] + rest));
      TripleCons(nl, nl, rest);
      TripleCons(nl, out[1], [nl] + rest);
      TripleCons(nl, out[0], [out[1]] + ([nl] + rest));
    } else {
      assert out + rest == rest;
    }
  }

  /**
   * Leading trivia never gets two blank lines in a row: a run of newline
   * whitespace gives one newline, and only a comment's own newline can come
   * before it. Once a newline has been passed (`newlines > 0`), the output
   * cannot start with another.
   */
  lemma {:induction false} LoadTriviaAtMostOneBlankLine(ctx: Context, ts: seq<Token>, shape: Layout.Shape, newlines: nat)
    ensures BlankLinesCollapsed(CreateNewlineTrivia(ctx), LoadTrivia(ctx, ts, AsLeadingTrivia, shape, newlines), newlines)
    decreases |ts|
  {
    if ts != [] {
      var s := LoadStep(ctx, ts, AsLeadingTrivia, shape, newlines);
      LoadTriviaAtMostOneBlankLine(ctx, ts[s.consumed..], shape, s.newlines);
      StepLeadingForms(ctx, ts, shape, newlines);
      StepKeepsBlankLinesCollapsed(CreateNewlineTrivia(ctx), s.out,
        LoadTrivia(ctx, ts[s.consumed..], AsLeadingTrivia, shape, s.newlines), newlines, s.newlines);
    }
  }

  /**
   * A run of whitespace alone in leading trivia becomes one newline when it
   * holds a line break and nothing otherwise.
   */
  lemma {:induction false} WhitespaceRunCollapses(ctx: Context, ts: seq<Token>, shape: Layout.Shape, newlines: nat)
    requires forall i :: 0 <= i < |ts| ==> ts[i].Whitespace?
    ensures LoadTrivia(ctx, ts, AsLeadingTrivia, shape, newlines) ==
      if HasNewline(ts) && newlines == 0 then [CreateNewlineTrivia(ctx)] else []
    decreases |ts|
  {
    if ts != [] {
      var n' := if '\n' in ts[0].characters then newlines + 1 else newlines;
      WhitespaceRunCollapses(ctx, ts[1..], shape, n');
      assert HasNewline(ts) <==> TriviaIsNewline(ts[0]) || HasNewline(ts[1..]) by {
        if HasNewline(ts) {
          var i :| 0 <= i < |ts| && TriviaIsNewline(ts[i]);
          if i > 0 {
            assert ts[1..][i - 1] == ts[i];
          }
        }
        if HasNewline(ts[1..]) {
          var i :| 0 <= i < |ts[1..]| && TriviaIsNewline(ts[1..][i]);
          assert ts[i + 1] == ts[1..][i];
        }
      }
    }
  }

  /**
   * A comment in leading trivia ends its own line: the newline right after
   * it adds nothing, and the blank-line count starts again after it.
   */
  lemma {:induction false} CommentTakesFollowingNewline(ctx: Context, c: Token, w: Token, rest: seq<Token>, shape: Layout.Shape, newlines: nat)
    requires TriviaIsComment(c) && TriviaIsNewline(w)
    ensures LoadTrivia(ctx, [c, w] + rest, AsLeadingTrivia, shape, newlines) ==
      [CreateIndentTrivia(ctx, shape), FormatTokenText(ctx, c), CreateNewlineTrivia(ctx)]
      + LoadTrivia(ctx, rest, AsLeadingTrivia, shape, 0)
  {
    assert ([c, w] + rest)[2..] == rest;
  }

  // ---------------------------------------------------------------------
  // Token references and symbols
  // ---------------------------------------------------------------------

  /** `format_token_reference`: the token formatted, its trivia reloaded. */
  function FormatTokenReference(ctx: Context, t: TokenRef, shape: Layout.Shape): (r: TokenRef)
    ensures r.token == FormatTokenText(ctx, t.token)
  {
    TokenRef(
      LoadTrivia(ctx, t.leading, AsLeadingTrivia, shape, 0),
      FormatToken(ctx, t.token, AsToken, shape).token,
      LoadTrivia(ctx, t.trailing, AsTrailingTrivia, shape, 0))
  }

  /** `format_contained_span`: both enclosing tokens formatted. */
  function FormatContainedSpan(ctx: Context, s: Span, shape: Layout.Shape): (r: Span)
    ensures r.start.token == FormatTokenText(ctx, s.start.token)
    ensures r.end.token == FormatTokenText(ctx, s.end.token)
  {
    Span(FormatTokenReference(ctx, s.start, shape), FormatTokenReference(ctx, s.end, shape))
  }

  /**
   * `format_symbol`: the wanted symbol, with the current symbol's reloaded
   * leading trivia before the wanted leading whitespace and its reloaded
   * trailing trivia after the wanted trailing whitespace.
   */
  function FormatSymbol(ctx: Context, current: TokenRef, wanted: TokenRef, shape: Layout.Shape): (r: TokenRef)
    ensures r.token == wanted.token
    ensures |wanted.leading| <= |r.leading| && r.leading[|r.leading| - |wanted.leading|..] == wanted.leading
    ensures wanted.trailing <= r.trailing
  {
    var leading := LoadTrivia(ctx, current.leading, AsLeadingTrivia, shape, 0);
    var trailing := LoadTrivia(ctx, current.trailing, AsTrailingTrivia, shape, 0);
    assert (leading + wanted.leading)[|leading|..] == wanted.leading;
    TokenRef(leading + wanted.leading, wanted.token, wanted.trailing + trailing)
  }

  /**
   * `format_symbol` keeps the comments around the current symbol on the same
   * side of the new one, and a symbol without trivia becomes exactly the
   * wanted one.
   */
  lemma {:induction false} FormatSymbolKeepsComments(ctx: Context, current: TokenRef, wanted: TokenRef, shape: Layout.Shape)
    requires !HasComment(wanted.leading) && !HasComment(wanted.trailing)
    ensures Comments(FormatSymbol(ctx, current, wanted, shape).leading) == FormatComments(ctx, Comments(current.leading))
    ensures Comments(FormatSymbol(ctx, current, wanted, shape).trailing) == FormatComments(ctx, Comments(current.trailing))
    ensures current.leading == [] && current.trailing == [] ==> FormatSymbol(ctx, current, wanted, shape) == wanted
  {
    var leading := LoadTrivia(ctx, current.leading, AsLeadingTrivia, shape, 0);
    var trailing := LoadTrivia(ctx, current.trailing, AsTrailingTrivia, shape, 0);
    LoadTriviaKeepsComments(ctx, current.leading, AsLeadingTrivia, shape, 0);
    LoadTriviaKeepsComments(ctx, current.trailing, AsTrailingTrivia, shape, 0);
    CommentsAppend(leading, wanted.leading);
    CommentsAppend(wanted.trailing, trailing);
    if current.leading == [] && current.trailing == [] {
      assert [] + wanted.leading == wanted.leading;
      assert wanted.trailing + [] == wanted.trailing;
    }
  }

  /** `TokenReference::symbol(", ")` and `TokenReference::symbol(",")`. */
  const CommaSpace: TokenRef := TokenRef([], Symbol(","), [Space])
  const Comma: TokenRef := TokenRef([], Symbol(","), [])

  // ---------------------------------------------------------------------
  // Punctuated lists
  // ---------------------------------------------------------------------

  /**
   * One pair of `format_punctuated` at the shape reached so far: the value
   * formatted at that shape and the separator turned into `, `; after a
   * separated value the shape moves to the end of the value's last line
   * plus the two characters of `, `.
   */
  function PunctuatedPair<T>(ctx: Context, pair: Pair<T>, shape: Layout.Shape,
                             formatter: (Context, T, Layout.Shape) -> T, text: T -> string): (Pair<T>, Layout.Shape)
  {
    var value := formatter(ctx, pair.value, shape);
    match pair.punctuation
    case Some(p) =>
      (Pair(value, Some(FormatSymbol(ctx, p, CommaSpace, shape))), Layout.Plus(Layout.TakeLastLine(shape, text(value)), 2))
    case None => (Pair(value, None), shape)
  }

  /** What `format_punctuated` builds from the pairs still to do. */
  function Punctuated<T>(ctx: Context, pairs: seq<Pair<T>>, shape: Layout.Shape,
                         formatter: (Context, T, Layout.Shape) -> T, text: T -> string): (r: seq<Pair<T>>)
    ensures |r| == |pairs|
    decreases |pairs|
  {
    if pairs == [] then []
    else
      var step := PunctuatedPair(ctx, pairs[0], shape, formatter, text);
      [step.0] + Punctuated(ctx, pairs[1..], step.1, formatter, text)
  }

  /** `format_punctuated`: one pass over the pairs with a moving shape. */
  method FormatPunctuated<T>(ctx: Context, pairs: seq<Pair<T>>, shape: Layout.Shape,
                             formatter: (Context, T, Layout.Shape) -> T, text: T -> string)
    returns (list: seq<Pair<T>>)
    ensures list == Punctuated(ctx, pairs, shape, formatter, text)
  {
    list := [];
    var current := shape;
    for i := 0 to |pairs|
      invariant list + Punctuated(ctx, pairs[i..], current, formatter, text) == Punctuated(ctx, pairs, shape, formatter, text)
    {
      ghost var before := list;
      ghost var step := PunctuatedPair(ctx, pairs[i], current, formatter, text);
      assert pairs[i..][1..] == pairs[i + 1..];
      assert Punctuated(ctx, pairs[i..], current, formatter, text) ==
        [step.0] + Punctuated(ctx, pairs[i + 1..], step.1, formatter, text);
      var pair := pairs[i];
      var value := formatter(ctx, pair.value, current);
      match pair.punctuation {
        case Some(p) =>
          var punctuation := FormatSymbol(ctx, p, CommaSpace, current);
          list := list + [Pair(value, Some(punctuation))];
          current := Layout.Plus(Layout.TakeLastLine(current, text(value)), 2);
        case None =>
          list := list + [Pair(value, None)];
      }
      assert list == before + [step.0] && current == step.1;
      AppendAssoc(before, [step.0], Punctuated(ctx, pairs[i + 1..], step.1, formatter, text));
    }
    assert pairs[|pairs|..] == [];
  }

  /**
   * A single-line list keeps its length and its separators: the first value
   * is formatted at the given shape, and each separator is `,` followed by one space,
   * with the comments of the old separator kept.
   */
  lemma {:induction false} PunctuatedSeparators<T>(ctx: Context, pairs: seq<Pair<T>>, shape: Layout.Shape,
                                                   formatter: (Context, T, Layout.Shape) -> T, text: T -> string, i: nat)
    requires i < |pairs|
    ensures var r := Punctuated(ctx, pairs, shape, formatter, text);
      (r[i].punctuation.Some? <==> pairs[i].punctuation.Some?)
      && (i == 0 ==> r[i].value == formatter(ctx, pairs[i].value, shape))
      && (r[i].punctuation.Some? ==>
            var p := r[i].punctuation.value;
            p.token == Symbol(",") && |p.trailing| >= 1 && p.trailing[0] == Space
            && Comments(p.leading) == FormatComments(ctx, Comments(pairs[i].punctuation.value.leading))
            && Comments(p.trailing) == FormatComments(ctx, Comments(pairs[i].punctuation.value.trailing)))
    decreases |pairs|
  {
    var step := PunctuatedPair(ctx, pairs[0], shape, formatter, text);
    if i == 0 {
      if pairs[0].punctuation.Some? {
        CommentsOfOne(Space);
        FormatSymbolKeepsComments(ctx, pairs[0].punctuation.value, CommaSpace, shape);
      }
      assert step.0.value == formatter(ctx, pairs[0].value, shape);
    } else {
      PunctuatedSeparators(ctx, pairs[1..], step.1, formatter, text, i - 1);
      assert pairs[1..][i - 1] == pairs[i];
    }
  }

  /** The shape for the items after the first of a multi-line list: the hanging indent, if any. */
  function HangingShape(shape: Layout.Shape, hangLevel: Option<usize>): (r: Layout.Shape)
    ensures hangLevel.None? ==> r == shape
    ensures r.offset == shape.offset && r.columnWidth == shape.columnWidth
  {
    match hangLevel
    case Some(level) => Layout.WithIndent(shape, Layout.AddIndentLevel(shape.indent, level))
    case None => shape
  }

  /** One pair of `format_punctuated_multiline`. */
  function MultilinePair<T>(ctx: Context, pair: Pair<T>, idx: nat, shape: Layout.Shape, hanging: Layout.Shape,
                            formatter: (Context, T, Layout.Shape) -> T): Pair<T>
  {
    var itemShape := if idx == 0 then shape else Layout.Reset(hanging);
    var value := formatter(ctx, pair.value, itemShape);
    match pair.punctuation
    case Some(p) =>
      Pair(value, Some(UpdateTrailingToken(FormatSymbol(ctx, p, Comma, itemShape),
                                           Append([CreateNewlineTrivia(ctx), CreateIndentTrivia(ctx, hanging)]))))
    case None => Pair(value, None)
  }

  /**
   * What `format_punctuated_multiline` builds: every item after the first on
   * a new line at the hanging indent, every separator `,` and a line break.
   */
  function PunctuatedMultiline<T>(ctx: Context, pairs: seq<Pair<T>>, shape: Layout.Shape,
                                  formatter: (Context, T, Layout.Shape) -> T, hangLevel: Option<usize>): (r: seq<Pair<T>>)
    ensures |r| == |pairs|
    ensures forall i :: 0 <= i < |pairs| ==> r[i] == MultilinePair(ctx, pairs[i], i, shape, HangingShape(shape, hangLevel), formatter)
  {
    seq(|pairs|, i requires 0 <= i < |pairs| => MultilinePair(ctx, pairs[i], i, shape, HangingShape(shape, hangLevel), formatter))
  }

  /** `format_punctuated_multiline`. */
  method FormatPunctuatedMultiline<T>(ctx: Context, pairs: seq<Pair<T>>, shape: Layout.Shape,
                                      formatter: (Context, T, Layout.Shape) -> T, hangLevel: Option<usize>)
    returns (formatted: seq<Pair<T>>)
    ensures formatted == PunctuatedMultiline(ctx, pairs, shape, formatter, hangLevel)
  {
    var hanging := HangingShape(shape, hangLevel);
    formatted := [];
    for idx := 0 to |pairs|
      invariant |formatted| == idx
      invariant forall k :: 0 <= k < idx ==> formatted[k] == MultilinePair(ctx, pairs[k], k, shape, hanging, formatter)
    {
      var itemShape := if idx == 0 then shape else Layout.Reset(hanging);
      var pair := pairs[idx];
      match pair.punctuation {
        case Some(p) =>
          var value := formatter(ctx, pair.value, itemShape);
          var punctuation := UpdateTrailingToken(FormatSymbol(ctx, p, Comma, itemShape),
                                                 Append([CreateNewlineTrivia(ctx), CreateIndentTrivia(ctx, hanging)]));
          formatted := formatted + [Pair(value, Some(punctuation))];
        case None =>
          var value := formatter(ctx, pair.value, itemShape);
          formatted := formatted + [Pair(value, None)];
      }
    }
  }

  /**
   * In a multi-line list, the pairs keep their separators, and every
   * separator is `,` ending its line with the hanging indent for the next
   * item.
   */
  lemma {:induction false} MultilineSeparators<T>(ctx: Context, pairs: seq<Pair<T>>, shape: Layout.Shape,
                               formatter: (Context, T, Layout.Shape) -> T, hangLevel: Option<usize>, i: nat)
    requires i < |pairs|
    ensures var r := PunctuatedMultiline(ctx, pairs, shape, formatter, hangLevel);
      (r[i].punctuation.Some? <==> pairs[i].punctuation.Some?)
      && (r[i].punctuation.Some? ==>
            var p := r[i].punctuation.value;
            p.token == Symbol(",") && |p.trailing| >= 2
            && p.trailing[|p.trailing| - 2..] == [CreateNewlineTrivia(ctx), CreateIndentTrivia(ctx, HangingShape(shape, hangLevel))])
  {
    var r := PunctuatedMultiline(ctx, pairs, shape, formatter, hangLevel);
    if pairs[i].punctuation.Some? {
      var p := r[i].punctuation.value;
      var tail := [CreateNewlineTrivia(ctx), CreateIndentTrivia(ctx, HangingShape(shape, hangLevel))];
      assert p.trailing[|p.trailing| - 2..] == tail;
    }
  }

  /** Whether some separator of the list carries a comment. */
  predicate SeparatorHasComments<T>(pairs: seq<Pair<T>>) {
    exists i :: 0 <= i < |pairs| && pairs[i].punctuation.Some? && TokenContainsComments(pairs[i].punctuation.value)
  }

  /**
   * `try_format_punctuated`: a comment on any separator forces the
   * multi-line layout (collapsing would comment out code); otherwise the
   * single-line one.
   */
  function TryPunctuated<T>(ctx: Context, pairs: seq<Pair<T>>, shape: Layout.Shape,
                            formatter: (Context, T, Layout.Shape) -> T, text: T -> string, hangLevel: Option<usize>)
    : (r: seq<Pair<T>>)
    ensures |r| == |pairs|
  {
    if SeparatorHasComments(pairs) then PunctuatedMultiline(ctx, pairs, shape, formatter, hangLevel)
    else Punctuated(ctx, pairs, shape, formatter, text)
  }

  /** Either layout keeps every separator, and only separators, each spelled `,`. */
  lemma {:induction false} TryPunctuatedSeparators<T>(ctx: Context, pairs: seq<Pair<T>>, shape: Layout.Shape,
                                                      formatter: (Context, T, Layout.Shape) -> T, text: T -> string,
                                                      hangLevel: Option<usize>, i: nat)
    requires i < |pairs|
    ensures var r := TryPunctuated(ctx, pairs, shape, formatter, text, hangLevel);
      (r[i].punctuation.Some? <==> pairs[i].punctuation.Some?)
      && (r[i].punctuation.Some? ==> r[i].punctuation.value.token == Symbol(","))
  {
    if SeparatorHasComments(pairs) {
      MultilineSeparators(ctx, pairs, shape, formatter, hangLevel, i);
    } else {
      PunctuatedSeparators(ctx, pairs, shape, formatter, text, i);
    }
  }

  /** The loop of `try_format_punctuated`, scanning the separators for a comment. */
  method TryFormatPunctuated<T>(ctx: Context, pairs: seq<Pair<T>>, shape: Layout.Shape,
                                formatter: (Context, T, Layout.Shape) -> T, text: T -> string, hangLevel: Option<usize>)
    returns (r: seq<Pair<T>>)
    ensures r == TryPunctuated(ctx, pairs, shape, formatter, text, hangLevel)
    ensures SeparatorHasComments(pairs) ==> r == PunctuatedMultiline(ctx, pairs, shape, formatter, hangLevel)
    ensures !SeparatorHasComments(pairs) ==> r == Punctuated(ctx, pairs, shape, formatter, text)
  {
    var formatMultiline := false;
    var i := 0;
    while i < |pairs|
      invariant 0 <= i <= |pairs|
      invariant formatMultiline ==> SeparatorHasComments(pairs)
      invariant !formatMultiline ==> forall k :: 0 <= k < i && pairs[k].punctuation.Some? ==> !TokenContainsComments(pairs[k].punctuation.value)
      decreases |pairs| - i, if formatMultiline then 0 else 1
    {
      if pairs[i].punctuation.Some? && TokenContainsComments(pairs[i].punctuation.value) {
        formatMultiline := true;
        break;
      }
      i := i + 1;
    }
    if formatMultiline {
      r := FormatPunctuatedMultiline(ctx, pairs, shape, formatter, hangLevel);
    } else {
      r := FormatPunctuated(ctx, pairs, shape, formatter, text);
    }
  }

  // ---------------------------------------------------------------------
  // End tokens
  // ---------------------------------------------------------------------

  /**
   * Whether the last trivia is a line break `format_end_token` drops: a
   * newline whitespace not right after a comment.
   */
  predicate DroppableLast(ts: seq<Token>) {
    ts != [] && TriviaIsNewline(ts[|ts| - 1]) && !(|ts| >= 2 && TriviaIsComment(ts[|ts| - 2]))
  }

  /**
   * The leading trivia `format_end_token` keeps, read from the end: newline
   * whitespace is dropped until the first trivia that is not whitespace,
   * except a newline that directly follows a comment; from there on
   * everything is kept.
   */
  function EndTrim(ts: seq<Token>): seq<Token>
    decreases |ts|
  {
    if ts == [] then []
    else
      var n := |ts| - 1;
      if !ts[n].Whitespace? then ts
      else if DroppableLast(ts) then EndTrim(ts[..n])
      else EndTrim(ts[..n]) + [ts[n]]
  }

  /** `format_end_token`: reload the trivia, then the reverse pass with its `stop_removal` flag. */
  method FormatEndToken(ctx: Context, currentToken: TokenRef, tokenType: EndTokenType, shape: Layout.Shape)
    returns (r: TokenRef)
    ensures r == TokenRef(
      EndTrim(LoadTrivia(ctx, currentToken.leading, AsLeadingTrivia, Layout.ShapeIncrementAdditionalIndent(shape), 0)),
      currentToken.token,
      LoadTrivia(ctx, currentToken.trailing, AsTrailingTrivia, shape, 0))
  {
    var leading := LoadTokenTrivia(ctx, currentToken.leading, AsLeadingTrivia, Layout.ShapeIncrementAdditionalIndent(shape));
    var trailing := LoadTokenTrivia(ctx, currentToken.trailing, AsTrailingTrivia, shape);
    var kept := DropTrailingNewlines(leading);
    r := TokenRef(kept, currentToken.token, trailing);
  }

  /** The reverse loop of `format_end_token`. */
  method DropTrailingNewlines(ts: seq<Token>) returns (kept: seq<Token>)
    ensures kept == EndTrim(ts)
  {
    kept := [];
    var stopRemoval := false;
    var i := |ts|;
    assert ts[..i] == ts;
    while i > 0
      invariant 0 <= i <= |ts|
      invariant (if stopRemoval then ts[..i] else EndTrim(ts[..i])) + kept == EndTrim(ts)
    {
      i := i - 1;
      var x := ts[i];
      EndTrimSnoc(ts, i);
      assert ts[..i + 1] == ts[..i] + [x];
      ghost var front := if stopRemoval then ts[..i] else EndTrim(ts[..i]);
      if x.Whitespace? {
        if !stopRemoval && '\n' in x.characters && !(i > 0 && TriviaIsComment(ts[i - 1])) {
          assert DroppableLast(ts[..i + 1]);
        } else {
          assert (if stopRemoval then ts[..i + 1] else EndTrim(ts[..i + 1])) == front + [x];
          Text.AppendAssoc(front, [x], kept);
          kept := [x] + kept;
        }
      } else {
        assert (if stopRemoval then ts[..i + 1] else EndTrim(ts[..i + 1])) == ts[..i] + [x];
        Text.AppendAssoc(ts[..i], [x], kept);
        kept := [x] + kept;
        stopRemoval := true;
      }
    }
    assert ts[..0] == [];
  }

  /** Trimming a prefix one longer looks only at the new last trivia. */
  lemma {:induction false} EndTrimSnoc(ts: seq<Token>, i: nat)
    requires i < |ts|
    ensures var p := ts[..i + 1];
      EndTrim(p) == if !ts[i].Whitespace? then p else if DroppableLast(p) then EndTrim(ts[..i]) else EndTrim(ts[..i]) + [ts[i]]
  {
    assert ts[..i + 1][..i] == ts[..i];
  }

  /** Trimming keeps every comment. */
  lemma {:induction false} EndTrimKeepsComments(ts: seq<Token>)
    ensures Comments(EndTrim(ts)) == Comments(ts)
    decreases |ts|
  {
    if ts != [] {
      var n := |ts| - 1;
      assert ts == ts[..n] + [ts[n]];
      CommentsAppend(ts[..n], [ts[n]]);
      assert [ts[n]][1..] == [];
      if ts[n].Whitespace? {
        EndTrimKeepsComments(ts[..n]);
        if !DroppableLast(ts) {
          CommentsAppend(EndTrim(ts[..n]), [ts[n]]);
        }
      }
    }
  }

  /** A trailing run with no line break, or a trailing non-whitespace, stops the trimming for the part before it. */
  lemma {:induction false} EndTrimEndsCleanly(ts: seq<Token>)
    ensures !DroppableLast(EndTrim(ts))
    ensures EndTrim(ts) != [] ==> EndTrim(ts)[|EndTrim(ts)| - 1] == ts[|ts| - 1] || TriviaIsNewline(ts[|ts| - 1])
    decreases |ts|
  {
    if ts != [] {
      var n := |ts| - 1;
      if ts[n].Whitespace? {
        EndTrimEndsCleanly(ts[..n]);
        if !DroppableLast(ts) {
          var r := EndTrim(ts[..n]) + [ts[n]];
          if TriviaIsNewline(ts[n]) {
            assert n >= 1 && TriviaIsComment(ts[n - 1]);
            assert EndTrim(ts[..n]) == ts[..n];
          }
        } else {
          EndTrimPrefix(ts[..n]);
        }
      }
    }
  }

  /** Trimming only removes trivia from the end. */
  lemma {:induction false} EndTrimPrefix(ts: seq<Token>)
    ensures |EndTrim(ts)| <= |ts|
    decreases |ts|
  {
    if ts != [] {
      var n := |ts| - 1;
      if ts[n].Whitespace? {
        EndTrimPrefix(ts[..n]);
      }
    }
  }

  /** Trimming twice is trimming once. */
  lemma {:induction false} EndTrimIdempotent(ts: seq<Token>)
    ensures EndTrim(EndTrim(ts)) == EndTrim(ts)
    decreases |ts|
  {
    if ts != [] {
      var n := |ts| - 1;
      if ts[n].Whitespace? {
        EndTrimIdempotent(ts[..n]);
        if !DroppableLast(ts) {
          var r := EndTrim(ts[..n]) + [ts[n]];
          assert r[..|r| - 1] == EndTrim(ts[..n]);
          if TriviaIsNewline(ts[n]) {
            assert EndTrim(ts[..n]) == ts[..n];
            assert r == ts;
          }
        }
      }
    }
  }

  /**
   * Everything up to the last trivia that is not whitespace is kept as it
   * was: only the whitespace after it can be dropped.
   */
  lemma {:induction false} EndTrimKeepsBody(body: seq<Token>, tail: seq<Token>)
    requires body != [] && !body[|body| - 1].Whitespace?
    requires forall i :: 0 <= i < |tail| ==> tail[i].Whitespace?
    ensures body <= EndTrim(body + tail)
    decreases |tail|
  {
    if tail == [] {
      assert body + tail == body;
    } else {
      var ts := body + tail;
      var n := |ts| - 1;
      assert ts[..n] == body + tail[..|tail| - 1];
      EndTrimKeepsBody(body, tail[..|tail| - 1]);
    }
  }

  // ---------------------------------------------------------------------
  // End of file
  // ---------------------------------------------------------------------

  /** Trivia with its whitespace suffix removed. */
  function StripTrailingWhitespace(ts: seq<Token>): (r: seq<Token>)
    ensures r <= ts
    ensures forall i :: |r| <= i < |ts| ==> ts[i].Whitespace?
    ensures r == [] || !r[|r| - 1].Whitespace?
    decreases |ts|
  {
    if ts != [] && ts[|ts| - 1].Whitespace? then StripTrailingWhitespace(ts[..|ts| - 1]) else ts
  }

  /** `pop_until_no_whitespace`: pop while the last trivia is whitespace. */
  method PopUntilNoWhitespace(trivia: seq<Token>) returns (r: seq<Token>)
    ensures r == StripTrailingWhitespace(trivia)
  {
    r := trivia;
    while r != [] && r[|r| - 1].Whitespace?
      invariant StripTrailingWhitespace(r) == StripTrailingWhitespace(trivia)
      decreases |r|
    {
      r := r[..|r| - 1];
    }
  }

  predicate AllWhitespaceTrivia(ts: seq<Token>) {
    forall i :: 0 <= i < |ts| ==> ts[i].Whitespace?
  }

  /** The leading trivia `format_eof` leaves on the end-of-file token. */
  function EofLeading(ctx: Context, loaded: seq<Token>): seq<Token> {
    if AllWhitespaceTrivia(loaded) then []
    else StripTrailingWhitespace(loaded) + [CreateNewlineTrivia(ctx)]
  }

  /**
   * `format_eof`: a node that is not to be formatted is returned as it is;
   * otherwise trivia that is only whitespace disappears, and trivia with a
   * comment loses its whitespace suffix and ends in exactly one newline.
   */
  method FormatEof(ctx: Context, eof: TokenRef, startPosition: Option<nat>, endPosition: Option<nat>, shape: Layout.Shape)
    returns (r: TokenRef)
    ensures FormatNodeOf(ctx, NodeInfo(eof.leading, startPosition, endPosition)) != Normal ==> r == eof
    ensures FormatNodeOf(ctx, NodeInfo(eof.leading, startPosition, endPosition)) == Normal ==>
      r == TokenRef(EofLeading(ctx, LoadTrivia(ctx, eof.leading, AsLeadingTrivia, shape, 0)), Eof, [])
  {
    var decision := ShouldFormatNode(ctx, NodeInfo(eof.leading, startPosition, endPosition));
    if decision != Normal {
      return eof;
    }
    var leading := LoadTokenTrivia(ctx, eof.leading, AsLeadingTrivia, shape);
    var onlyWhitespace := forall k | 0 <= k < |leading| :: leading[k].Whitespace?;
    if onlyWhitespace {
      r := TokenRef([], Eof, []);
    } else {
      var popped := PopUntilNoWhitespace(leading);
      r := TokenRef(popped + [CreateNewlineTrivia(ctx)], Eof, []);
    }
  }

  /**
   * `format_eof` on loaded trivia keeps its comments, and leaves either
   * nothing or trivia whose last non-whitespace element is followed by
   * exactly one newline.
   */
  lemma {:induction false} EofLeadingShape(ctx: Context, loaded: seq<Token>)
    ensures var out := EofLeading(ctx, loaded);
      Comments(out) == Comments(loaded)
      && (out == [] || (|out| >= 2 && out[|out| - 1] == CreateNewlineTrivia(ctx) && !out[|out| - 2].Whitespace?))
  {
    if AllWhitespaceTrivia(loaded) {
      NoCommentsInWhitespace(loaded);
    } else {
      var nl := CreateNewlineTrivia(ctx);
      assert EofLeading(ctx, loaded) == StripTrailingWhitespace(loaded) + [nl];
      StrippedThenNewline(loaded, nl);
    }
  }

  /** Trivia with a non-whitespace element, stripped and closed by a newline. */
  lemma {:induction false} StrippedThenNewline(loaded: seq<Token>, nl: Token)
    requires !AllWhitespaceTrivia(loaded) && nl.Whitespace?
    ensures var out := StripTrailingWhitespace(loaded) + [nl];
      Comments(out) == Comments(loaded)
      && |out| >= 2 && out[|out| - 1] == nl && !out[|out| - 2].Whitespace?
  {
    var stripped := StripTrailingWhitespace(loaded);
    var rest := loaded[|stripped|..];
    var i :| 0 <= i < |loaded| && !loaded[i].Whitespace?;
    assert i < |stripped|;
    assert loaded == stripped + rest;
    assert AllWhitespaceTrivia(rest) by {
      assert forall j :: 0 <= j < |rest| ==> rest[j] == loaded[|stripped| + j];
    }
    calc {
      Comments(stripped + [nl]);
      { CommentsAppend(stripped, [nl]); CommentsOfOne(nl); }
      Comments(stripped);
      { NoCommentsInWhitespace(rest); }
      Comments(stripped) + Comments(rest);
      { CommentsAppend(stripped, rest); }
      Comments(loaded);
    }
    assert (stripped + [nl])[|stripped| - 1] == stripped[|stripped| - 1];
  }

  /**
   * The end of a formatted file keeps the comments of the original trivia,
   * formatted, in order; `EofLeadingShape` gives its layout.
   */
  lemma {:induction false} EofLayout(ctx: Context, leading: seq<Token>, shape: Layout.Shape)
    ensures Comments(EofLeading(ctx, LoadTrivia(ctx, leading, AsLeadingTrivia, shape, 0))) == FormatComments(ctx, Comments(leading))
  {
    LoadTriviaKeepsComments(ctx, leading, AsLeadingTrivia, shape, 0);
    EofLeadingShape(ctx, LoadTrivia(ctx, leading, AsLeadingTrivia, shape, 0));
  }

  lemma {:induction false} NoCommentsInWhitespace(ts: seq<Token>)
    requires AllWhitespaceTrivia(ts)
    ensures Comments(ts) == []
  {
    forall i | 0 <= i < |ts|
      ensures !TriviaIsComment(ts[i])
    {
    }
  }
}
