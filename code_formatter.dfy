/**
 * The older, stateful formatter of formatters/mod.rs: `CodeFormatter`
 * keeps the current block indent level and a set of byte ranges whose
 * contents get extra indentation, and updates both while it visits the
 * syntax tree. Its token helpers (`format_punctuation`,
 * `format_punctuated`, `should_format_node`, `create_indent_trivia`) and
 * the escape rule of its `format_token` are modelled here.
 */
module CodeFormatting {
  import opened Wrappers
  import opened Text
  import opened Syntax
  import opened TriviaUtil
  import opened FormatContext
  import opened TokenFormat
  import C = Configuration

  /** `Range`: a start and an end byte position. */
  type IndentRange = (nat, nat)

  /** A stored range encloses a query range when it starts no later and ends no earlier. */
  predicate Encloses(stored: IndentRange, query: IndentRange) {
    query.0 >= stored.0 && query.1 <= stored.1
  }

  /** The stored ranges that enclose `query`. */
  function Enclosing(ranges: set<IndentRange>, query: IndentRange): set<IndentRange> {
    set x | x in ranges && Encloses(x, query)
  }

  /** `get_range_indent_increase` as a value: the number of enclosing ranges, if any, never `Some(0)`. */
  function RangeIndentIncrease(ranges: set<IndentRange>, query: IndentRange): (r: Option<nat>)
    ensures r.Some? <==> Enclosing(ranges, query) != {}
    ensures r.Some? ==> r.value == |Enclosing(ranges, query)| && r.value > 0
  {
    var n := |Enclosing(ranges, query)|;
    if n > 0 then Some(n) else None
  }

  /**
   * The escape characters the older `format_token` keeps: the complement of
   * its `UNNECESSARY_ESCAPES` class, which lists only the digits 0 to 7.
   */
  const LegacyKeptEscapes: set<char> := KeptEscapes - {'8', '9'}

  /** A formatted punctuated pair: the value formatted, the separator tidied. */
  function LegacyPair<T>(pair: Pair<T>, valueFormatter: T -> T): Pair<T> {
    match pair.punctuation
    case Some(p) => Pair(valueFormatter(pair.value), Some(FormatPunctuation(p).0))
    case None => Pair(valueFormatter(pair.value), None)
  }

  /** The comments `format_punctuated` collects: each separator's trailing comments, spaced, in order. */
  function PunctuationComments<T>(pairs: seq<Pair<T>>): seq<Token>
    decreases |pairs|
  {
    if pairs == [] then []
    else
      (match pairs[0].punctuation
       case Some(p) => FormatPunctuation(p).1
       case None => [])
      + PunctuationComments(pairs[1..])
  }

  /** The comments of every separator's trailing trivia, in order. */
  function SeparatorComments<T>(pairs: seq<Pair<T>>): seq<Token>
    decreases |pairs|
  {
    if pairs == [] then []
    else
      (match pairs[0].punctuation
       case Some(p) => Comments(p.trailing)
       case None => [])
      + SeparatorComments(pairs[1..])
  }

  /**
   * `format_punctuation`: the separator keeps its token, loses its leading
   * trivia and gets a single space after it; the comments of its trailing
   * trivia come back separately, each preceded by one space.
   */
  function FormatPunctuation(punctuation: TokenRef): (r: (TokenRef, seq<Token>))
    ensures r.0.token == punctuation.token && r.0.leading == [] && r.0.trailing == [Space]
    ensures !TokenContainsComments(r.0)
    ensures |r.1| == 2 * |Comments(punctuation.trailing)|
    ensures forall i :: 0 <= i < |Comments(punctuation.trailing)| ==>
      r.1[2 * i] == Space && r.1[2 * i + 1] == Comments(punctuation.trailing)[i]
  {
    var formatted := TokenRef([], punctuation.token, [Space]);
    assert !HasComment(formatted.trailing) by {
      assert !TriviaIsComment(formatted.trailing[0]);
    }
    (formatted, SpacedComments(punctuation.trailing))
  }

  /** The comments buffer keeps every separator's comments, in order, and nothing else. */
  lemma {:induction false} PunctuationCommentsKept<T>(pairs: seq<Pair<T>>)
    ensures Comments(PunctuationComments(pairs)) == SeparatorComments(pairs)
    decreases |pairs|
  {
    if pairs != [] {
      PunctuationCommentsKept(pairs[1..]);
      var head := match pairs[0].punctuation case Some(p) => FormatPunctuation(p).1 case None => [];
      CommentsAppend(head, PunctuationComments(pairs[1..]));
      if pairs[0].punctuation.Some? {
        SpacedCommentsKeepsComments(pairs[0].punctuation.value.trailing);
      }
    }
  }

  /**
   * The older escape rule turns the decimal escape `\8` into the digit `8`:
   * the literal no longer denotes the same characters.
   */
  lemma {:induction false} LegacyEscapeChangesMeaning(q: QuoteType)
    requires !q.Brackets?
    ensures Decode(RewriteEscapes("\\8", q, LegacyKeptEscapes)) != Decode("\\8")
  {
    var s := "\\8";
    assert Step(s, q, LegacyKeptEscapes) == ("8", 2);
    assert s[2..] == [];
    assert RewriteEscapes(s, q, LegacyKeptEscapes) == "8";
    assert Decode("8") == [Char('8')];
    assert Decode(s) == [Escape('8')];
  }

  /** The escape rule of the current formatter keeps what every literal means. */
  lemma {:induction false} CurrentEscapesKeepMeaning(s: string, q: QuoteType)
    ensures Decode(RewriteEscapes(s, q, KeptEscapes)) == Decode(s)
    ensures !q.Brackets? ==> !HasBareQuote(RewriteEscapes(s, q, KeptEscapes), Delimiter(q))
  {
    RewritePreservesMeaning(s, q);
    if !q.Brackets? {
      RewriteEscapesDelimiter(s, q, KeptEscapes);
    }
  }

  class CodeFormatter {
    /** The configuration passed to the formatter. */
    const config: C.Config
    /** The byte range to format, if any. */
    const range: Option<FormatRange>
    /** The current block indent level; it is 1 inside the top-level block. */
    var indentLevel: usize
    /** Ranges whose contents get one extra indent level per enclosing range. */
    var indentRanges: set<IndentRange>

    /** `CodeFormatter::new`: level 0 and no indent ranges. */
    constructor (config: C.Config, range: Option<FormatRange>)
      ensures this.config == config && this.range == range
      ensures indentLevel == 0 && indentRanges == {}
    {
      this.config := config;
      this.range := range;
      indentLevel := 0;
      indentRanges := {};
    }

    /** The context the newer formatter builds from the same configuration and range. */
    function AsContext(): (r: Context)
      ensures r.config == config && r.range == range && !r.formattingDisabled
    {
      NewContext(config, range)
    }

    /**
     * `should_format_node`: false when a leading comment line trims to
     * `stylua: ignore`, or when the node starts before or ends after the
     * range; true otherwise.
     */
    method ShouldFormatNode(node: NodeInfo) returns (b: bool)
      ensures b <==> IgnoreNode !in CommentLines(node.leading) && !OutsideRange(range, node)
    {
      var ignored := AnyIgnoreLine(CommentLines(node.leading));
      if ignored {
        return false;
      }
      match range {
        case Some(r) =>
          var inRange := true;
          if r.start.Some? && node.startPosition.Some? && node.startPosition.value < r.start.value {
            inRange := false;
          }
          if r.end.Some? && node.endPosition.Some? && node.endPosition.value > r.end.value {
            inRange := false;
          }
          b := inRange;
        case None =>
          b := true;
      }
    }

    /**
     * The two generations agree: the older formatter formats a node exactly
     * when the newer one, with formatting switched on, finds it `Normal`.
     */
    lemma {:induction false} ShouldFormatAgreesWithContext(node: NodeInfo)
      ensures (IgnoreNode !in CommentLines(node.leading) && !OutsideRange(range, node))
        <==> FormatNodeOf(AsContext(), node) == Normal
    {
    }

    /** `increment_indent_level`: one level deeper, nothing else changes. */
    method IncrementIndentLevel()
      requires indentLevel < USIZE_MAX
      modifies this
      ensures indentLevel == old(indentLevel) + 1
      ensures indentRanges == old(indentRanges)
    {
      indentLevel := indentLevel + 1;
    }

    /** `decrement_indent_level`: one level shallower, nothing else changes. */
    method DecrementIndentLevel()
      requires indentLevel >= 1
      modifies this
      ensures indentLevel == old(indentLevel) - 1
      ensures indentRanges == old(indentRanges)
    {
      indentLevel := indentLevel - 1;
    }

    /** `get_indent_width`: the width of the current block indent (levels count from 1). */
    function GetIndentWidth(): nat
      reads this
      requires indentLevel >= 1
    {
      (indentLevel - 1) * config.indentWidth
    }

    /** `add_indent_range`: set insertion, so adding a stored range again changes nothing. */
    method AddIndentRange(r: IndentRange)
      modifies this
      ensures indentRanges == old(indentRanges) + {r}
      ensures r in old(indentRanges) ==> indentRanges == old(indentRanges)
      ensures indentLevel == old(indentLevel)
    {
      indentRanges := indentRanges + {r};
    }

    /**
     * `get_range_indent_increase`: the number of stored ranges enclosing
     * `query`, or `None` when there is none; never `Some(0)`.
     */
    method GetRangeIndentIncrease(query: IndentRange) returns (r: Option<nat>)
      ensures r == RangeIndentIncrease(indentRanges, query)
    {
      var remaining := indentRanges;
      ghost var seen: set<IndentRange> := {};
      var count := 0;
      while remaining != {}
        invariant remaining + seen == indentRanges && remaining !! seen
        invariant count == |Enclosing(seen, query)|
        decreases |remaining|
      {
        var x :| x in remaining;
        if Encloses(x, query) {
          assert Enclosing(seen + {x}, query) == Enclosing(seen, query) + {x};
          count := count + 1;
        } else {
          assert Enclosing(seen + {x}, query) == Enclosing(seen, query);
        }
        remaining := remaining - {x};
        seen := seen + {x};
      }
      assert seen == indentRanges;
      if count > 0 {
        r := Some(count);
      } else {
        r := None;
      }
    }

    /**
     * `create_indent_trivia`: whitespace for the current block level (less
     * one, since levels count from 1) plus the additional levels, as the
     * newer formatter's plain indent trivia builds it.
     */
    function CreateIndentTrivia(additionalIndentLevel: Option<nat>): (r: Token)
      reads `indentLevel
      requires indentLevel >= 1
      ensures r == CreatePlainIndentTrivia(AsContext(), indentLevel - 1 + additionalIndentLevel.UnwrapOr(0))
    {
      var level := indentLevel - 1 + additionalIndentLevel.UnwrapOr(0);
      match config.indentType
      case Tabs => Whitespace(Text.Repeat('\t', level))
      case Spaces => Whitespace(Text.Repeat(' ', level * config.indentWidth))
    }

    /** With spaces, the indent trivia without extra levels is exactly the indent width wide. */
    lemma {:induction false} IndentTriviaWidth()
      requires indentLevel >= 1 && config.indentType.Spaces?
      ensures |CreateIndentTrivia(None).characters| == GetIndentWidth()
    {
    }

    /**
     * `format_punctuated`: each value goes through the formatter, each
     * separator through `format_punctuation`, and the separators' comments
     * are gathered into one buffer in order.
     */
    method FormatPunctuated<T>(pairs: seq<Pair<T>>, valueFormatter: T -> T)
      returns (formatted: seq<Pair<T>>, commentsBuffer: seq<Token>)
      ensures |formatted| == |pairs|
      ensures forall i :: 0 <= i < |pairs| ==>
        formatted[i].value == valueFormatter(pairs[i].value)
        && (formatted[i].punctuation.Some? <==> pairs[i].punctuation.Some?)
        && (formatted[i].punctuation.Some? ==>
              formatted[i].punctuation.value == TokenRef([], pairs[i].punctuation.value.token, [Space]))
      ensures commentsBuffer == PunctuationComments(pairs)
    {
      formatted := [];
      commentsBuffer := [];
      for i := 0 to |pairs|
        invariant |formatted| == i
        invariant forall k :: 0 <= k < i ==> formatted[k] == LegacyPair(pairs[k], valueFormatter)
        invariant commentsBuffer + PunctuationComments(pairs[i..]) == PunctuationComments(pairs)
      {
        assert pairs[i..][1..] == pairs[i + 1..];
        ghost var before := commentsBuffer;
        match pairs[i].punctuation {
          case Some(punctuation) =>
            var (formattedPunctuation, comments) := FormatPunctuation(punctuation);
            commentsBuffer := commentsBuffer + comments;
            var formattedValue := valueFormatter(pairs[i].value);
            formatted := formatted + [Pair(formattedValue, Some(formattedPunctuation))];
            AppendAssoc(before, comments, PunctuationComments(pairs[i + 1..]));
          case None =>
            var formattedValue := valueFormatter(pairs[i].value);
            formatted := formatted + [Pair(formattedValue, None)];
            assert [] + PunctuationComments(pairs[i + 1..]) == PunctuationComments(pairs[i + 1..]);
        }
      }
      assert pairs[|pairs|..] == [];
    }

    /** `visit_block`: one level deeper, then the block is formatted at that level. */
    method VisitBlock(node: Block, formatBlock: (nat, Block) -> Block) returns (r: Block)
      requires indentLevel < USIZE_MAX
      modifies this
      ensures indentLevel == old(indentLevel) + 1 && indentRanges == old(indentRanges)
      ensures r == formatBlock(indentLevel, node)
    {
      IncrementIndentLevel();
      r := formatBlock(indentLevel, node);
    }

    /** `visit_block_end`: back one level; the block is returned as it is. */
    method VisitBlockEnd(node: Block) returns (r: Block)
      requires indentLevel >= 1
      modifies this
      ensures indentLevel == old(indentLevel) - 1 && indentRanges == old(indentRanges)
      ensures r == node
    {
      DecrementIndentLevel();
      r := node;
    }

    /**
     * The visitor's walk over one block: `visit_block` on the way in and
     * `visit_block_end` on the way out leave the indent level as it was.
     */
    method VisitBalancedBlock(node: Block, formatBlock: (nat, Block) -> Block) returns (r: Block)
      requires indentLevel < USIZE_MAX
      modifies this
      ensures indentLevel == old(indentLevel) && indentRanges == old(indentRanges)
      ensures r == formatBlock(old(indentLevel) + 1, node)
    {
      var formatted := VisitBlock(node, formatBlock);
      r := VisitBlockEnd(formatted);
    }
  }
}
