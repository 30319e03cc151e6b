/**
 * `format_token` and its helpers (formatters/general.rs): the choice of
 * quote for a string literal, the rewrite of the escapes inside it, the fix
 * for number literals that start with `.`, and the trimming of comments.
 *
 * The escape rewrite is a regular-expression replacement in the source; here
 * it is the same left-to-right scan written out character by character. Its
 * partner is `Decode`, an independent reading of a quoted literal the way
 * the Lua lexer reads it (section 3.1 of the Lua 5.4 Reference Manual, with
 * the Lua 5.1 rule that a backslash before any other character stands for
 * that character): the rewrite never changes what the literal decodes to.
 */
module TokenFormat {
  import opened Wrappers
  import opened Text
  import opened Syntax
  import opened TriviaUtil
  import C = Configuration
  import opened FormatContext
  import Layout

  /** `FormatTokenType`: whether a token is formatted as itself or as trivia around one. */
  datatype FormatTokenType = AsToken | AsLeadingTrivia | AsTrailingTrivia

  predicate IsQuote(c: char) { c == '\'' || c == '"' }

  /** The character that delimits a quoted literal. */
  function Delimiter(q: QuoteType): char {
    match q
    case SingleQuote => '\''
    case DoubleQuote => '"'
    case Brackets => '"'
  }

  function OtherQuote(q: QuoteType): QuoteType {
    match q
    case SingleQuote => DoubleQuote
    case DoubleQuote => SingleQuote
    case Brackets => Brackets
  }

  /** Whether the configured style is one of the two automatic ones. */
  predicate IsAuto(style: C.QuoteStyle) {
    style.AutoPreferDouble? || style.AutoPreferSingle?
  }

  function Preferred(style: C.QuoteStyle): QuoteType {
    if style.AutoPreferSingle? || style.ForceSingle? then SingleQuote else DoubleQuote
  }

  // ---------------------------------------------------------------------
  // Quote choice
  // ---------------------------------------------------------------------

  /**
   * `get_quote_to_use`: a forced style decides alone; an automatic style
   * takes the quote that occurs less often in the literal, and its preferred
   * quote when neither occurs more. Either way the chosen delimiter never
   * needs more escapes than the other one would.
   */
  function GetQuoteToUse(ctx: Context, literal: string): (r: QuoteType)
    ensures !r.Brackets?
    ensures ctx.config.quoteStyle.ForceDouble? ==> r == DoubleQuote
    ensures ctx.config.quoteStyle.ForceSingle? ==> r == SingleQuote
    ensures IsAuto(ctx.config.quoteStyle) ==>
      Count(literal, Delimiter(r)) <= Count(literal, Delimiter(OtherQuote(r)))
    ensures IsAuto(ctx.config.quoteStyle) && Count(literal, '\'') == Count(literal, '"') ==>
      r == Preferred(ctx.config.quoteStyle)
  {
    match ctx.config.quoteStyle
    case ForceDouble => DoubleQuote
    case ForceSingle => SingleQuote
    case AutoPreferDouble => AutoQuote(DoubleQuote, literal)
    case AutoPreferSingle => AutoQuote(SingleQuote, literal)
  }

  function AutoQuote(preferred: QuoteType, literal: string): QuoteType {
    if '\'' in literal || '"' in literal then
      var singles := Count(literal, '\'');
      var doubles := Count(literal, '"');
      if singles == doubles then preferred
      else if singles > doubles then DoubleQuote
      else SingleQuote
    else preferred
  }

  /** The quote choice depends on the literal only through its two quote counts. */
  lemma {:induction false} QuoteChoiceDependsOnCounts(ctx: Context, a: string, b: string)
    requires Count(a, '\'') == Count(b, '\'') && Count(a, '"') == Count(b, '"')
    ensures GetQuoteToUse(ctx, a) == GetQuoteToUse(ctx, b)
  {
    assert ('\'' in a || '"' in a) <==> ('\'' in b || '"' in b);
  }

  // ---------------------------------------------------------------------
  // Number literals
  // ---------------------------------------------------------------------

  /** A number literal with no digit before its point: `.5` or `-.5`. */
  predicate LacksLeadingZero(text: string) {
    (text != [] && text[0] == '.') || (|text| >= 2 && text[..2] == "-.")
  }

  /** The `Number` case of `format_token`: `.5` becomes `0.5`, `-.5` becomes `-0.5`. */
  function FormatNumberText(text: string): (r: string)
    ensures !LacksLeadingZero(r)
    ensures !LacksLeadingZero(text) ==> r == text
    ensures LacksLeadingZero(text) ==> |r| == |text| + 1 && r[|r| - |text| + 1..] == text[1..]
    ensures LacksLeadingZero(text) ==>
      var k := if text[0] == '.' then 0 else 1;
      text[k] == '.' && r == text[..k] + "0" + text[k..]
  {
    if text != [] && text[0] == '.' then "0" + text
    else if |text| >= 2 && text[..2] == "-." then "-0" + text[1..]
    else text
  }

  /** Fixing a number twice is fixing it once. */
  lemma {:induction false} FormatNumberIdempotent(text: string)
    ensures FormatNumberText(FormatNumberText(text)) == FormatNumberText(text)
  {
  }

  // ---------------------------------------------------------------------
  // Escapes in quoted string literals
  // ---------------------------------------------------------------------

  /**
   * The characters whose escape is kept: the complement of the
   * `UNNECESSARY_ESCAPES` class at formatters/general.rs:126.
   */
  const KeptEscapes: set<char> :=
    {'\n', '\r', '"', '\'', '0', '1', '2', '3', '4', '5', '6', '7', '8', '9',
     '\\', 'a', 'b', 'f', 'n', 'r', 't', 'u', 'v', 'x', 'z'}

  /** How a quote character is written inside a literal delimited by `q`. */
  function QuoteOut(c: char, q: QuoteType): string {
    if (c == '\'' && q.SingleQuote?) || (c == '"' && q.DoubleQuote?) then ['\\', c] else [c]
  }

  /**
   * One step of the scan for `\\?(["'])|\\([\S\s])`: the replacement of the
   * match at the start of `s`, or the first character copied when nothing
   * matches there, and how many characters of `s` it takes. A quote, escaped
   * or not, is escaped exactly when it is the delimiter `q`; any other
   * escape keeps its backslash when its character is in `kept` and loses it
   * otherwise.
   */
  function Step(s: string, q: QuoteType, kept: set<char>): (r: (string, nat))
    requires s != []
    ensures 1 <= r.1 <= |s|
  {
    if s[0] == '\\' && |s| >= 2 && IsQuote(s[1]) then (QuoteOut(s[1], q), 2)
    else if IsQuote(s[0]) then (QuoteOut(s[0], q), 1)
    else if s[0] == '\\' && |s| >= 2 then (if s[1] in kept then ['\\', s[1]] else [s[1]], 2)
    else ([s[0]], 1)
  }

  /** `RE.replace_all(literal, ...)`: every match replaced, left to right. */
  function RewriteEscapes(s: string, q: QuoteType, kept: set<char>): string
    decreases |s|
  {
    if s == [] then []
    else
      var (out, n) := Step(s, q, kept);
      out + RewriteEscapes(s[n..], q, kept)
  }

  /** One character of a quoted literal as Lua reads it. */
  datatype LuaChar =
    | Char(c: char)     // the character itself
    | Escape(e: char)   // an escape sequence introduced by `\e`

  /**
   * The characters after a backslash that start an escape standing for
   * something other than the character itself: `\a \b \f \n \r \t \v`, a
   * backslash-newline, `\z`, `\x`, `\u` and the decimal escapes `\ddd`.
   */
  const LuaEscapeLetters: set<char> :=
    {'a', 'b', 'f', 'n', 'r', 't', 'v', '\n', '\r', 'z', 'x', 'u',
     '0', '1', '2', '3', '4', '5', '6', '7', '8', '9'}

  /** What a quoted literal denotes, read left to right as the Lua lexer does. */
  function Decode(s: string): seq<LuaChar>
    decreases |s|
  {
    if s == [] then []
    else if s[0] == '\\' && |s| >= 2 then
      (if s[1] in LuaEscapeLetters then [Escape(s[1])] else [Char(s[1])]) + Decode(s[2..])
    else [Char(s[0])] + Decode(s[1..])
  }

  /**
   * A delimiter character that is not escaped: where the Lua lexer would
   * end the literal.
   */
  predicate HasBareQuote(s: string, d: char)
    decreases |s|
  {
    if s == [] then false
    else if s[0] == '\\' && |s| >= 2 then HasBareQuote(s[2..], d)
    else s[0] == d || HasBareQuote(s[1..], d)
  }

  /**
   * A piece the Lua lexer reads as one unit: an escape pair, a character
   * other than a backslash, or a lone backslash at the very end.
   */
  predicate IsUnit(u: string, atEnd: bool) {
    (|u| == 2 && u[0] == '\\') || (|u| == 1 && (u[0] != '\\' || atEnd))
  }

  /** Both what a step reads and what it writes are single units. */
  lemma {:induction false} StepUnits(s: string, q: QuoteType, kept: set<char>)
    requires s != [] && '\\' in kept
    ensures IsUnit(s[..Step(s, q, kept).1], Step(s, q, kept).1 == |s|)
    ensures IsUnit(Step(s, q, kept).0, Step(s, q, kept).1 == |s|)
  {
  }

  lemma {:induction false} DecodeAppendUnit(u: string, t: string)
    requires IsUnit(u, t == [])
    ensures Decode(u + t) == Decode(u) + Decode(t)
  {
    if |u| == 2 {
      assert (u + t)[2..] == t;
      assert u[2..] == [];
    } else {
      assert (u + t)[1..] == t;
      assert u[1..] == [];
    }
  }

  lemma {:induction false} BareQuoteAppendUnit(u: string, t: string, d: char)
    requires IsUnit(u, t == [])
    ensures HasBareQuote(u + t, d) == (HasBareQuote(u, d) || HasBareQuote(t, d))
  {
    if |u| == 2 {
      assert (u + t)[2..] == t;
      assert u[2..] == [];
    } else {
      assert (u + t)[1..] == t;
      assert u[1..] == [];
    }
  }

  /** A step never changes what its unit means, when the meaningful escapes are kept. */
  lemma {:induction false} StepDecode(s: string, q: QuoteType, kept: set<char>)
    requires s != [] && LuaEscapeLetters <= kept && '\\' in kept
    ensures Decode(Step(s, q, kept).0) == Decode(s[..Step(s, q, kept).1])
  {
    var n := Step(s, q, kept).1;
    if n == 2 {
      assert s[..2][2..] == [];
    } else {
      assert s[..1][1..] == [];
    }
    if Step(s, q, kept).0 == ['\\', s[|s| - 1]] {
      assert ['\\', s[|s| - 1]][2..] == [];
    }
  }

  /** The rewrite keeps the meaning of the literal whenever every meaningful escape is kept. */
  lemma {:induction false} RewritePreservesMeaningWith(s: string, q: QuoteType, kept: set<char>)
    requires LuaEscapeLetters <= kept && '\\' in kept
    ensures Decode(RewriteEscapes(s, q, kept)) == Decode(s)
    decreases |s|
  {
    if s != [] {
      var (out, n) := Step(s, q, kept);
      RewritePreservesMeaningWith(s[n..], q, kept);
      StepUnits(s, q, kept);
      StepDecode(s, q, kept);
      DecodeAppendUnit(out, RewriteEscapes(s[n..], q, kept));
      assert s == s[..n] + s[n..];
      DecodeAppendUnit(s[..n], s[n..]);
    }
  }

  /** `format_token`'s escape rewrite never changes what a string literal denotes. */
  lemma {:induction false} RewritePreservesMeaning(s: string, q: QuoteType)
    ensures Decode(RewriteEscapes(s, q, KeptEscapes)) == Decode(s)
  {
    RewritePreservesMeaningWith(s, q, KeptEscapes);
  }

  lemma {:induction false} StepNoBareDelimiter(s: string, q: QuoteType, kept: set<char>)
    requires s != [] && !q.Brackets?
    ensures !HasBareQuote(Step(s, q, kept).0, Delimiter(q))
  {
    var out := Step(s, q, kept).0;
    if |out| == 2 {
      assert out[2..] == [];
    } else {
      assert out[1..] == [];
    }
  }

  /**
   * After the rewrite, every occurrence of the chosen delimiter is escaped:
   * the literal cannot end early.
   */
  lemma {:induction false} RewriteEscapesDelimiter(s: string, q: QuoteType, kept: set<char>)
    requires !q.Brackets? && '\\' in kept
    ensures !HasBareQuote(RewriteEscapes(s, q, kept), Delimiter(q))
    decreases |s|
  {
    if s != [] {
      var (out, n) := Step(s, q, kept);
      RewriteEscapesDelimiter(s[n..], q, kept);
      StepUnits(s, q, kept);
      StepNoBareDelimiter(s, q, kept);
      BareQuoteAppendUnit(out, RewriteEscapes(s[n..], q, kept), Delimiter(q));
    }
  }

  /** What a step writes, read again, is written unchanged and taken whole. */
  lemma {:induction false} StepOfOutput(s: string, t: string, q: QuoteType, kept: set<char>)
    requires s != [] && '\\' in kept
    requires Step(s, q, kept).1 == |s| ==> t == []
    ensures var out := Step(s, q, kept).0; Step(out + t, q, kept) == (out, |out|)
  {
    var out := Step(s, q, kept).0;
    assert (out + t)[..|out|] == out;
  }

  /** Rewriting the escapes a second time changes nothing. */
  lemma {:induction false} RewriteIdempotent(s: string, q: QuoteType, kept: set<char>)
    requires '\\' in kept
    ensures RewriteEscapes(RewriteEscapes(s, q, kept), q, kept) == RewriteEscapes(s, q, kept)
    decreases |s|
  {
    if s != [] {
      var (out, n) := Step(s, q, kept);
      var rest := RewriteEscapes(s[n..], q, kept);
      RewriteIdempotent(s[n..], q, kept);
      StepOfOutput(s, rest, q, kept);
      assert (out + rest)[|out|..] == rest;
    }
  }

  lemma {:induction false} CountAppend(a: string, b: string, c: char)
    ensures Count(a + b, c) == Count(a, c) + Count(b, c)
  {
    if a != [] {
      assert (a + b)[1..] == a[1..] + b;
      CountAppend(a[1..], b, c);
    } else {
      assert a + b == b;
    }
  }

  lemma {:induction false} StepKeepsQuotes(s: string, q: QuoteType, kept: set<char>, c: char)
    requires s != [] && IsQuote(c)
    ensures Count(Step(s, q, kept).0, c) == Count(s[..Step(s, q, kept).1], c)
  {
    var (out, n) := Step(s, q, kept);
    if |out| == 2 {
      assert out[1..][1..] == [];
    } else {
      assert out[1..] == [];
    }
    if n == 2 {
      assert s[..2][1..][1..] == [];
    } else {
      assert s[..1][1..] == [];
    }
  }

  /** The rewrite adds and removes backslashes only: every quote character stays. */
  lemma {:induction false} RewriteKeepsQuotes(s: string, q: QuoteType, kept: set<char>, c: char)
    requires IsQuote(c)
    ensures Count(RewriteEscapes(s, q, kept), c) == Count(s, c)
    decreases |s|
  {
    if s != [] {
      var (out, n) := Step(s, q, kept);
      RewriteKeepsQuotes(s[n..], q, kept, c);
      StepKeepsQuotes(s, q, kept, c);
      CountAppend(out, RewriteEscapes(s[n..], q, kept), c);
      assert s == s[..n] + s[n..];
      CountAppend(s[..n], s[n..], c);
    }
  }

  // ---------------------------------------------------------------------
  // format_token
  // ---------------------------------------------------------------------

  /** The token `format_token` builds, with the trivia to put before and after it. */
  datatype Formatted = Formatted(token: Token, before: Option<seq<Token>>, after: Option<seq<Token>>)

  /** `format_single_line_comment_string`. */
  function FormatSingleLineComment(comment: string): (r: string)
    ensures r <= comment && AllWhitespace(comment[|r|..])
    ensures r == [] || !IsWhitespace(r[|r| - 1])
  {
    TrimEnd(comment)
  }

  /** The formatted form of a token, without the trivia added around it. */
  function FormatTokenText(ctx: Context, t: Token): Token {
    match t
    case Number(text) => Number(FormatNumberText(text))
    case StringLiteral(literal, multiLine, quoteType) =>
      if quoteType.Brackets? then t
      else
        var q := GetQuoteToUse(ctx, literal);
        StringLiteral(RewriteEscapes(literal, q, KeptEscapes), None, q)
    case SingleLineComment(comment) => SingleLineComment(FormatSingleLineComment(comment))
    case MultiLineComment(blocks, comment) => t
    case Whitespace(characters) => t
    case Symbol(symbol) => t
    case Identifier(identifier) => t
    case Eof => t
  }

  /**
   * `format_token`: a comment in leading trivia gets the indent before it
   * and a newline after it; a single-line comment in trailing trivia gets
   * one space before it; nothing else gets extra trivia.
   */
  function FormatToken(ctx: Context, t: Token, kind: FormatTokenType, shape: Layout.Shape): (r: Formatted)
    ensures r.token == FormatTokenText(ctx, t)
    ensures TriviaIsComment(t) && kind.AsLeadingTrivia? ==>
      r.before == Some([CreateIndentTrivia(ctx, shape)]) && r.after == Some([CreateNewlineTrivia(ctx)])
    ensures t.SingleLineComment? && kind.AsTrailingTrivia? ==> r.before == Some([Space]) && r.after.None?
    ensures !(TriviaIsComment(t) && kind.AsLeadingTrivia?) && !(t.SingleLineComment? && kind.AsTrailingTrivia?) ==>
      r.before.None? && r.after.None?
  {
    var token := FormatTokenText(ctx, t);
    match t
    case SingleLineComment(_) =>
      (match kind
       case AsLeadingTrivia => Formatted(token, Some([CreateIndentTrivia(ctx, shape)]), Some([CreateNewlineTrivia(ctx)]))
       case AsTrailingTrivia => Formatted(token, Some([Space]), None)
       case AsToken => Formatted(token, None, None))
    case MultiLineComment(_, _) =>
      if kind.AsLeadingTrivia? then Formatted(token, Some([CreateIndentTrivia(ctx, shape)]), Some([CreateNewlineTrivia(ctx)]))
      else Formatted(token, None, None)
    case Whitespace(_) => Formatted(token, None, None)
    case Symbol(_) => Formatted(token, None, None)
    case Identifier(_) => Formatted(token, None, None)
    case Number(_) => Formatted(token, None, None)
    case StringLiteral(_, _, _) => Formatted(token, None, None)
    case Eof => Formatted(token, None, None)
  }

  /**
   * Formatting a token keeps its kind and what it means: a number keeps its
   * digits after the added zero, a quoted string decodes to the same
   * characters and cannot be ended early by its new delimiter, a comment
   * only loses trailing whitespace, and a comment stays a comment.
   */
  lemma {:induction false} FormatTokenPreservesMeaning(ctx: Context, t: Token)
    ensures TriviaIsComment(FormatTokenText(ctx, t)) <==> TriviaIsComment(t)
    ensures FormatTokenText(ctx, t).Whitespace? <==> t.Whitespace?
    ensures t.Whitespace? ==> FormatTokenText(ctx, t) == t
    ensures t.Number? ==>
      var r := FormatTokenText(ctx, t);
      r.Number? && !LacksLeadingZero(r.text)
      && (!LacksLeadingZero(t.text) ==> r.text == t.text)
      && (LacksLeadingZero(t.text) ==>
            var k := if t.text[0] == '.' then 0 else 1;
            r.text == t.text[..k] + "0" + t.text[k..])
    ensures t.SingleLineComment? ==> FormatTokenText(ctx, t).comment <= t.comment
    ensures t.StringLiteral? && !t.quoteType.Brackets? ==>
      var r := FormatTokenText(ctx, t);
      r.StringLiteral? && Decode(r.literal) == Decode(t.literal)
      && !HasBareQuote(r.literal, Delimiter(r.quoteType))
  {
    if t.StringLiteral? && !t.quoteType.Brackets? {
      var q := GetQuoteToUse(ctx, t.literal);
      RewritePreservesMeaning(t.literal, q);
      RewriteEscapesDelimiter(t.literal, q, KeptEscapes);
    }
  }

  /** Formatting an already formatted token changes nothing. */
  lemma {:induction false} FormatTokenIdempotent(ctx: Context, t: Token)
    ensures FormatTokenText(ctx, FormatTokenText(ctx, t)) == FormatTokenText(ctx, t)
  {
    match t
    case Number(text) =>
      FormatNumberIdempotent(text);
    case StringLiteral(literal, multiLine, quoteType) =>
      if !quoteType.Brackets? {
        var q := GetQuoteToUse(ctx, literal);
        var out := RewriteEscapes(literal, q, KeptEscapes);
        RewriteKeepsQuotes(literal, q, KeptEscapes, '\'');
        RewriteKeepsQuotes(literal, q, KeptEscapes, '"');
        QuoteChoiceDependsOnCounts(ctx, out, literal);
        RewriteIdempotent(literal, q, KeptEscapes);
      }
    case SingleLineComment(comment) =>
    case MultiLineComment(blocks, comment) =>
    case Whitespace(characters) =>
    case Symbol(symbol) =>
    case Identifier(identifier) =>
    case Eof =>
  }
}
