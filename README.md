# StyLua formatter core, modelled in Dafny

This project models the decision and rewriting logic of StyLua, an
opinionated Lua and Luau code formatter. The model sits beneath the
full_moon parser and printer, whose syntax tree it reduces to small
datatypes (`syntax.dfy`): a token with its leading and trailing trivia,
punctuated lists, expressions, statements, blocks and Luau type
annotations. `Tokens` flattens a node into its tokens in source order, and
`Render` prints them.

The modules follow the source files:

- `Layout` (`src/shape.rs`): `Indent` and `Shape`, the width and
  indentation accounting behind every "does this fit" test. It includes
  `usize` saturation and the infinite width.
- `FormatContext` (`src/context.rs`): `should_format_node` decides
  Normal, Skip or NotInRange for a node. The `stylua: ignore start` /
  `ignore end` toggle is a method on a `Context` value. Indentation and
  newline trivia are built here too.
- `Trivia` and `TriviaUtil` (`src/formatters/trivia.rs`,
  `src/formatters/trivia_util.rs`):
  - the Append / Replace / NoChange trivia edits, proved to reach exactly the
    first or last token of a node;
  - the trivia queries;
  - the comment extractors.
- `TokenFormat` and `General` (`src/formatters/general.rs`):
  - quote choice and escape rewriting, proved never to change what a
    string literal decodes to;
  - number and comment normalisation;
  - `load_token_trivia`;
  - the punctuated-list formatters;
  - `format_end_token`, `pop_until_no_whitespace` and `format_eof`.
- `CodeFormatting` (`src/formatters/mod.rs`): the older stateful
  `CodeFormatter`, a class whose indent level and set of indent ranges its
  methods update.
- `Blocks`, `Statements`, `Expressions`, `Functions`, `Tables`, `Luau`,
  `Assignments` (`src/formatters/*.rs`): the layout decision rules.
  - semicolons kept or dropped, and the `return` layout;
  - the `format_block` loop;
  - condition parentheses, generic-for hugging and if guards;
  - redundant parentheses and the `- -x` guard;
  - the binary-operator hanging measures;
  - the function-argument state machine, omitted parentheses and function
    body collapse;
  - the single-line, multi-line and empty table layouts;
  - Luau type parentheses and hanging;
  - the hanging tactics of assignments.
- `SortRequires` (`src/sort_requires.rs`): the require-sorting codemod,
  proved to yield a permutation with the requires first and sorted stably.
- `EditorConfig`, `ConfigResolution`, `StyluaIgnore`: the configuration
  overlay, CLI overrides, the nearest-config-file search and the ignore
  rules (`src/editorconfig.rs`, `src/config_resolver.rs`,
  `src/cli/stylua_ignore.rs`).

Text is ASCII, so one character is one byte and a string's `len()` is
its length. `usize` is modelled as a `nat` bounded by `USIZE_MAX` where the
source saturates or uses `usize::MAX`.

## Model

| member | source | states |
|---|---|---|
| Trivia.UpdateToken | src/formatters/trivia.rs:92-124 | updating a token's trivia never changes the token itself |
| Trivia.UpdateTokenSplits | src/formatters/trivia.rs:68-91 | a combined update equals the leading update followed by the trailing one, in either order |
| Trivia.EditLaws | src/formatters/trivia.rs:92-124 | two appends are one append of both; a replacement forgets earlier edits; `NoChange` and appending nothing are identities |
| Trivia.StripTokenClears | src/formatters/trivia.rs:30-37 | `strip_trivia` leaves no trivia on either side, keeps the token, and is idempotent |
| Trivia.UpdateFirstPair | src/formatters/trivia.rs:483-508 | a leading edit of a punctuated list edits only the first value; length, every separator and all later pairs are kept |
| Trivia.UpdateFirstPairLoop | src/formatters/trivia.rs:487-506 | the push loop builds exactly the list `UpdateFirstPair` describes |
| Trivia.UpdateLastPair | src/formatters/trivia.rs:509-525 | a trailing edit edits only the last value; length, separators and all earlier pairs are kept |
| Trivia.UpdateLastSuffix | src/formatters/trivia.rs:370-388 | a trailing edit of a call keeps the number of suffixes |
| Trivia.EditFirstAppend | src/formatters/trivia.rs:226-283 | a leading edit of a concatenation lands in its first non-empty part |
| Trivia.EditLastAppend | src/formatters/trivia.rs:284-345 | a trailing edit of a concatenation lands in its last non-empty part |
| Trivia.EditBracketed | src/formatters/trivia.rs:206-213 | on a bracketed span the leading edit reaches the opening token and the trailing edit the closing token, the inside is untouched |
| Trivia.LeadingEditReachesFirstToken | src/formatters/trivia.rs:226-283 | a leading edit of any expression changes exactly its first token's leading trivia |
| Trivia.LeadingEditBinary | src/formatters/trivia.rs:226-283 | for a binary expression the leading edit reaches the first token of its left operand |
| Trivia.LeadingEditTypeAssertion | src/formatters/trivia.rs:930-936 | for `e :: T` the leading edit reaches the first token of `e` |
| Trivia.LeadingEditOnOwnToken | src/formatters/trivia.rs:226-283 | expressions whose first token is their own field take the edit on that token |
| Trivia.PrefixLeadingEditReachesFirstToken | src/formatters/trivia.rs:459-470 | a leading edit of a prefix reaches its first token |
| Trivia.CallLeadingEditReachesFirstToken | src/formatters/trivia.rs:370-388 | a leading edit of a function call reaches the first token of its prefix |
| Trivia.VarLeadingEditReachesFirstToken | src/formatters/trivia.rs:722-731 | a leading edit of a variable reaches its first token |
| Trivia.ArgsTrailingEdit | src/formatters/trivia.rs:346-364 | function arguments take the leading edit on their first token and the trailing edit on their last |
| Trivia.SuffixEdit | src/formatters/trivia.rs:698-705 | a suffix takes the leading edit on its first token and the trailing edit on its last |
| Trivia.MethodCallEdit | src/formatters/trivia.rs:445-450 | a method call `:name(args)` takes the leading edit on `:` and the trailing edit on the last token of its arguments |
| Trivia.SuffixListTrailingEdit | src/formatters/trivia.rs:370-388 | a trailing edit of a suffix list reaches the last token of the last suffix |
| Trivia.CallTrailingEditReachesLastToken | src/formatters/trivia.rs:370-388 | a trailing edit of a call reaches exactly the call's last token |
| Trivia.CallNoChange | src/formatters/trivia.rs:370-388 | `NoChange` on both sides leaves a call unchanged |
| Trivia.TrailingEditReachesLastToken | src/formatters/trivia.rs:284-345 | a trailing edit of any expression changes exactly its last token's trailing trivia |
| Trivia.TrailingEditOnOwnToken | src/formatters/trivia.rs:284-345 | expressions whose last token is their own field take the trailing edit on that token |
| Trivia.TypeEdit | src/formatters/trivia.rs:762-883 | a type takes the leading edit on its first token and the trailing edit on its last |
| Trivia.CallbackEdit | src/formatters/trivia.rs:762-883 | for a callback type, the leading edit reaches its generics or `(` and the trailing edit reaches the return type's last token |
| Trivia.TypeEditOnOwnTokens | src/formatters/trivia.rs:762-883 | types delimited by their own tokens take both edits on those tokens |
| Trivia.ExprListLeadingEdit | src/formatters/trivia.rs:483-508 | a leading edit of an expression list reaches exactly the list's first token |
| Trivia.ExprListTrailingEdit | src/formatters/trivia.rs:509-525 | when the last value has no separator, a trailing edit reaches exactly the list's last token |
| Trivia.ReturnEdit | src/formatters/trivia.rs:422-434 | `return` takes the leading edit on the keyword and the trailing edit on its last value, or on the keyword when there are no values |
| Trivia.LeadingEditKeepsRightEdge | src/formatters/trivia.rs:226-283 | a leading edit does not change the shape of an expression's right edge |
| Trivia.StripExprClearsEnds | src/formatters/trivia.rs:30-37 | a stripped expression has no trivia before its first token or after its last, and keeps its token count |
| TriviaUtil.TriviaContainsNewline | src/formatters/trivia_util.rs:36-43 | the scan answers true exactly when some trivia is a newline |
| TriviaUtil.TokenTriviaContainsComments | src/formatters/trivia_util.rs:907-916 | the scan answers true exactly when some trivia is a comment |
| TriviaUtil.ContainsCommentsAppend | src/formatters/trivia_util.rs:931-933 | a node made of two parts contains comments exactly when one of the parts does |
| TriviaUtil.SingleSearchFindsLess | src/formatters/functions.rs:111-112 | a search for single-line comments finds only what a search for all comments finds; the latter finds any comment |
| TriviaUtil.Comments | src/formatters/trivia_util.rs:378-384 | the filter keeps only comments, never grows, and is empty exactly when there is no comment |
| TriviaUtil.NonComments | src/formatters/trivia_util.rs:16-25 | the complement filter keeps no comment |
| TriviaUtil.CommentsPartition | src/formatters/trivia_util.rs:378-384 | comments and non-comments together are a permutation of the trivia: nothing is lost or invented |
| TriviaUtil.CommentsOfAllComments | src/formatters/trivia_util.rs:378-384 | filtering a list of comments returns it unchanged |
| TriviaUtil.NonCommentsOfNoComments | src/formatters/trivia_util.rs:16-25 | trivia without comments passes the complement filter unchanged |
| TriviaUtil.CommentsIdempotent | src/formatters/trivia_util.rs:378-384 | filtering comments twice is filtering once |
| TriviaUtil.NonCommentsIdempotent | src/formatters/trivia_util.rs:16-25 | the complement filter is idempotent and leaves no comments |
| TriviaUtil.CommentsAppend | src/formatters/trivia_util.rs:378-384 | the comment filter distributes over concatenation |
| TriviaUtil.Interleave | src/formatters/trivia_util.rs:403-422 | each comment comes after exactly one single space, in order, and the result is twice as long |
| TriviaUtil.InterleaveKeepsComments | src/formatters/trivia_util.rs:403-422 | the comments among the spaced comments are the original comments in order |
| TriviaUtil.SpacedCommentsKeepsComments | src/formatters/trivia_util.rs:403-422 | spacing the comments of some trivia keeps exactly its comments |
| TriviaUtil.BinopLeadingComments | src/formatters/trivia_util.rs:323-346 | only comments before the operator are returned, and none exactly when the operator has no leading comment |
| TriviaUtil.BinopTrailingComments | src/formatters/trivia_util.rs:348-376 | a space then a comment for each comment after the operator |
| TriviaUtil.ExprLeadingTriviaIsFirstToken | src/formatters/trivia_util.rs:269-321 | `get_expression_leading_trivia` returns the leading trivia of the expression's first token |
| TriviaUtil.PrefixLeadingTriviaIsFirstToken | src/formatters/trivia_util.rs:269-321 | the leading trivia of a prefix is that of its first token |
| TriviaUtil.ArgsTrailingTriviaIsLastToken | src/formatters/trivia_util.rs:85-101 | the trailing trivia of call arguments is that of their last token |
| TriviaUtil.SuffixTrailingTriviaIsLastToken | src/formatters/trivia_util.rs:103-120 | the trailing trivia of a suffix is that of its last token |
| TriviaUtil.SuffixesTrailingTriviaIsLastToken | src/formatters/trivia_util.rs:187-203 | the trailing trivia of a suffix chain is that of its last token |
| TriviaUtil.TypeTrailingTriviaIsLastToken | src/formatters/trivia_util.rs:140-185 | the trailing trivia of a type is that of its last token |
| TriviaUtil.ExprTrailingTriviaIsLastToken | src/formatters/trivia_util.rs:242-267 | `get_expression_trailing_trivia` returns the trailing trivia of the expression's last token |
| TriviaUtil.TakeExpressionTrailingComments | src/formatters/trivia_util.rs:403-422 | the comments taken are those after the expression, each after one space |
| TriviaUtil.TakeTrailingCommentsSpec | src/formatters/trivia_util.rs:403-422 | the expression loses exactly its last token's trailing trivia, and the comments taken are the comments it had there |
| TriviaUtil.TakeExpressionLeadingComments | src/formatters/trivia_util.rs:386-401 | the comments taken are the comments before the expression |
| TriviaUtil.TakeLeadingCommentsSpec | src/formatters/trivia_util.rs:386-401 | the expression loses exactly its first token's leading trivia, and the comments taken are the comments it had there |
| TriviaUtil.GetLastStmtTrailingTrivia | src/formatters/trivia_util.rs:859-905 | a bare `return` gives up the trailing trivia of its keyword |
| TriviaUtil.LastStmtTrailingTriviaRoundTrip | src/formatters/trivia_util.rs:859-905 | the trivia taken off a last statement is its last token's trailing trivia, and appending it back restores the statement |
| TriviaUtil.ReturnTrailingTrivia | src/formatters/trivia_util.rs:866-872 | the trailing trivia of a `return` whose last value has no separator is that value's trailing trivia |
| TriviaUtil.CanHangIgnoresLeadingTrivia | src/formatters/trivia_util.rs:45-64 | whether an expression can hang does not depend on its leading trivia |
| TriviaUtil.CanHangIgnoresTrailingTrivia | src/formatters/trivia_util.rs:45-64 | whether an expression can hang does not depend on its trailing trivia |
| TriviaUtil.BlockEmptyIffNoTokens | src/formatters/trivia_util.rs:66-68 | a block is empty exactly when it has no tokens |
| TriviaUtil.FunctionEmptyIffNothingInside | src/formatters/trivia_util.rs:70-82 | a function body is empty exactly when its block has no tokens and there is no comment between `)` and `end` |
| TriviaUtil.InlineCommentsAreComments | src/formatters/trivia_util.rs:964-987 | an expression with inline comments contains comments |
| Layout.NewIndent | src/shape.rs:23-29 | a new indent has no block or additional levels, the configured width, and takes no room |
| Layout.WithAdditionalIndent | src/shape.rs:52-57 | only the additional indent is replaced |
| Layout.IncrementBlockIndent | src/shape.rs:60-65 | one more block level, saturating at `usize::MAX`; nothing else changes |
| Layout.IncrementAdditionalIndent | src/shape.rs:76-81 | one more additional level, saturating at `usize::MAX`; nothing else changes |
| Layout.AddIndentLevel | src/shape.rs:92-97 | `amount` more additional levels, saturating at `usize::MAX`; nothing else changes |
| Layout.IncrementsWidenByOneLevel | src/shape.rs:47-97 | one more level widens the indent by exactly one indent width unless saturated; `amount` levels by `amount` widths; the indent never narrows |
| Layout.NewShape | src/shape.rs:116-123 | a new shape starts at offset 0 with the configured widths, no simple heuristics, and uses no width |
| Layout.WithColumnWidth | src/shape.rs:127-132 | only the column width changes |
| Layout.WithIndent | src/shape.rs:136-138 | only the indent changes |
| Layout.WithInfiniteWidth | src/shape.rs:142-144 | only the column width changes, to `usize::MAX` |
| Layout.ShapeIncrementBlockIndent | src/shape.rs:154-159 | the indent gains a block level and the used width cannot shrink |
| Layout.ShapeIncrementAdditionalIndent | src/shape.rs:163-168 | the indent gains an additional level and the used width cannot shrink |
| Layout.AddWidth | src/shape.rs:184-189 | only the offset grows, by exactly the width, and so does the used width |
| Layout.Plus | src/shape.rs:283-285 | `shape + n` adds `n` to the offset and changes nothing else |
| Layout.WithSimpleHeuristics | src/shape.rs:199-204 | only the heuristics flag changes, to set |
| Layout.Reset | src/shape.rs:208-210 | the offset returns to 0 and the used width is the indent alone |
| Layout.WidthLaws | src/shape.rs:172-210 | widths add up, adding width only pushes further over budget, reset is idempotent and forgets added width |
| Layout.InfiniteWidthNeverOverBudget | src/shape.rs:142-144 | an infinite budget is exceeded only by a width beyond `usize::MAX` |
| Layout.TakeFirstLine | src/shape.rs:214-219 | the width of the first line of the text is added |
| Layout.TakeSingleLine | src/shape.rs:214-238 | for text without a line break both first-line and last-line take add its whole length |
| Layout.TakeLinesOfMultilineText | src/shape.rs:214-238 | for text over several lines the first line is added to the shape, the last line to the reset shape |
| Layout.StripTokenComments | src/shape.rs:250-268 | a token loses every comment of its trivia and keeps its token |
| Layout.StripComments | src/shape.rs:250-268 | every token of a node loses its comments, none is dropped |
| Layout.LinesOverBudget | src/shape.rs:273-276 | some line is over budget, the first measured from the shape and every later one from the reset shape |
| Layout.TestOverBudgetIgnoresComments | src/shape.rs:244-277 | the budget test gives the same answer with or without comments |
| Layout.TestOverBudgetSingleLine | src/shape.rs:244-277 | for a node on one line, the test is whether its comment-free text overflows the shape |
| Layout.TestOverBudgetMonotone | src/shape.rs:244-277 | a node over budget at some offset is over budget further right |
| FormatContext.NewContext | src/context.rs:32-38 | a new context holds the given configuration and range, with formatting enabled |
| FormatContext.CommentText | src/context.rs:55-59 | only comments have text to search for toggles |
| FormatContext.TrimEach | src/context.rs:60 | every comment line is trimmed, and no line is dropped |
| FormatContext.CommentLinesMembership | src/context.rs:52-62 | a line is among the comment lines exactly when some comment of the leading trivia holds it |
| FormatContext.LastToggleFindsToggleLines | src/context.rs:67-74 | there is a final toggle exactly when some line is `stylua: ignore start` or `stylua: ignore end` |
| FormatContext.ToggledContext | src/context.rs:49-80 | only the disabled flag may change; with no toggle line it is kept, otherwise the last toggle line sets it |
| FormatContext.CheckToggleFormatting | src/context.rs:49-80 | the method returns the context `ToggledContext` describes |
| FormatContext.ApplyToggles | src/context.rs:64-74 | the loop ends with the state of the last toggle line, or the initial state if there is none |
| FormatContext.LastToggleWins | src/context.rs:67-74 | lines without toggles do not change the state; a later `ignore start` disables and a later `ignore end` enables unless another toggle follows |
| FormatContext.AnyIgnoreLine | src/context.rs:95-108 | the scan finds an ignore line exactly when `stylua: ignore` is among the comment lines |
| FormatContext.ShouldFormatNode | src/context.rs:87-128 | the method returns the decision `FormatNodeOf` describes |
| FormatContext.FormatNodeOutcomes | src/context.rs:87-128 | a disabled context skips; an ignore comment skips; a node is out of range exactly when enabled, not ignored and outside the byte range; with no range it is formatted |
| FormatContext.IgnoreStartSkips | src/context.rs:49-80 | after a final `ignore start` every node is skipped |
| FormatContext.CallAndCollapseOptions | src/context.rs:131-156 | the two omission options differ only on the one-sided settings; `Always` and `Input` omit parentheses only under the deprecated flag; both collapse options hold exactly under `Always` and neither exactly under `Never` |
| FormatContext.LineEndingCharacter | src/context.rs:160-165 | Unix endings are `\n`, Windows endings `\r\n` |
| FormatContext.CreateNewlineTrivia | src/context.rs:185-189 | newline trivia is whitespace holding the configured line ending |
| FormatContext.CreatePlainIndentTrivia | src/context.rs:175-182 | a tab per level with tabs, `level * indent_width` spaces with spaces, never a newline |
| FormatContext.CreateIndentTrivia | src/context.rs:168-171 | the indent of a shape counts its block and additional indent |
| FormatContext.IndentTriviaMatchesShape | src/context.rs:168-182 | with spaces the indent trivia is exactly the shape's indent width; with tabs one character per level |
| TokenFormat.GetQuoteToUse | src/formatters/general.rs:51-77 | never brackets; a forced style is obeyed; an automatic style picks the quote that needs fewer escapes, the preferred one on a tie |
| TokenFormat.QuoteChoiceDependsOnCounts | src/formatters/general.rs:51-77 | the choice depends only on how many quotes of each kind the literal holds |
| TokenFormat.FormatNumberText | src/formatters/general.rs:97-108 | a number starting with `.` gains a `0` before the point (`.5` becomes `0.5`), one starting with `-.` gains a `0` between the sign and the point (`-.5` becomes `-0.5`), any other number is kept as written; the result never lacks its leading zero |
| TokenFormat.FormatNumberIdempotent | src/formatters/general.rs:97-108 | formatting a number twice is formatting it once |
| TokenFormat.RewritePreservesMeaning | src/formatters/general.rs:109-179 | rewriting the escapes of a string literal never changes the string it denotes |
| TokenFormat.RewriteEscapesDelimiter | src/formatters/general.rs:134-158 | after the rewrite no quote equal to the new delimiter is left unescaped |
| TokenFormat.RewriteIdempotent | src/formatters/general.rs:109-179 | rewriting the escapes twice is rewriting once |
| TokenFormat.RewriteKeepsQuotes | src/formatters/general.rs:109-179 | the rewrite keeps the number of quotes of each kind, so the quote choice is stable |
| TokenFormat.FormatSingleLineComment | src/formatters/general.rs:79-82 | the comment loses exactly its trailing whitespace |
| TokenFormat.FormatToken | src/formatters/general.rs:87-216 | a leading comment gets an indent before and a newline after; a trailing single-line comment gets one space before; the token text is `FormatTokenText` |
| TokenFormat.FormatTokenPreservesMeaning | src/formatters/general.rs:87-216 | comments stay comments, whitespace stays whitespace unchanged, a single-line comment is only cut at its end; a number stays a number whose only change is a `0` inserted before a bare point, after any `-`; a quoted string decodes to the same characters and has no bare delimiter |
| TokenFormat.FormatTokenIdempotent | src/formatters/general.rs:87-216 | formatting a token's text twice is formatting it once |
| General.LoadStep | src/formatters/general.rs:233-300 | each step of the trivia loop consumes at least one trivia and never more than are left |
| General.LoadOne | src/formatters/general.rs:233-301 | one turn of the loop emits, skips and counts exactly as one step of `LoadTrivia` says, and always moves forward |
| General.LoadTokenTrivia | src/formatters/general.rs:222-304 | the loop over the trivia builds exactly `LoadTrivia`, the step-by-step reading of it |
| General.LoadTriviaKeepsComments | src/formatters/general.rs:222-304 | every comment of the original trivia survives, formatted, in order, and no comment is invented |
| General.LoadTriviaWhitespace | src/formatters/general.rs:235-267 | leading trivia keeps only newlines and indentation besides comments; trailing trivia keeps only single spaces |
| General.LoadTriviaAtMostOneBlankLine | src/formatters/general.rs:235-250 | leading trivia never holds three newlines in a row: runs of blank lines collapse to one |
| General.WhitespaceRunCollapses | src/formatters/general.rs:235-250 | a run of whitespace becomes one newline if it holds a newline and none was seen before, and nothing otherwise |
| General.CommentTakesFollowingNewline | src/formatters/general.rs:268-290 | a leading comment is re-emitted as indent, comment and newline, and the newline right after it is consumed |
| General.FormatComments | src/formatters/general.rs:180-208 | formatting a list of comments keeps their number |
| General.FormatCommentsAppend | src/formatters/general.rs:180-208 | formatting comments distributes over concatenation |
| General.FormatTokenReference | src/formatters/general.rs:306-329 | the token is formatted with `format_token` and its trivia reloaded |
| General.FormatContainedSpan | src/formatters/general.rs:514-525 | both brackets of a span are formatted |
| General.FormatSymbol | src/formatters/general.rs:529-569 | the wanted symbol replaces the current one; the wanted leading trivia ends the result and the wanted trailing trivia starts it |
| General.FormatSymbolKeepsComments | src/formatters/general.rs:529-569 | the comments around the replaced symbol are kept, formatted, on the same side |
| General.Punctuated | src/formatters/general.rs:334-364 | formatting a punctuated list keeps its length |
| General.FormatPunctuated | src/formatters/general.rs:334-364 | the loop builds exactly `Punctuated` |
| General.PunctuatedSeparators | src/formatters/general.rs:346-361 | a pair has a separator exactly when it had one; every separator but the last is followed by one space |
| General.HangingShape | src/formatters/general.rs:381-384 | without a hang level the shape is unchanged; otherwise only the indent moves |
| General.PunctuatedMultiline | src/formatters/general.rs:367-413 | every pair is laid out on its own line: the first in the given shape, the later ones with an indent and a newline before |
| General.FormatPunctuatedMultiline | src/formatters/general.rs:367-413 | the loop builds exactly `PunctuatedMultiline` |
| General.MultilineSeparators | src/formatters/general.rs:393-410 | a pair keeps a separator exactly when it had one, and the separator then carries no trailing space |
| General.TryPunctuated | src/formatters/general.rs:417-444 | formatting a punctuated list keeps its number of pairs |
| General.TryPunctuatedSeparators | src/formatters/general.rs:417-444 | whichever layout is chosen, a pair has a separator exactly when it had one, and it is `,` |
| General.TryFormatPunctuated | src/formatters/general.rs:417-444 | the scan over the separators returns exactly `TryPunctuated`: a list whose separators carry comments is laid out one per line, any other list on one line |
| General.FormatEndToken | src/formatters/general.rs:573-632 | the trivia before an end token is reloaded one indent deeper and stripped of trailing newlines and indent; the token itself is kept |
| General.DropTrailingNewlines | src/formatters/general.rs:596-626 | the reverse loop with its `stop_removal` flag leaves exactly `EndTrim` of the trivia |
| General.EndTrimKeepsComments | src/formatters/general.rs:596-626 | dropping the trailing layout whitespace keeps every comment |
| General.EndTrimEndsCleanly | src/formatters/general.rs:596-626 | afterwards the trivia does not end in a newline, unless that newline directly follows a comment |
| General.EndTrimIdempotent | src/formatters/general.rs:596-626 | trimming twice is trimming once |
| General.EndTrimKeepsBody | src/formatters/general.rs:596-626 | trivia that does not end in whitespace survives the trim whatever whitespace follows it |
| General.StripTrailingWhitespace | src/formatters/general.rs:635-642 | the result is a prefix, everything dropped is whitespace, and it does not end in whitespace |
| General.PopUntilNoWhitespace | src/formatters/general.rs:635-642 | the popping loop gives exactly `StripTrailingWhitespace` |
| General.FormatEof | src/formatters/general.rs:647-675 | a node that formatting skips is returned as it is; otherwise whitespace-only trivia disappears and other trivia loses its whitespace suffix and gains one newline |
| General.EofLeadingShape | src/formatters/general.rs:656-672 | on any loaded trivia, the end-of-file trivia keeps exactly its comments and is empty or ends with one newline after non-whitespace |
| General.EofLayout | src/formatters/general.rs:647-675 | the trivia before end of file, loaded and trimmed, keeps every comment of the original, formatted and in order |
| CodeFormatting.FormatPunctuation | src/formatters/mod.rs:523-548 | the separator keeps its token, loses its leading trivia, gets one trailing space and carries no comment; its comments come back, each after a space, in order |
| CodeFormatting.PunctuationCommentsKept | src/formatters/mod.rs:552-580 | the buffer of `format_punctuated` holds exactly the comments after the separators, in order |
| CodeFormatting.LegacyEscapeChangesMeaning | src/formatters/mod.rs:289 | with the escape set as written, the literal `"\8"` is rewritten to a string that denotes something else |
| CodeFormatting.CurrentEscapesKeepMeaning | src/formatters/general.rs:126 | with the corrected escape set every literal keeps its meaning, and the chosen delimiter is never left bare |
| CodeFormatting.CodeFormatter.constructor | src/formatters/mod.rs:86-93 | a new formatter holds the configuration and range, at indent level 0 with no indent ranges |
| CodeFormatting.CodeFormatter.ShouldFormatNode | src/formatters/mod.rs:99-142 | a node is formatted exactly when no comment line is `stylua: ignore` and it is not outside the range |
| CodeFormatting.CodeFormatter.ShouldFormatAgreesWithContext | src/formatters/mod.rs:99-142 | the formatter's decision agrees with the context's `should_format_node` for an enabled context |
| CodeFormatting.CodeFormatter.IncrementIndentLevel | src/formatters/mod.rs:145-147 | the indent level goes up by one and the ranges are kept |
| CodeFormatting.CodeFormatter.DecrementIndentLevel | src/formatters/mod.rs:150-152 | the indent level goes down by one and the ranges are kept |
| CodeFormatting.CodeFormatter.AddIndentRange | src/formatters/mod.rs:162-164 | the range joins the set, adding a known range changes nothing, the level is kept |
| CodeFormatting.RangeIndentIncrease | src/formatters/mod.rs:169-181 | the answer is `Some(n)` with n the number of recorded ranges that enclose the query (start no earlier, end no later), `None` exactly when no range does, and never `Some(0)` |
| CodeFormatting.CodeFormatter.GetRangeIndentIncrease | src/formatters/mod.rs:169-181 | the loop over the stored ranges returns exactly the count of enclosing ranges, as a value |
| CodeFormatting.CodeFormatter.CreateIndentTrivia | src/formatters/mod.rs:184-200 | the indent is one level less than the current level plus the additional levels |
| CodeFormatting.CodeFormatter.IndentTriviaWidth | src/formatters/mod.rs:155-157 | with spaces and no additional level, the indent trivia is as wide as `get_indent_width` says |
| CodeFormatting.CodeFormatter.FormatPunctuated | src/formatters/mod.rs:552-580 | every value is formatted, a pair keeps a separator exactly when it had one, each separator is bare with one trailing space, and the buffer holds the separators' comments |
| CodeFormatting.CodeFormatter.VisitBlock | src/formatters/mod.rs:711-714 | the block is formatted one level deeper and the level stays raised |
| CodeFormatting.CodeFormatter.VisitBlockEnd | src/formatters/mod.rs:716-719 | the level is lowered again and the block is returned as it is |
| CodeFormatting.CodeFormatter.VisitBalancedBlock | src/formatters/mod.rs:711-719 | visiting a block and its end leaves the indent level as it was |
| Blocks.TriviaRemoveLeadingNewlines | src/formatters/block.rs:208-217 | the result is a suffix of the trivia; everything dropped is newline whitespace, and the result does not start with newline whitespace, so exactly the maximal newline prefix goes |
| Blocks.RemoveLeadingNewlinesKeepsComments | src/formatters/block.rs:208-217 | removing leading newlines keeps every comment in order |
| Blocks.RemoveLeadingNewlinesIdempotent | src/formatters/block.rs:208-217 | removing leading newlines twice is the same as once |
| Blocks.PrefixRemoveLeadingNewlinesEdit | src/formatters/block.rs:219-249 | on a prefix only the first token's leading trivia changes, and it loses its leading newlines |
| Blocks.VarRemoveLeadingNewlinesEdit | src/formatters/block.rs:251-263 | on a variable only the first token's leading trivia changes, and it loses its leading newlines |
| Blocks.VarListRemoveLeadingNewlinesEdit | src/formatters/block.rs:267-279 | on an assignment's variable list only the first token's leading trivia changes |
| Blocks.KeywordStmtRemoveLeadingNewlinesEdit | src/formatters/block.rs:280-367 | on a statement that starts with a keyword only the keyword's leading trivia changes |
| Blocks.StmtRemoveLeadingNewlinesEdit | src/formatters/block.rs:265-367 | on every statement only the first token's leading trivia changes, and it loses exactly its leading newlines |
| Blocks.LastStmtRemoveLeadingNewlinesEdit | src/formatters/block.rs:369-393 | on `return`, `break` and `continue` only the first token's leading trivia changes, and it loses its leading newlines |
| Blocks.RequireSemicolon | src/formatters/block.rs:419-445 | a semicolon is required iff the statement is an assignment, local assignment, call or `repeat`, and the next statement is a call or assignment whose prefix is a parenthesised expression |
| Blocks.SemicolonOnlyBeforeParenthesis | src/formatters/block.rs:419-445 | whenever a semicolon is required, the next statement starts with `(` |
| Blocks.StmtTrailingEdit | src/formatters/trivia.rs:532-696 | a trailing-trivia edit of a statement reaches exactly its last token |
| Blocks.TakenTriviaIsLastTrailing | src/formatters/trivia_util.rs:683-857 | the trivia taken off a statement is the trailing trivia of its last token |
| Blocks.TakeStmtTrailingTriviaRoundTrip | src/formatters/trivia_util.rs:683-857 | taking the trailing trivia clears it on the last token, and appending it back restores the statement's tokens |
| Blocks.GetStmtTrailingTriviaMissesTypedLocal | src/formatters/trivia_util.rs:702-715 | as written, for `local x: number` the trivia is taken from the name, so nothing is taken and the newline stays after the type |
| Blocks.DropLast | src/formatters/block.rs:465-470 | all but the last trivia: the trivia is the result followed by its last element |
| Blocks.DroppedSemicolonTrivia | src/formatters/block.rs:465-483 | the new trailing trivia holds the statement's comments without its final newline, then the semicolon's comments, and ends with a newline |
| Blocks.SpacedThenNewline | src/formatters/block.rs:465-483 | prefixing comments with spaces and adding a newline adds exactly those comments |
| Blocks.SemicolonFor | src/formatters/block.rs:449-491 | a semicolon is emitted iff required and is then `;`; a statement with no semicolon that needs none is unchanged |
| Blocks.RequiredSemicolonTakesTrivia | src/formatters/block.rs:449-460 | a required semicolon takes the trivia after the statement's last token (after the type of a typed `local`, see "## Left out"), which then ends the semicolon's own trailing trivia, and the statement's last token is left without trailing trivia |
| Blocks.DroppedSemicolonKeepsComments | src/formatters/block.rs:461-491 | a dropped semicolon's comments follow the trivia after the statement's last token, minus its final newline, and a new newline ends it; no other token changes (corrected taking, see "## Left out") |
| Blocks.ReturnLayoutOf | src/formatters/block.rs:42-147 | `return` alone has no values; each-on-its-own-line needs several values; hanging or plain needs exactly one |
| Blocks.ReturnLayoutRules | src/formatters/block.rs:52-142 | comments force a multiline layout; otherwise values stay on one line iff they are all functions and tables or the single line fits; a single value hangs iff that makes its first line strictly narrower |
| Blocks.ReturnWord | src/formatters/block.rs:43-48 | `return` has a space after it exactly when values follow |
| Blocks.FormatReturn | src/formatters/block.rs:42-147 | the `return` keyword keeps its comments, has no values when there were none, and is followed by a space otherwise |
| Blocks.FormatLastStmtNoTrivia | src/formatters/block.rs:170-191 | `break` and `continue` keep their kind and are spelled `break` and `continue` |
| Blocks.LastStmtNode | src/formatters/block.rs:193-194 | the node a last statement is judged by has its leading trivia |
| Blocks.FormatLastStmt | src/formatters/block.rs:193-206 | a skipped last statement is unchanged and one out of range has only its blocks formatted |
| Blocks.FormattedKeywordLayout | src/formatters/block.rs:199-205 | a normally formatted `break` or `continue` ends its leading trivia with the indent and its trailing trivia with a newline |
| Blocks.DropLastSemicolon | src/formatters/block.rs:512-540 | the last statement never keeps a semicolon, and without one it is unchanged |
| Blocks.LastStmtTrailingEdit | src/formatters/trivia.rs:422-443 | a trailing-trivia edit of a last statement reaches exactly its last token |
| Blocks.DroppedLastSemicolonKeepsComments | src/formatters/block.rs:512-540 | a dropped semicolon's comments follow the last statement's own comments before its final newline |
| Blocks.ToggledThrough | src/formatters/block.rs:402-403 | reading the toggle comments never changes the configuration or the range |
| Blocks.PreparedStmt | src/formatters/block.rs:405-414 | only the first statement, when formatted normally, loses its leading newlines |
| Blocks.NextStmt | src/formatters/block.rs:425 | the peeked statement exists iff there is a next one, and it is that one |
| Blocks.EntriesUpTo | src/formatters/block.rs:402-495 | the loop produces one entry per statement |
| Blocks.FormatLastEntry | src/formatters/block.rs:500-545 | the last statement is kept iff there was one, and never with a semicolon |
| Blocks.EntriesUpToSnoc | src/formatters/block.rs:402-495 | one more pass of the loop appends the next statement's entry, formatted in the context left by the toggle comments up to and including it |
| Blocks.FormatBlockKeepsStatements | src/formatters/block.rs:396-551 | the block keeps its number of statements and its last statement, which loses its semicolon |
| Blocks.EntrySemicolon | src/formatters/block.rs:419-460 | an entry has a semicolon iff the formatted statement can run on into a next statement starting with a parenthesis |
| Blocks.BlockSemicolons | src/formatters/block.rs:396-551 | in the formatted block, statement `i` has a semicolon iff, formatted in the context its toggle comments leave, it could run on into the next statement and that statement starts with `(` |
| Blocks.LeadingNewlinesOnlyOnFirst | src/formatters/block.rs:408-414 | no statement after the first loses its leading newlines |
| Blocks.FirstStatementStartsClean | src/formatters/block.rs:408-414 | a normally formatted first statement starts without newline whitespace and keeps its leading comments |
| Blocks.SkippedEntryKept | src/formatters/block.rs:402-495 | a statement in a context that skips it, with no semicolon and none required, is its own entry |
| Blocks.SkippedStatementKept | src/formatters/block.rs:402-495 | a skipped statement with no semicolon and none required comes through the block unchanged |
| Blocks.FormatBlock | src/formatters/block.rs:396-551 | the loop produces exactly the formatted block the specification function describes |
| Statements.RemoveConditionParentheses | src/formatters/stmt.rs:54-65 | a condition without parentheses is returned as it is; a parenthesised one becomes its inner expression with the comments after `)` appended to its trailing trivia |
| Statements.RemoveConditionParenthesesSpec | src/formatters/stmt.rs:54-65 | only one layer of parentheses is removed, only the last token of the inner expression changes, and its trailing comments become the inner ones followed by those after `)` |
| Statements.HugGenericFor | src/formatters/stmt.rs:95-139 | a generic `for` hugs exactly when it iterates over one comment-free call with a single anonymous-call suffix whose only argument is a table constructor |
| Statements.RequiresExprMultiline | src/formatters/stmt.rs:205-215 | a hugging expression list never goes multiline; otherwise it does exactly when `in` has trailing comments, the list contains comments, or the single-line list spans lines or is over budget |
| Statements.InTokenWanted | src/formatters/stmt.rs:217-230 | every layout of the `in` keyword is still the `in` symbol |
| Statements.InTokenSpellings | src/formatters/stmt.rs:217-230 | the four spellings are `in`, `in `, ` in` and ` in `: a space before unless the names went multiline, a space after unless the expressions did |
| Statements.FormatInToken | src/formatters/stmt.rs:217-230 | the formatted `in` keeps its comments; without comments it is preceded by a newline and indent when the names went multiline (a space otherwise) and followed by a space unless the expressions went multiline |
| Statements.LastLine | src/formatters/stmt.rs:315-318 | the last line is no longer than the whitespace and contains no line break |
| Statements.LastLineIsLongestSuffix | src/formatters/stmt.rs:315-318 | the last line is the longest suffix without a line break: a suffix, preceded by a line break whenever it is not everything |
| Statements.LineBreakResetsLevel | src/formatters/stmt.rs:315-325 | with a non-zero indent width, whitespace that ends in a line break gives indent level `Some(0)` |
| Statements.IndentLevelOf | src/formatters/stmt.rs:315-322 | `None` exactly for a zero indent width with no tab on the last line; otherwise, without tabs, the level is the number of spaces divided by the width |
| Statements.LastLineAfterBreak | src/formatters/stmt.rs:315-318 | whatever came before the last line break does not affect the measured indent |
| Statements.ShouldIndentFurther | src/formatters/stmt.rs:296-331 | for any indent width: `None` (the division by zero panicking) exactly when a comment is preceded by whitespace whose last line has no tab, before any further-indented one; otherwise `Some` of whether some whitespace directly before a comment is indented beyond the block plus additional level; never `None` with a non-zero width |
| Statements.NoCommentNoFurtherIndent | src/formatters/stmt.rs:296-331 | for any indent width, trivia without comments never asks for further indentation and never reaches the division |
| Statements.IfGuardComments | src/formatters/stmt.rs:417-423 | an if guard can carry comments only on `if`, in its condition, or on `end` |
| Statements.SingleTokenComments | src/formatters/trivia_util.rs:926-929 | a one-token list contains comments iff that token does |
| Statements.StmtNode | src/formatters/stmt.rs:1066 | the node a statement is judged by has the statement's leading trivia |
| Statements.FormatStmt | src/formatters/stmt.rs:1065-1092 | a skipped statement is returned unchanged, one out of range has only its blocks formatted, and a normal one is fully formatted |
| Statements.IgnoredStatementUnchanged | src/formatters/stmt.rs:1065-1072 | with formatting disabled or a leading `stylua: ignore` comment the statement comes back exactly as written |
| Statements.NoTriviaFormatterFor | src/formatters/stmt.rs:1094-1110 | assignments, local assignments and call statements each go to their own no-trivia formatter |
| Expressions.BinopSymbolRoundTrip | src/formatters/expression.rs:56-74 | every binary operator is read back from its own spelling, so no two operators share one |
| Expressions.SpacedBinop | src/formatters/expression.rs:56-74 | the replacement operator prints as its symbol with one space on each side and carries no comments |
| Expressions.FormatBinop | src/formatters/expression.rs:56-74 | the operator keeps its kind and symbol and its formatted comments on both sides; without comments it prints as ` op ` |
| Expressions.UnopWanted | src/formatters/expression.rs:407-413 | the replacement unary operators carry no comments |
| Expressions.UnopSpellings | src/formatters/expression.rs:407-413 | `-` and `#` print with no space, `not` with one space after it |
| Expressions.FormatUnop | src/formatters/expression.rs:407-413 | the operator keeps its kind and its formatted comments, and without comments is exactly the replacement spelling |
| Expressions.CheckExcessParentheses | src/formatters/expression.rs:78-114 | nested parentheses are always excess; parentheses around a binary operation, a call, a type assertion or `...` are needed; under a unary operator the operand decides |
| Expressions.Operand | src/formatters/expression.rs:78-114 | peeling unary operators ends at an expression that is not a unary operation |
| Expressions.ExcessParenthesesIff | src/formatters/expression.rs:78-114 | parentheses are excess iff the expression, once its unary operators are peeled, is not a binary operation, call, type assertion or `...` |
| Expressions.FormatParentheses | src/formatters/expression.rs:140-168 | excess parentheses in a standard context are dropped and the comments after `)` are appended to the formatted inner expression; otherwise the parentheses stay and the inner expression is formatted one column in |
| Expressions.PrefixKeepsParentheses | src/formatters/expression.rs:148-149 | in a prefix context the parentheses are always kept |
| Expressions.DroppedParenthesesKeepComments | src/formatters/expression.rs:150-162 | when parentheses are dropped only the last token changes, and its trailing comments are the inner ones followed by those after `)` |
| Expressions.SuffixNextNodes | src/formatters/expression.rs:384-400 | each suffix is marked obscured exactly when the following suffix is an index or a method call |
| Expressions.ObscuredCallKeepsParentheses | src/formatters/expression.rs:384-400 | a call followed by an index or method call never loses its argument parentheses |
| Expressions.GuardNegation | src/formatters/expression.rs:170-212 | under a minus, an operand that is a negation, also under a type assertion, is wrapped in new parentheses that take over its trailing comments; anything else is left as it is |
| Expressions.NoDoubleMinus | src/formatters/expression.rs:174-202 | under a minus the operand is never a negation, also under a type assertion, so `- -` is never printed; the guarded operand starts with a minus exactly when a binary operation's left operand does, a case the source does not guard |
| Expressions.StartsWithMinusCases | src/formatters/expression.rs:174-189 | an expression starts with a minus exactly when it is a negation or a binary operation whose left operand starts with one, and never both |
| Expressions.Precedence | src/formatters/expression.rs:605-610 | binary precedence levels lie in 1..8 and never equal the unary level 7 |
| Expressions.BinopPrecedenceLevel | src/formatters/expression.rs:605-610 | the level is 0 exactly for expressions that are not binary operations, and the operator's precedence otherwise |
| Expressions.DidHangExpression | src/formatters/expression.rs:612-624 | an expression was hung iff it is a binary operation whose operator's leading trivia contains a newline |
| Expressions.OnOwnLines | src/formatters/expression.rs:424-433 | each comment becomes newline, indent and the comment |
| Expressions.OnOwnLinesKeepsComments | src/formatters/expression.rs:424-433 | putting comments on their own lines keeps exactly those comments, in order |
| Expressions.HangBinop | src/formatters/expression.rs:419-459 | the hung operator keeps its kind and token, ends its leading trivia with a newline and indent, and has a single space after it |
| Expressions.HungOperatorIsDetected | src/formatters/expression.rs:419-459 | an operator hung by `hang_binop` is recognised as hung by `did_hang_expression` |
| Expressions.HangBinopKeepsComments | src/formatters/expression.rs:419-459 | hanging moves the operator's leading comments, then its trailing comments, then the right operand's leading comments, in that order, in front of the operator and loses none |
| Expressions.BinopExpressionLength | src/formatters/expression.rs:462-483 | an operand is measured by its stripped text, and an operator that does not group with the top one contributes nothing |
| Expressions.BinopLengthMonotone | src/formatters/expression.rs:462-483 | measuring against a tighter top operator never gives a longer chain |
| Expressions.LeftmostOperand | src/formatters/expression.rs:556-566 | the leftmost operand is not itself a binary operation |
| Expressions.LeftmostOperandStarts | src/formatters/expression.rs:556-566 | the leftmost operand's tokens are a prefix of the expression's tokens |
| Expressions.FindLeftmost | src/formatters/expression.rs:556-566 | the recorded range is that of the leftmost operand and the original additional indent level is kept |
| Expressions.RequiredShape | src/formatters/expression.rs:571-584 | an item within the leftmost operand's range gets the original additional indent; any other item keeps the shape; nothing but the additional indent changes |
| Expressions.RequiredShapeIdempotent | src/formatters/expression.rs:571-584 | applying the required shape twice is the same as once |
| Expressions.IsHangBinopOverWidth | src/formatters/expression.rs:587-602 | over width iff the used width of the (leftmost-adjusted) shape plus the chain length exceeds the column width |
| Functions.RecordMultilineArg | src/formatters/functions.rs:147-153 | a multiline argument moves the state from nothing seen to multiline seen and leaves every other state as it is |
| Functions.RecordStandardArg | src/formatters/functions.rs:157-165 | a plain argument after a multiline one moves to the hanging state; every other state is kept |
| Functions.HangingIsAbsorbing | src/formatters/functions.rs:147-170 | once the state says hang, no further argument changes it |
| Functions.ExpandedStep | src/formatters/functions.rs:226-243 | an expanded function or table expands the call when the state already says hang, and otherwise carries on with the state recording a multiline argument |
| Functions.KindStep | src/formatters/functions.rs:222-306 | each argument either expands the call or carries on with the state moved by its kind; an expanded argument in the hanging state always expands |
| Functions.StepArg | src/formatters/functions.rs:220-320 | one loop iteration, including the over-budget test and the comma width, has the same state change and the same forced expansion |
| Functions.MultilineHeuristic | src/formatters/functions.rs:184-191 | no arguments, or simple heuristics, never expand the call |
| Functions.FunctionArgsMultilineHeuristic | src/formatters/functions.rs:174-329 | the loop over the arguments returns exactly the decision of the argument walk |
| Functions.ArgumentStep | src/formatters/functions.rs:220-320 | one iteration of the loop expands exactly when the step function says so, and otherwise yields its state and shape |
| Functions.KindArgumentStep | src/formatters/functions.rs:222-306 | the per-kind part of an iteration agrees with the per-kind step function |
| Functions.ExpandedArgumentStep | src/formatters/functions.rs:226-271 | the expanded function/table branch agrees with the expanded step function |
| Functions.RunHangsIff | src/formatters/functions.rs:147-170 | the state after a run of arguments says hang iff it already did, or multiline had been seen and a plain argument follows, or the run itself has a multiline argument followed by a plain one |
| Functions.WalkExpandsAtHang | src/formatters/functions.rs:228-231 | an expanded argument that arrives while the state says hang makes the walk expand |
| Functions.MixedArgumentsExpand | src/formatters/functions.rs:220-320 | a multiline argument, then a plain one, then another multiline one always expands the call (unless simple heuristics are on) |
| Functions.UnparenthesisedTable | src/formatters/functions.rs:390-402 | a table argument without parentheses has the same tokens, with the trivia after `)` appended after its `}` |
| Functions.OmitArgument | src/formatters/functions.rs:374-405 | the argument is passed bare exactly when it is a string and string parentheses are omitted, or a table and table parentheses are omitted; the trivia after `)` moves onto its last token |
| Functions.OmitParentheses | src/formatters/functions.rs:367-405 | the parentheses are dropped exactly when the mode is not Input, omission is configured, there is one argument, the next node is not obscured, and that argument is a string or table of an omitted kind; the dropped `)`'s trailing trivia moves onto the argument's last token |
| Functions.ParenthesesKept | src/formatters/functions.rs:367-372 | with call parentheses Always or Input and no `no_call_parentheses`, parentheses are never dropped |
| Functions.ArgsLayoutOf | src/formatters/functions.rs:410-425 | the arguments go multiline iff there are comments inside, or the heuristic asks and the lone argument is not a table; a lone table with the heuristic asking is hugged on a single line |
| Functions.SuffixesSnocNestedFunction | src/formatters/functions.rs:687-690 | a call with one more suffix contains a nested function iff the shorter call or the new suffix does |
| Functions.LastSuffixEditNestedFunction | src/formatters/functions.rs:636-653 | editing the trivia of the last suffix does not change whether a nested function is contained |
| Functions.TrailingEditKeepsNestedFunction | src/formatters/functions.rs:656-673 | a trailing-trivia edit of an expression does not change whether it contains a nested function |
| Functions.ShouldCollapseFunctionBody | src/formatters/functions.rs:714-733 | a body collapses iff it has no comments after `)`, before `end` or inside, and either its block is empty or it is simple, simple functions collapse and it holds no nested function |
| Functions.EmptyFunctionCollapses | src/formatters/functions.rs:714-733 | an empty function (as `is_function_empty` decides) always collapses |
| Functions.OnlyEmptyCollapsesWhenOff | src/formatters/functions.rs:714-733 | when simple functions do not collapse, exactly the empty functions collapse |
| Functions.ShouldInlinePrefix | src/formatters/functions.rs:924-929 | a prefix stays inline iff its text starts with an upper-case letter or is no longer than the indent width |
| Functions.NamePrefixText | src/formatters/functions.rs:924-929 | the text of a name prefix is the name itself, without trivia |
| Tables.ShouldExpand | src/formatters/table.rs:420-451 | a table must expand exactly when comments sit inside it or some field key or value is a function that will not collapse |
| Tables.EmptyFunctionsNeverExpand | src/formatters/table.rs:409-451 | a comment-free table whose function fields are all empty functions is never forced to expand |
| Tables.AdditionalShape | src/formatters/table.rs:495-514 | one column is added for each missing inner space, after `{` and before `}`, so at most two |
| Tables.TableTypeOf | src/formatters/table.rs:461-534 | a table without fields is empty unless it must expand (then multiline); a newline after `{` forces multiline; otherwise it is multiline iff the estimated single line (span, missing spaces, closing brace) is over budget or the table must expand, and single-line otherwise |
| Tables.EmptyOnlyWithoutFields | src/formatters/table.rs:461-534 | a table is laid out empty iff it has no fields and nothing forces it open |
| Tables.DropNewlines | src/formatters/table.rs:256-276 | the filtered trivia has no newline whitespace and keeps every comment in order |
| Tables.TableBraces | src/formatters/table.rs:228-279 | multiline braces are `{` followed by a newline and the closing brace preceded by the shape's indentation; single-line braces are `{ ` and ` }`; empty braces have no newline between them and keep their comments |
| Tables.CreateTableBraces | src/formatters/table.rs:228-279 | the braces built agree with the brace function for every table type |
| Tables.SinglelineFields | src/formatters/table.rs:301-330 | formatting a single-line table keeps every field |
| Tables.SinglelineSeparators | src/formatters/table.rs:312-326 | every field but the last is followed by a `,` with a space after it, and the last has no separator |
| Tables.SinglelineStep | src/formatters/table.rs:306-326 | one loop iteration produces the first of the remaining fields, with `, ` exactly when another field follows, and the shape for the rest |
| Tables.FormatSinglelineTable | src/formatters/table.rs:286-333 | the loop yields the single-line braces and the single-line fields formatted two columns in |
| Tables.NonWhitespace | src/formatters/table.rs:371-385 | the kept trailing trivia contains no whitespace |
| Tables.CommaTrailing | src/formatters/table.rs:366-396 | the trivia after a multiline separator always ends with a newline |
| Tables.EmitTrailingComments | src/formatters/table.rs:375-385 | formatting the taken trivia as trailing trivia formats exactly its comments |
| Tables.NonWhitespaceComments | src/formatters/table.rs:371-385 | dropping whitespace keeps every comment in order |
| Tables.CommaTrailingKeepsComments | src/formatters/table.rs:366-396 | the comments taken off a field all reappear, formatted and in order, after its separator |
| Tables.MultilineField | src/formatters/table.rs:358-403 | each multiline field ends with `,` followed by a newline |
| Tables.MultilineFields | src/formatters/table.rs:358-403 | formatting a multiline table keeps every field |
| Tables.MultilineSeparator | src/formatters/table.rs:388-400 | every field of a multiline table, the last one included, ends with `,` and a newline |
| Tables.MultilineStep | src/formatters/table.rs:358-403 | one loop iteration produces the first field of the remaining fields and the context and shape for the rest |
| Tables.FormatMultilineTable | src/formatters/table.rs:336-407 | the loop yields the multiline braces and the multiline fields, each formatted from a reset shape one indent further in |
| Tables.FormatTable | src/formatters/table.rs:453-559 | every field is kept and the table opens with `{` |
| Tables.TableSeparators | src/formatters/table.rs:453-559 | a single-line table has a separator after every field but the last; a multiline one ends every field with `,` and a newline |
| Tables.FormatTableConstructor | src/formatters/table.rs:453-559 | the method's result is the table laid out in the type the decision picks |
| Luau.NewTypeInfoContext | src/formatters/luau.rs:200-208 | the fresh context has every flag off, so it is below every other context in the flag order |
| Luau.MarkWithinOptional | src/formatters/luau.rs:210-215 | sets `within_optional`, leaves the other four flags as they were, and only adds flags |
| Luau.MarkWithinVariadic | src/formatters/luau.rs:217-222 | sets `within_variadic`, leaves the other four flags as they were, and only adds flags |
| Luau.MarkWithinGeneric | src/formatters/luau.rs:224-229 | sets `within_generic`, leaves the other four flags as they were, and only adds flags |
| Luau.MarkContainsUnion | src/formatters/luau.rs:231-236 | sets `contains_union`, leaves the other four flags as they were, and only adds flags |
| Luau.MarkContainsIntersect | src/formatters/luau.rs:238-243 | sets `contains_intersect`, leaves the other four flags as they were, and only adds flags |
| Luau.KeepParentheses | src/formatters/luau.rs:246-269 | parentheses stay exactly when inside generics; or inside `?`/`...` around a callback, union, optional or intersection; or beside `&` around a callback, union or optional; or beside `\|` around a callback or intersection |
| Luau.KeepParenthesesUnderNew | src/formatters/luau.rs:200-208 | with a fresh context no parenthesised type keeps its parentheses |
| Luau.KeepParenthesesMonotone | src/formatters/luau.rs:246-269 | setting more context flags can only keep more parentheses |
| Luau.SameOperatorDropsParentheses | src/formatters/luau.rs:246-269 | outside `?`, `...` and generics a union loses its parentheses iff it is not beside `&`, and an intersection iff it is not beside `\|` |
| Luau.SpineLeaves | src/formatters/luau.rs:71-79 | the operands of a union/intersection spine are non-empty and none is itself a union or intersection |
| Luau.AnyTableAppend | src/formatters/luau.rs:71-79 | a table occurs among two joined operand lists iff it occurs in one of them |
| Luau.ShouldHugType | src/formatters/luau.rs:71-79 | a union or intersection is hugged iff one of the operands along its spine is a table type |
| Luau.ShouldHangType | src/formatters/luau.rs:896-918 | a type that should hang is one that can hang (a union or intersection) |
| Luau.SingleSearchImpliesAll | src/formatters/luau.rs:896-918 | hanging because of single-line comments implies hanging when every comment is searched |
| Luau.EdgeCommentsContained | src/formatters/luau.rs:896-918 | a comment in the first token's leading or last token's trailing trivia is a comment of the token list |
| Luau.ShouldHangHasComments | src/formatters/luau.rs:896-918 | a type only hangs because of comments: the hang decision implies the type's tokens contain a comment |
| Luau.SpineComments | src/formatters/luau.rs:909-913 | each reason the binary case gives for hanging (trailing comments of the left side, comments on the operator, leading comments of the right side, a hanging operand) is a comment of the joined tokens |
| Luau.TupleLayoutOf | src/formatters/luau.rs:576-616 | a parenthesised type list goes multiline iff a comment forces it or the single-line form is over budget two columns in; otherwise it unwraps iff it is a single type whose parentheses are not kept |
| Luau.TopLevelTupleUnwraps | src/formatters/luau.rs:603-610 | at top level a lone type that fits and has no forcing comments always loses its parentheses |
| Luau.GenericTupleNeverUnwraps | src/formatters/luau.rs:246-269 | inside generic arguments a parenthesised type is never unwrapped |
| Luau.UnwrapTuple | src/formatters/luau.rs:603-610 | the unwrapped type is the inner type with the closing parenthesis's trailing comments appended to its last token, and no other token changes |
| Luau.CompoundOpOf | src/formatters/luau.rs:33-43 | recognises exactly the seven compound operators `+= -= *= /= %= ^= ..=` |
| Luau.SpacedSymbol | src/formatters/luau.rs:33-43 | the replacement operator prints as the operator with one space on each side |
| Luau.FormatCompoundOp | src/formatters/luau.rs:33-43 | keeps the operator, keeps the formatted comments on both sides, and without comments prints as ` op ` |
| Assignments.DropLeadingWhitespace | src/formatters/assignment.rs:75-78 | exactly the maximal prefix of whitespace is dropped from the `=`'s trailing trivia |
| Assignments.DropLeadingWhitespaceKeepsComments | src/formatters/assignment.rs:75-78 | dropping the whitespace keeps every comment in order |
| Assignments.HangEqualToken | src/formatters/assignment.rs:64-84 | the hung `=` keeps its leading trivia and token; its trailing trivia is a newline, the indent one level past the additional one, then the old trailing trivia without its leading whitespace, so every comment is kept |
| Assignments.WhitespaceCarriesNoComments | src/formatters/assignment.rs:70-80 | the newline and indent put after `=` add no comments |
| Assignments.HangedValuesOneLevelDeeper | src/formatters/assignment.rs:70-73 | the indent after a hung `=` is one indent width (or one tab) wider than the statement's own indent |
| Assignments.ChooseTactic | src/formatters/assignment.rs:130-196 | a statement that fits stays on one line; otherwise a hangable value hangs the list; otherwise several values move after `=` when they fit there and go one per line when not; a single value is kept when it fits and moved after `=` when not |
| Assignments.HungPair | src/formatters/assignment.rs:47-57 | a hung value keeps its separator, re-spelled as `,` |
| Assignments.HungList | src/formatters/assignment.rs:47-57 | hanging a list keeps its number of values |
| Assignments.HungListSeparators | src/formatters/assignment.rs:47-57 | every hung value has a separator exactly when it had one, and it is `,` |
| Assignments.HangPunctuatedList | src/formatters/assignment.rs:31-60 | the values' range is added to the formatter's indent ranges, the indent level is unchanged, and the list is the hung list |
| Assignments.HangValues | src/formatters/assignment.rs:47-57 | the loop over the values produces exactly the hung list |
| Assignments.ValuesLayout | src/formatters/assignment.rs:130-196 | the laid-out values keep their number and the `=` token; the indent ranges gain at most the values' range |
| Assignments.ValuesLayoutFollowsTactic | src/formatters/assignment.rs:130-196 | once the statement overflows, the `=` moves exactly when the tactic hangs at it, and the values' range is recorded exactly when the list or a single value hangs |
| Assignments.LayOutValues | src/formatters/assignment.rs:130-196 | the method's values, `=` and new indent ranges are those of the tactic; the indent level is unchanged |
| Assignments.AssignmentParts | src/formatters/assignment.rs:86-196 | when the values have no comments and the one-line form fits, they are laid out on one line at infinite width with the ranges unchanged; otherwise the variables are tried in the shape and the values laid out by `ValuesLayout` after them and ` = `; in both cases the numbers of variables and values are kept |
| Assignments.AssignmentLayout | src/formatters/assignment.rs:86-205 | the result is an assignment with as many variables and values as before, joined by `=`; the ranges gain at most the values' range |
| Assignments.AssignmentEndsWithLineBreak | src/formatters/assignment.rs:198-204 | the newline is appended after the last token of the statement and nowhere else |
| Assignments.LayOutAssignment | src/formatters/assignment.rs:86-196 | the method returns the variables, `=` token and values that `AssignmentParts` specifies, and leaves the indent level unchanged |
| Assignments.FormatAssignment | src/formatters/assignment.rs:86-205 | the method returns the laid-out assignment and leaves the formatter's ranges as the layout says, its level unchanged |
| Assignments.FormattedSpecifiers | src/formatters/assignment.rs:218-225 | type specifiers are formatted one for one, present where they were present |
| Assignments.LocalKeyword | src/formatters/assignment.rs:214-215 | the formatted keyword is still `local` |
| Assignments.NoValuesDeclaration | src/formatters/assignment.rs:227-253 | a declaration without values has no `=` and no values, keeps its names, and loses a final entry of the type specifier list that is empty |
| Assignments.LocalNoAssignment | src/formatters/assignment.rs:207-254 | `local` keeps its names, gets no `=` and no values, and its type specifier list loses a final empty entry |
| Assignments.FormatLocalNoAssignment | src/formatters/assignment.rs:207-254 | the method returns exactly the declaration the specification function describes |
| Assignments.DroppedUntypedEntryKeepsTokens | src/formatters/assignment.rs:230-236 | dropping a final empty specifier entry does not change the printed tokens |
| Assignments.NoValuesEndsWithLineBreak | src/formatters/assignment.rs:230-242 | the newline goes after the last token, the type when the last name has one and the name otherwise |
| Assignments.LocalParts | src/formatters/assignment.rs:256-404 | `local`, the names and the specifiers keep their number, the values keep theirs, `=` stays, and the ranges gain at most the values' range |
| Assignments.LocalValuesParts | src/formatters/assignment.rs:272-404 | the same choice for `local`: one line at infinite width when there are no comments and the line fits after the names and type specifiers; otherwise the values laid out by `OverflowValues` after the formatted names and specifiers |
| Assignments.OverflowValues | src/formatters/assignment.rs:321-404 | when the declaration overflows, the values keep their number and `=`, and the ranges gain at most the values' range |
| Assignments.WithValuesDeclaration | src/formatters/assignment.rs:406-416 | the declaration is built from the formatted `local`, names, specifiers, `=` and values |
| Assignments.LocalLayout | src/formatters/assignment.rs:256-417 | a local without values has no `=` and records no range; with values it keeps `=` and their number; names are kept and `local` stays |
| Assignments.WithValuesEndsWithLineBreak | src/formatters/assignment.rs:406-416 | the newline is appended after the last token of the declaration and nowhere else |
| Assignments.FormatLocalAssignment | src/formatters/assignment.rs:256-417 | the method returns the laid-out declaration and leaves the formatter's ranges as the layout says, its level unchanged |
| Assignments.LayOutLocalValues | src/formatters/assignment.rs:272-404 | the method's parts and ranges are exactly those of the specification function |
| Assignments.LayOutOverflowValues | src/formatters/assignment.rs:321-404 | the method's values and ranges are exactly those of the overflow function |
| SortRequires.ParseRequireFunction | src/sort_requires.rs:78-96 | an expression is a require exactly when it is a call of the name `require` with exactly one suffix, an anonymous call, or such a call under a type assertion `:: T`; its arguments are returned |
| SortRequires.RequireCallArgs | src/sort_requires.rs:78-96 | the arguments are returned exactly for a call of `require` with one anonymous-call suffix |
| SortRequires.TypeAssertedRequire | src/sort_requires.rs:78-96 | a require statement stays a require when its value is wrapped in a type assertion |
| SortRequires.RequireIsMoved | src/sort_requires.rs:106-108 | every require statement is among the sorted requires and not among the remaining statements |
| SortRequires.Requires | src/sort_requires.rs:106-108 | the first part of the partition holds only require assignments |
| SortRequires.Remainder | src/sort_requires.rs:106-108 | the second part holds no require assignment |
| SortRequires.PartitionIsPermutation | src/sort_requires.rs:106-108 | the two parts together are a permutation of the statements |
| SortRequires.NoRequiresRemainder | src/sort_requires.rs:32-35 | without requires the remainder is the whole block |
| SortRequires.KeyLeReflexive | src/sort_requires.rs:39-48 | the ordering of names is reflexive |
| SortRequires.KeyLeTotal | src/sort_requires.rs:39-48 | any two names are ordered one way or the other |
| SortRequires.KeyLeTransitive | src/sort_requires.rs:39-48 | the ordering of names is transitive |
| SortRequires.SortByKeySorted | src/sort_requires.rs:39-48 | sorting by the assigned name gives a sorted permutation |
| SortRequires.SortByKey | src/sort_requires.rs:39-48 | sorting keeps the number of statements |
| SortRequires.InsertPermutation | src/sort_requires.rs:39-48 | inserting one statement into a list gives a permutation of the two |
| SortRequires.InsertKeepsSorted | src/sort_requires.rs:39-48 | inserting into a sorted list keeps it sorted |
| SortRequires.SortByKeyStable | src/sort_requires.rs:39-48 | statements with equal names keep their order, as `sort_by_key` is stable |
| SortRequires.SortRequiresBlock | src/sort_requires.rs:26-56 | a block without requires, type-asserted ones included, is returned unchanged; otherwise the sorted requires come first, then the remaining statements; the last statement is kept |
| SortRequires.SortRequiresSpec | src/sort_requires.rs:26-56 | the new statements are a permutation of the old; the first part is the requires, sorted, and the rest is the remainder in its original order |
| StyluaIgnore.NewMatcher | src/cli/stylua_ignore.rs:19-25 | an ignore file that does not parse is an error; otherwise its patterns apply below its directory |
| StyluaIgnore.IgnoreFileFor | src/cli/stylua_ignore.rs:12-17 | the ignore file found from the directory wins; failing that, the one in the search root or the current directory |
| StyluaIgnore.GetIgnore | src/cli/stylua_ignore.rs:7-29 | no ignore file gives the empty matcher; a found file gives its matcher or its parse error |
| StyluaIgnore.EmptyIgnoresNothing | src/cli/stylua_ignore.rs:26-28 | the empty matcher matches no path, so it ignores none |
| StyluaIgnore.NearestMatch | src/cli/stylua_ignore.rs:65-68 | the walk from a path up to the ignore file's directory finds nothing exactly when neither the path nor any parent below the root is matched |
| StyluaIgnore.NearestMatchIsAMatch | src/cli/stylua_ignore.rs:65-68 | a match the walk returns is the match of some visited prefix |
| StyluaIgnore.NearestFrom | src/cli/stylua_ignore.rs:65-68 | when a prefix is matched and no longer one is, the walk returns that prefix's match, ignore or whitelist |
| StyluaIgnore.MatchedPathOrAnyParents | src/cli/stylua_ignore.rs:65-68 | there is no match exactly when neither the path nor any parent below the root is matched |
| StyluaIgnore.OwnMatchWins | src/cli/stylua_ignore.rs:65-68 | a matched path takes its own match, whatever its parents match |
| StyluaIgnore.NearestDecides | src/cli/stylua_ignore.rs:65-68 | the nearest matched prefix decides, so a whitelist below an ignored directory wins over it |
| StyluaIgnore.WhitelistInsideIgnoredDirectory | src/cli/stylua_ignore.rs:65-68 | with `vendor/` and `!vendor/keep.lua`, `vendor/keep.lua` is whitelisted and any other file in `vendor` is ignored |
| StyluaIgnore.PathIsStyluaIgnored | src/cli/stylua_ignore.rs:43-69 | an ignore-file error is passed on; a path outside the ignore file's directory is not ignored; otherwise the path is ignored exactly when its nearest match, of the path itself or else of its closest matched parent, is an ignore and not a `!` whitelist |
| StyluaIgnore.IsExplicitlyProvided | src/cli/stylua_ignore.rs:32-34 | a path is explicit exactly when it is one of the files given |
| StyluaIgnore.ShouldRespectIgnores | src/cli/stylua_ignore.rs:39-41 | ignores always apply to paths not given explicitly, and to explicit ones only under `--respect-ignores` |
| EditorConfig.ParseQuoteType | src/editorconfig.rs:53-58 | `quote_type` is read case-insensitively as `double`, `single` or `auto`, and any other value is rejected |
| EditorConfig.ParseCallParentheses | src/editorconfig.rs:60-66 | `call_parentheses` is read case-insensitively as one of its four choices, anything else rejected |
| EditorConfig.ParseCollapse | src/editorconfig.rs:68-74 | `collapse_simple_statement` is read case-insensitively as one of its four choices, anything else rejected |
| EditorConfig.ParseSortRequires | src/editorconfig.rs:76-80 | `sort_requires` is read case-insensitively as `true` or `false`, anything else rejected |
| EditorConfig.ParseEndOfLine | src/editorconfig.rs:84-89 | `end_of_line` is read as `cr`, `lf` or `crlf` |
| EditorConfig.ParseIndentStyle | src/editorconfig.rs:100-105 | `indent_style` is read as `tab` or `space` |
| EditorConfig.ParseIndentSize | src/editorconfig.rs:90-99 | `indent_size` is `tab` (use the tab width) or a decimal number |
| EditorConfig.ParseMaxLineLen | src/editorconfig.rs:106-111 | `max_line_length` is `off` or a decimal number |
| EditorConfig.LoadEndOfLine | src/editorconfig.rs:84-89 | `cr` and `lf` give Unix line endings, `crlf` Windows ones; nothing else changes |
| EditorConfig.LoadIndentSize | src/editorconfig.rs:90-99 | a number sets the indent width; `tab` takes the tab width if there is one; nothing else changes |
| EditorConfig.LoadIndentStyle | src/editorconfig.rs:100-105 | the indent style sets tabs or spaces; nothing else changes |
| EditorConfig.LoadMaxLineLength | src/editorconfig.rs:106-111 | a number sets the column width, `off` sets it to `usize::MAX`; nothing else changes |
| EditorConfig.LoadQuoteType | src/editorconfig.rs:112-118 | `double` and `single` pick the preferring automatic styles, `auto` keeps the current style |
| EditorConfig.LoadStyleChoices | src/editorconfig.rs:119-154 | call parentheses, simple-statement collapsing and require sorting follow their properties when present |
| EditorConfig.Load | src/editorconfig.rs:83-157 | the result is loaded from the properties (`LoadedFrom`): every present and valid property overrides its setting, every other setting is kept; no properties keep the configuration |
| EditorConfig.LoadedFromUnique | src/editorconfig.rs:83-157 | loading the same properties over the same configuration gives one result |
| EditorConfig.LoadedFromNothing | src/editorconfig.rs:83-157 | loading no properties gives exactly the configuration |
| EditorConfig.Parse | src/editorconfig.rs:160-171 | a read error is passed on; otherwise the result is the configuration loaded from the properties read, and no properties keep the configuration |
| ConfigResolution.Join | src/config_resolver.rs:151 | joining an absolute path gives that path; joining a relative path extends the base |
| ConfigResolution.Parent | src/config_resolver.rs:152-157 | only the root has no parent; a parent is the path without its last component |
| ConfigResolution.ReadConfigFile | src/config_resolver.rs:15-23 | reading succeeds exactly for a file that can be read and parses, and gives its configuration; an unreadable file gives "Failed to read config file", a readable one that does not parse gives "Config file not in correct format" |
| ConfigResolution.FirstExisting | src/config_resolver.rs:26-35 | the first of the names that exists in the directory is found, and nothing is found when none exists |
| ConfigResolution.FindTomlFile | src/config_resolver.rs:26-35 | `stylua.toml` wins over `.stylua.toml`; with neither present nothing is found |
| ConfigResolution.Overridden | src/config_resolver.rs:73-108 | each option given on the command line replaces the file's value, every other value is kept, `--sort-requires` only ever enables sorting |
| ConfigResolution.OverriddenIdempotent | src/config_resolver.rs:73-108 | applying the command-line overrides twice is applying them once |
| ConfigResolution.ApplyOverrides | src/config_resolver.rs:73-108 | the step-by-step updates give exactly `Overridden` |
| ConfigResolution.ReadAndApplyOverrides | src/config_resolver.rs:69-71 | reading fails exactly when the file cannot be read or does not parse, with the reading error passed on; otherwise the overrides are applied to what was read |
| ConfigResolution.LookupConfigFileInDirectory | src/config_resolver.rs:207-219 | no configuration file gives none; a found file is read with the overrides, and a read error is passed on |
| ConfigResolution.SearchConfigLocations | src/config_resolver.rs:255-298 | the result is the first configuration found in `$XDG_CONFIG_HOME`, its `stylua` directory, `$HOME/.config` and its `stylua` directory, in that order, skipping missing directories; nothing is found without either variable |
| ConfigResolution.WithStyluaDirectory | src/config_resolver.rs:264-277 | the directories one location stands for: the directory when it exists, then its `stylua` subdirectory when that exists too, and nothing else |
| ConfigResolution.FirstConfigIn | src/config_resolver.rs:255-298 | the search ends with nothing found, and no error, exactly when none of the directories holds a configuration file |
| ConfigResolution.FirstConfigInFinds | src/config_resolver.rs:255-298 | a configuration found comes from the first directory holding a configuration file |
| ConfigResolution.FirstConfigInAppend | src/config_resolver.rs:255-298 | searching two lists of directories is searching the first, then the second when nothing was found |
| ConfigResolution.SearchLocation | src/config_resolver.rs:264-277 | one location is searched as its existing directory, then its existing `stylua` subdirectory, in that order |
| ConfigResolution.New | src/config_resolver.rs:119-132 | the default configuration carries the command-line overrides; without a current directory it is an error; a forced path is read relative to it, a read error is passed on, and a read configuration becomes the forced one |
| ConfigResolution.SearchRoot | src/config_resolver.rs:137-142 | with `--search-parent-directories` there is no root, otherwise the root is the current directory |
| ConfigResolution.SearchedDirectories | src/config_resolver.rs:224-252 | the search visits the start directory and then each parent in turn, each one component shorter |
| ConfigResolution.FirstConfigDirectory | src/config_resolver.rs:224-252 | the first visited directory holding a configuration file is chosen, and none when no directory holds one |
| ConfigResolution.FindConfigFileNearest | src/config_resolver.rs:224-252 | the recursive search uses the nearest directory with a configuration file, and falls back to the global locations only when there is none |
| ConfigResolution.SearchStopsAtRoot | src/config_resolver.rs:233-237 | with a root, the search ends at the root and never goes above it |
| ConfigResolution.LoadConfiguration | src/config_resolver.rs:144-174 | a forced configuration wins; a path without parent is an error; otherwise the nearest file wins, then the default, with EditorConfig properties loaded over it unless turned off and an unreadable EditorConfig an error |
| ConfigResolution.ResolveFrom | src/config_resolver.rs:159-172 | a search error is passed on, a found file wins, and otherwise the default is used, with the EditorConfig properties loaded over it unless EditorConfig is turned off; an unreadable EditorConfig is an error |
| ConfigResolution.LoadConfigurationForStdin | src/config_resolver.rs:176-205 | a forced configuration wins; a stdin path is resolved as `load_configuration` resolves a file, from its parent directory, and is an error when it has none; without a stdin path the result is what resolving from the current directory gives (`ResolvedFrom`): a search error passed on, a found file, the default under `--no-editorconfig`, otherwise the EditorConfig properties loaded over the default |

## Left out

- Parsing and printing: the full_moon parser and printer are not part of this model. The syntax tree is a reduced datatype, and a node's printed width (`to_string().len()`) is either computed by `Render` or passed in as a measure.
- Regular expressions: the escape rewrite of `format_token` is the same left-to-right scan written character by character. No regex engine is modelled.
- Unicode: text is ASCII. `to_lowercase`, `char::is_whitespace` and string lengths are taken on ASCII characters.
- Byte positions: node spans, brace spans and the ranges stored as indent ranges come from the parser. They are parameters (`NodeInfo`, `braceSpan`, `exprRange`, `localRange`). An `expect` on a missing range therefore cannot fail in the model.
- Formatters for subtrees that these files only call are parameters: `format_field` for table fields, `is_block_simple`, `format_stmt` and `format_last_stmt_block` in `format_block` (`BlockFormatters`), the value formatting of `return`, and the `format_var` / `format_expression` / `hang_expression` / `format_type_specifier` calls of assignments (`AssignmentFormatters`). The model states what the modelled code does around them, not what they return.
- AssignmentFormatters.withAdditionalIndent: a parameter too. src/formatters/assignment.rs:96, :156, :266 and :357 call `with_additional_indent` on a `Shape` with an `Option<usize>`, but src/shape.rs defines it only on `Indent`, taking a `usize` (src/shape.rs:52), so what the call does to the shape is not part of this model.
- `format_stmt_no_trivia` also accepts `goto` (a Lua 5.2 feature). The model covers assignments, local assignments and calls, and `goto` is not part of this model.
- `src/formatters/assignment.rs` is written against an older API: a `&mut Context`, a four-argument `try_format_punctuated` and a three-argument `fmt_symbol!`. The model gives those calls the behaviour of the current `General.TryPunctuated` (the function the `General.TryFormatPunctuated` method is proved to compute, with no hanging level) and `General.FormatSymbol`, and keeps the indent ranges in a `CodeFormatting.CodeFormatter`.
- `src/formatters/block.rs` calls `trivia_util::last_stmt_trailing_trivia`, which is not in `trivia_util.rs`. It is modelled by `TriviaUtil.GetLastStmtTrailingTrivia` (`get_last_stmt_trailing_trivia`).
- The value formatter given to `CodeFormatter.format_punctuated` (`src/formatters/mod.rs`) receives the formatter mutably. In the model it is a function, so it cannot change the indent level or the indent ranges.
- `usize` overflow of `additional + 1` and similar counters is not modelled where the source does not saturate. `Indent` and `Shape` do saturate, and that is modelled with `Text.USIZE_MAX`.
- `unreachable!` and `panic!` arms for syntax the parser never produces are excluded by the datatypes.
- Command-line I/O: reading configuration files, environment variables, the current directory, canonicalisation and glob matching in `.styluaignore` files. They are given as inputs (the set of existing paths, the parsed files, an ignore file as the match, ignore or whitelist, its patterns give each path they match).
- Tables.FormatTable: states only that every field is kept and that the table opens with `{`. The separators of each layout are stated by `Tables.TableSeparators`, and the choice of layout by `Tables.TableTypeOf` and `Tables.EmptyOnlyWithoutFields`. The field contents come from the field-formatter parameter.
- Blocks.FormatReturn: states the `return` keyword's spelling, comments and spacing. The layout choice is stated separately by `Blocks.ReturnLayoutOf` and `Blocks.ReturnLayoutRules`, and the values come from the value-formatter parameter.
- Assignments.HungList: states that the number of values is kept. The separators are stated by `Assignments.HungListSeparators`, and the hung values come from `hang_expression`, which is a parameter.
- Blocks.FormatBlock: proved equal to its specification function `Blocks.FormatBlockSpec`. The statement formatters inside it are parameters, so the output is stated only in terms of them.
- Blocks.SemicolonFor: takes a statement's trailing trivia with `Blocks.TakeStmtTrailingTrivia`, the corrected half of the trivia_util.rs:702-715 finding below, where src/formatters/block.rs:451 and src/formatters/block.rs:467 call `get_stmt_trailing_trivia` as written (`Blocks.GetStmtTrailingTrivia`). For a typed `local` without values (`local x: number`) the source as written takes nothing from the name. So a required `;` lands after the type's newline, and a dropped semicolon's replacement trivia erases the comments after the type. The model puts the `;` after the type, before the newline, and keeps those comments.
- Blocks.RequiredSemicolonTakesTrivia: states the corrected behaviour described for `Blocks.SemicolonFor`, not the as-written behaviour for a typed `local` without values.
- Blocks.DroppedSemicolonKeepsComments: states the corrected behaviour described for `Blocks.SemicolonFor`; as written, the comments after the type of a typed `local` without values are lost.
- Blocks.FormatBlockSpec: builds every entry with `Blocks.SemicolonFor`, so it inherits the corrected trivia taking described there; `Blocks.FormatBlock` is proved equal to it.
- Node kinds outside the syntax datatype: Luau `type` and `export type` declarations, Lua 5.2 labels and `goto`, Luau if-expressions and interpolated strings, the type forms `GenericPack`, `Module`, `VariadicPack`, `String` and `Boolean`, and Lua 5.4 attributes on `local` names are not part of this model. The case analyses they would extend are `Blocks.StmtRemoveLeadingNewlines`, `Blocks.GetStmtTrailingTrivia` and `Blocks.TakeStmtTrailingTrivia` (type declarations, labels), `Trivia.UpdateLeadingExpr`, `Trivia.UpdateTrailingExpr`, `TriviaUtil.ExprLeadingTrivia`, `TriviaUtil.ExprTrailingTrivia` and the expression cases of `Expressions` (if-expressions, interpolated strings), `Trivia.UpdateType`, `TriviaUtil.TypeTrailingTrivia` and `Luau.KeepParentheses` (the type forms), and `Assignments.LocalNoAssignment` and `Assignments.LocalParts` (attributes).
- Tables.FormatSinglelineTable: the source asserts that the field formatter takes no trailing trivia off a field of a single-line table (src/formatters/table.rs:313-314), which holds because a table with comments is never laid out on one line. The field formatter is a parameter here, so the model does not state that assertion and drops whatever trivia it returns.

## Findings

| source | as written | input that shows it | evidently intended | confidence | as-written member | corrected member |
|---|---|---|---|---|---|---|
| src/formatters/trivia_util.rs:702-715 | for a `local` without values, the trailing trivia is taken from the last name, even when a type specifier follows it | `local x: number` followed by a newline: nothing is taken and the newline stays after `number` | take the trivia after the statement's last token, the type specifier when there is one, as `update_trivia` for `LocalAssignment` does in src/formatters/trivia.rs:544-558 | not executed | Blocks.GetStmtTrailingTriviaMissesTypedLocal | Blocks.TakeStmtTrailingTriviaRoundTrip |
| src/formatters/mod.rs:289 | the older formatter treats `\8` and `\9` as unnecessary escapes and drops the backslash | the literal `"\8"` becomes `"8"` | keep the decimal escapes `\0` to `\9`, as src/formatters/general.rs:126 does | not executed | CodeFormatting.LegacyEscapeChangesMeaning | CodeFormatting.CurrentEscapesKeepMeaning |
