/**
 * The formatter's configuration (`Config` and its option enums) as far as
 * the modelled code reads or writes it.
 */
module Configuration {
  import opened Text

  datatype LineEndings = Unix | Windows

  datatype IndentType = Tabs | Spaces

  datatype QuoteStyle = AutoPreferDouble | AutoPreferSingle | ForceDouble | ForceSingle

  datatype CallParenType = Always | NoSingleString | NoSingleTable | None | Input

  datatype CollapseSimpleStatement = Never | FunctionOnly | ConditionalOnly | Always

  datatype SpaceAfterFunctionNames = Never | Definitions | Calls | Always

  /** The Lua dialect to parse; the formatter only copies it around. */
  datatype LuaVersion = All | Lua51 | Lua52 | Lua53 | Lua54 | Luau | LuaJIT | CfxLua

  datatype Config = Config(
    syntax: LuaVersion,
    columnWidth: usize,
    lineEndings: LineEndings,
    indentType: IndentType,
    indentWidth: usize,
    quoteStyle: QuoteStyle,
    callParentheses: CallParenType,
    noCallParentheses: bool,
    collapseSimpleStatement: CollapseSimpleStatement,
    sortRequires: bool,
    spaceAfterFunctionNames: SpaceAfterFunctionNames)
}
