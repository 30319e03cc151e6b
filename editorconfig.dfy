/**
 * EditorConfig support: the properties that apply to a file are parsed from
 * their raw string values and laid over a configuration, one property at a
 * time. A property that is absent or whose value does not parse leaves its
 * configuration field as it was.
 */
module EditorConfig {
  import opened Wrappers
  import opened Text
  import Cfg = Configuration

  /** The raw properties that apply to one file, keyed by property name. */
  type Properties = map<string, string>

  datatype QuoteTypeChoice = Double | Single | Auto
  datatype EndOfLine = Cr | Lf | CrLf
  datatype IndentStyle = Tab | Space
  datatype IndentSize = Value(size: usize) | UseTabWidth
  datatype MaxLineLen = LineLen(len: usize) | Off

  /** The property is present and its lower-cased value is `v`. */
  predicate RawIs(props: Properties, key: string, v: string) {
    key in props && ToLower(props[key]) == v
  }

  // The `property_choice!` parsers: the value is lower-cased and matched.

  function ParseQuoteType(raw: string): (r: Option<QuoteTypeChoice>)
    ensures r == Some(Double) <==> ToLower(raw) == "double"
    ensures r == Some(Single) <==> ToLower(raw) == "single"
    ensures r == Some(Auto) <==> ToLower(raw) == "auto"
  {
    match ToLower(raw)
    case "double" => Some(Double)
    case "single" => Some(Single)
    case "auto" => Some(Auto)
    case _ => None
  }

  function ParseCallParentheses(raw: string): (r: Option<Cfg.CallParenType>)
    ensures r == Some(Cfg.CallParenType.Always) <==> ToLower(raw) == "always"
    ensures r == Some(Cfg.CallParenType.NoSingleString) <==> ToLower(raw) == "nosinglestring"
    ensures r == Some(Cfg.CallParenType.NoSingleTable) <==> ToLower(raw) == "nosingletable"
    ensures r == Some(Cfg.CallParenType.None) <==> ToLower(raw) == "none"
    ensures r != Some(Cfg.CallParenType.Input)
  {
    match ToLower(raw)
    case "always" => Some(Cfg.CallParenType.Always)
    case "nosinglestring" => Some(Cfg.CallParenType.NoSingleString)
    case "nosingletable" => Some(Cfg.CallParenType.NoSingleTable)
    case "none" => Some(Cfg.CallParenType.None)
    case _ => None
  }

  function ParseCollapse(raw: string): (r: Option<Cfg.CollapseSimpleStatement>)
    ensures r == Some(Cfg.CollapseSimpleStatement.Never) <==> ToLower(raw) == "never"
    ensures r == Some(Cfg.CollapseSimpleStatement.FunctionOnly) <==> ToLower(raw) == "functiononly"
    ensures r == Some(Cfg.CollapseSimpleStatement.ConditionalOnly) <==> ToLower(raw) == "conditionalonly"
    ensures r == Some(Cfg.CollapseSimpleStatement.Always) <==> ToLower(raw) == "always"
  {
    match ToLower(raw)
    case "never" => Some(Cfg.CollapseSimpleStatement.Never)
    case "functiononly" => Some(Cfg.CollapseSimpleStatement.FunctionOnly)
    case "conditionalonly" => Some(Cfg.CollapseSimpleStatement.ConditionalOnly)
    case "always" => Some(Cfg.CollapseSimpleStatement.Always)
    case _ => None
  }

  function ParseSortRequires(raw: string): (r: Option<bool>)
    ensures r == Some(true) <==> ToLower(raw) == "true"
    ensures r == Some(false) <==> ToLower(raw) == "false"
  {
    match ToLower(raw)
    case "true" => Some(true)
    case "false" => Some(false)
    case _ => None
  }

  // The standard EditorConfig properties.

  function ParseEndOfLine(raw: string): (r: Option<EndOfLine>)
    ensures r == Some(Cr) <==> ToLower(raw) == "cr"
    ensures r == Some(Lf) <==> ToLower(raw) == "lf"
    ensures r == Some(CrLf) <==> ToLower(raw) == "crlf"
  {
    match ToLower(raw)
    case "cr" => Some(Cr)
    case "lf" => Some(Lf)
    case "crlf" => Some(CrLf)
    case _ => None
  }

  function ParseIndentStyle(raw: string): (r: Option<IndentStyle>)
    ensures r == Some(Tab) <==> ToLower(raw) == "tab"
    ensures r == Some(Space) <==> ToLower(raw) == "space"
  {
    match ToLower(raw)
    case "tab" => Some(Tab)
    case "space" => Some(Space)
    case _ => None
  }

  function ParseIndentSize(raw: string): (r: Option<IndentSize>)
    ensures r == Some(UseTabWidth) <==> ToLower(raw) == "tab"
    ensures ToLower(raw) != "tab" ==> r == (match ParseUsize(raw) case Some(n) => Some(Value(n)) case None => None)
  {
    if ToLower(raw) == "tab" then Some(UseTabWidth)
    else match ParseUsize(raw)
      case Some(n) => Some(Value(n))
      case None => None
  }

  function ParseMaxLineLen(raw: string): (r: Option<MaxLineLen>)
    ensures r == Some(Off) <==> ToLower(raw) == "off"
    ensures ToLower(raw) != "off" ==> r == (match ParseUsize(raw) case Some(n) => Some(LineLen(n)) case None => None)
  {
    if ToLower(raw) == "off" then Some(Off)
    else match ParseUsize(raw)
      case Some(n) => Some(LineLen(n))
      case None => None
  }

  /** `properties.get::<P>()` for each property: its parsed value, if it is present and valid. */
  function EndOfLineProp(props: Properties): Option<EndOfLine> {
    if "end_of_line" in props then ParseEndOfLine(props["end_of_line"]) else None
  }

  function IndentSizeProp(props: Properties): Option<IndentSize> {
    if "indent_size" in props then ParseIndentSize(props["indent_size"]) else None
  }

  function TabWidthProp(props: Properties): Option<usize> {
    if "tab_width" in props then ParseUsize(props["tab_width"]) else None
  }

  function IndentStyleProp(props: Properties): Option<IndentStyle> {
    if "indent_style" in props then ParseIndentStyle(props["indent_style"]) else None
  }

  function MaxLineLenProp(props: Properties): Option<MaxLineLen> {
    if "max_line_length" in props then ParseMaxLineLen(props["max_line_length"]) else None
  }

  function QuoteTypeProp(props: Properties): Option<QuoteTypeChoice> {
    if "quote_type" in props then ParseQuoteType(props["quote_type"]) else None
  }

  function CallParenthesesProp(props: Properties): Option<Cfg.CallParenType> {
    if "call_parentheses" in props then ParseCallParentheses(props["call_parentheses"]) else None
  }

  function CollapseProp(props: Properties): Option<Cfg.CollapseSimpleStatement> {
    if "collapse_simple_statement" in props then ParseCollapse(props["collapse_simple_statement"]) else None
  }

  function SortRequiresProp(props: Properties): Option<bool> {
    if "sort_requires" in props then ParseSortRequires(props["sort_requires"]) else None
  }

  // `load` overwrites one field per property; each step below is one of its
  // `if let Ok(..) = properties.get::<..>()` blocks.

  method LoadEndOfLine(config: Cfg.Config, props: Properties) returns (c: Cfg.Config)
    ensures c == config.(lineEndings := c.lineEndings)
    ensures c.lineEndings == (match EndOfLineProp(props)
                              case Some(Cr) => Cfg.Unix
                              case Some(Lf) => Cfg.Unix
                              case Some(CrLf) => Cfg.Windows
                              case None => config.lineEndings)
  {
    c := config;
    match EndOfLineProp(props) {
      case Some(Cr) => c := c.(lineEndings := Cfg.Unix);
      case Some(Lf) => c := c.(lineEndings := Cfg.Unix);
      case Some(CrLf) => c := c.(lineEndings := Cfg.Windows);
      case None =>
    }
  }

  method LoadIndentSize(config: Cfg.Config, props: Properties) returns (c: Cfg.Config)
    ensures c == config.(indentWidth := c.indentWidth)
    ensures c.indentWidth == (match IndentSizeProp(props)
                              case Some(Value(n)) => n
                              case Some(UseTabWidth) => TabWidthProp(props).UnwrapOr(config.indentWidth)
                              case None => config.indentWidth)
  {
    c := config;
    match IndentSizeProp(props) {
      case Some(Value(n)) => c := c.(indentWidth := n);
      case Some(UseTabWidth) =>
        match TabWidthProp(props) {
          case Some(n) => c := c.(indentWidth := n);
          case None =>
        }
      case None =>
    }
  }

  method LoadIndentStyle(config: Cfg.Config, props: Properties) returns (c: Cfg.Config)
    ensures c == config.(indentType := c.indentType)
    ensures c.indentType == (match IndentStyleProp(props)
                             case Some(Tab) => Cfg.IndentType.Tabs
                             case Some(Space) => Cfg.IndentType.Spaces
                             case None => config.indentType)
  {
    c := config;
    match IndentStyleProp(props) {
      case Some(Tab) => c := c.(indentType := Cfg.IndentType.Tabs);
      case Some(Space) => c := c.(indentType := Cfg.IndentType.Spaces);
      case None =>
    }
  }

  method LoadMaxLineLength(config: Cfg.Config, props: Properties) returns (c: Cfg.Config)
    ensures c == config.(columnWidth := c.columnWidth)
    ensures c.columnWidth == (match MaxLineLenProp(props)
                              case Some(LineLen(n)) => n
                              case Some(Off) => USIZE_MAX
                              case None => config.columnWidth)
  {
    c := config;
    match MaxLineLenProp(props) {
      case Some(LineLen(n)) => c := c.(columnWidth := n);
      case Some(Off) => c := c.(columnWidth := USIZE_MAX);
      case None =>
    }
  }

  method LoadQuoteType(config: Cfg.Config, props: Properties) returns (c: Cfg.Config)
    ensures c == config.(quoteStyle := c.quoteStyle)
    ensures c.quoteStyle == (match QuoteTypeProp(props)
                             case Some(Double) => Cfg.AutoPreferDouble
                             case Some(Single) => Cfg.AutoPreferSingle
                             case Some(Auto) => config.quoteStyle
                             case None => config.quoteStyle)
  {
    c := config;
    match QuoteTypeProp(props) {
      case Some(Double) => c := c.(quoteStyle := Cfg.AutoPreferDouble);
      case Some(Single) => c := c.(quoteStyle := Cfg.AutoPreferSingle);
      case Some(Auto) =>
      case None =>
    }
  }

  /** The `call_parentheses`, `collapse_simple_statement` and `sort_requires` steps. */
  method LoadStyleChoices(config: Cfg.Config, props: Properties) returns (c: Cfg.Config)
    ensures c == config.(callParentheses := c.callParentheses, collapseSimpleStatement := c.collapseSimpleStatement,
                         sortRequires := c.sortRequires)
    ensures c.callParentheses == CallParenthesesProp(props).UnwrapOr(config.callParentheses)
    ensures c.collapseSimpleStatement == CollapseProp(props).UnwrapOr(config.collapseSimpleStatement)
    ensures c.sortRequires == SortRequiresProp(props).UnwrapOr(config.sortRequires)
  {
    c := config;
    match CallParenthesesProp(props) {
      case Some(p) => c := c.(callParentheses := p);
      case None =>
    }
    match CollapseProp(props) {
      case Some(m) => c := c.(collapseSimpleStatement := m);
      case None =>
    }
    match SortRequiresProp(props) {
      case Some(b) => c := c.(sortRequires := b);
      case None =>
    }
  }

  /**
   * What `load` makes of `config`: every present and valid property
   * overrides its setting, and every other setting is kept.
   */
  predicate LoadedFrom(config: Cfg.Config, props: Properties, c: Cfg.Config) {
    && (c.lineEndings == (match EndOfLineProp(props)
                          case Some(Cr) => Cfg.Unix
                          case Some(Lf) => Cfg.Unix
                          case Some(CrLf) => Cfg.Windows
                          case None => config.lineEndings))
    && (c.indentWidth == (match IndentSizeProp(props)
                          case Some(Value(n)) => n
                          case Some(UseTabWidth) => TabWidthProp(props).UnwrapOr(config.indentWidth)
                          case None => config.indentWidth))
    && (c.indentType == (match IndentStyleProp(props)
                         case Some(Tab) => Cfg.IndentType.Tabs
                         case Some(Space) => Cfg.IndentType.Spaces
                         case None => config.indentType))
    && (c.columnWidth == (match MaxLineLenProp(props)
                          case Some(LineLen(n)) => n
                          case Some(Off) => USIZE_MAX
                          case None => config.columnWidth))
    && (c.quoteStyle == (match QuoteTypeProp(props)
                         case Some(Double) => Cfg.AutoPreferDouble
                         case Some(Single) => Cfg.AutoPreferSingle
                         case Some(Auto) => config.quoteStyle
                         case None => config.quoteStyle))
    && c.callParentheses == CallParenthesesProp(props).UnwrapOr(config.callParentheses)
    && c.collapseSimpleStatement == CollapseProp(props).UnwrapOr(config.collapseSimpleStatement)
    && c.sortRequires == SortRequiresProp(props).UnwrapOr(config.sortRequires)
    && c.syntax == config.syntax && c.noCallParentheses == config.noCallParentheses
    && c.spaceAfterFunctionNames == config.spaceAfterFunctionNames
  }

  /** The loaded configuration is determined by the configuration and the properties. */
  lemma {:induction false} LoadedFromUnique(config: Cfg.Config, props: Properties, c1: Cfg.Config, c2: Cfg.Config)
    requires LoadedFrom(config, props, c1) && LoadedFrom(config, props, c2)
    ensures c1 == c2
  {
  }

  /** Without properties, loading keeps the configuration, and nothing else is loaded. */
  lemma {:induction false} LoadedFromNothing(config: Cfg.Config, c: Cfg.Config)
    ensures LoadedFrom(config, map[], c) <==> c == config
  {
    assert EndOfLineProp(map[]).None? && IndentSizeProp(map[]).None? && IndentStyleProp(map[]).None?;
    assert MaxLineLenProp(map[]).None? && QuoteTypeProp(map[]).None? && CallParenthesesProp(map[]).None?;
    assert CollapseProp(map[]).None? && SortRequiresProp(map[]).None?;
  }

  /** `load`: overrides the configuration with each property that is present and valid. */
  method Load(config: Cfg.Config, props: Properties) returns (c: Cfg.Config)
    ensures LoadedFrom(config, props, c)
    ensures props == map[] ==> c == config
  {
    c := LoadEndOfLine(config, props);
    c := LoadIndentSize(c, props);
    c := LoadIndentStyle(c, props);
    c := LoadMaxLineLength(c, props);
    c := LoadQuoteType(c, props);
    c := LoadStyleChoices(c, props);
  }

  /**
   * `parse`: `found` is what reading the EditorConfig files for the path gave,
   * either the properties or the error. No properties leave the configuration as it is.
   */
  method Parse<E>(config: Cfg.Config, found: Result<Properties, E>) returns (r: Result<Cfg.Config, E>)
    ensures found.Err? ==> r == Err(found.error)
    ensures found.Ok? && found.value == map[] ==> r == Ok(config)
    ensures found.Ok? ==> r.Ok? && LoadedFrom(config, found.value, r.value)
  {
    match found {
      case Err(e) => return Err(e);
      case Ok(props) =>
        if |props| == 0 {
          return Ok(config);
        }
        var c := Load(config, props);
        return Ok(c);
    }
  }
}
