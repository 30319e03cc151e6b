/**
 * Configuration resolution for the command line: CLI overrides laid over a
 * configuration, and the search for the `stylua.toml` that applies to a
 * file, walking up from the file's directory to a root.
 *
 * The filesystem is abstracted as the set of paths that exist and the
 * configuration files that can be read and parsed; environment variables
 * and the current directory are inputs.
 */
module ConfigResolution {
  import opened Wrappers
  import opened Text
  import Cfg = Configuration
  import EditorConfig

  /** An absolute path, as its components below the filesystem root. */
  type Path = seq<string>

  /** A path given on the command line: absolute, or relative to the current directory. */
  datatype PathArg = PathArg(absolute: bool, components: seq<string>)

  /** `Path::join`: an absolute path takes the place of the base. */
  function Join(base: Path, p: PathArg): (r: Path)
    ensures p.absolute ==> r == p.components
    ensures !p.absolute ==> |base| <= |r| && r[..|base|] == base && r[|base|..] == p.components
  {
    if p.absolute then p.components else base + p.components
  }

  /** `Path::parent`: the root has none. */
  function Parent(p: Path): (r: Option<Path>)
    ensures r.None? <==> p == []
    ensures r.Some? ==> |r.value| + 1 == |p| && r.value == p[..|p| - 1]
  {
    if p == [] then None else Some(p[..|p| - 1])
  }

  /**
   * What the modelled code sees of the filesystem: the paths that exist, the
   * files whose contents can be read, and for each configuration file whose
   * contents parse, the configuration they hold.
   */
  datatype FileSystem = FileSystem(existing: set<Path>, readable: set<Path>, parsed: map<Path, Cfg.Config>)

  datatype Error = ConfigResolutionError(message: string)

  /**
   * `read_config_file`: the file's configuration; an error when it cannot be
   * read, and a different one when its contents do not parse.
   */
  function ReadConfigFile(fs: FileSystem, path: Path): (r: Result<Cfg.Config, Error>)
    ensures r.Ok? <==> path in fs.readable && path in fs.parsed
    ensures r.Ok? ==> r.value == fs.parsed[path]
    ensures path !in fs.readable ==> r == Err(ConfigResolutionError("Failed to read config file"))
    ensures path in fs.readable && path !in fs.parsed ==>
      r == Err(ConfigResolutionError("Config file not in correct format"))
  {
    if path !in fs.readable then Err(ConfigResolutionError("Failed to read config file"))
    else if path !in fs.parsed then Err(ConfigResolutionError("Config file not in correct format"))
    else Ok(fs.parsed[path])
  }

  /** `CONFIG_FILE_NAME`, in the order the names are tried. */
  const ConfigFileNames: seq<string> := ["stylua.toml", ".stylua.toml"]

  /** The first of `names` that exists in `dir` (the loop of `find_toml_file`). */
  function FirstExisting(fs: FileSystem, dir: Path, names: seq<string>): (r: Option<Path>)
    ensures r.Some? <==> exists i :: 0 <= i < |names| && dir + [names[i]] in fs.existing
    ensures r.Some? ==> exists i :: 0 <= i < |names| && r.value == dir + [names[i]] && r.value in fs.existing
                          && forall j :: 0 <= j < i ==> dir + [names[j]] !in fs.existing
  {
    if names == [] then None
    else if dir + [names[0]] in fs.existing then Some(dir + [names[0]])
    else
      var r := FirstExisting(fs, dir, names[1..]);
      assert forall i :: 1 <= i < |names| ==> names[i] == names[1..][i - 1];
      r
  }

  /** `find_toml_file`: `stylua.toml` is preferred over `.stylua.toml`. */
  function FindTomlFile(fs: FileSystem, dir: Path): (r: Option<Path>)
    ensures dir + ["stylua.toml"] in fs.existing ==> r == Some(dir + ["stylua.toml"])
    ensures dir + ["stylua.toml"] !in fs.existing && dir + [".stylua.toml"] in fs.existing ==>
      r == Some(dir + [".stylua.toml"])
    ensures dir + ["stylua.toml"] !in fs.existing && dir + [".stylua.toml"] !in fs.existing ==> r.None?
  {
    assert ConfigFileNames[0] == "stylua.toml" && ConfigFileNames[1] == ".stylua.toml";
    FirstExisting(fs, dir, ConfigFileNames)
  }

  /** `CliConfig`: what the command line forces. */
  datatype CliConfig = CliConfig(
    forcedConfigPath: Option<PathArg>,
    stdinFilepath: Option<PathArg>,
    searchParentDirectories: bool,
    noEditorconfig: bool,
    syntax: Option<Cfg.LuaVersion>,
    columnWidth: Option<usize>,
    lineEndings: Option<Cfg.LineEndings>,
    indentType: Option<Cfg.IndentType>,
    indentWidth: Option<usize>,
    quoteStyle: Option<Cfg.QuoteStyle>,
    callParentheses: Option<Cfg.CallParenType>,
    collapseSimpleStatement: Option<Cfg.CollapseSimpleStatement>,
    sortRequires: bool,
    spaceAfterFunctionNames: Option<Cfg.SpaceAfterFunctionNames>)

  /** No formatting option is given on the command line. */
  predicate NoOverrides(cli: CliConfig) {
    && cli.syntax.None? && cli.columnWidth.None? && cli.lineEndings.None? && cli.indentType.None?
    && cli.indentWidth.None? && cli.quoteStyle.None? && cli.callParentheses.None?
    && cli.collapseSimpleStatement.None? && !cli.sortRequires && cli.spaceAfterFunctionNames.None?
  }

  /** The configuration `apply_overrides` produces. */
  function Overridden(cli: CliConfig, config: Cfg.Config): (r: Cfg.Config)
    ensures NoOverrides(cli) ==> r == config
    ensures config.sortRequires ==> r.sortRequires
    ensures r.sortRequires <==> config.sortRequires || cli.sortRequires
    ensures r.noCallParentheses == config.noCallParentheses
    ensures cli.columnWidth.Some? ==> r.columnWidth == cli.columnWidth.value
    ensures cli.columnWidth.None? ==> r.columnWidth == config.columnWidth
    ensures cli.indentWidth.Some? ==> r.indentWidth == cli.indentWidth.value
    ensures cli.indentWidth.None? ==> r.indentWidth == config.indentWidth
  {
    config.(
      syntax := cli.syntax.UnwrapOr(config.syntax),
      columnWidth := cli.columnWidth.UnwrapOr(config.columnWidth),
      lineEndings := cli.lineEndings.UnwrapOr(config.lineEndings),
      indentType := cli.indentType.UnwrapOr(config.indentType),
      indentWidth := cli.indentWidth.UnwrapOr(config.indentWidth),
      quoteStyle := cli.quoteStyle.UnwrapOr(config.quoteStyle),
      callParentheses := cli.callParentheses.UnwrapOr(config.callParentheses),
      collapseSimpleStatement := cli.collapseSimpleStatement.UnwrapOr(config.collapseSimpleStatement),
      sortRequires := config.sortRequires || cli.sortRequires,
      spaceAfterFunctionNames := cli.spaceAfterFunctionNames.UnwrapOr(config.spaceAfterFunctionNames))
  }

  /** Overriding twice with the same command line is overriding once. */
  lemma {:induction false} OverriddenIdempotent(cli: CliConfig, config: Cfg.Config)
    ensures Overridden(cli, Overridden(cli, config)) == Overridden(cli, config)
  {
  }

  /** `apply_overrides`: copies the configuration, then overwrites each field the command line sets. */
  method ApplyOverrides(cli: CliConfig, config: Cfg.Config) returns (c: Cfg.Config)
    ensures c == Overridden(cli, config)
  {
    var syntax, columnWidth, lineEndings, indentType := config.syntax, config.columnWidth, config.lineEndings, config.indentType;
    var indentWidth, quoteStyle, callParentheses := config.indentWidth, config.quoteStyle, config.callParentheses;
    var collapse, sortRequires, spaceAfter := config.collapseSimpleStatement, config.sortRequires, config.spaceAfterFunctionNames;
    if cli.syntax.Some? {
      syntax := cli.syntax.value;
    }
    if cli.columnWidth.Some? {
      columnWidth := cli.columnWidth.value;
    }
    if cli.lineEndings.Some? {
      lineEndings := cli.lineEndings.value;
    }
    if cli.indentType.Some? {
      indentType := cli.indentType.value;
    }
    if cli.indentWidth.Some? {
      indentWidth := cli.indentWidth.value;
    }
    if cli.quoteStyle.Some? {
      quoteStyle := cli.quoteStyle.value;
    }
    if cli.callParentheses.Some? {
      callParentheses := cli.callParentheses.value;
    }
    if cli.collapseSimpleStatement.Some? {
      collapse := cli.collapseSimpleStatement.value;
    }
    if cli.sortRequires {
      sortRequires := true;
    }
    if cli.spaceAfterFunctionNames.Some? {
      spaceAfter := cli.spaceAfterFunctionNames.value;
    }
    c := config.(syntax := syntax, columnWidth := columnWidth, lineEndings := lineEndings, indentType := indentType,
                 indentWidth := indentWidth, quoteStyle := quoteStyle, callParentheses := callParentheses,
                 collapseSimpleStatement := collapse, sortRequires := sortRequires,
                 spaceAfterFunctionNames := spaceAfter);
  }

  /** `read_and_apply_overrides`. */
  function ReadAndApplyOverrides(fs: FileSystem, cli: CliConfig, path: Path): (r: Result<Cfg.Config, Error>)
    ensures r.Ok? <==> path in fs.readable && path in fs.parsed
    ensures r.Ok? ==> r.value == Overridden(cli, fs.parsed[path])
    ensures r.Err? ==> r == ReadConfigFile(fs, path)
  {
    match ReadConfigFile(fs, path)
    case Ok(c) => Ok(Overridden(cli, c))
    case Err(e) => Err(e)
  }

  /** `lookup_config_file_in_directory`. */
  function LookupConfigFileInDirectory(fs: FileSystem, cli: CliConfig, dir: Path): (r: Result<Option<Cfg.Config>, Error>)
    ensures FindTomlFile(fs, dir).None? ==> r == Ok(None)
    ensures FindTomlFile(fs, dir).Some? ==>
      r == (match ReadAndApplyOverrides(fs, cli, FindTomlFile(fs, dir).value)
            case Ok(c) => Ok(Some(c))
            case Err(e) => Err(e))
  {
    match FindTomlFile(fs, dir)
    case None => Ok(None)
    case Some(file) =>
      match ReadAndApplyOverrides(fs, cli, file)
      case Ok(c) => Ok(Some(c))
      case Err(e) => Err(e)
  }

  /** The values of `$XDG_CONFIG_HOME` and `$HOME`, when set. */
  datatype Environment = Environment(xdgConfigHome: Option<Path>, home: Option<Path>)

  /** A location and its `stylua` directory, each searched only if it exists, the second only inside the first. */
  function WithStyluaDirectory(fs: FileSystem, dir: Path): (r: seq<Path>)
    ensures forall i :: 0 <= i < |r| ==> r[i] in fs.existing
    ensures dir in fs.existing <==> r != [] && r[0] == dir
    ensures |r| == 2 <==> dir in fs.existing && dir + ["stylua"] in fs.existing
    ensures |r| == 2 ==> r[1] == dir + ["stylua"]
  {
    if dir !in fs.existing then []
    else if dir + ["stylua"] in fs.existing then [dir, dir + ["stylua"]]
    else [dir]
  }

  /** The global locations, in the order they are searched. */
  function GlobalLocations(fs: FileSystem, env: Environment): seq<Path> {
    (match env.xdgConfigHome case Some(x) => WithStyluaDirectory(fs, x) case None => [])
    + (match env.home case Some(h) => WithStyluaDirectory(fs, h + [".config"]) case None => [])
  }

  /** The configuration of the first of `dirs` holding a configuration file; an unreadable one is an error. */
  function FirstConfigIn(fs: FileSystem, cli: CliConfig, dirs: seq<Path>): (r: Result<Option<Cfg.Config>, Error>)
    ensures r == Ok(None) <==> forall i :: 0 <= i < |dirs| ==> FindTomlFile(fs, dirs[i]).None?
  {
    if dirs == [] then Ok(None)
    else
      match LookupConfigFileInDirectory(fs, cli, dirs[0])
      case Err(e) => Err(e)
      case Ok(Some(c)) => Ok(Some(c))
      case Ok(None) =>
        assert forall i :: 1 <= i < |dirs| ==> dirs[1..][i - 1] == dirs[i];
        FirstConfigIn(fs, cli, dirs[1..])
  }

  /** Directory `i` is the first of `dirs` holding a configuration file, and the search returns what it holds. */
  predicate FoundAt(fs: FileSystem, cli: CliConfig, dirs: seq<Path>, i: int) {
    && 0 <= i < |dirs|
    && LookupConfigFileInDirectory(fs, cli, dirs[i]) == FirstConfigIn(fs, cli, dirs)
    && FindTomlFile(fs, dirs[i]).Some?
    && forall j :: 0 <= j < i ==> FindTomlFile(fs, dirs[j]).None?
  }

  /**
   * What the search finds comes from the first directory that holds a
   * configuration file: an error is that file's, a configuration is its.
   */
  lemma {:induction false} FirstConfigInFinds(fs: FileSystem, cli: CliConfig, dirs: seq<Path>)
    requires FirstConfigIn(fs, cli, dirs) != Ok(None)
    ensures exists i :: FoundAt(fs, cli, dirs, i)
  {
    if LookupConfigFileInDirectory(fs, cli, dirs[0]) == Ok(None) {
      var rest := dirs[1..];
      assert FirstConfigIn(fs, cli, dirs) == FirstConfigIn(fs, cli, rest);
      FirstConfigInFinds(fs, cli, rest);
      var k :| FoundAt(fs, cli, rest, k);
      FoundAtShift(fs, cli, dirs, k);
    } else {
      assert FoundAt(fs, cli, dirs, 0);
    }
  }

  /** Being found after an empty first directory is being found one place later. */
  lemma {:induction false} FoundAtShift(fs: FileSystem, cli: CliConfig, dirs: seq<Path>, k: int)
    requires dirs != [] && LookupConfigFileInDirectory(fs, cli, dirs[0]) == Ok(None)
    requires FoundAt(fs, cli, dirs[1..], k)
    ensures FoundAt(fs, cli, dirs, k + 1)
  {
    assert FindTomlFile(fs, dirs[0]).None?;
    assert dirs[1..][k] == dirs[k + 1];
    forall j | 0 <= j < k + 1
      ensures FindTomlFile(fs, dirs[j]).None?
    {
      if j > 0 {
        assert dirs[1..][j - 1] == dirs[j];
      }
    }
  }

  /** Searching two lists one after the other is searching them joined. */
  lemma {:induction false} FirstConfigInAppend(fs: FileSystem, cli: CliConfig, a: seq<Path>, b: seq<Path>)
    ensures FirstConfigIn(fs, cli, a + b)
      == (if FirstConfigIn(fs, cli, a) == Ok(None) then FirstConfigIn(fs, cli, b) else FirstConfigIn(fs, cli, a))
  {
    if a != [] {
      assert (a + b)[0] == a[0];
      assert (a + b)[1..] == a[1..] + b;
      FirstConfigInAppend(fs, cli, a[1..], b);
    } else {
      assert a + b == b;
    }
  }

  /** One global location: the directory, then its `stylua` directory. */
  function SearchLocation(fs: FileSystem, cli: CliConfig, dir: Path): (r: Result<Option<Cfg.Config>, Error>)
    ensures r == FirstConfigIn(fs, cli, WithStyluaDirectory(fs, dir))
  {
    if dir in fs.existing then
      match LookupConfigFileInDirectory(fs, cli, dir)
      case Err(e) => Err(e)
      case Ok(Some(c)) => Ok(Some(c))
      case Ok(None) =>
        if dir + ["stylua"] in fs.existing then LookupConfigFileInDirectory(fs, cli, dir + ["stylua"])
        else Ok(None)
    else Ok(None)
  }

  /**
   * `search_config_locations`: `$XDG_CONFIG_HOME`, `$XDG_CONFIG_HOME/stylua`,
   * `$HOME/.config` and `$HOME/.config/stylua`, each only if it exists.
   */
  function SearchConfigLocations(fs: FileSystem, cli: CliConfig, env: Environment): (r: Result<Option<Cfg.Config>, Error>)
    ensures r == FirstConfigIn(fs, cli, GlobalLocations(fs, env))
    ensures env.xdgConfigHome.None? && env.home.None? ==> r == Ok(None)
  {
    var xdg := match env.xdgConfigHome case Some(x) => SearchLocation(fs, cli, x) case None => Ok(None);
    var home := match env.home case Some(h) => SearchLocation(fs, cli, h + [".config"]) case None => Ok(None);
    FirstConfigInAppend(fs, cli, match env.xdgConfigHome case Some(x) => WithStyluaDirectory(fs, x) case None => [],
                        match env.home case Some(h) => WithStyluaDirectory(fs, h + [".config"]) case None => []);
    if xdg != Ok(None) then xdg else home
  }

  /** `ConfigResolver`: its fields are set once by `New`. */
  datatype ConfigResolver = ConfigResolver(
    forcedConfiguration: Option<Cfg.Config>,
    currentDirectory: Path,
    defaultConfiguration: Cfg.Config,
    cliConfig: CliConfig)

  /**
   * `ConfigResolver::new`. `cwd` is what asking for the current directory gave,
   * and `defaults` is `Config::default()`.
   */
  function New(cli: CliConfig, fs: FileSystem, cwd: Option<Path>, defaults: Cfg.Config): (r: Result<ConfigResolver, Error>)
    ensures r.Ok? ==> r.value.defaultConfiguration == Overridden(cli, defaults) && r.value.cliConfig == cli
    ensures r.Ok? ==> r.value.forcedConfiguration.Some? == cli.forcedConfigPath.Some?
    ensures cli.forcedConfigPath.None? && cwd.Some? ==> r.Ok? && r.value.currentDirectory == cwd.value
    ensures cwd.None? ==> r.Err?
    ensures cli.forcedConfigPath.Some? ==>
      var read := ReadAndApplyOverrides(fs, cli, Join(cwd.UnwrapOr([]), cli.forcedConfigPath.value));
      && (read.Err? ==> r == Err(read.error))
      && (read.Ok? && cwd.Some? ==>
            r.Ok? && r.value.currentDirectory == cwd.value && r.value.forcedConfiguration == Some(read.value))
  {
    var forced: Result<Option<Cfg.Config>, Error> :=
      match cli.forcedConfigPath
      case None => Ok(None)
      case Some(p) =>
        match ReadAndApplyOverrides(fs, cli, Join(cwd.UnwrapOr([]), p))
        case Ok(c) => Ok(Some(c))
        case Err(e) => Err(e);
    if forced.Err? then Err(forced.error)
    else if cwd.None? then Err(ConfigResolutionError("Could not find current directory"))
    else Ok(ConfigResolver(forced.value, cwd.value, Overridden(cli, defaults), cli))
  }

  /** `get_configuration_search_root`: no root when parent directories are searched. */
  function SearchRoot(resolver: ConfigResolver): (r: Option<Path>)
    ensures r.None? <==> resolver.cliConfig.searchParentDirectories
    ensures r.Some? ==> r.value == resolver.currentDirectory
  {
    if resolver.cliConfig.searchParentDirectories then None else Some(resolver.currentDirectory)
  }

  /** The search stops at the root, or at the top of the filesystem. */
  predicate ShouldStop(dir: Path, root: Option<Path>) {
    Some(dir) == root || Parent(dir).None?
  }

  /** `find_config_file`: the configuration of the nearest directory with a config file. */
  function FindConfigFile(resolver: ConfigResolver, fs: FileSystem, env: Environment, dir: Path, root: Option<Path>)
    : (r: Result<Option<Cfg.Config>, Error>)
    decreases |dir|
  {
    match LookupConfigFileInDirectory(fs, resolver.cliConfig, dir)
    case Err(e) => Err(e)
    case Ok(Some(c)) => Ok(Some(c))
    case Ok(None) =>
      if ShouldStop(dir, root) then
        if resolver.cliConfig.searchParentDirectories then
          match SearchConfigLocations(fs, resolver.cliConfig, env)
          case Err(e) => Err(e)
          case Ok(Some(c)) => Ok(Some(c))
          case Ok(None) => Ok(None)
        else Ok(None)
      else FindConfigFile(resolver, fs, env, Parent(dir).value, root)
  }

  /** The directories `find_config_file` looks in, nearest first. */
  function SearchedDirectories(dir: Path, root: Option<Path>): (r: seq<Path>)
    ensures |r| >= 1 && r[0] == dir
    ensures forall i :: 0 <= i < |r| ==> |r[i]| + i == |dir| && r[i] == dir[..|r[i]|]
    decreases |dir|
  {
    if ShouldStop(dir, root) then [dir]
    else
      var rest := SearchedDirectories(Parent(dir).value, root);
      assert forall i :: 0 <= i < |rest| ==> rest[i] == dir[..|rest[i]|];
      [dir] + rest
  }

  /** What the search falls back to when no directory on the way has a config file. */
  function Fallback(resolver: ConfigResolver, fs: FileSystem, env: Environment): Result<Option<Cfg.Config>, Error> {
    if resolver.cliConfig.searchParentDirectories then SearchConfigLocations(fs, resolver.cliConfig, env)
    else Ok(None)
  }

  /** The first of `ds` that holds a config file. */
  function FirstConfigDirectory(fs: FileSystem, ds: seq<Path>): (r: Option<Path>)
    ensures r.None? <==> forall i :: 0 <= i < |ds| ==> FindTomlFile(fs, ds[i]).None?
    ensures r.Some? ==> exists i :: 0 <= i < |ds| && ds[i] == r.value && FindTomlFile(fs, ds[i]).Some?
                          && forall j :: 0 <= j < i ==> FindTomlFile(fs, ds[j]).None?
  {
    if ds == [] then None
    else if FindTomlFile(fs, ds[0]).Some? then Some(ds[0])
    else
      var r := FirstConfigDirectory(fs, ds[1..]);
      assert forall i :: 1 <= i < |ds| ==> ds[i] == ds[1..][i - 1];
      r
  }

  /**
   * `find_config_file` against its reference: the first searched directory
   * holding a config file decides the result (its configuration, or the error
   * reading it); with none, the search falls back.
   */
  lemma {:induction false} FindConfigFileNearest(resolver: ConfigResolver, fs: FileSystem, env: Environment, dir: Path, root: Option<Path>)
    ensures FindConfigFile(resolver, fs, env, dir, root) ==
      match FirstConfigDirectory(fs, SearchedDirectories(dir, root))
      case None => Fallback(resolver, fs, env)
      case Some(d) => LookupConfigFileInDirectory(fs, resolver.cliConfig, d)
    decreases |dir|
  {
    var ds := SearchedDirectories(dir, root);
    if FindTomlFile(fs, dir).Some? {
    } else if ShouldStop(dir, root) {
      assert FirstConfigDirectory(fs, ds[1..]).None?;
      if resolver.cliConfig.searchParentDirectories {
        match SearchConfigLocations(fs, resolver.cliConfig, env)
        case Err(e) =>
        case Ok(Some(c)) =>
        case Ok(None) =>
      }
    } else {
      var p := Parent(dir).value;
      FindConfigFileNearest(resolver, fs, env, p, root);
      assert ds[1..] == SearchedDirectories(p, root);
    }
  }

  /** Without searching parents, the search never goes above the current directory it started under. */
  lemma {:induction false} SearchStopsAtRoot(dir: Path, root: Path)
    requires |root| <= |dir| && dir[..|root|] == root
    ensures var ds := SearchedDirectories(dir, Some(root));
      ds[|ds| - 1] == root && forall i :: 0 <= i < |ds| ==> |root| <= |ds[i]|
    decreases |dir|
  {
    if !ShouldStop(dir, Some(root)) {
      var p := Parent(dir).value;
      assert dir[..|dir|] == dir;
      assert |root| < |dir|;
      assert p[..|root|] == root;
      SearchStopsAtRoot(p, root);
    }
  }

  /**
   * `load_configuration` for a file: a forced configuration wins; otherwise
   * the search from the file's directory, then EditorConfig or the default.
   * `editorconfig` is what reading the file's EditorConfig properties gave.
   */
  method LoadConfiguration(resolver: ConfigResolver, fs: FileSystem, env: Environment, path: PathArg,
                           editorconfig: Result<EditorConfig.Properties, string>)
    returns (r: Result<Cfg.Config, Error>)
    ensures resolver.forcedConfiguration.Some? ==> r == Ok(resolver.forcedConfiguration.value)
    ensures resolver.forcedConfiguration.None? && Join(resolver.currentDirectory, path) == [] ==> r.Err?
    ensures resolver.forcedConfiguration.None? && Join(resolver.currentDirectory, path) != [] ==>
      ResolvedFrom(resolver, fs, env, Parent(Join(resolver.currentDirectory, path)).value, editorconfig, r)
  {
    if resolver.forcedConfiguration.Some? {
      return Ok(resolver.forcedConfiguration.value);
    }
    var absolute := Join(resolver.currentDirectory, path);
    match Parent(absolute) {
      case None =>
        return Err(ConfigResolutionError("no parent directory found"));
      case Some(parent) =>
        r := ResolveFrom(resolver, fs, env, parent, editorconfig);
    }
  }

  /**
   * What resolving from `start` gives when no configuration is forced: a
   * search error is passed on, a found file wins, and otherwise the default,
   * with the EditorConfig properties loaded over it unless EditorConfig is
   * turned off.
   */
  predicate ResolvedFrom(resolver: ConfigResolver, fs: FileSystem, env: Environment, start: Path,
                         editorconfig: Result<EditorConfig.Properties, string>, r: Result<Cfg.Config, Error>)
  {
    var found := FindConfigFile(resolver, fs, env, start, SearchRoot(resolver));
    && (found.Err? ==> r == Err(found.error))
    && (found.Ok? && found.value.Some? ==> r == Ok(found.value.value))
    && (found.Ok? && found.value.None? && resolver.cliConfig.noEditorconfig ==>
          r == Ok(resolver.defaultConfiguration))
    && (found.Ok? && found.value.None? && !resolver.cliConfig.noEditorconfig ==>
          (r.Ok? <==> editorconfig.Ok?)
          && (editorconfig.Err? ==> r == Err(ConfigResolutionError("could not parse editorconfig")))
          && (editorconfig.Ok? ==> EditorConfig.LoadedFrom(resolver.defaultConfiguration, editorconfig.value, r.value))
          && (editorconfig == Ok(map[]) ==> r == Ok(resolver.defaultConfiguration)))
  }

  /** The part `load_configuration` and `load_configuration_for_stdin` share, from a start directory. */
  method ResolveFrom(resolver: ConfigResolver, fs: FileSystem, env: Environment, start: Path,
                     editorconfig: Result<EditorConfig.Properties, string>)
    returns (r: Result<Cfg.Config, Error>)
    ensures ResolvedFrom(resolver, fs, env, start, editorconfig, r)
  {
    match FindConfigFile(resolver, fs, env, start, SearchRoot(resolver)) {
      case Err(e) => return Err(e);
      case Ok(Some(c)) => return Ok(c);
      case Ok(None) =>
        if resolver.cliConfig.noEditorconfig {
          return Ok(resolver.defaultConfiguration);
        }
        var parsed := EditorConfig.Parse(resolver.defaultConfiguration, editorconfig);
        match parsed {
          case Ok(c) => return Ok(c);
          case Err(_) => return Err(ConfigResolutionError("could not parse editorconfig"));
        }
    }
  }

  /**
   * `load_configuration_for_stdin`: a forced configuration wins; a
   * `--stdin-filepath` is resolved like a file; otherwise the search starts in
   * the current directory. `editorconfig` is what reading the EditorConfig
   * properties gave for the stdin path, or for `*.lua` when there is none.
   */
  method LoadConfigurationForStdin(resolver: ConfigResolver, fs: FileSystem, env: Environment,
                                   editorconfig: Result<EditorConfig.Properties, string>)
    returns (r: Result<Cfg.Config, Error>)
    ensures resolver.forcedConfiguration.Some? ==> r == Ok(resolver.forcedConfiguration.value)
    ensures resolver.forcedConfiguration.None? && resolver.cliConfig.stdinFilepath.Some? ==>
      var absolute := Join(resolver.currentDirectory, resolver.cliConfig.stdinFilepath.value);
      && (absolute == [] ==> r.Err?)
      && (absolute != [] ==> ResolvedFrom(resolver, fs, env, Parent(absolute).value, editorconfig, r))
    ensures resolver.forcedConfiguration.None? && resolver.cliConfig.stdinFilepath.None? ==>
      ResolvedFrom(resolver, fs, env, resolver.currentDirectory, editorconfig, r)
  {
    if resolver.forcedConfiguration.Some? {
      return Ok(resolver.forcedConfiguration.value);
    }
    match resolver.cliConfig.stdinFilepath {
      case Some(p) =>
        r := LoadConfiguration(resolver, fs, env, p, editorconfig);
      case None =>
        r := ResolveFrom(resolver, fs, env, resolver.currentDirectory, editorconfig);
    }
  }
}
