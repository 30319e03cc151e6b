/**
 * The `.styluaignore` rules of the command line: which ignore file applies to
 * a path, whether the path is ignored by it, and whether a path given
 * explicitly on the command line has to respect it at all.
 *
 * Finding the ignore file on disk and parsing its globs are outside the
 * model: they are given as functions, and an ignore file is represented by
 * what its patterns decide for each path they match: ignore it, or (for a
 * negated `!` pattern) whitelist it.
 */
module StyluaIgnore {
  import opened Wrappers

  /** An absolute, canonical path, as its components below the filesystem root. */
  type Path = seq<string>

  /** `path.starts_with(base)`, component-wise. */
  predicate StartsWith(path: Path, base: Path) {
    |base| <= |path| && path[..|base|] == base
  }

  /** `ignore::Match` for a path some pattern matches; a path absent from a matcher matches nothing. */
  datatype MatchKind = Ignore | Whitelist

  /**
   * A parsed ignore file (`Gitignore`): the directory it lives in, and the
   * decision its patterns (the last matching one winning) take for each path
   * under that directory they match. The empty matcher has an empty root path.
   */
  datatype Matcher = Matcher(root: Path, matches: map<Path, MatchKind>)

  const EmptyMatcher := Matcher([], map[])

  /** What the ignore lookup needs from the outside world. */
  datatype IgnoreEnv = IgnoreEnv(
    // `find_ignore_file_path(dir, search_parent_directories)`
    findIgnoreFile: (Path, bool) -> Option<Path>,
    // the decisions of an ignore file's patterns, or the error parsing it
    load: Path -> Result<map<Path, MatchKind>, string>,
    // `std::env::current_dir()`
    cwd: Option<Path>)

  /** `Gitignore::new`: the matcher's root is the directory holding the file. */
  function NewMatcher(env: IgnoreEnv, file: Path): (r: Result<Matcher, string>)
    ensures r.Ok? <==> env.load(file).Ok?
    ensures r.Ok? ==> r.value.matches == env.load(file).value
                      && r.value.root == (if file == [] then [] else file[..|file| - 1])
  {
    match env.load(file)
    case Ok(globs) => Ok(Matcher(if file == [] then [] else file[..|file| - 1], globs))
    case Err(e) => Err(e)
  }

  /** The ignore file `get_ignore` settles on, if any. */
  function IgnoreFileFor(env: IgnoreEnv, directory: Path, searchParentDirectories: bool, searchRoot: Option<Path>)
    : (r: Option<Path>)
    ensures env.findIgnoreFile(directory, searchParentDirectories).Some? ==>
      r == env.findIgnoreFile(directory, searchParentDirectories)
    ensures env.findIgnoreFile(directory, searchParentDirectories).None? && searchRoot.Some? ==>
      r == env.findIgnoreFile(searchRoot.value, false)
    ensures env.findIgnoreFile(directory, searchParentDirectories).None? && searchRoot.None? ==>
      r == (match env.cwd case Some(cwd) => env.findIgnoreFile(cwd, false) case None => None)
  {
    match env.findIgnoreFile(directory, searchParentDirectories)
    case Some(f) => Some(f)
    case None =>
      var fallback := if searchRoot.Some? then searchRoot else env.cwd;
      match fallback
      case Some(dir) => env.findIgnoreFile(dir, false)
      case None => None
  }

  /**
   * `get_ignore`: the ignore file of the directory, else the one at the search
   * root (or the current directory); with none, the empty matcher.
   */
  function GetIgnore(env: IgnoreEnv, directory: Path, searchParentDirectories: bool, searchRoot: Option<Path>)
    : (r: Result<Matcher, string>)
    ensures IgnoreFileFor(env, directory, searchParentDirectories, searchRoot).None? ==> r == Ok(EmptyMatcher)
    ensures IgnoreFileFor(env, directory, searchParentDirectories, searchRoot).Some? ==>
      r == NewMatcher(env, IgnoreFileFor(env, directory, searchParentDirectories, searchRoot).value)
  {
    match IgnoreFileFor(env, directory, searchParentDirectories, searchRoot)
    case Some(file) => NewMatcher(env, file)
    case None => Ok(EmptyMatcher)
  }

  /**
   * The walk of `matched_path_or_any_parents` from `path[..k]` upwards: the
   * first prefix, longest first and no shorter than the root, that some
   * pattern matches decides, whichever way it decides.
   */
  function NearestMatch(m: Matcher, path: Path, k: nat): (r: Option<MatchKind>)
    requires |m.root| <= k <= |path|
    ensures r.None? <==> forall j :: |m.root| <= j <= k ==> path[..j] !in m.matches
    decreases k
  {
    if path[..k] in m.matches then Some(m.matches[path[..k]])
    else if k == |m.root| then None
    else NearestMatch(m, path, k - 1)
  }

  /**
   * `matched_path_or_any_parents(path, false)`: the match of the path itself
   * if it has one, otherwise that of its nearest matched parent below the root.
   */
  function MatchedPathOrAnyParents(m: Matcher, path: Path): (r: Option<MatchKind>)
    requires StartsWith(path, m.root)
    ensures r.None? <==> forall j :: |m.root| <= j <= |path| ==> path[..j] !in m.matches
  {
    NearestMatch(m, path, |path|)
  }

  /** The empty matcher ignores nothing. */
  lemma {:induction false} EmptyIgnoresNothing(path: Path)
    ensures StartsWith(path, EmptyMatcher.root) && MatchedPathOrAnyParents(EmptyMatcher, path).None?
  {
  }

  /** A path matched by a pattern takes that match, whatever its parents match. */
  lemma {:induction false} OwnMatchWins(m: Matcher, path: Path)
    requires StartsWith(path, m.root) && path in m.matches
    ensures MatchedPathOrAnyParents(m, path) == Some(m.matches[path])
  {
    assert path[..|path|] == path;
  }

  /**
   * An ignored directory covers a path below it unless a pattern matches the
   * path, or a directory between the two, first; the nearest whitelist wins
   * over an ignored directory further up.
   */
  lemma {:induction false} NearestDecides(m: Matcher, path: Path, j: nat)
    requires StartsWith(path, m.root) && |m.root| <= j <= |path| && path[..j] in m.matches
    requires forall i :: j < i <= |path| ==> path[..i] !in m.matches
    ensures MatchedPathOrAnyParents(m, path) == Some(m.matches[path[..j]])
  {
    NearestFrom(m, path, j, |path|);
  }

  /**
   * An ignore file in `/proj` holding `vendor/` and `!vendor/keep.lua`:
   * `vendor/keep.lua` is whitelisted and formatted, any other file under
   * `vendor` is ignored.
   */
  lemma {:induction false} WhitelistInsideIgnoredDirectory()
    ensures var m := Matcher(["proj"], map[["proj", "vendor"] := Ignore, ["proj", "vendor", "keep.lua"] := Whitelist]);
      && MatchedPathOrAnyParents(m, ["proj", "vendor", "keep.lua"]) == Some(Whitelist)
      && MatchedPathOrAnyParents(m, ["proj", "vendor", "other.lua"]) == Some(Ignore)
  {
    var m := Matcher(["proj"], map[["proj", "vendor"] := Ignore, ["proj", "vendor", "keep.lua"] := Whitelist]);
    var keep: Path := ["proj", "vendor", "keep.lua"];
    var other: Path := ["proj", "vendor", "other.lua"];
    OwnMatchWins(m, keep);
    assert other[..2] == ["proj", "vendor"];
    assert other[..3] == other && other !in m.matches;
    NearestDecides(m, other, 2);
  }

  /** The walk returns only a match that some prefix it visits has. */
  lemma {:induction false} NearestMatchIsAMatch(m: Matcher, path: Path, k: nat)
    requires |m.root| <= k <= |path|
    ensures var r := NearestMatch(m, path, k);
      r.Some? ==> exists j :: |m.root| <= j <= k && path[..j] in m.matches && m.matches[path[..j]] == r.value
    decreases k
  {
    if path[..k] !in m.matches && k > |m.root| {
      NearestMatchIsAMatch(m, path, k - 1);
    }
  }

  /** The walk from `path[..k]` returns the match of the longest matched prefix. */
  lemma {:induction false} NearestFrom(m: Matcher, path: Path, j: nat, k: nat)
    requires |m.root| <= j <= k <= |path| && path[..j] in m.matches
    requires forall i :: j < i <= k ==> path[..i] !in m.matches
    ensures NearestMatch(m, path, k) == Some(m.matches[path[..j]])
    decreases k
  {
    if k > j {
      NearestFrom(m, path, j, k - 1);
    }
  }

  /**
   * `path_is_stylua_ignored`. A path outside the ignore file's directory is
   * never ignored; a path inside it is ignored iff the nearest match, of the
   * path itself or else of its closest matched parent, is an ignore and not a
   * whitelist. The source panics on a path without a parent.
   */
  function PathIsStyluaIgnored(env: IgnoreEnv, path: Path, searchParentDirectories: bool, searchRoot: Option<Path>)
    : (r: Result<bool, string>)
    requires path != []
    ensures var g := GetIgnore(env, path[..|path| - 1], searchParentDirectories, searchRoot);
      && (g.Err? <==> r.Err?)
      && (g.Ok? && !StartsWith(path, g.value.root) ==> r == Ok(false))
      && (g.Ok? && StartsWith(path, g.value.root) ==> r == Ok(MatchedPathOrAnyParents(g.value, path) == Some(Ignore)))
    ensures r == Ok(true) ==>
      var m := GetIgnore(env, path[..|path| - 1], searchParentDirectories, searchRoot).value;
      exists k :: 0 <= k <= |path| && path[..k] in m.matches && m.matches[path[..k]] == Ignore
  {
    match GetIgnore(env, path[..|path| - 1], searchParentDirectories, searchRoot)
    case Err(e) => Err("failed to parse ignore file: " + e)
    case Ok(m) =>
      if !StartsWith(path, m.root) then Ok(false)
      else
        NearestMatchIsAMatch(m, path, |path|);
        Ok(MatchedPathOrAnyParents(m, path) == Some(Ignore))
  }

  /** `opt.files.iter().any(|p| path == *p)`. */
  function IsExplicitlyProvided(files: seq<Path>, path: Path): (r: bool)
    ensures r <==> exists i :: 0 <= i < |files| && files[i] == path
  {
    if files == [] then false
    else if files[0] == path then true
    else
      var r := IsExplicitlyProvided(files[1..], path);
      assert forall i :: 1 <= i < |files| ==> files[i] == files[1..][i - 1];
      r
  }

  /**
   * `should_respect_ignores`: paths found by walking directories always
   * respect the ignore file; explicitly given ones only with `--respect-ignores`.
   */
  function ShouldRespectIgnores(files: seq<Path>, respectIgnores: bool, path: Path): (r: bool)
    ensures (forall i :: 0 <= i < |files| ==> files[i] != path) ==> r
    ensures (exists i :: 0 <= i < |files| && files[i] == path) ==> (r <==> respectIgnores)
  {
    !IsExplicitlyProvided(files, path) || respectIgnores
  }
}
