/**
 * The mosaic tool's directory layout: where user data, published configs and the
 * project's working directories live, and how a user-supplied directory string is
 * turned into an absolute path.
 *
 * The ambient process state the original reads (home directory, working directory,
 * location of the compiled module) is an explicit `Env` here.
 */
module Directory {
  import opened Wrappers

  type Path = string

  /** The POSIX path separator, which also marks an absolute path. */
  const Sep: char := '/'

  /** Home directory, current working directory and the directory holding the module. */
  datatype Env = Env(home: Path, cwd: Path, moduleDir: Path)

  /** The only error the path functions raise. */
  datatype DirectoryError = EmptyChainId

  predicate IsAbsolute(p: Path) {
    |p| > 0 && p[0] == Sep
  }

  predicate StartsWithTilde(p: Path) {
    |p| > 0 && p[0] == '~'
  }

  predicate EndsWithSep(p: Path) {
    |p| > 0 && p[|p| - 1] == Sep
  }

  /** `suffix` is the tail of `p`. */
  predicate EndsWith(p: Path, suffix: Path) {
    |suffix| <= |p| && p[|p| - |suffix|..] == suffix
  }

  /** A name with no separator in it: one path segment. */
  predicate IsSingleSegment(s: string) {
    Sep !in s
  }

  /**
   * Two-segment `path.join`: an empty side is dropped ("." when both are empty), a
   * separator is inserted when neither side supplies one at the junction, and one is
   * dropped when both do. Nothing else is normalised.
   */
  function Join(a: Path, b: Path): (r: Path)
    ensures r != ""
    ensures a != "" ==> a <= r
    ensures IsAbsolute(a) ==> IsAbsolute(r)
    ensures a != "" && b == "" ==> r == a
    ensures b != "" && b[0] != Sep ==> EndsWith(r, b)
  {
    if a == "" && b == "" then "."
    else if a == "" then b
    else if b == "" then a
    else if EndsWithSep(a) && b[0] == Sep then a + b[1..]
    else if EndsWithSep(a) || b[0] == Sep then a + b
    else a + [Sep] + b
  }

  /** Joining a directory that has no trailing separator with a relative segment inserts one separator. */
  lemma JoinPlain(a: Path, b: Path)
    requires a != "" && !EndsWithSep(a)
    requires b != "" && b[0] != Sep
    ensures Join(a, b) == a + [Sep] + b
  {
  }

  /** A path ending in a segment that is not empty never ends with a separator. */
  lemma EndsWithSegment(p: Path, segment: Path)
    requires segment != "" && segment[|segment| - 1] != Sep
    requires EndsWith(p, segment)
    ensures p != "" && !EndsWithSep(p)
  {
  }

  /** `~/.mosaic`: where mosaic keeps its user data. */
  function DefaultMosaicDataDir(env: Env): (r: Path)
    ensures env.home != "" ==> env.home <= r
    ensures IsAbsolute(env.home) ==> IsAbsolute(r)
    ensures EndsWith(r, ".mosaic")
  {
    Join(env.home, ".mosaic")
  }

  /** `~/.mosaic/configs`: where mosaic publishes configs. */
  function PublishMosaicConfigDir(env: Env): (r: Path)
    ensures DefaultMosaicDataDir(env) <= r
    ensures IsAbsolute(env.home) ==> IsAbsolute(r)
    ensures EndsWith(r, "configs")
  {
    Join(DefaultMosaicDataDir(env), "configs")
  }

  /** With a home directory written without a trailing separator, the two user directories are spelled out. */
  lemma UserDataLayout(env: Env)
    requires env.home != "" && !EndsWithSep(env.home)
    ensures DefaultMosaicDataDir(env) == env.home + "/.mosaic"
    ensures PublishMosaicConfigDir(env) == env.home + "/.mosaic/configs"
  {
  }

  /**
   * The project root, one level above the module's directory. The `..` segment is
   * kept as written: dot segments are not resolved.
   */
  function ProjectRoot(env: Env): (r: Path)
    ensures env.moduleDir != "" && !EndsWithSep(env.moduleDir) ==> r == env.moduleDir + "/.."
    ensures env.moduleDir != "" ==> env.moduleDir <= r
    ensures IsAbsolute(env.moduleDir) ==> IsAbsolute(r)
    ensures r != "" && !EndsWithSep(r)
  {
    var root := Join(env.moduleDir, "..");
    EndsWithSegment(root, "..");
    root
  }

  /** `<projectRoot>/utility_chains`. */
  function ProjectUtilityChainsDir(env: Env): (r: Path)
    ensures r == ProjectRoot(env) + "/utility_chains"
  {
    JoinPlain(ProjectRoot(env), "utility_chains");
    Join(ProjectRoot(env), "utility_chains")
  }

  /**
   * `<projectRoot>/utility_chains/utility_chain_<chainId>`; an empty chain id is
   * refused and no path is returned.
   */
  function ProjectUtilityChainDir(env: Env, chainId: string): (r: Result<Path, DirectoryError>)
    ensures r.Failure? <==> chainId == ""
    ensures r.Failure? ==> r.error == EmptyChainId
    ensures r.Success? ==> r.value == ProjectUtilityChainsDir(env) + "/utility_chain_" + chainId
  {
    if chainId == "" then
      Failure(EmptyChainId)
    else
      var parent := ProjectUtilityChainsDir(env);
      EndsWithSegment(parent, "utility_chains");
      JoinPlain(parent, "utility_chain_" + chainId);
      Success(Join(parent, "utility_chain_" + chainId))
  }

  /**
   * Distinct chain ids that are single path segments get distinct utility-chain
   * directories. Ids with a separator can alias under `path.join`.
   */
  lemma UtilityChainDirsDistinct(env: Env, id1: string, id2: string)
    requires id1 != "" && id2 != "" && id1 != id2
    requires IsSingleSegment(id1) && IsSingleSegment(id2)
    ensures ProjectUtilityChainDir(env, id1).value != ProjectUtilityChainDir(env, id2).value
  {
    var prefix := ProjectUtilityChainsDir(env) + "/utility_chain_";
    var p1, p2 := ProjectUtilityChainDir(env, id1).value, ProjectUtilityChainDir(env, id2).value;
    assert p1 == prefix + id1 && p2 == prefix + id2;
    assert p1[|prefix|..] == id1 && p2[|prefix|..] == id2;
  }

  /** `<projectRoot>/mosaic_configs`: where the project keeps the configs of existing chains. */
  function ProjectMosaicConfigDir(env: Env): (r: Path)
    ensures r == ProjectRoot(env) + "/mosaic_configs"
  {
    JoinPlain(ProjectRoot(env), "mosaic_configs");
    Join(ProjectRoot(env), "mosaic_configs")
  }

  /** `<projectRoot>/src/Graph`: the directory of the Graph code. */
  function ProjectGraphDir(env: Env): (r: Path)
    ensures r == ProjectRoot(env) + "/src/Graph"
  {
    var src := Join(ProjectRoot(env), "src");
    JoinPlain(ProjectRoot(env), "src");
    EndsWithSegment(src, "src");
    JoinPlain(src, "Graph");
    Join(src, "Graph")
  }

  /**
   * Turns a directory string into an absolute path: a leading `~` is replaced by the
   * home directory, and then, as a separate step, a path that does not start with the
   * separator is placed under the working directory.
   */
  function Sanitize(env: Env, directory: Path): (r: Path)
    ensures IsAbsolute(directory) ==> r == directory
    ensures StartsWithTilde(directory) && IsAbsolute(env.home) ==> r == Join(env.home, directory[1..])
    ensures !StartsWithTilde(directory) && !IsAbsolute(directory) ==> r == Join(env.cwd, directory)
    ensures IsAbsolute(env.home) && IsAbsolute(env.cwd) ==> IsAbsolute(r)
  {
    var expanded := if StartsWithTilde(directory) then Join(env.home, directory[1..]) else directory;
    if !IsAbsolute(expanded) then Join(env.cwd, expanded) else expanded
  }

  /** With absolute home and working directories, sanitising twice is sanitising once. */
  lemma SanitizeIdempotent(env: Env, directory: Path)
    requires IsAbsolute(env.home) && IsAbsolute(env.cwd)
    ensures Sanitize(env, Sanitize(env, directory)) == Sanitize(env, directory)
  {
  }

  /**
   * The two steps are not exclusive: when the home directory is itself relative,
   * the tilde-expanded path is placed under the working directory as well.
   */
  lemma SanitizeRelativeHome(env: Env, directory: Path)
    requires env.home != "" && !IsAbsolute(env.home)
    requires StartsWithTilde(directory)
    ensures Sanitize(env, directory) == Join(env.cwd, Join(env.home, directory[1..]))
  {
  }

  /** The empty string names the working directory. */
  lemma SanitizeEmpty(env: Env)
    requires env.cwd != ""
    ensures Sanitize(env, "") == env.cwd
  {
  }

  /** `~/foo` is `foo` under the home directory; `bar/baz` is `bar/baz` under the working directory. */
  lemma SanitizeExamples(env: Env)
    requires IsAbsolute(env.home) && !EndsWithSep(env.home)
    requires IsAbsolute(env.cwd) && !EndsWithSep(env.cwd)
    ensures Sanitize(env, "~/foo") == env.home + "/foo"
    ensures Sanitize(env, "bar/baz") == env.cwd + "/bar/baz"
    ensures Sanitize(env, "/abs/path") == "/abs/path"
  {
  }
}
