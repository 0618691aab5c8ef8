/**
 * Where Workforge keeps its files. `PathResolver` (internal/infra/fs/paths.go) takes the user
 * configuration and home directories from injected lookups; the older registry code
 * (config/prjconfig.go) consults `XDG_CONFIG_HOME` first. The lookups are inputs here.
 */
module FsPaths {
  import opened Wrappers
  import opened Paths

  /** Why a path could not be produced. */
  datatype FsError = ResolverNil | HomeUnknown | EmptyPath | AbsFailed | SymlinksFailed

  /** The answers of the two injected lookups, `os.UserConfigDir` and `os.UserHomeDir`. */
  datatype Resolver = Resolver(userConfigDir: Result<string, ()>, userHomeDir: Result<string, ()>)

  /** What `filepath.EvalSymlinks` reports: the resolved path, a missing file, or another failure. */
  datatype Resolution = Resolved(path: string) | NotExist | Failed

  /**
   * `PathResolver.WorkforgeConfigDir`: `<config dir>/workforge` when the configuration directory
   * is known and non-empty, otherwise `<home>/.config/workforge`. A nil resolver is an error.
   */
  function WorkforgeConfigDir(r: Option<Resolver>): (d: Result<string, FsError>)
    ensures r.None? ==> d == Err(ResolverNil)
    ensures d.Err? ==> r.None? || r.value.userHomeDir.Err?
  {
    if r.None? then Err(ResolverNil)
    else if r.value.userConfigDir.Ok? && r.value.userConfigDir.value != "" then
      Ok(Join([r.value.userConfigDir.value, "workforge"]))
    else if r.value.userHomeDir.Err? then Err(HomeUnknown)
    else Ok(Join([r.value.userHomeDir.value, ".config", "workforge"]))
  }

  /** `<home>/.config` as the join of its two parts; never empty. */
  lemma HomeConfigJoin(home: string)
    ensures Join([home, ".config", "workforge"]) == Join([Join([home, ".config"]), "workforge"])
    ensures Join([home, ".config"]) != ""
  {
    JoinRegroup(home, ".config", "workforge");
  }

  /**
   * The configuration directory is always a directory named `workforge`, inside the user
   * configuration directory when it is known, otherwise inside `<home>/.config`.
   */
  lemma WorkforgeConfigDirShape(r: Resolver)
    ensures var d := WorkforgeConfigDir(Some(r));
      d.Ok? ==> Base(d.value) == "workforge"
    ensures var d := WorkforgeConfigDir(Some(r));
      r.userConfigDir.Ok? && r.userConfigDir.value != "" ==>
        d.Ok? && Dir(d.value) == Clean(r.userConfigDir.value)
    ensures var d := WorkforgeConfigDir(Some(r));
      !(r.userConfigDir.Ok? && r.userConfigDir.value != "") && r.userHomeDir.Ok? ==>
        d.Ok? && Dir(d.value) == Join([r.userHomeDir.value, ".config"])
  {
    if r.userConfigDir.Ok? && r.userConfigDir.value != "" {
      JoinChild(r.userConfigDir.value, "workforge");
    } else if r.userHomeDir.Ok? {
      var h := r.userHomeDir.value;
      HomeConfigJoin(h);
      JoinChild(Join([h, ".config"]), "workforge");
      JoinIsClean(h, ".config");
    }
  }

  /** `PathResolver.RegistryPath`: the registry file inside the configuration directory. */
  function RegistryPath(r: Option<Resolver>): (p: Result<string, FsError>)
    ensures p.Err? <==> WorkforgeConfigDir(r).Err?
    ensures p.Err? ==> p.error == WorkforgeConfigDir(r).error
  {
    var d := WorkforgeConfigDir(r);
    if d.Err? then Err(d.error) else Ok(Join([d.value, "workforge.json"]))
  }

  /** The registry file is `workforge.json` directly inside the configuration directory. */
  lemma RegistryPathShape(r: Option<Resolver>)
    requires RegistryPath(r).Ok?
    ensures Base(RegistryPath(r).value) == "workforge.json"
    ensures Dir(RegistryPath(r).value) == WorkforgeConfigDir(r).value
  {
    var d := WorkforgeConfigDir(r).value;
    var rv := r.value;
    if rv.userConfigDir.Ok? && rv.userConfigDir.value != "" {
      assert d == Join([rv.userConfigDir.value, "workforge"]);
      JoinIsClean(rv.userConfigDir.value, "workforge");
    } else {
      HomeConfigJoin(rv.userHomeDir.value);
      assert d == Join([Join([rv.userHomeDir.value, ".config"]), "workforge"]);
      JoinIsClean(Join([rv.userHomeDir.value, ".config"]), "workforge");
    }
    JoinChild(d, "workforge.json");
  }

  /**
   * `PathResolver.NormalizePath`: the absolute path with symbolic links resolved, or just the
   * absolute path when it does not exist yet. `abs` is the answer of `filepath.Abs` and
   * `eval` that of `filepath.EvalSymlinks` on it.
   */
  function NormalizePath(path: string, abs: Result<string, ()>, eval: Resolution): (r: Result<string, FsError>)
    ensures r.Ok? <==> path != "" && abs.Ok? && !eval.Failed?
    ensures path == "" ==> r == Err(EmptyPath)
    ensures r.Ok? ==> r.value == if eval.Resolved? then eval.path else abs.value
  {
    if path == "" then Err(EmptyPath)
    else if abs.Err? then Err(AbsFailed)
    else match eval
      case Resolved(p) => Ok(p)
      case NotExist => Ok(abs.value)
      case Failed => Err(SymlinksFailed)
  }

  /**
   * `registryDir` of the older registry code: a non-empty `XDG_CONFIG_HOME`, then the user
   * configuration directory, then `<home>/.config`, each followed by `workforge`.
   */
  function RegistryDir(xdg: Option<string>, userConfigDir: Result<string, ()>, userHomeDir: Result<string, ()>): (d: Result<string, FsError>)
    ensures d.Err? <==> (xdg.None? || xdg.value == "") && !(userConfigDir.Ok? && userConfigDir.value != "") && userHomeDir.Err?
  {
    if xdg.Some? && xdg.value != "" then Ok(Join([xdg.value, "workforge"]))
    else if userConfigDir.Ok? && userConfigDir.value != "" then Ok(Join([userConfigDir.value, "workforge"]))
    else if userHomeDir.Err? then Err(HomeUnknown)
    else Ok(Join([userHomeDir.value, ".config", "workforge"]))
  }

  /**
   * Precedence: a non-empty `XDG_CONFIG_HOME` decides alone, and otherwise a non-empty user
   * configuration directory decides without the home directory; the directory is named
   * `workforge`.
   */
  lemma RegistryDirPrecedence(xdg: Option<string>, c: Result<string, ()>, h: Result<string, ()>, c': Result<string, ()>, h': Result<string, ()>)
    ensures xdg.Some? && xdg.value != "" ==>
      RegistryDir(xdg, c, h) == RegistryDir(xdg, c', h') && Dir(RegistryDir(xdg, c, h).value) == Clean(xdg.value)
    ensures c.Ok? && c.value != "" ==> RegistryDir(xdg, c, h) == RegistryDir(xdg, c, h')
    ensures RegistryDir(xdg, c, h).Ok? ==> Base(RegistryDir(xdg, c, h).value) == "workforge"
  {
    if xdg.Some? && xdg.value != "" {
      JoinChild(xdg.value, "workforge");
    } else {
      WorkforgeConfigDirShape(Resolver(c, h));
    }
  }

  /** Without `XDG_CONFIG_HOME`, the older code and `PathResolver` agree on the directory. */
  lemma RegistryDirAgrees(xdg: Option<string>, c: Result<string, ()>, h: Result<string, ()>)
    requires xdg.None? || xdg.value == ""
    ensures RegistryDir(xdg, c, h) == WorkforgeConfigDir(Some(Resolver(c, h)))
  {
  }
}
