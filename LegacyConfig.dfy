/**
 * The older configuration code under config/ and internal/config/: a lenient registry that
 * reads an empty file or `null` as the empty map, the commands that add a project or a
 * worktree leaf to it, the target of the example configuration, the two older expanded
 * listings, and the test whether a path lies inside a registered worktree base.
 *
 * The older `Project` has no tags field: decoding a registry entry into it drops the entry's
 * tags, and writing it back writes none, so every entry this code reads or writes is the
 * registry's project with its tags cleared (`Untagged`). The registry file is given as whether it could be created (`ensured`) and what it held before
 * (`None` when it did not exist); the working directory is a value and a write's success an
 * oracle.
 */
module LegacyConfig {
  import opened Wrappers
  import opened Text
  import opened Paths
  import opened Profiles
  import opened ProjectRegistry
  import opened ProjectService

  // ---------------------------------------------------------------------------------------
  // The lenient registry of config/prjconfig.go
  // ---------------------------------------------------------------------------------------

  /** `ensureRegistryFile`: a missing registry file is created holding `{}`. */
  function EnsureRegistryFile(existing: Option<RegistryFile>): (file: RegistryFile)
    ensures existing.None? ==> file == Stored(map[])
    ensures existing.Some? ==> file == existing.value
  {
    if existing.None? then Stored(map[]) else existing.value
  }

  /**
   * The registry as the older `Project` sees it: the same keys, names, paths and worktree flags,
   * and no tags.
   */
  function Untagged(projects: Projects): (r: Projects)
    ensures r.Keys == projects.Keys
    ensures forall k :: k in r ==> r[k].tags == [] && r[k].(tags := projects[k].tags) == projects[k]
  {
    map k | k in projects :: projects[k].(tags := [])
  }

  /** Clearing the tags twice clears them once. */
  lemma UntaggedIdempotent(projects: Projects)
    ensures Untagged(Untagged(projects)) == Untagged(projects)
  {
  }

  /**
   * `LoadProjects` of config/prjconfig.go: creates the registry if needed and reads it; an
   * empty file and `null` both read as the empty map, so the result is never a nil map, and
   * stored entries lose their tags.
   */
  function LoadLenient(ensured: bool, existing: Option<RegistryFile>): (r: Result<Projects, ServiceError>)
    ensures !ensured ==> r == Err(RegistryUnavailable)
    ensures ensured ==> (r.Ok? <==> !EnsureRegistryFile(existing).Unreadable? && !EnsureRegistryFile(existing).Malformed?)
    ensures ensured && EnsureRegistryFile(existing).Unreadable? ==> r == Err(Registry(ReadFailed))
    ensures ensured && EnsureRegistryFile(existing).Malformed? ==> r == Err(Registry(ParseFailed))
    ensures ensured && (EnsureRegistryFile(existing).Blank? || EnsureRegistryFile(existing).Null?) ==> r == Ok(map[])
    ensures ensured && EnsureRegistryFile(existing).Stored? ==> r == Ok(Untagged(EnsureRegistryFile(existing).projects))
    ensures r.Ok? ==> forall k :: k in r.value ==> r.value[k].tags == []
  {
    if !ensured then Err(RegistryUnavailable)
    else match EnsureRegistryFile(existing)
      case Unreadable => Err(Registry(ReadFailed))
      case Blank => Ok(map[])
      case Null => Ok(map[])
      case Malformed => Err(Registry(ParseFailed))
      case Stored(projects) => Ok(Untagged(projects))
  }

  /**
   * `SaveProjects` of config/prjconfig.go: a nil map is written as `{}`, never as `null`, and
   * no entry is written with tags.
   */
  function SaveLenient(projects: Option<Projects>): (file: RegistryFile)
    ensures file.Stored? && file.projects.Keys == Entries(projects).Keys
    ensures forall k :: k in file.projects ==> file.projects[k].tags == []
    ensures LoadLenient(true, Some(file)) == Ok(Untagged(Entries(projects)))
  {
    UntaggedIdempotent(Entries(projects));
    Stored(Untagged(Entries(projects)))
  }

  /**
   * The lenient loader accepts everything the strict one of internal/registry/store.go accepts
   * and reads the same entries (a nil map as empty) with their tags cleared; beyond that it
   * accepts the empty file, and a registry it has just created reads as empty.
   */
  lemma LenientExtendsStrict(file: RegistryFile)
    ensures LoadProjects(file).Ok? ==> LoadLenient(true, Some(file)) == Ok(Untagged(Entries(LoadProjects(file).value)))
    ensures LoadLenient(true, Some(file)).Ok? <==> LoadProjects(file).Ok? || file.Blank?
    ensures LoadLenient(true, None) == Ok(map[])
  {
  }

  /**
   * A registry the older code loads and saves back keeps every entry, with the same name,
   * path and worktree flag, but every tag is lost; the strict loader then reads no tags.
   */
  lemma LegacyRoundTripClearsTags(m: Projects)
    ensures LoadLenient(true, Some(Stored(m))).Ok?
    ensures var back := SaveLenient(Some(LoadLenient(true, Some(Stored(m))).value));
      && LoadProjects(back) == Ok(Some(Untagged(m)))
      && back.projects.Keys == m.Keys
      && forall k :: k in m ==> back.projects[k].tags == [] && back.projects[k].(tags := m[k].tags) == m[k]
  {
    UntaggedIdempotent(m);
  }

  /**
   * `ListProjectsExpanded` of config/prjconfig.go: the lenient load, then the expansion of every
   * worktree base into its directory children, without keeping leaves.
   */
  method ListExpandedLenient(ensured: bool, existing: Option<RegistryFile>, fs: FileSystem)
    returns (r: Result<(Projects, map<string, bool>), ServiceError>)
    ensures LoadLenient(ensured, existing).Err? ==> r == Err(LoadLenient(ensured, existing).error)
    ensures LoadLenient(ensured, existing).Ok? ==>
      var base := LoadLenient(ensured, existing).value;
      && (r.Err? <==> exists n :: n in base && Unlisted(base[n], fs, false))
      && (r.Ok? ==> Covers(r.value.0, r.value.1, AllContribs(base, fs, false, base.Keys)))
  {
    var loaded := LoadLenient(ensured, existing);
    if loaded.Err? {
      return Err(loaded.error);
    }
    var listed := ListProjectsExpanded(loaded.value, fs, false);
    if listed.Err? {
      return Err(Registry(listed.error));
    }
    return Ok(listed.value);
  }

  /**
   * `ListProjectsExpanded` of internal/config/prjconfig.go: the registry directory must exist
   * and the file load strictly (`null` reading as no projects); a worktree base that is itself
   * a leaf is kept as it is. The entries are decoded into the older `Project`, so they carry
   * no tags.
   */
  method ListExpandedStrict(dirExists: bool, file: RegistryFile, fs: FileSystem)
    returns (r: Result<(Projects, map<string, bool>), ServiceError>)
    ensures !dirExists ==> r == Err(RegistryUnavailable)
    ensures dirExists && LoadProjects(file).Err? ==> r == Err(Registry(LoadProjects(file).error))
    ensures dirExists && LoadProjects(file).Ok? ==>
      var base := Untagged(Entries(LoadProjects(file).value));
      && (r.Err? <==> exists n :: n in base && Unlisted(base[n], fs, true))
      && (r.Ok? ==> Covers(r.value.0, r.value.1, AllContribs(base, fs, true, base.Keys)))
  {
    if !dirExists {
      return Err(RegistryUnavailable);
    }
    var loaded := LoadProjects(file);
    if loaded.Err? {
      return Err(Registry(loaded.error));
    }
    var listed := ListProjectsExpanded(Untagged(Entries(loaded.value)), fs, true);
    if listed.Err? {
      return Err(Registry(listed.error));
    }
    return Ok(listed.value);
  }

  // ---------------------------------------------------------------------------------------
  // The commands of config/init.go
  // ---------------------------------------------------------------------------------------

  /** A path argument counts only when it is present and not empty. */
  predicate Given(path: Option<string>) {
    path.Some? && path.value != ""
  }

  /**
   * The project path of `AddWorkforgePrj`: the working directory when no path is given, a given
   * absolute path cleaned, and a relative one joined onto the working directory.
   */
  function ProjectPath(cwd: string, path: Option<string>): (r: string)
    ensures !Given(path) ==> r == cwd
  {
    if !Given(path) then cwd
    else if IsAbs(path.value) then Clean(path.value)
    else Join([cwd, path.value])
  }

  /**
   * A given path always yields a clean path, and an absolute one whatever the working
   * directory; a relative one lands under the working directory when that is absolute.
   */
  lemma ProjectPathShape(cwd: string, cwd': string, path: Option<string>)
    requires Given(path)
    ensures Clean(ProjectPath(cwd, path)) == ProjectPath(cwd, path)
    ensures IsAbs(path.value) ==> ProjectPath(cwd, path) == ProjectPath(cwd', path) && IsAbs(ProjectPath(cwd, path))
    ensures IsAbs(cwd) ==> IsAbs(ProjectPath(cwd, path))
  {
    var p := path.value;
    if IsAbs(p) {
      CleanIdempotent(p);
      CleanIsAbs(p);
    } else {
      JoinIsClean(cwd, p);
      if IsAbs(cwd) {
        JoinPair(cwd, p);
        CleanIsAbs(cwd + "/" + p);
      }
    }
  }

  /**
   * `AddWorkforgePrj`: loads the registry, fails without the working directory, and writes the
   * registry back with `name` mapped to a project at `ProjectPath`; every entry is written
   * without tags.
   */
  method AddWorkforgePrj(name: string, path: Option<string>, gwt: bool, cwd: Result<string, ()>,
                         ensured: bool, existing: Option<RegistryFile>, saveOk: bool)
    returns (written: Option<RegistryFile>, err: Option<ServiceError>)
    ensures LoadLenient(ensured, existing).Err? ==> written == None && err == Some(LoadLenient(ensured, existing).error)
    ensures LoadLenient(ensured, existing).Ok? && cwd.Err? ==> written == None && err == Some(NoWorkingDir)
    ensures written.Some? <==> LoadLenient(ensured, existing).Ok? && cwd.Ok?
    ensures written.Some? ==>
      && written.value == SaveLenient(Some(LoadLenient(ensured, existing).value[name := Project(name, ProjectPath(cwd.value, path), gwt, [])]))
      && err == (if saveOk then None else Some(SaveFailed))
    ensures written.Some? ==> written.value.Stored? && forall k :: k in written.value.projects ==> written.value.projects[k].tags == []
  {
    var loaded := LoadLenient(ensured, existing);
    if loaded.Err? {
      return None, Some(loaded.error);
    }
    if cwd.Err? {
      return None, Some(NoWorkingDir);
    }
    var projectPath := cwd.value;
    if Given(path) {
      if IsAbs(path.value) {
        projectPath := Clean(path.value);
      } else {
        projectPath := Join([cwd.value, path.value]);
      }
    }
    var projects := loaded.value[name := Project(name, projectPath, gwt, [])];
    written := Some(SaveLenient(Some(projects)));
    err := if saveOk then None else Some(SaveFailed);
  }

  /** A worktree base registered at the working directory, compared after cleaning both paths. */
  predicate IsBaseAtCwd(p: Project, cwd: string) {
    p.gitWorkTree && Clean(p.path) == Clean(cwd)
  }

  /**
   * The bases `AddWorkforgeLeaf` may settle on: a key of a base at the working directory, or
   * "" when there is none (or when the base found has the key "").
   */
  ghost predicate ValidCwdBase(projects: Projects, cwd: string, baseName: string) {
    if baseName != "" then baseName in projects && IsBaseAtCwd(projects[baseName], cwd)
    else
      (forall n :: n in projects && IsBaseAtCwd(projects[n], cwd) ==> n == "")
      || ("" in projects && IsBaseAtCwd(projects[""], cwd))
  }

  /**
   * `AddWorkforgeLeaf`: loads the registry, fails without the working directory, and writes
   * it back with the leaf under `base/leaf` (or `leaf` when no base is at the working
   * directory), as a plain project at the cleaned leaf path; every entry is written without
   * tags.
   */
  method AddWorkforgeLeaf(absLeafPath: string, cwd: Result<string, ()>, ensured: bool,
                          existing: Option<RegistryFile>, saveOk: bool)
    returns (written: Option<RegistryFile>, err: Option<ServiceError>)
    ensures LoadLenient(ensured, existing).Err? ==> written == None && err == Some(LoadLenient(ensured, existing).error)
    ensures LoadLenient(ensured, existing).Ok? && cwd.Err? ==> written == None && err == Some(NoWorkingDir)
    ensures written.Some? <==> LoadLenient(ensured, existing).Ok? && cwd.Ok?
    ensures written.Some? ==> err == (if saveOk then None else Some(SaveFailed))
    ensures written.Some? ==> exists baseName ::
      && ValidCwdBase(LoadLenient(ensured, existing).value, cwd.value, baseName)
      && written.value == SaveLenient(Some(LoadLenient(ensured, existing).value[
           LeafKey(baseName, absLeafPath) := Project(LeafKey(baseName, absLeafPath), Clean(absLeafPath), false, [])]))
    ensures written.Some? ==> written.value.Stored? && forall k :: k in written.value.projects ==> written.value.projects[k].tags == []
  {
    var loaded := LoadLenient(ensured, existing);
    if loaded.Err? {
      return None, Some(loaded.error);
    }
    if cwd.Err? {
      return None, Some(NoWorkingDir);
    }
    var baseName := FindBase(loaded.value, p => IsBaseAtCwd(p, cwd.value));
    var key := LeafKey(baseName, absLeafPath);
    assert ValidCwdBase(loaded.value, cwd.value, baseName);
    var projects := loaded.value[key := Project(key, Clean(absLeafPath), false, [])];
    written := Some(SaveLenient(Some(projects)));
    err := if saveOk then None else Some(SaveFailed);
  }

  /**
   * The entry `AddWorkforgeLeaf` writes is a plain project at a clean path, keyed below the
   * base's key when one was found and by the leaf's own name otherwise; every other entry is
   * kept.
   */
  lemma LeafEntryShape(projects: Projects, cwd: string, baseName: string, absLeafPath: string)
    requires ValidCwdBase(projects, cwd, baseName)
    ensures var key := LeafKey(baseName, absLeafPath);
      var after := projects[key := Project(key, Clean(absLeafPath), false, [])];
      && !after[key].gitWorkTree
      && Clean(after[key].path) == after[key].path
      && (baseName != "" ==> HasPrefix(key, baseName + "/") && IsBaseAtCwd(projects[baseName], cwd))
      && (baseName == "" && (forall n :: n in projects ==> !projects[n].gitWorkTree) ==> key == Base(absLeafPath))
      && (forall n :: n in projects && n != key ==> after[n] == projects[n])
  {
    CleanIdempotent(absLeafPath);
  }

  /**
   * The directory `WriteExampleConfig` writes into: the given path, else "."; made absolute
   * when it is not and `abs` (`filepath.Abs`) succeeds, and kept as it is when `abs` fails.
   */
  function ExampleTargetDir(path: Option<string>, abs: string -> Result<string, ()>): (dir: string)
    ensures Given(path) && IsAbs(path.value) ==> dir == path.value
    ensures !Given(path) && abs(".").Err? ==> dir == "."
  {
    var targetDir := if Given(path) then path.value else ".";
    if !IsAbs(targetDir) && abs(targetDir).Ok? then abs(targetDir).value else targetDir
  }

  /** `WriteExampleConfig`: the file written is `.wfconfig.yml` inside the target directory. */
  function ExampleConfigPath(path: Option<string>, abs: string -> Result<string, ()>): (r: string)
    ensures r != ""
  {
    ResolveConfigPath(ExampleTargetDir(path, abs), false)
  }

  /** The example configuration is `.wfconfig.yml` directly inside the cleaned target directory. */
  lemma ExampleConfigShape(path: Option<string>, abs: string -> Result<string, ()>)
    requires ExampleTargetDir(path, abs) != ""
    ensures Base(ExampleConfigPath(path, abs)) == ConfigFileName
    ensures Dir(ExampleConfigPath(path, abs)) == Clean(ExampleTargetDir(path, abs))
    ensures !Given(path) && abs(".").Err? ==> ExampleConfigPath(path, abs) == ConfigFileName
  {
    ResolveConfigPathShape(ExampleTargetDir(path, abs));
    if !Given(path) && abs(".").Err? {
      assert ExampleTargetDir(path, abs) == ".";
      DotConfigPath();
    }
  }

  /** `.wfconfig.yml` joined onto "." is the bare file name. */
  lemma DotConfigPath()
    ensures Join([".", ConfigFileName]) == ConfigFileName
  {
    var s := "." + "/" + ConfigFileName;
    JoinPair(".", ConfigFileName);
    DotConfigSplit();
    DotConfigFold();
    assert !IsAbs(s) && CleanNames(s) == [ConfigFileName];
    assert JoinWith([ConfigFileName], '/') == ConfigFileName;
    assert Clean(s) == Render(false, [ConfigFileName]);
  }

  lemma DotConfigSplit()
    ensures Split("." + "/" + ConfigFileName, '/') == [".", ConfigFileName]
  {
    SplitNoSep(".", '/');
    SplitNoSep(ConfigFileName, '/');
    SplitAppend(".", '/', ConfigFileName);
    assert "." + "/" + ConfigFileName == "." + ['/'] + ConfigFileName;
  }

  lemma DotConfigFold()
    ensures Fold([".", ConfigFileName], false, []) == [ConfigFileName]
  {
    assert [".", ConfigFileName][1..] == [ConfigFileName];
    assert Fold([ConfigFileName], false, []) == Fold([], false, [ConfigFileName]);
  }

  // ---------------------------------------------------------------------------------------
  // `isGitWorktree` of config/wfconfig.go
  // ---------------------------------------------------------------------------------------

  /**
   * The test of `isGitWorktree` as written: the cleaned path is the cleaned base, or starts
   * with it followed by '/'. For the base "/" that prefix is "//", which no cleaned path has.
   */
  predicate UnderBaseAsWritten(path: string, base: string) {
    Clean(path) == Clean(base) || HasPrefix(Clean(path), Clean(base) + "/")
  }

  /** `isGitWorktree` as written: the path lies at or under some worktree base. */
  predicate IsGitWorktreeAsWritten(path: string, projects: Projects) {
    exists n :: n in projects && projects[n].gitWorkTree && UnderBaseAsWritten(path, projects[n].path)
  }

  /** What every path strictly under the cleaned `base` starts with: the base and a '/'. */
  function BelowPrefix(base: string): (pre: string)
    ensures HasPrefix(pre, Clean(base)) && pre[|pre| - 1] == '/'
  {
    if Clean(base) == "/" then "/" else Clean(base) + "/"
  }

  /** The test as intended: the cleaned path is the cleaned base or lies below it. */
  predicate UnderBase(path: string, base: string) {
    Clean(path) == Clean(base) || HasPrefix(Clean(path), BelowPrefix(base))
  }

  /** `isGitWorktree` as intended: only worktree bases count, and any path at or under one does. */
  predicate IsGitWorktree(path: string, projects: Projects) {
    exists n :: n in projects && projects[n].gitWorkTree && UnderBase(path, projects[n].path)
  }

  /** The root path cleans to itself. */
  lemma CleanRoot()
    ensures Clean("/") == "/" && DirPrefix("/") == "/"
  {
    assert Split("/", '/') == [""] + Split("", '/');
    assert CleanNames("/") == [];
  }

  /** For an absolute directory, the prefix names are joined onto is the prefix of the paths below it. */
  lemma DirPrefixBelow(d: string)
    requires IsAbs(d)
    ensures DirPrefix(d) == BelowPrefix(d)
  {
    var st := CleanNames(d);
    if st != [] {
      JoinWithHead(st);
      assert Clean(d) == "/" + JoinWith(st, '/');
    }
  }

  /**
   * The intended test: a path whose cleaned form is a worktree base's is a worktree path, and
   * so is every child of an absolute worktree base; with no worktree base nothing is.
   */
  lemma IsGitWorktreeSpec(path: string, projects: Projects, k: string, n: string)
    requires k in projects && projects[k].gitWorkTree
    ensures Clean(path) == Clean(projects[k].path) ==> IsGitWorktree(path, projects)
    ensures IsAbs(projects[k].path) && IsName(n) && n != ".." ==> IsGitWorktree(Join([projects[k].path, n]), projects)
    ensures (forall m :: m in projects ==> !projects[m].gitWorkTree) ==> !IsGitWorktree(path, projects)
  {
    var d := projects[k].path;
    if IsAbs(d) && IsName(n) && n != ".." {
      JoinAsAppend(d, n);
      JoinIsClean(d, n);
      DirPrefixBelow(d);
      assert UnderBase(Join([d, n]), d);
    }
  }

  /**
   * A path that continues a base's name without a separator (the sibling "/a/bc" of "/a/b")
   * is not under it, in either version.
   */
  lemma SiblingNotUnder(path: string, base: string, x: string)
    requires Clean(base) != "/"
    requires Clean(path) == Clean(base) + x && x != "" && x[0] != '/'
    ensures !UnderBase(path, base) && !UnderBaseAsWritten(path, base)
  {
    assert Clean(path)[|Clean(base)|] == x[0];
  }

  /** The two versions differ only for the base "/". */
  lemma UnderBaseAgrees(path: string, base: string)
    requires Clean(base) != "/"
    ensures UnderBaseAsWritten(path, base) == UnderBase(path, base)
  {
  }

  /**
   * As written, a worktree registered at "/" misses every path below it: `/<name>` is not
   * recognised, though it is a child of the base.
   */
  lemma RootBaseMissesChildren(n: string)
    requires IsName(n) && n != ".."
    ensures var projects := map["root" := Project("root", "/", true, [])];
      !IsGitWorktreeAsWritten(Join(["/", n]), projects) && IsGitWorktree(Join(["/", n]), projects)
  {
    var projects := map["root" := Project("root", "/", true, [])];
    var child := Join(["/", n]);
    CleanRoot();
    JoinAsAppend("/", n);
    JoinIsClean("/", n);
    assert Clean(child) == "/" + n;
    assert !HasPrefix(Clean(child), "//") by {
      assert Clean(child)[1] == n[0];
      assert n[0] in n;
    }
    assert !UnderBaseAsWritten(child, "/");
    IsGitWorktreeSpec(child, projects, "root", n);
  }
}
