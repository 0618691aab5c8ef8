/**
 * The application services that update the project registry by load, modify and save: add a
 * project, add a worktree leaf, add or remove a tag, find a worktree leaf next to the working
 * directory and remove it. The three copies of these services (internal/app/project/service.go,
 * internal/app/project_service.go and internal/app/service.go) share this logic; they differ only
 * in whether the registry is created before the project path is resolved (`ensureFirst`).
 *
 * The registry is given as whether it could be created (`ensured`) and the file it holds; the
 * working directory, the directories that exist and the worktree leaves are values; a write's
 * success and the outcome of the delete hooks and of `git worktree remove` are oracles.
 */
module ProjectService {
  import opened Wrappers
  import opened Text
  import opened Sorting
  import opened Paths
  import opened ProjectRegistry

  datatype ServiceError =
    | RegistryUnavailable
    | Registry(error: RegistryError)
    | PathUnresolved
    | NoWorkingDir
    | EmptyProjectName
    | EmptyTag
    | ProjectNotFound(name: string)
    | WorktreeNotFound(name: string)
    | OnDeleteFailed
    | RemoveWorktreeFailed
    | SaveFailed

  /** Creating the registry, then loading it. */
  function Load(ensured: bool, file: RegistryFile): (r: Result<Option<Projects>, ServiceError>)
    ensures r.Ok? <==> ensured && LoadProjects(file).Ok?
    ensures r.Ok? ==> r.value == LoadProjects(file).value
  {
    if !ensured then Err(RegistryUnavailable)
    else
      var loaded := LoadProjects(file);
      if loaded.Err? then Err(Registry(loaded.error)) else Ok(loaded.value)
  }

  /**
   * The map an upsert starts from when a failed load is replaced by an empty map, as the
   * services do before adding a project or a leaf.
   */
  function Recovered(loaded: Result<Option<Projects>, ServiceError>): Option<Projects> {
    if loaded.Err? then Some(map[]) else loaded.value
  }

  /**
   * `projects[key] = p` as written: on the nil map a registry file holding `null` loads to,
   * Go panics ("assignment to entry in nil map"), shown here as `Err`.
   */
  function UpsertAsWritten(loaded: Option<Projects>, key: string, p: Project): (r: Result<Projects, ()>)
    ensures r.Err? <==> loaded.None?
    ensures r.Ok? ==> r.value == loaded.value[key := p]
  {
    if loaded.None? then Err(()) else Ok(loaded.value[key := p])
  }

  /** Adding a project to a registry file holding `null` makes the service panic. */
  lemma NullRegistryPanics(key: string, p: Project)
    ensures Load(true, Null).Ok?
    ensures UpsertAsWritten(Recovered(Load(true, Null)), key, p).Err?
  {
  }

  /**
   * The upsert the services intend: the nil map is treated like the empty map it reads as.
   * The key then holds `p` and every other entry is kept.
   */
  function Upsert(loaded: Option<Projects>, key: string, p: Project): (r: Projects)
    ensures r.Keys == Entries(loaded).Keys + {key}
    ensures r[key] == p
    ensures forall k :: k in Entries(loaded) && k != key ==> r[k] == Entries(loaded)[k]
  {
    Entries(loaded)[key := p]
  }

  /** Where the as-written upsert does not panic, it agrees with the intended one. */
  lemma UpsertAgrees(loaded: Option<Projects>, key: string, p: Project)
    ensures UpsertAsWritten(loaded, key, p).Ok? ==> UpsertAsWritten(loaded, key, p).value == Upsert(loaded, key, p)
    ensures Upsert(loaded, key, p) == Upsert(Some(Entries(loaded)), key, p)
  {
  }

  /** The project path: the given path, or else the working directory, normalised. */
  function ResolvedPath(path: Option<string>, cwd: Result<string, ()>, normalize: string -> Result<string, ()>): (r: Result<string, ServiceError>)
    ensures r.Err? ==> r.error == (if path.None? && cwd.Err? then NoWorkingDir else PathUnresolved)
    ensures r.Ok? <==> (if path.Some? then normalize(path.value).Ok? else cwd.Ok? && normalize(cwd.value).Ok?)
    ensures r.Ok? ==> r.value == (if path.Some? then normalize(path.value).value else normalize(cwd.value).value)
  {
    if path.Some? then
      var n := normalize(path.value);
      if n.Err? then Err(PathUnresolved) else Ok(n.value)
    else if cwd.Err? then Err(NoWorkingDir)
    else
      var n := normalize(cwd.value);
      if n.Err? then Err(PathUnresolved) else Ok(n.value)
  }

  /**
   * `AddProject`: resolves the path, loads the registry (a failed load counts as empty) and
   * writes it back with `name` mapped to the project; with `ensureFirst` a registry that cannot
   * be created is reported before the path is resolved. `written` is the file written, if any.
   */
  method AddProject(name: string, gwt: bool, path: Option<string>, cwd: Result<string, ()>,
                    normalize: string -> Result<string, ()>, ensureFirst: bool, ensured: bool,
                    file: RegistryFile, saveOk: bool)
    returns (written: Option<RegistryFile>, err: Option<ServiceError>)
    ensures ensureFirst && !ensured ==> written == None && err == Some(RegistryUnavailable)
    ensures (ensured || !ensureFirst) && ResolvedPath(path, cwd, normalize).Err? ==>
      written == None && err == Some(ResolvedPath(path, cwd, normalize).error)
    ensures !ensured && !ensureFirst && ResolvedPath(path, cwd, normalize).Ok? ==>
      written == None && err == Some(RegistryUnavailable)
    ensures written.Some? <==> ensured && ResolvedPath(path, cwd, normalize).Ok?
    ensures written.Some? ==>
      && written.value == Stored(Upsert(Recovered(Load(ensured, file)), name,
                                        Project(name, ResolvedPath(path, cwd, normalize).value, gwt, [])))
      && err == (if saveOk then None else Some(SaveFailed))
  {
    if ensureFirst && !ensured {
      return None, Some(RegistryUnavailable);
    }
    var absPath := ResolvedPath(path, cwd, normalize);
    if absPath.Err? {
      return None, Some(absPath.error);
    }
    var projects := Recovered(Load(ensured, file));
    if !ensured {
      return None, Some(RegistryUnavailable);
    }
    var updated := Upsert(projects, name, Project(name, absPath.value, gwt, []));
    written := Some(SaveProjects(Some(updated)));
    err := if saveOk then None else Some(SaveFailed);
  }

  /** A non-leaf worktree base registered at `dir`. */
  predicate IsBaseAt(p: Project, leaves: set<string>, dir: string) {
    p.gitWorkTree && p.path !in leaves && p.path == dir
  }

  /**
   * The search loops of `AddLeaf`: the key of some project `isBase` accepts, or "" when none
   * is found. Go's map order decides between several candidates, and a candidate whose key
   * is "" stops the search as if none were found.
   */
  method FindBase(projects: Projects, isBase: Project -> bool) returns (baseName: string)
    ensures baseName != "" ==> baseName in projects && isBase(projects[baseName])
    ensures baseName == "" ==>
      (forall n :: n in projects && isBase(projects[n]) ==> n == "")
      || ("" in projects && isBase(projects[""]))
  {
    var todo := projects.Keys;
    while todo != {}
      invariant todo <= projects.Keys
      invariant forall n :: n in projects && n !in todo ==> !isBase(projects[n])
      decreases |todo|
    {
      var name :| name in todo;
      if isBase(projects[name]) {
        return name;
      }
      todo := todo - {name};
    }
    return "";
  }

  /** The registry key of a new leaf: `base/leaf` under a base, else the leaf's own name. */
  function LeafKey(baseName: string, leafPath: string): (key: string)
    ensures baseName != "" ==> HasPrefix(key, baseName + "/")
    ensures HasSuffix(key, Base(leafPath))
  {
    if baseName != "" then baseName + "/" + Base(leafPath) else Base(leafPath)
  }

  /** Unless the leaf path ends in "/", the key's last '/'-segment is the leaf's name. */
  lemma LeafKeyLastSegment(baseName: string, leafPath: string)
    requires Base(leafPath) != "/"
    ensures LastSegment(LeafKey(baseName, leafPath), '/') == Base(leafPath)
  {
    var b := Base(leafPath);
    if baseName != "" {
      var key := baseName + "/" + b;
      assert key[|key| - |b|..] == b;
      assert key[|key| - |b| - 1] == '/';
      LastSegmentUnique(key, '/', b);
    } else {
      LastSegmentNoSep(b, '/');
    }
  }

  /**
   * `AddLeaf`: loads the registry (a failed load counts as empty), looks for a base at the
   * working directory and then at the leaf's parent, and writes the registry back with the leaf
   * as a worktree project under `LeafKey`.
   */
  method AddLeaf(leafPath: string, cwd: Result<string, ()>, leaves: set<string>, ensureFirst: bool,
                 ensured: bool, file: RegistryFile, saveOk: bool)
    returns (written: Option<RegistryFile>, err: Option<ServiceError>)
    ensures ensureFirst && !ensured ==> written == None && err == Some(RegistryUnavailable)
    ensures (ensured || !ensureFirst) && cwd.Err? ==> written == None && err == Some(NoWorkingDir)
    ensures written.Some? <==> ensured && cwd.Ok?
    ensures written.Some? ==> err == (if saveOk then None else Some(SaveFailed))
    ensures written.Some? ==> exists baseName ::
      && ValidLeafBase(Entries(Recovered(Load(ensured, file))), leaves, cwd.value, leafPath, baseName)
      && written.value == Stored(Upsert(Recovered(Load(ensured, file)), LeafKey(baseName, leafPath),
                                        Project(LeafKey(baseName, leafPath), leafPath, true, [])))
  {
    if ensureFirst && !ensured {
      return None, Some(RegistryUnavailable);
    }
    var projects := Recovered(Load(ensured, file));
    if cwd.Err? {
      return None, Some(NoWorkingDir);
    }
    var entries := Entries(projects);
    var baseName := FindBase(entries, p => IsBaseAt(p, leaves, cwd.value));
    if baseName == "" {
      baseName := FindBase(entries, p => IsBaseAt(p, leaves, Dir(leafPath)));
    }
    if !ensured {
      return None, Some(RegistryUnavailable);
    }
    var key := LeafKey(baseName, leafPath);
    assert ValidLeafBase(entries, leaves, cwd.value, leafPath, baseName);
    written := Some(SaveProjects(Some(Upsert(projects, key, Project(key, leafPath, true, [])))));
    err := if saveOk then None else Some(SaveFailed);
  }

  /**
   * The bases `AddLeaf` may settle on: one at the working directory if any (with a non-empty
   * key), else one at the leaf's parent, else none ("").
   */
  ghost predicate ValidLeafBase(projects: Projects, leaves: set<string>, cwd: string, leafPath: string, baseName: string) {
    var atCwd := exists n :: n in projects && n != "" && IsBaseAt(projects[n], leaves, cwd);
    var cwdBlocked := "" in projects && IsBaseAt(projects[""], leaves, cwd);
    if baseName != "" then
      baseName in projects
      && (IsBaseAt(projects[baseName], leaves, cwd)
          || ((!atCwd || cwdBlocked) && IsBaseAt(projects[baseName], leaves, Dir(leafPath))))
    else
      (!atCwd || cwdBlocked)
      && ((forall n :: n in projects && IsBaseAt(projects[n], leaves, Dir(leafPath)) ==> n == "")
          || ("" in projects && IsBaseAt(projects[""], leaves, Dir(leafPath))))
  }

  /** A base at the working directory wins over one at the leaf's parent. */
  lemma CwdBaseFirst(projects: Projects, leaves: set<string>, cwd: string, leafPath: string, baseName: string, n: string)
    requires ValidLeafBase(projects, leaves, cwd, leafPath, baseName)
    requires n in projects && n != "" && IsBaseAt(projects[n], leaves, cwd)
    requires !("" in projects && IsBaseAt(projects[""], leaves, cwd))
    ensures baseName != "" && IsBaseAt(projects[baseName], leaves, cwd)
  {
  }

  /** Without any base, the leaf is keyed by its own name. */
  lemma NoBaseKey(projects: Projects, leaves: set<string>, cwd: string, leafPath: string, baseName: string)
    requires ValidLeafBase(projects, leaves, cwd, leafPath, baseName)
    requires forall n :: n in projects ==> !projects[n].gitWorkTree
    ensures LeafKey(baseName, leafPath) == Base(leafPath)
  {
  }

  /**
   * `AddTag`: name and tag are trimmed and must not be empty; the project must exist; a tag it
   * already has changes nothing and writes nothing; otherwise the tag is added and the tags
   * sorted.
   */
  method AddTag(projectName: string, tag: string, ensured: bool, file: RegistryFile, saveOk: bool)
    returns (written: Option<RegistryFile>, err: Option<ServiceError>)
    ensures TrimSpace(projectName) == "" ==> written == None && err == Some(EmptyProjectName)
    ensures TrimSpace(projectName) != "" && TrimSpace(tag) == "" ==> written == None && err == Some(EmptyTag)
    ensures TrimSpace(projectName) != "" && TrimSpace(tag) != "" && Load(ensured, file).Err? ==>
      written == None && err == Some(Load(ensured, file).error)
    ensures TrimSpace(projectName) != "" && TrimSpace(tag) != "" && Load(ensured, file).Ok?
            && TrimSpace(projectName) !in Entries(Load(ensured, file).value) ==>
      written == None && err == Some(ProjectNotFound(TrimSpace(projectName)))
    ensures TrimSpace(projectName) != "" && TrimSpace(tag) != "" && Load(ensured, file).Ok?
            && TrimSpace(projectName) in Entries(Load(ensured, file).value) ==>
      var n := TrimSpace(projectName);
      && (written.Some? <==> TrimSpace(tag) !in Entries(Load(ensured, file).value)[n].tags)
      && (written.None? ==> err == None)
    ensures written.None? && err.None? ==>
      var n := TrimSpace(projectName);
      ensured && file.Stored? && n in file.projects && TrimSpace(tag) in file.projects[n].tags
    ensures written.Some? ==>
      var n := TrimSpace(projectName);
      && ensured && file.Stored? && n in file.projects && TrimSpace(tag) !in file.projects[n].tags
      && err == (if saveOk then None else Some(SaveFailed))
      && written.value.Stored?
      && TagAdded(file.projects, written.value.projects, n, TrimSpace(tag))
  {
    var name := TrimSpace(projectName);
    var t := TrimSpace(tag);
    if name == "" {
      return None, Some(EmptyProjectName);
    }
    if t == "" {
      return None, Some(EmptyTag);
    }
    var loaded := Load(ensured, file);
    if loaded.Err? {
      return None, Some(loaded.error);
    }
    var projects := Entries(loaded.value);
    if name !in projects {
      return None, Some(ProjectNotFound(name));
    }
    var project := projects[name];
    for i := 0 to |project.tags|
      invariant t !in project.tags[..i]
    {
      if project.tags[i] == t {
        return None, None;
      }
    }
    assert project.tags[..|project.tags|] == project.tags;
    var tags := SortStrings(project.tags + [t]);
    projects := projects[name := project.(tags := tags)];
    written := Some(SaveProjects(Some(projects)));
    err := if saveOk then None else Some(SaveFailed);
  }

  /**
   * `after` is `before` with `tag` added to `name`'s tags, which are then sorted; every other
   * project and field is kept.
   */
  ghost predicate TagAdded(before: Projects, after: Projects, name: string, tag: string)
    requires name in before
  {
    && after.Keys == before.Keys
    && (forall k :: k in after && k != name ==> after[k] == before[k])
    && after[name] == before[name].(tags := after[name].tags)
    && SortedBy(after[name].tags, Id)
    && multiset(after[name].tags) == multiset(before[name].tags) + multiset{tag}
  }

  /** After `AddTag` the tag is present, and every tag present before still is. */
  lemma TagAddedMembers(before: Projects, after: Projects, name: string, tag: string, t: string)
    requires name in before && TagAdded(before, after, name, tag)
    ensures t in after[name].tags <==> t == tag || t in before[name].tags
  {
    assert t in after[name].tags <==> t in multiset(after[name].tags);
    assert t in before[name].tags <==> t in multiset(before[name].tags);
  }

  /** Adding a tag to tags without duplicates keeps them without duplicates: a sorted set. */
  lemma TagAddedStrict(before: Projects, after: Projects, name: string, tag: string)
    requires name in before && TagAdded(before, after, name, tag)
    requires Distinct(before[name].tags) && tag !in before[name].tags
    ensures StrictlySorted(after[name].tags)
  {
    var prev := before[name].tags;
    DistinctCount(prev);
    DistinctCount(prev + [tag]);
    assert multiset(prev + [tag]) == multiset(prev) + multiset{tag};
    assert Distinct(prev + [tag]) by {
      forall i, j | 0 <= i < j < |prev| + 1 ensures (prev + [tag])[i] != (prev + [tag])[j] {
        if j == |prev| {
          assert (prev + [tag])[i] == prev[i];
        } else {
          assert (prev + [tag])[i] == prev[i] && (prev + [tag])[j] == prev[j];
        }
      }
    }
    DistinctPerm(prev + [tag], after[name].tags);
  }

  /**
   * `RemoveTag`: name and tag are trimmed and must not be empty; the project must exist; a
   * project without tags is left alone and nothing is written; otherwise every copy of the tag
   * is dropped, the others kept in order, and the registry written back.
   */
  method RemoveTag(projectName: string, tag: string, ensured: bool, file: RegistryFile, saveOk: bool)
    returns (written: Option<RegistryFile>, err: Option<ServiceError>)
    ensures TrimSpace(projectName) == "" ==> written == None && err == Some(EmptyProjectName)
    ensures TrimSpace(projectName) != "" && TrimSpace(tag) == "" ==> written == None && err == Some(EmptyTag)
    ensures TrimSpace(projectName) != "" && TrimSpace(tag) != "" && Load(ensured, file).Err? ==>
      written == None && err == Some(Load(ensured, file).error)
    ensures TrimSpace(projectName) != "" && TrimSpace(tag) != "" && Load(ensured, file).Ok?
            && TrimSpace(projectName) !in Entries(Load(ensured, file).value) ==>
      written == None && err == Some(ProjectNotFound(TrimSpace(projectName)))
    ensures TrimSpace(projectName) != "" && TrimSpace(tag) != "" && Load(ensured, file).Ok?
            && TrimSpace(projectName) in Entries(Load(ensured, file).value) ==>
      var n := TrimSpace(projectName);
      && (written.Some? <==> Entries(Load(ensured, file).value)[n].tags != [])
      && (written.None? ==> err == None)
    ensures written.None? && err.None? ==>
      ensured && file.Stored? && TrimSpace(projectName) in file.projects && file.projects[TrimSpace(projectName)].tags == []
    ensures written.Some? ==>
      var n := TrimSpace(projectName);
      && ensured && file.Stored? && n in file.projects && file.projects[n].tags != []
      && err == (if saveOk then None else Some(SaveFailed))
      && written.value == Stored(file.projects[n := file.projects[n].(tags := Without(file.projects[n].tags, TrimSpace(tag)))])
  {
    var name := TrimSpace(projectName);
    var t := TrimSpace(tag);
    if name == "" {
      return None, Some(EmptyProjectName);
    }
    if t == "" {
      return None, Some(EmptyTag);
    }
    var loaded := Load(ensured, file);
    if loaded.Err? {
      return None, Some(loaded.error);
    }
    var projects := Entries(loaded.value);
    if name !in projects {
      return None, Some(ProjectNotFound(name));
    }
    var project := projects[name];
    if |project.tags| == 0 {
      return None, None;
    }
    var filtered: seq<string> := [];
    for i := 0 to |project.tags|
      invariant filtered == Without(project.tags[..i], t)
    {
      assert project.tags[..i + 1][..i] == project.tags[..i];
      if project.tags[i] != t {
        filtered := filtered + [project.tags[i]];
      }
    }
    assert project.tags[..|project.tags|] == project.tags;
    projects := projects[name := project.(tags := filtered)];
    written := Some(SaveProjects(Some(projects)));
    err := if saveOk then None else Some(SaveFailed);
  }

  /** `tags` without any copy of `tag`, the others in order. */
  function Without(tags: seq<string>, tag: string): (r: seq<string>)
    ensures |r| <= |tags|
  {
    Filter(tags, t => t != tag)
  }

  /** Removal drops exactly the tag, keeps the other tags in their order, and is idempotent. */
  lemma WithoutSpec(tags: seq<string>, tag: string, t: string)
    ensures t in Without(tags, tag) <==> t in tags && t != tag
    ensures Subseq(Without(tags, tag), tags)
    ensures Without(Without(tags, tag), tag) == Without(tags, tag)
  {
    FilterMember(tags, x => x != tag, t);
    FilterSubseq(tags, x => x != tag);
    FilterIdempotent(tags, x => x != tag);
  }

  /** The two places `ResolveWorktreeLeaf` and `RemoveWorktree` look for a worktree. */
  function Candidates(cwd: string, name: string): (r: (string, string))
    ensures r.0 == r.1 <== '/' !in name
  {
    assert ReplaceChar(name, '/', '-') == name <== '/' !in name;
    (Join([cwd, "..", name]), Join([cwd, "..", ReplaceChar(name, '/', '-')]))
  }

  /**
   * `ResolveWorktreeLeaf`: `../name` beside the working directory if it is a directory, else
   * `../name` with '/' replaced by '-', else not found.
   */
  function ResolveWorktreeLeaf(name: string, cwd: Result<string, ()>, isDir: set<string>): (r: Result<string, ServiceError>)
    ensures cwd.Err? ==> r == Err(NoWorkingDir)
    ensures cwd.Ok? ==> (r.Ok? <==> Candidates(cwd.value, name).0 in isDir || Candidates(cwd.value, name).1 in isDir)
    ensures cwd.Ok? && Candidates(cwd.value, name).0 in isDir ==> r == Ok(Candidates(cwd.value, name).0)
    ensures r.Ok? ==> r.value in isDir && (r.value == Candidates(cwd.value, name).0 || r.value == Candidates(cwd.value, name).1)
    ensures r.Err? && cwd.Ok? ==> r.error == WorktreeNotFound(name)
  {
    if cwd.Err? then Err(NoWorkingDir)
    else
      var (cand1, cand2) := Candidates(cwd.value, name);
      if cand1 in isDir then Ok(cand1)
      else if cand2 in isDir then Ok(cand2)
      else Err(WorktreeNotFound(name))
  }

  /**
   * `RemoveWorktree`: finds the leaf as `ResolveWorktreeLeaf` does, runs its delete hooks
   * (`onDeleteOk`), and only when they succeed runs `git worktree remove` on it (`removeOk`);
   * `commands` holds the git command if it was run.
   */
  method RemoveWorktree(name: string, cwd: Result<string, ()>, isDir: set<string>, onDeleteOk: bool, removeOk: bool)
    returns (commands: seq<seq<string>>, r: Result<string, ServiceError>)
    ensures ResolveWorktreeLeaf(name, cwd, isDir).Err? ==> commands == [] && r == Err(ResolveWorktreeLeaf(name, cwd, isDir).error)
    ensures ResolveWorktreeLeaf(name, cwd, isDir).Ok? && !onDeleteOk ==> commands == [] && r == Err(OnDeleteFailed)
    ensures ResolveWorktreeLeaf(name, cwd, isDir).Ok? && onDeleteOk ==>
      && commands == [["git", "worktree", "remove", ResolveWorktreeLeaf(name, cwd, isDir).value]]
      && r == (if removeOk then Ok(ResolveWorktreeLeaf(name, cwd, isDir).value) else Err(RemoveWorktreeFailed))
  {
    var leaf := ResolveWorktreeLeaf(name, cwd, isDir);
    if leaf.Err? {
      return [], Err(leaf.error);
    }
    if !onDeleteOk {
      return [], Err(OnDeleteFailed);
    }
    commands := [["git", "worktree", "remove", leaf.value]];
    if !removeOk {
      return commands, Err(RemoveWorktreeFailed);
    }
    return commands, Ok(leaf.value);
  }
}
