/**
 * Per-project configuration: where `.wfconfig.yml` lives, which profile of it is used, and
 * how a list of hook commands is run. The YAML content itself is not modelled; a
 * configuration is represented by the set of its profile names.
 */
module Profiles {
  import opened Wrappers
  import opened Paths

  /** The configuration file name, looked for in a project directory. */
  const ConfigFileName: string := ".wfconfig.yml"

  /** The profile chosen when several exist and none is requested. */
  const DefaultProfile: string := "default"

  /** The profile `LoadProject` of the older configuration code falls back to. */
  const LegacyDefaultProfile: string := "defoult"

  /** Why no profile could be selected. */
  datatype ProfileError = NotFound(name: string) | NoProfiles | Ambiguous

  /** A request names a profile only when it is present and not empty. */
  predicate Requested(requested: Option<string>) {
    requested.Some? && requested.value != ""
  }

  /**
   * `SelectProfile`: a requested profile must exist; with nothing requested the only profile is
   * used, or else `default`. Every successful answer is a profile of the configuration.
   */
  function SelectProfile(profiles: set<string>, requested: Option<string>): (r: Result<string, ProfileError>)
    ensures r.Ok? ==> r.value in profiles
    ensures Requested(requested) ==>
      (r.Ok? <==> requested.value in profiles) && (r.Ok? ==> r.value == requested.value)
    ensures Requested(requested) && requested.value !in profiles ==> r == Err(NotFound(requested.value))
    ensures !Requested(requested) ==> (r.Ok? <==> |profiles| == 1 || DefaultProfile in profiles)
    ensures !Requested(requested) && profiles == {} ==> r == Err(NoProfiles)
    ensures !Requested(requested) && |profiles| == 1 ==> r.Ok? && profiles == {r.value}
    ensures !Requested(requested) && |profiles| > 1 && r.Ok? ==> r.value == DefaultProfile
  {
    if Requested(requested) then
      if requested.value in profiles then Ok(requested.value) else Err(NotFound(requested.value))
    else if |profiles| == 0 then Err(NoProfiles)
    else if |profiles| == 1 then Ok(Only(profiles))
    else if DefaultProfile in profiles then Ok(DefaultProfile)
    else Err(Ambiguous)
  }

  /** The single element of a one-element set. */
  function Only(s: set<string>): (x: string)
    requires |s| == 1
    ensures s == {x}
  {
    var x :| x in s;
    assert |s - {x}| == 0;
    x
  }

  /** Asking again for the profile that was selected selects it again. */
  lemma SelectProfileStable(profiles: set<string>, requested: Option<string>)
    requires SelectProfile(profiles, requested).Ok?
    ensures var p := SelectProfile(profiles, requested).value;
      p != "" ==> SelectProfile(profiles, Some(p)) == Ok(p)
  {
  }

  /**
   * `LoadProject` of the older code: the requested profile, or `defoult` when none is
   * requested; a profile the configuration lacks is an error.
   */
  function LegacyProfile(profiles: set<string>, requested: Option<string>): (r: Result<string, ProfileError>)
    ensures r.Ok? ==> r.value in profiles
    ensures !Requested(requested) ==> r == if LegacyDefaultProfile in profiles then Ok(LegacyDefaultProfile) else Err(NotFound(LegacyDefaultProfile))
  {
    var prof := if Requested(requested) then requested.value else LegacyDefaultProfile;
    if prof in profiles then Ok(prof) else Err(NotFound(prof))
  }

  /**
   * The two selections agree whenever a profile is requested, and differ otherwise: a
   * configuration whose only profile is `default` is accepted by one and rejected by the other.
   */
  lemma LegacyProfileAgrees(profiles: set<string>, requested: Option<string>)
    ensures Requested(requested) ==> LegacyProfile(profiles, requested) == SelectProfile(profiles, requested)
    ensures LegacyProfile({DefaultProfile}, None).Err? && SelectProfile({DefaultProfile}, None) == Ok(DefaultProfile)
  {
  }

  /**
   * `ResolveConfigPath`: the configuration of a worktree project sits in the parent of its
   * path, that of any other project in its path.
   */
  function ResolveConfigPath(projectPath: string, isWorktree: bool): (p: string)
    ensures p != ""
  {
    var elems := if isWorktree then [projectPath, "..", ConfigFileName] else [projectPath, ConfigFileName];
    assert elems[|elems| - 1] != "";
    Join(elems)
  }

  /** The worktree path differs from the plain one only by the `..` step. */
  lemma ResolveConfigPathWorktree(projectPath: string)
    ensures ResolveConfigPath(projectPath, true) == ResolveConfigPath(Join([projectPath, ".."]), false)
  {
    JoinRegroup(projectPath, "..", ConfigFileName);
  }

  /** The configuration file is `.wfconfig.yml` directly inside the project directory. */
  lemma ResolveConfigPathShape(projectPath: string)
    requires projectPath != ""
    ensures Base(ResolveConfigPath(projectPath, false)) == ConfigFileName
    ensures Dir(ResolveConfigPath(projectPath, false)) == Clean(projectPath)
  {
    JoinChild(projectPath, ConfigFileName);
  }

  /** For a worktree it is `.wfconfig.yml` directly inside the parent of the project directory. */
  lemma ResolveConfigPathWorktreeShape(projectPath: string)
    requires projectPath != ""
    ensures Base(ResolveConfigPath(projectPath, true)) == ConfigFileName
    ensures Dir(ResolveConfigPath(projectPath, true)) == Join([projectPath, ".."])
  {
    var parent := Join([projectPath, ".."]);
    ResolveConfigPathWorktree(projectPath);
    ResolveConfigPathShape(parent);
    JoinIsClean(projectPath, "..");
  }

  /**
   * `RunHooks`: runs the commands in order and stops at the first one that fails, reporting
   * its 1-based position. `succeeds(i)` is whether the shell reports success for command `i`;
   * `ran` lists the commands started.
   */
  method RunHooks(hooks: seq<string>, succeeds: nat -> bool) returns (ran: seq<string>, failed: Option<nat>)
    ensures failed.None? <==> forall i :: 0 <= i < |hooks| ==> succeeds(i)
    ensures failed.Some? ==>
      && 1 <= failed.value <= |hooks|
      && !succeeds(failed.value - 1)
      && (forall i :: 0 <= i < failed.value - 1 ==> succeeds(i))
    ensures ran == if failed.Some? then hooks[..failed.value] else hooks
  {
    ran := [];
    failed := None;
    var i := 0;
    while i < |hooks|
      invariant 0 <= i <= |hooks|
      invariant ran == hooks[..i]
      invariant forall j :: 0 <= j < i ==> succeeds(j)
    {
      ran := ran + [hooks[i]];
      if !succeeds(i) {
        failed := Some(i + 1);
        return;
      }
      i := i + 1;
    }
    assert hooks[..|hooks|] == hooks;
  }
}
