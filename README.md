# workforge, modelled in Dafny

workforge is a command-line tool for developers. It keeps a registry of projects and their
git worktrees, opens terminal sessions for them from configuration profiles, and hosts plugins.
A plugin is a subprocess that reacts to lifecycle and diagnostic events. It is reached by
JSON-RPC 2.0 requests over a Unix domain socket.

This project models the bookkeeping at the heart of the tool and proves properties of it:

- **The project registry** (`ProjectRegistry`, `ProjectService`, `LegacyConfig`). A JSON map
  from project name to project. It is loaded, changed and saved when projects, worktree
  leaves and tags are added or removed. Tags are normalised and kept as a sorted set.
  Listings expand worktree bases into their leaves, filter by kind and tag, and are sorted
  and looked up by name.
- **The plugin registry** (`PluginRegistry`, `Manifest`, `Installer`). The list of installed
  plugins with upsert, remove and find by name; the manifest defaults; the step order of
  install and uninstall, with the rollback of a failed install.
- **The plugin host** (`PluginHost`). A class owning the table of running plugins and the
  request-id counter. It wakes, calls and kills plugins and runs a hook across them.
- **Hook dispatch** (`HookDispatch`, `HookPayloads`, `AppLog`). Shell hooks stop at the first
  failure. Plugin hooks reach every plugin declaring the hook, in registry order, and one
  plugin's failure does not stop the others. Payloads are built by a chaining builder, and
  responses are cleaned. Every log call becomes one hook payload.
- **Small pure functions** (`Profiles`, `Git`, `FsPaths`, `Logging`, `RepoNames`). Profile
  selection, configuration paths, worktree folder names and `git` arguments, the
  configuration directory, log-level parsing and gating, and repository names from URLs.

Supporting modules:

- `Wrappers`: `Option` and `Result`.
- `Text`: the Go `strings` functions used (`TrimSpace`, `Trim`, `Split`, `Fields`, ASCII case
  mapping).
- `Paths`: the lexical `path/filepath` functions `Clean`, `Join`, `Dir` and `Base` on Unix.
- `Sorting`: byte-wise string order and an insertion sort, specified as sorted and a
  permutation.
- `Values`: decoded JSON values.

The outside world is modelled as inputs:

- The filesystem is a value: registry files, directory listings, existing directories and
  worktree leaves.
- The outcome of every I/O step is a parameter or an oracle function: a write, a clone, a
  process start, a socket connect, a plugin's answer, a shell command.
- Operations that write return what they would write, and the effects they perform in order.
- Go's map iteration order is unspecified. Loops over maps pick the next key with `:|`, and
  their contracts hold for every order.

Three copies of the project service exist in the source tree:

- internal/app/project/service.go;
- internal/app/project_service.go;
- internal/app/service.go.

They share one model. A flag says whether the registry is created before the project path
is resolved, which is the only way they differ. Likewise, the project service's
`listProjectsExpanded`, `SortedProjectEntries` and `FindProjectEntry` are the ones in
internal/registry/store.go, run on the service's own loader.

The older code under config/ and internal/config/ reads the same registry file into a
`Project` record with no tags field. Its loads therefore see every project with its tags
cleared, and its commands write the whole registry back without tags, so running one of them
erases the tags the newer code stored.

## Model

| member | source | states |
|---|---|---|
| Text.TrimSpace | internal/app/project/service.go:263-264 | trimming never lengthens, and the result has no white space at either end |
| Text.TrimSpaceEmpty | internal/app/project/service.go:263-270 | a string trims to empty iff it is white space only |
| Text.JoinSplit | internal/app/util.go:9 | joining the parts of a split with the separator gives the string back |
| Text.SplitJoin | internal/app/util.go:9 | splitting a join of parts free of the separator gives the parts back |
| Text.LastSegment | internal/app/util.go:9-10 | the last part of a split holds no separator |
| Text.LastSegmentSuffix | internal/app/util.go:9-10 | the last part of a split is a suffix of the string |
| Text.Fields | internal/infra/git/git.go:77 | every field is non-empty, free of white space and made of the string's characters |
| Text.TrimChar | internal/infra/git/git.go:71 | trimming a character never lengthens and leaves it at neither end |
| Paths.Clean | config/wfconfig.go:110 | a cleaned path is never empty |
| Paths.CleanIdempotent | config/wfconfig.go:110-115 | cleaning a clean path changes nothing |
| Paths.CleanIsAbs | config/init.go:53 | cleaning keeps a path absolute or relative |
| Paths.Join | internal/app/project/service.go:333-334 | the join is empty exactly when every element is |
| Paths.JoinIsClean | internal/app/project/service.go:333-334 | a join with a non-empty last element is already clean |
| Paths.Dir | internal/app/project/service.go:241 | a path without '/' has the parent "." |
| Paths.Base | internal/app/project/service.go:250 | the base name is never empty and is "/" or holds no '/' |
| Sorting.SortBy | internal/app/project/service.go:161 | the result is ordered by the key and a permutation of the input |
| Sorting.SortStrings | internal/app/project/service.go:285 | the result is ascending and a permutation of the input |
| Sorting.SortedUnique | internal/app/project/service.go:285 | two ascending permutations of the same strings are equal, so sorting strings has exactly one result |
| Logging.ParseLevel | internal/infra/log/log.go:29-45 | any level other than Info comes from one of the keywords DEBUG, WARN, WARNING, ERROR, SILENT, QUIET after upper-casing and trimming; everything else, the empty string included, gives Info |
| Logging.ParseKeyword | internal/infra/log/log.go:30 | a word of capital letters is unchanged by upper-casing and trimming |
| Logging.ParseLevelNames | internal/infra/log/log.go:31-41 | each level is read back from its own name |
| Logging.ParseLevelAliases | internal/infra/log/log.go:36-41 | WARNING names Warn and QUIET names Silent |
| Logging.ParseLevelIgnoresCase | internal/infra/log/log.go:30 | lower-casing the input does not change the level |
| Logging.GatesMonotone | internal/infra/log/log.go:17-23 | levels are ordered Silent < Error < Warn < Info < Debug, and raising the level never hides a message that was shown, in either logger |
| Logging.GatesAgree | internal/infra/log/log.go:73-107 | the infra logger shows a message iff the terminal logger does and, for Debug and Warn, verbose output is on; at Silent nothing shows, at Debug everything does |
| Logging.TerminalGates | terminal/log.go:76-111 | errors show at every level but Silent, warnings from Warn up, information, success and step lines from Info up, debug lines only at Debug |
| Logging.InfraLog.constructor | internal/infra/log/log.go:9-25 | the package starts at level Info with the verbose flag "false" |
| Logging.InfraLog.SetLogLevelFromString | internal/infra/log/log.go:29-45 | the level becomes the parsed level and the verbose flag is unchanged |
| Logging.TerminalLog.constructor | terminal/log.go:20 | the package starts at level Info |
| Logging.TerminalLog.SetLogLevelFromString | terminal/log.go:26-42 | the level becomes the parsed level, the same mapping as the infra logger's |
| RepoNames.RepoURLToName | internal/app/util.go:8-11 | the name holds no '/'; it is the last '/'-segment of the URL with exactly one trailing `.git` removed when there is one, and the segment itself otherwise |
| RepoNames.RepoNameIsLastSegment | utility.go:8-9 | the name is a suffix of the URL, up to a removed `.git`, that starts the URL or follows a '/' |
| RepoNames.RepoNameWithoutSlash | internal/app/util.go:9-10 | a URL without '/' maps to itself minus one trailing `.git` |
| RepoNames.RepoNameTrailingSlash | utility.go:8-9 | a URL ending in '/' yields the empty name |
| RepoNames.RepoNameOfBuiltURL | internal/app/util.go:9-10 | a URL built as `prefix/name` or `prefix/name.git` gives back `name`, for any name without '/' that does not itself end in `.git` |
| RepoNames.ExtractRepoName | internal/app/plugin/installer.go:74-78 | the installer's name holds no '/' |
| RepoNames.ExtractAgreesWithRepoURLToName | internal/app/plugin/installer.go:74-78 | removing `.git` before or after taking the last segment gives the same name for every URL |
| FsPaths.WorkforgeConfigDir | internal/infra/fs/paths.go:21-33 | a nil resolver is an error; the only other error is an unknown home directory, and only when the configuration directory is unknown or empty |
| FsPaths.WorkforgeConfigDirShape | internal/infra/fs/paths.go:25-32 | the directory is always named `workforge`; it sits in the cleaned user configuration directory when that is known and non-empty, else in `<home>/.config` |
| FsPaths.RegistryPath | internal/infra/fs/paths.go:35-41 | fails exactly when the configuration directory fails, with the same error |
| FsPaths.RegistryPathShape | internal/infra/fs/paths.go:40 | the registry is the file `workforge.json` directly inside the configuration directory |
| FsPaths.NormalizePath | internal/infra/fs/paths.go:43-59 | succeeds iff the path is non-empty, `Abs` succeeds and symlink resolution does not fail; the empty path is an error; the result is the resolved path, or the absolute path when the file does not exist |
| FsPaths.RegistryDir | config/prjconfig.go:25-37 | fails iff `XDG_CONFIG_HOME` is unset or empty, the user configuration directory is unknown or empty, and the home directory is unknown |
| FsPaths.RegistryDirPrecedence | config/prjconfig.go:25-37 | a non-empty `XDG_CONFIG_HOME` decides alone; otherwise a non-empty user configuration directory decides without the home directory; the result is named `workforge` |
| FsPaths.RegistryDirAgrees | config/prjconfig.go:29-36 | without `XDG_CONFIG_HOME` the older lookup gives the same answer as `PathResolver.WorkforgeConfigDir` |
| Git.WorktreeLeafName | internal/infra/git/git.go:71-82 | the leaf name is never empty and holds no '/' and no white space |
| Git.Sanitize | internal/infra/git/git.go:76-77 | after replacing '/' with '-' and joining the fields with '-', no '/' and no white space remains |
| Git.LeafNameOfPlain | internal/infra/git/git.go:71-82 | a name that is non-empty and has no '/' or white space is its own leaf name |
| Git.LeafNameIdempotent | internal/infra/git/git.go:71-82 | sanitising a leaf name again changes nothing |
| Git.WorktreeFolderName | internal/infra/git/git.go:67-69 | the folder name is never empty |
| Git.FolderNameShape | internal/infra/git/git.go:67-69 | the folder is `../<leaf>`: its base is the leaf name and its parent is `..` |
| Git.BranchRef | internal/infra/git/git.go:31-34 | the reference is empty exactly when the branch is; the raw branch is the fallback |
| Git.BranchRefPlain | internal/infra/git/git.go:31-34 | a branch with no '/' or white space at either end is its own reference |
| Git.GitArgs | internal/infra/git/git.go:84-90 | the command's arguments come last, unchanged; `-C <path>` is prefixed exactly when the path is not blank |
| Git.BranchExists | internal/infra/git/git.go:92-110 | a blank branch is an error and runs nothing; otherwise `show-ref --verify --quiet refs/heads/<trimmed>` is run and exit 0 / exit 1 / anything else map to present / absent / an error naming the branch |
| Git.BaseBranchNotBlank | internal/infra/git/git.go:42-44 | the base of a new branch is never blank; a non-blank base is kept as given |
| Git.SelectAddArgs | internal/infra/git/git.go:30-47 | the arguments are selected iff no branch was requested, or the branch probe succeeded; `-b <ref> <base>` only when the branch is to be created and is absent; the probe is run exactly when creating with a non-empty reference |
| Git.AddWorkTree | internal/infra/git/git.go:29-53 | the `git` calls made in order and the error: an empty reference or a failed probe stops before `worktree add`, otherwise the last call is `worktree add` with the selected arguments and its failure is the error |
| Git.AddArgsNewBranch | internal/infra/git/git.go:35-46 | `-b` is among the six arguments exactly when a new branch is requested, and its base is never blank |
| Git.FallbackLeafName | internal/infra/git/git.go:78-80 | the fallback name `worktree` holds no '/' and no white space |
| Profiles.SelectProfile | internal/app/config/service.go:106-125 | a requested non-empty profile is returned iff present and is "not found" otherwise; with nothing requested, no profiles is an error, a single profile is returned, and with several only `default` can be; every answer is a profile of the configuration |
| Profiles.SelectProfileStable | internal/config/config.go:44-63 | requesting the profile that was selected selects it again |
| Profiles.LegacyProfile | config/wfconfig.go:43-50 | the requested profile, or `defoult` when none is requested; a profile the configuration lacks is an error and every answer is one of its profiles |
| Profiles.LegacyProfileAgrees | config/wfconfig.go:43-50 | the older selection agrees with `SelectProfile` whenever a profile is requested, and differs without one: a configuration whose only profile is `default` is rejected by one and accepted by the other |
| Profiles.ResolveConfigPath | internal/app/config/service.go:78-83 | the configuration path is never empty |
| Profiles.ResolveConfigPathWorktree | internal/config/config.go:32-37 | the worktree path is the plain path of `<project>/..`: they differ only by the `..` step |
| Profiles.ResolveConfigPathShape | internal/config/config.go:36 | the file is `.wfconfig.yml` directly inside the cleaned project directory |
| Profiles.ResolveConfigPathWorktreeShape | internal/config/config.go:34 | for a worktree the file is `.wfconfig.yml` directly inside `<project>/..` |
| Profiles.RunHooks | internal/app/config/service.go:127-135 | no failure iff every command succeeds; otherwise the failure is the 1-based position of the first failing command, all before it succeeded, and exactly the commands up to it were started |
| ProjectRegistry.LoadProjects | internal/registry/store.go:68-78 | loads exactly a `null` file (as the nil map) and a stored map (unchanged); an unreadable file is a read error, and the empty file as well as any other non-object text is a parse error |
| ProjectRegistry.SaveProjects | internal/registry/store.go:60-66 | whatever is written loads back as the same map, a nil map as a nil map |
| ProjectRegistry.NormalizeTagIdempotent | internal/registry/store.go:256 | lower-casing and trimming a tag twice is doing it once |
| ProjectRegistry.NormalizedTags | internal/registry/store.go:253-263 | normalising never lengthens the list |
| ProjectRegistry.NormalizeTags | internal/registry/store.go:253-263 | the loop returns each tag lower-cased and trimmed, the empty ones dropped, in input order |
| ProjectRegistry.NormalizedTagsNormal | internal/registry/store.go:256-260 | every tag kept is non-empty and in normal form |
| ProjectRegistry.NormalizedTagsAppend | internal/registry/store.go:255-261 | normalising distributes over concatenation, so input order is kept |
| ProjectRegistry.NormalizedTagsMember | internal/registry/store.go:253-263 | a tag is in the result iff it is non-empty and the normal form of some input tag |
| ProjectRegistry.NormalizedTagsIdempotent | internal/registry/store.go:253-263 | normalising a normalised list changes nothing |
| ProjectRegistry.MatchesTags | internal/registry/store.go:265-279 | true iff every required tag is among the entry's tags; no required tags always match |
| ProjectRegistry.ApplyTagUpdates | internal/registry/store.go:231-251 | the result is strictly sorted (sorted, no duplicates) and holds exactly (current ∪ added) \ removed, so a tag both added and removed is absent and an empty set gives the empty list |
| ProjectRegistry.StrictlySortedUnique | internal/registry/store.go:245-250 | a strictly sorted list is determined by its elements, so the stored tags do not depend on map iteration order |
| ProjectRegistry.Filter | internal/registry/store.go:177-194 | filtering never lengthens the list |
| ProjectRegistry.FilterSubseq | internal/registry/store.go:179-193 | the kept elements are a subsequence of the input, in input order |
| ProjectRegistry.FilterMember | internal/registry/store.go:179-193 | an element is kept iff it is in the input and passes the test |
| ProjectRegistry.FilterIdempotent | internal/registry/store.go:173-195 | filtering a filtered list again changes nothing |
| ProjectRegistry.Kept | internal/registry/store.go:177-194 | the kept entries are never more than the input entries |
| ProjectRegistry.KeptSubseq | internal/registry/store.go:177-194 | the kept entries keep the input order |
| ProjectRegistry.KeptMember | internal/registry/store.go:179-193 | an entry is kept iff it is listed, is a worktree entry when only worktrees are asked for, is not one when only projects are, and has every normalised required tag among its normalised tags (no required tags always match) |
| ProjectRegistry.FilterProjectEntries | internal/registry/store.go:173-195 | asking for worktrees only and projects only at once is an error and nothing is returned; otherwise the entries passing the kind and tag filters, in order |
| ProjectRegistry.UpdateProjectTags | internal/registry/store.go:205-229 | an empty name, a registry that does not load and a missing project are errors with nothing written; otherwise the map is written back with only that project's tags changed, to the strictly sorted normalised (current ∪ added) \ removed, and a failed save is the error |
| ProjectRegistry.TagsUpdatedMembers | internal/registry/store.go:221-227 | after an update every normalised removed tag is absent, every normalised added tag not also removed is present, and every tag is in normal form |
| ProjectRegistry.AddChildren | internal/registry/store.go:122-134 | the inner loop adds one hit entry `base/child` per subdirectory listed |
| ProjectRegistry.AddProject | internal/registry/store.go:104-134 | one turn of the outer loop adds exactly the entries one registered project makes |
| ProjectRegistry.ListProjectsExpanded | internal/registry/store.go:96-137 | fails iff some worktree base that is not a leaf cannot be listed, with that base's path; otherwise the maps hold exactly the entries the registered projects make: plain projects (not hits), leaves as they are (hits) and the directory children of every other base (hits) |
| ProjectRegistry.CoversUnique | internal/registry/store.go:104-135 | an entry whose key no other entry shares is in the listing exactly as made |
| ProjectRegistry.ChildContribsMember | internal/registry/store.go:122-134 | the entries a base makes are exactly one per subdirectory entry of its listing |
| ProjectRegistry.ChildContribsWitness | internal/registry/store.go:122-134 | every entry a base makes comes from one of its listed subdirectories |
| ProjectRegistry.ChildInContribs | internal/registry/store.go:122-134 | every listed subdirectory of a base makes an entry |
| ProjectRegistry.BaseExpandsToChildren | internal/registry/store.go:117-134 | a worktree base is not listed under its own name: every entry it makes is a plain project named `base/child`, a hit, at the child's path, for a listed subdirectory |
| ProjectRegistry.ExpandKeepsProject | internal/registry/store.go:105-114 | a plain project, and a leaf, is listed under its name exactly as registered, a hit only when it is a worktree |
| ProjectRegistry.EntryOf | internal/registry/store.go:145-149 | an entry with an empty name takes its map key as name; nothing else of the project changes |
| ProjectRegistry.CollectEntries | internal/registry/store.go:143-149 | one entry per key: each entry of a key occurs exactly as often as there are keys giving it, so every key's entry is present and nothing else is |
| ProjectRegistry.KeysWithAdd | internal/registry/store.go:143-149 | one more key adds one occurrence to its own entry's count and none to any other |
| ProjectRegistry.SortedProjectEntries | internal/registry/store.go:139-153 | listing errors are passed on; otherwise the entries sorted by name, a permutation of the listed keys' entries: each occurs exactly as often as there are keys giving it |
| ProjectRegistry.FindProjectEntry | internal/registry/store.go:155-171 | an empty name is refused before the listing is consulted; listing errors are passed on; a name is found iff it is a listed key, and then its entry has a non-empty name, and otherwise the error is "not found" |
| ProjectService.Load | internal/app/project/service.go:70-84 | the registry loads iff it can be created and its file loads, and then gives the file's projects |
| ProjectService.UpsertAsWritten | internal/app/project/service.go:215 | the assignment fails (Go panics) exactly on the nil map; elsewhere the key is set to the project |
| ProjectService.NullRegistryPanics | internal/app/project/service.go:210-215 | a registry file holding `null` loads without error to the nil map, and adding a project to it then panics |
| ProjectService.Upsert | internal/app/service.go:186-192 | the key holds the project, every other entry is kept, and the keys are the old ones plus the key; the nil map counts as empty |
| ProjectService.UpsertAgrees | internal/app/project_service.go:85-92 | where the assignment as written does not panic it gives the intended upsert |
| ProjectService.ResolvedPath | internal/app/service.go:169-184 | the given path, or else the working directory, normalised; a missing working directory and a failed normalisation are distinct errors |
| ProjectService.AddProject | internal/app/service.go:164-197 | a registry that cannot be created, an unresolved path and a missing working directory write nothing; otherwise the registry (empty when it did not load) is written back with the name mapped to a project at the resolved path with the worktree flag, and a failed save is the error |
| ProjectService.FindBase | internal/app/service.go:213-219 | a non-empty key found belongs to a project the test accepts; "" is returned only when no project with a non-empty key is accepted or the project keyed "" is |
| ProjectService.LeafKey | internal/app/service.go:231-235 | the key ends with the leaf's base name and, under a base, starts with `base/` |
| ProjectService.LeafKeyLastSegment | internal/app/project/service.go:250-254 | the last '/'-segment of the key is the leaf's base name |
| ProjectService.AddLeaf | internal/app/service.go:199-241 | a registry that cannot be created and a missing working directory write nothing; otherwise the registry is written back with the leaf as a worktree project keyed `base/leaf` for a base found at the working directory, then at the leaf's parent, or `leaf` without one |
| ProjectService.CwdBaseFirst | internal/app/project/service.go:232-248 | a base registered at the working directory wins over one at the leaf's parent |
| ProjectService.NoBaseKey | internal/app/project/service.go:240-254 | with no worktree project registered the leaf is keyed by its own name |
| ProjectService.AddTag | internal/app/project/service.go:262-288 | a blank name, a blank tag, a registry that does not load and an unknown project are errors in that order; for a known project the registry is written exactly when the tag is absent, and a tag already present writes nothing and is no error; a write changes only that project's tags, to a sorted list holding the old tags plus the new one, and a failed save is the error |
| ProjectService.TagAddedMembers | internal/app/project/service.go:284-286 | after adding, a tag is present iff it is the tag added or was present before |
| ProjectService.TagAddedStrict | internal/app/project/service.go:279-285 | tags without duplicates stay without duplicates and strictly sorted |
| ProjectService.RemoveTag | internal/app/project/service.go:290-319 | the same errors as `AddTag`; for a known project the registry is written exactly when it has tags, and a project without tags writes nothing and is no error; a write changes only that project's tags, losing every copy of the tag, and a failed save is the error |
| ProjectService.Without | internal/app/project/service.go:310-315 | removing never lengthens the tags |
| ProjectService.WithoutSpec | internal/app/project/service.go:310-316 | a tag survives iff it was present and is not the tag removed; the survivors keep their order; removing twice is removing once |
| ProjectService.Candidates | internal/app/project/service.go:333-334 | a name without '/' gives one candidate, `../name` beside the working directory |
| ProjectService.ResolveWorktreeLeaf | internal/app/project/service.go:328-343 | a missing working directory is an error; otherwise a leaf is found iff one of the two candidates is a directory, the first preferred, and the answer is that directory; else "not found" naming the worktree |
| ProjectService.RemoveWorktree | internal/app/service.go:138-162 | no leaf found runs nothing; a failing delete hook stops before git; otherwise exactly `git worktree remove <leaf>` is run and its failure is the error, its success returns the leaf |
| LegacyConfig.EnsureRegistryFile | config/prjconfig.go:47-61 | a missing registry file is created holding the empty map; an existing one is left as it is |
| LegacyConfig.Untagged | config/prjconfig.go:14-18 | a project decoded into the older tag-less record keeps its key, name, path and worktree flag and has no tags |
| LegacyConfig.LoadLenient | config/prjconfig.go:78-98 | a registry that cannot be ensured is an error; otherwise a read failure and a parse failure are distinct errors, an empty file and `null` both read as the empty map, and a stored map is returned with every key kept and every tag cleared; no loaded project has tags |
| LegacyConfig.SaveLenient | config/prjconfig.go:63-76 | a nil map is written as the empty map, every key is written and no entry carries tags, and what is written loads back as the same projects without tags |
| LegacyConfig.LenientExtendsStrict | config/prjconfig.go:78-98 | the lenient loader accepts exactly what the strict one accepts plus the empty file, reads the same entries with their tags cleared, and a registry just created reads as empty |
| LegacyConfig.LegacyRoundTripClearsTags | config/prjconfig.go:14-18 | a registry loaded and saved back by the older code keeps every key, name, path and worktree flag, loses every tag, and the newer loader then reads it with no tags |
| LegacyConfig.ListExpandedLenient | config/prjconfig.go:112-144 | a load error is passed on; otherwise the listing fails iff some worktree base cannot be listed, and on success holds exactly the plain projects (not hit) and the directory children `base/child` of every worktree base (hit), without the bases |
| LegacyConfig.ListExpandedStrict | internal/config/prjconfig.go:40-95 | a missing registry directory and a load failure are errors; otherwise the listing fails iff some non-leaf worktree base cannot be listed, and on success a leaf base is kept as it is (hit) while other bases are replaced by their directory children; the entries are read with their tags cleared |
| LegacyConfig.ProjectPath | config/init.go:50-57 | with no path, or an empty one, the project path is the working directory |
| LegacyConfig.ProjectPathShape | config/init.go:51-56 | a given path always yields a clean path; an absolute one is independent of the working directory and stays absolute; a relative one under an absolute working directory is absolute |
| LegacyConfig.AddWorkforgePrj | config/init.go:41-63 | a load error and a missing working directory stop with nothing written; otherwise the registry is written back with `name` mapped to a project at the resolved path with the given worktree flag, every entry without tags, and a failed save is the error |
| LegacyConfig.AddWorkforgeLeaf | config/init.go:70-100 | a load error and a missing working directory stop with nothing written; otherwise the registry is written back with one entry added, keyed `base/leaf` for a worktree base registered at the working directory or `leaf` when there is none, every entry without tags |
| LegacyConfig.LeafEntryShape | config/init.go:81-95 | the leaf entry is a plain project at a clean path, keyed below the base found or by the leaf's own name when no worktree base exists; every other entry is kept |
| LegacyConfig.ExampleTargetDir | config/init.go:26-36 | a given absolute path is the target as it is; with no path and no absolute form of ".", the target is "." |
| LegacyConfig.ExampleConfigPath | config/init.go:37 | the example file path is never empty |
| LegacyConfig.ExampleConfigShape | config/init.go:26-37 | the example file is `.wfconfig.yml` directly inside the cleaned target directory, and the bare file name when the target stays "." |
| LegacyConfig.BelowPrefix | config/wfconfig.go:119-121 | the prefix of every path strictly below a base is the cleaned base followed by a '/' |
| LegacyConfig.IsGitWorktreeSpec | config/wfconfig.go:109-124 | a path cleaning to a worktree base's path is a worktree path, so is every child of an absolute worktree base, and with no worktree base nothing is |
| LegacyConfig.SiblingNotUnder | config/wfconfig.go:119-121 | a sibling that shares only a string prefix with a base (`/a/bc` next to `/a/b`) is not under it |
| LegacyConfig.UnderBaseAgrees | config/wfconfig.go:115-121 | the code as written and the intended test agree for every base except "/" |
| LegacyConfig.RootBaseMissesChildren | config/wfconfig.go:119-121 | as written, a worktree base registered at "/" does not recognise its own child `/<name>`, which the intended test does |
| PluginRegistry.Load | internal/app/plugin/registry.go:35-49 | a missing file is the empty registry; an unreadable and a malformed file are distinct errors; a stored list is returned unchanged, which is also what `List` returns |
| PluginRegistry.FirstIndex | internal/app/plugin/registry.go:69-74 | the position found holds the name and no earlier position does; no position is found only when no entry has the name |
| PluginRegistry.IndexOf | internal/app/plugin/registry.go:69-74 | the front-to-back scan stops at the first entry with the name |
| PluginRegistry.Add | internal/app/plugin/registry.go:63-78 | a registry that cannot be loaded is the error and nothing is written; otherwise the list with the entry replaced or appended is written, and a failed save is the error |
| PluginRegistry.AddedShape | internal/app/plugin/registry.go:69-77 | an existing name is replaced in place (same index, same length, every other entry kept); a new name is appended at the end; unique names stay unique |
| PluginRegistry.FindAdded | internal/app/plugin/registry.go:63-107 | after adding, finding the name gives the entry added, and other names find what they found before |
| PluginRegistry.Remove | internal/app/plugin/registry.go:80-93 | a load error is passed on with no write; an absent name writes nothing and is no error; otherwise the list without the first entry of the name is written |
| PluginRegistry.RemovedShape | internal/app/plugin/registry.go:86-90 | removing cuts out exactly the first entry of the name and keeps the others in order |
| PluginRegistry.RemovedUnique | internal/app/plugin/registry.go:86-90 | with unique names, the name removed is no longer found and the names stay unique |
| PluginRegistry.RemoveAdded | internal/app/plugin/registry.go:63-93 | removing a name just appended gives the registry back |
| PluginRegistry.Find | internal/app/plugin/registry.go:95-107 | a registry that cannot be loaded finds nothing; otherwise the first entry of the name is found, and whatever is found carries the name |
| PluginRegistry.HasHook | internal/app/plugin/service.go:248-255 | a hook is only ever found in a non-empty list |
| PluginRegistry.HasHookMember | internal/app/hook/service.go:201-208 | the front-to-back scan answers exactly whether the target is among the hooks |
| Manifest.WithDefaults | internal/app/plugin/manifest.go:30-35 | the entry point and runtime are never empty afterwards; non-empty ones and every other field pass through unchanged |
| Manifest.WithDefaultsIdempotent | internal/app/plugin/manifest.go:30-35 | completing twice is completing once, and a complete manifest is kept as it is |
| Manifest.LoadManifest | internal/app/plugin/manifest.go:18-38 | a read failure and a parse failure are distinct errors with no manifest; a decoded manifest is returned completed with `main.py` and `python3`; an empty name is not rejected |
| Installer.EntryFrom | internal/app/plugin/installer.go:48-55 | the entry takes its name, configuration key, hooks, entry point and runtime from the manifest and its URL from the input |
| Installer.Install | internal/app/plugin/installer.go:23-62 | the effects in order and the result: a failed plugins-directory creation and an existing plugin directory stop before cloning; a failed clone stops with no registry write; an invalid manifest removes the clone and leaves the registry alone; a valid one writes the registry with the entry added and returns the entry exactly when the registry loads and saves |
| Installer.Register | internal/app/plugin/installer.go:42-61 | after a clone, an invalid manifest removes the clone with the manifest's error, and a valid one is added to the registry, the entry being returned only when the registry loads and saves |
| Installer.Uninstall | internal/app/plugin/installer.go:64-72 | a failed directory removal stops with nothing else done; otherwise the directory is removed and then the registry entry, which writes the registry only when the name was registered, and registry errors are passed on |
| Installer.UninstallUndoesInstall | internal/app/plugin/installer.go:48-71 | uninstalling a plugin just installed under a new name gives the registry back and removes the clone when the manifest's name is the repository's; the entry is found under the manifest's name |
| PluginHost.PluginService.constructor | internal/app/plugin/service.go:47-53 | a new host tracks nothing and has sent no request |
| PluginHost.PluginService.Wakeup | internal/app/plugin/service.go:64-110 | a tracked plugin that answers is left alone; otherwise a tracked one is dropped and the plugin started: it ends tracked at `<socketsDir>/<name>.sock` exactly when every start step succeeds, and untracked with the first failing step's error otherwise; `python3 main.py <socket>` is spawned exactly when the entry point exists, the sockets directory is made and no stale socket is in the way |
| PluginHost.PluginService.Start | internal/app/plugin/service.go:75-109 | the steps after the liveness check, in order: entry point, sockets directory, stale socket, process start, socket ready; the table gains the plugin only when all succeed |
| PluginHost.PluginService.Call | internal/app/plugin/service.go:112-155 | an untracked plugin is "not running" and a failed connection an error, neither touching the counter; otherwise the counter goes up by exactly one, the request is JSON-RPC 2.0 with the new id, and an `error` member in the reply is the returned error; the table never changes |
| PluginHost.PluginService.Kill | internal/app/plugin/service.go:157-177 | the name is no longer tracked and nothing else changes; an untracked name is a no-op; a tracked one is sent the shutdown request when it can be reached and its socket is removed |
| PluginHost.PluginService.KillAll | internal/app/plugin/service.go:179-190 | the table ends empty and the counter is unchanged |
| PluginHost.PluginService.ListRunning | internal/app/plugin/service.go:203-212 | exactly the tracked names, each once |
| PluginHost.PluginService.RunHook | internal/app/plugin/service.go:214-241 | a registry that cannot be listed gives the single "registry" result; otherwise there is a result for exactly the names of the registry plugins that declare the hook |
| PluginHost.HookedNamesAppend | internal/app/plugin/service.go:221-224 | one more registry entry adds its name to the hooked names exactly when it declares the hook |
| PluginHost.SentIDsIncrease | internal/app/plugin/service.go:127-137 | the ids of a host's requests strictly increase from 1 |
| HookPayloads.HookPayload.constructor | internal/app/hook/models.go:40-46 | a new payload holds the project and the hook type, empty data and no configuration |
| HookPayloads.HookPayload.WithError | internal/app/hook/models.go:48-53 | a present error sets `error` to its message and returns the same payload; no error changes nothing; project, type and configuration are kept |
| HookPayloads.HookPayload.WithErrorMsg | internal/app/hook/models.go:55-58 | `error` is set to the message and every other key and field is kept; the same payload is returned |
| HookPayloads.HookPayload.WithWarning | internal/app/hook/models.go:60-63 | `warning` is set and everything else kept; the same payload is returned |
| HookPayloads.HookPayload.WithMessage | internal/app/hook/models.go:65-68 | `message` is set and everything else kept; the same payload is returned |
| HookPayloads.HookPayload.WithContext | internal/app/hook/models.go:70-73 | `context` is set and everything else kept; the same payload is returned |
| HookPayloads.HookPayload.WithSource | internal/app/hook/models.go:75-78 | `source` is set and everything else kept; the same payload is returned |
| HookPayloads.HookPayload.WithSession | internal/app/hook/models.go:80-83 | `session` is set and everything else kept; the same payload is returned |
| HookPayloads.HookPayload.WithWindow | internal/app/hook/models.go:85-88 | `window` is set to the index and everything else kept; the same payload is returned |
| HookPayloads.HookPayload.WithCommand | internal/app/hook/models.go:90-93 | `command` is set and everything else kept; the same payload is returned |
| HookPayloads.HookPayload.WithField | internal/app/hook/models.go:95-98 | the key is set to the value and everything else kept; the same payload is returned |
| HookPayloads.HookPayload.WithConfig | internal/app/hook/models.go:100-103 | the configuration is replaced, a nil one included, and the data is left alone; the same payload is returned |
| HookPayloads.ChainedPayload | internal/app/hook/models.go:40-73 | a chain of setters on a new payload accumulates: setting a message and then a context gives exactly those two keys, and the chain in the other order with the message set twice gives the same payload |
| HookDispatch.Unquote | internal/app/hook/service.go:212-214 | the result is the input, or the input is the result between two double quotes |
| HookDispatch.CleanResponse | internal/app/hook/service.go:210-216 | the response is never lengthened; it is the trimmed response, or what the trimmed response holds between a pair of enclosing quotes |
| HookDispatch.UnquoteQuoted | internal/app/hook/service.go:212-214 | one pair of enclosing quotes is removed, and only one |
| HookDispatch.CleanQuoted | internal/app/hook/service.go:210-216 | a quoted answer comes back as the text between the quotes, even when that text has quotes or space of its own |
| HookDispatch.CleanUnquoted | internal/app/hook/service.go:210-216 | an answer with no space at either end and not enclosed in quotes is kept as it is |
| HookDispatch.WithProject | internal/app/hook/service.go:138-155 | the result is always an object whose `project` is the name |
| HookDispatch.WithProjectFields | internal/app/hook/service.go:140-154 | no configuration gives `{project}` alone; an object keeps every field and gains or replaces `project`; any other value is kept under `params` beside `project` |
| HookDispatch.WithProjectIdempotent | internal/app/hook/service.go:138-155 | adding the same project twice is adding it once |
| HookDispatch.AddProjectToPayload | internal/app/hook/service.go:138-155 | the loop-built payload is the configuration with the trimmed project name added |
| HookDispatch.CopyFields | internal/app/hook/service.go:144-147 | the copied map has exactly the entries of the configuration |
| HookDispatch.HookedMember | internal/app/hook/service.go:100-103 | a plugin is dispatched iff it is in the registry and declares the hook |
| HookDispatch.HookedAppend | internal/app/hook/service.go:100-103 | one more registry entry adds itself to the hooked plugins exactly when it declares the hook, keeping registry order |
| HookDispatch.Outcome | internal/app/hook/service.go:105-132 | a plugin's result has no error exactly when it was up (tracked and alive, or startable), the connection opened and it answered; every error is a host error: the start error, the failed connection, or the call's own error |
| HookDispatch.ReachedStep | internal/app/hook/service.go:100-132 | one more registry entry adds itself to the plugins called exactly when it declares the hook, is up and can be connected to, keeping registry order |
| HookDispatch.DispatchOne | internal/app/hook/service.go:105-132 | the plugin is called exactly when it was up, judged against the table at the start, and the connection opened; its result carries the error `Outcome` names, the answer (cleaned for lifecycle hooks) when there is none and an empty response otherwise; which plugins are up is unchanged |
| HookDispatch.Visit | internal/app/hook/service.go:100-132 | a plugin not declaring the hook gives no result and no call; otherwise the result of `DispatchOne`, and a call, made exactly when the plugin is up and reachable, carrying the plugin's configuration with the project added, or the event payload |
| HookDispatch.DispatchEntries | internal/app/hook/service.go:100-133 | one result per listed plugin declaring the hook, in registry order, each with the error `Outcome` names against the table at the start; requests go exactly to the hooked plugins that are up and reachable, in registry order, with the promised parameters |
| HookDispatch.Dispatch | internal/app/hook/service.go:91-136 | a registry that cannot be listed gives the single registry-error result and touches no plugin; otherwise one result per plugin declaring the hook, in registry order, each failing exactly when `Outcome` says so, and exactly the hooked plugins that are up and reachable are called, once each, with the hook's name and the promised parameters |
| HookDispatch.RunPluginHooks | internal/app/hook/service.go:91-136 | the results of dispatching the hook with per-plugin configurations, answers cleaned |
| HookDispatch.RunPluginHooksWithPayload | internal/app/hook/service.go:157-195 | the results of dispatching the hook with the same payload for every plugin, answers kept raw |
| HookDispatch.RunShellHooks | internal/app/hook/service.go:81-89 | no error iff every command succeeds; otherwise the error names the hook and the 1-based position of the first failing command, and exactly the commands up to it ran |
| HookDispatch.RunHook | internal/app/hook/service.go:72-79 | a failing shell command is the error, with no results and no plugin woken or called; otherwise the plugin results of the hook, cleaned |
| AppLog.PayloadShape | internal/app/log/service.go:57-125 | every log payload holds exactly two keys, the text (under `error`, `warning` or `message`) and the context (under `source` for information and success, `context` otherwise), and no configuration; errors go to `on_error`, information and success to `on_message` |
| AppLog.ProjectNameFromCwd | internal/app/log/service.go:137-147 | no working directory gives the empty name; otherwise the name is non-empty and a single path element ("/" for the root) |
| AppLog.LogService.constructor | internal/app/log/service.go:39-44 | a new service is named after the working directory and has printed and sent nothing |
| AppLog.LogService.SetProject | internal/app/log/service.go:46-48 | the project name is stored trimmed and nothing is printed or sent |
| AppLog.LogService.Send | internal/app/log/service.go:56-61 | a payload reaches the hook runner exactly when there is one, as the payload stands |
| AppLog.LogService.Error | internal/app/log/service.go:50-63 | no error prints and sends nothing; otherwise one ERROR line on standard error and, with a runner, one `on_error` payload with the error and the context; the error is returned unchanged |
| AppLog.LogService.ErrorMsg | internal/app/log/service.go:65-75 | one ERROR line on standard error and, with a runner, one `on_error` payload with the message and the context |
| AppLog.LogService.Warn | internal/app/log/service.go:77-89 | a WARN line on standard error only with verbose output on, and with a runner one `on_warning` payload in every case |
| AppLog.LogService.Info | internal/app/log/service.go:91-101 | one INFO line on standard output and, with a runner, one `on_message` payload with the message and the context as its source |
| AppLog.LogService.Success | internal/app/log/service.go:103-113 | one OK line on standard output and, with a runner, one `on_message` payload like `Info`'s |
| AppLog.LogService.Debug | internal/app/log/service.go:115-127 | a DEBUG line on standard output only with verbose output on, and with a runner one `on_debug` payload in every case |
| AppLog.LogService.Log | internal/app/log/service.go:50-127 | every call prints one line exactly when its level prints (warnings and debug only with verbose output), on its stream with its label, and sends one payload exactly when there is a runner |

## Left out

- Sockets, processes and time are not modelled: `net.DialTimeout`, `waitForSocket`, `isAlive`, `callShutdown`, `exec.Command`, the deadlines and the polling. The host takes their outcomes from a `World` of oracles: liveness, start, socket readiness, connection and the plugin's answer.
- The `sync.RWMutex` of the plugin host, and concurrency in general: every operation is modelled as running alone.
- `WakeupAsync`, `Ping`, adopting a live socket nobody tracks, and rejecting a manifest without a name: the code does none of these, so the model does not either. `Wakeup` spawns `python3 main.py <socket>` whatever the manifest says, as the code does.
- JSON and YAML encoding and decoding are not modelled. A file is given as missing, unreadable, malformed or the decoded value. A save followed by a load is the identity.
- Filesystem persistence is not modelled: creating the registry, reading and writing files, `os.Stat`, `os.ReadDir`, the `.git` leaf test, `filepath.Abs` and `EvalSymlinks`. They are values and oracles, and `findConfigFile` is not part of this model.
- `Text.ToLower` and `Text.ToUpper` change ASCII letters only. Go's Unicode case mapping of other letters is not modelled.
- `fmt.Sprintf` formatting: the log service takes the formatted message as its input. The colours, icons and the exact text printed are not modelled, only the stream, the label and the message.
- `AppLog.LogService.Warn`, `AppLog.LogService.Debug`: whether verbose output is on is a parameter rather than the infra logger's flag.
- `AppLog.ProjectNameFromCwd`: `filepath.Abs` is taken as the identity on the working directory. Its failure falls back to the same base name, so only the `Abs` of a relative working directory is lost.
- `PluginHost.PluginService.RunHook`: the results are stated by their keys, one per plugin declaring the hook, and not by the value recorded for each plugin.
- `PluginHost.PluginService.IsRunning` is a predicate on the table and the liveness oracle. It has no contract of its own.
- The printing of cleaned responses in `runPluginHooks` is not modelled.
- internal/util/repo.go is not part of this model, because it depends on `url.Parse`.
- The command line and orchestration (cmd/workforge/main.go, main.go, internal/cli, internal/app/orchestrator.go) are not part of this model.
- The shell, tmux and git process wrappers are not part of this model: only the arguments built for `git` are.
- Profiles.RunHooks: the `logFn` call that reports each command before it runs is not modelled, and the error is the failing command's position without the label and the shell's error text around it.

## Findings

| source | as written | input that shows it | evidently intended | confidence | as-written member | corrected member |
|---|---|---|---|---|---|---|
| internal/app/project/service.go:215 | a failed load is replaced by an empty map, but a registry file holding `null` loads without error to a nil map, and assigning into a nil map panics | a registry file whose content is `null`, then `AddProject` (the same holds for `AddLeaf` and the other two service copies) | treat the nil map like the empty map it reads as, and add the project | not executed | ProjectService.NullRegistryPanics | ProjectService.Upsert |
| config/wfconfig.go:119-121 | a path is under a worktree base when it starts with the cleaned base followed by a separator; for the base "/" the prefix is "//", which no clean path starts with | a worktree project registered at "/" and the path `/src` | every path strictly below the base is recognised, including the children of "/" | not executed | LegacyConfig.RootBaseMissesChildren | LegacyConfig.IsGitWorktreeSpec |
