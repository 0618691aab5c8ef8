/**
 * The pure parts of the git wrapper (internal/infra/git/git.go): the directory name of a new
 * worktree, the branch reference, and the argument lists handed to `git`. Running `git`
 * is outside the model; its answers are inputs.
 */
module Git {
  import opened Wrappers
  import opened Text
  import opened Paths

  /** The branch name with surrounding '/' and spaces removed, or the trimmed name when that is empty. */
  function LeafSource(name: string): string {
    var cleaned := TrimSpace(TrimChar(name, '/'));
    if cleaned == "" then TrimSpace(name) else cleaned
  }

  /**
   * `worktreeLeafName`: a directory name for a branch: '/' becomes '-', runs of white space
   * become single '-', and an empty result becomes `worktree`.
   */
  function WorktreeLeafName(name: string): (r: string)
    ensures r != ""
    ensures '/' !in r && NoSpace(r)
  {
    var joined := Sanitize(LeafSource(name));
    if joined == "" then FallbackLeafName(); FallbackLeaf else joined
  }

  /** The leaf name used when a branch name sanitises to nothing. */
  const FallbackLeaf: string := "worktree"

  /** The fallback is itself a valid leaf name. */
  lemma FallbackLeafName()
    ensures '/' !in FallbackLeaf && NoSpace(FallbackLeaf)
  {
    assert forall i :: 0 <= i < |FallbackLeaf| ==> 'a' <= FallbackLeaf[i] <= 'z';
  }

  /** '/' replaced by '-', then the white-space-separated fields joined with '-'. */
  function Sanitize(s: string): (r: string)
    ensures '/' !in r && NoSpace(r)
  {
    var replaced := ReplaceChar(s, '/', '-');
    NoSlashJoin(replaced);
    JoinWith(Fields(replaced), '-')
  }

  /** Joining the fields of a slash-free text with '-' gives a slash-free, space-free text. */
  lemma NoSlashJoin(s: string)
    requires '/' !in s
    ensures '/' !in JoinWith(Fields(s), '-') && NoSpace(JoinWith(Fields(s), '-'))
  {
    var parts := Fields(s);
    var j := JoinWith(parts, '-');
    forall k | 0 <= k < |j| ensures j[k] != '/' && !IsSpace(j[k]) {
      JoinWithChars(parts, '-', k);
    }
  }

  /** A name that is already a clean directory name is kept as it is. */
  lemma LeafNameOfPlain(n: string)
    requires n != "" && '/' !in n && NoSpace(n)
    ensures WorktreeLeafName(n) == n
  {
    assert TrimChar(n, '/') == n;
    TrimSpaceFixed(n);
    assert LeafSource(n) == n;
    assert ReplaceChar(n, '/', '-') == n;
    FieldsNoSpace(n);
    assert Sanitize(n) == n;
  }

  /** Sanitising twice is sanitising once. */
  lemma LeafNameIdempotent(name: string)
    ensures WorktreeLeafName(WorktreeLeafName(name)) == WorktreeLeafName(name)
  {
    LeafNameOfPlain(WorktreeLeafName(name));
  }

  /** `worktreeFolderName`: the leaf directory next to the current one. */
  function WorktreeFolderName(name: string): (r: string)
    ensures r != ""
  {
    Join(["..", WorktreeLeafName(name)])
  }

  /** The folder is `../<leaf>`, a sibling of the current directory, unless the leaf is `.` or `..`. */
  lemma FolderNameShape(name: string)
    requires WorktreeLeafName(name) != "." && WorktreeLeafName(name) != ".."
    ensures WorktreeFolderName(name) == "../" + WorktreeLeafName(name)
    ensures Base(WorktreeFolderName(name)) == WorktreeLeafName(name)
    ensures Dir(WorktreeFolderName(name)) == ".."
  {
    var leaf := WorktreeLeafName(name);
    JoinChild("..", leaf);
    JoinAsAppend("..", leaf);
    CleanNamesParent();
  }

  /** The path `..` cleans to the single name `..`. */
  lemma CleanNamesParent()
    ensures CleanNames("..") == [".."] && Clean("..") == ".."
    ensures DirPrefix("..") == "../"
  {
    SplitNoSep("..", '/');
  }

  /** The branch reference: trimmed of '/' and spaces, or the raw branch when that leaves nothing. */
  function BranchRef(branch: string): (r: string)
    ensures r == "" <==> branch == ""
  {
    var t := TrimChar(branch, '/');
    var b := TrimSpace(t);
    assert |b| <= |t| <= |branch|;
    if b == "" then branch else b
  }

  /** A branch name without surrounding '/' or spaces is its own reference. */
  lemma BranchRefPlain(branch: string)
    requires branch != []
    requires branch[0] != '/' && branch[|branch| - 1] != '/'
    requires !IsSpace(branch[0]) && !IsSpace(branch[|branch| - 1])
    ensures BranchRef(branch) == branch
  {
    assert TrimChar(branch, '/') == branch;
    TrimSpaceFixed(branch);
  }

  /**
   * `runGitCommand`: the arguments given to `git`, prefixed with `-C <path>` exactly when the
   * path is not blank. The command's own arguments always come last, unchanged.
   */
  function GitArgs(worktreePath: string, args: seq<string>): (r: seq<string>)
    ensures |r| >= |args| && r[|r| - |args|..] == args
    ensures |r| > |args| <==> TrimSpace(worktreePath) != ""
    ensures |r| > |args| ==> |r| == |args| + 2 && r[..2] == ["-C", worktreePath]
  {
    if TrimSpace(worktreePath) == "" then args else ["-C", worktreePath] + args
  }

  /** What `git show-ref --verify` reported: the branch exists (exit 0), not (exit 1), or a failure. */
  datatype ShowRef = Present | Absent | ProbeFailed

  /** Failures of the worktree operations. */
  datatype GitError = EmptyBranch | CheckFailed(branch: string) | AddFailed

  /**
   * `branchExists`: a blank branch is an error and runs nothing; otherwise `show-ref` is run
   * for `refs/heads/<branch>` and its exit status decides. `args` is what was run.
   */
  method BranchExists(worktreePath: string, branch: string, probe: ShowRef) returns (args: seq<string>, r: Result<bool, GitError>)
    ensures TrimSpace(branch) == "" ==> args == [] && r == Err(EmptyBranch)
    ensures TrimSpace(branch) != "" ==>
      && args == GitArgs(worktreePath, ["show-ref", "--verify", "--quiet", "refs/heads/" + TrimSpace(branch)])
      && (r.Ok? <==> !probe.ProbeFailed?)
      && (r.Ok? ==> r.value == probe.Present?)
      && (r.Err? ==> r.error == CheckFailed(TrimSpace(branch)))
  {
    var b := TrimSpace(branch);
    if b == "" {
      return [], Err(EmptyBranch);
    }
    args := GitArgs(worktreePath, ["show-ref", "--verify", "--quiet", "refs/heads/" + b]);
    match probe {
      case Present => r := Ok(true);
      case Absent => r := Ok(false);
      case ProbeFailed => r := Err(CheckFailed(b));
    }
  }

  /** The base of a new branch: the given one unless blank, then `main`. */
  function BaseBranch(baseBranch: string): string {
    if TrimSpace(baseBranch) == "" then "main" else baseBranch
  }

  /** The base is never blank: a blank one is replaced by `main`, any other kept as given. */
  lemma BaseBranchNotBlank(baseBranch: string)
    ensures TrimSpace(BaseBranch(baseBranch)) != ""
    ensures TrimSpace(baseBranch) != "" ==> BaseBranch(baseBranch) == baseBranch
  {
    if TrimSpace(baseBranch) == "" {
      TrimSpaceFixed("main");
    }
  }

  /** The arguments of `git worktree add`, creating the branch from its base when `newBranch`. */
  function AddArgs(branch: string, newBranch: bool, baseBranch: string): seq<string> {
    ["worktree", "add", WorktreeFolderName(branch)]
      + (if newBranch then ["-b", BranchRef(branch), BaseBranch(baseBranch)] else [BranchRef(branch)])
  }

  /**
   * The argument selection of `AddWorkTree`: when asked to create the branch, first checks
   * whether it exists (`probed` holds that `git` call), and asks for a new branch
   * `-b <ref> <base>` only when it does not.
   */
  method SelectAddArgs(worktreePath: string, branch: string, createBranch: bool, baseBranch: string,
                       probe: ShowRef) returns (probed: seq<seq<string>>, r: Result<seq<string>, GitError>)
    ensures r.Ok? <==> !createBranch || (TrimSpace(BranchRef(branch)) != "" && !probe.ProbeFailed?)
    ensures r.Ok? ==> r.value == AddArgs(branch, createBranch && probe.Absent?, baseBranch)
    ensures r.Err? ==> r.error == if TrimSpace(BranchRef(branch)) == "" then EmptyBranch else CheckFailed(TrimSpace(BranchRef(branch)))
    ensures |probed| == if createBranch && TrimSpace(BranchRef(branch)) != "" then 1 else 0
  {
    var folder := WorktreeFolderName(branch);
    var ref := BranchRef(branch);
    var args := ["worktree", "add", folder] + [ref];
    probed := [];
    if createBranch {
      var probeArgs, found := BranchExists(worktreePath, ref, probe);
      if found.Err? {
        if probeArgs != [] {
          probed := [probeArgs];
        }
        return probed, Err(found.error);
      }
      probed := [probeArgs];
      if !found.value {
        args := ["worktree", "add", folder] + ["-b", ref, BaseBranch(baseBranch)];
      }
    }
    r := Ok(args);
  }

  /**
   * `AddWorkTree`: the `git` calls made, in order (the existence check when creating a branch,
   * then `worktree add`), and the error. `addOk` is whether `git worktree add` succeeds.
   */
  method AddWorkTree(worktreePath: string, branch: string, createBranch: bool, baseBranch: string,
                     probe: ShowRef, addOk: bool) returns (commands: seq<seq<string>>, err: Option<GitError>)
    ensures createBranch && TrimSpace(BranchRef(branch)) == "" ==> commands == [] && err == Some(EmptyBranch)
    ensures createBranch && TrimSpace(BranchRef(branch)) != "" && probe.ProbeFailed? ==>
      |commands| == 1 && err == Some(CheckFailed(TrimSpace(BranchRef(branch))))
    ensures !createBranch || (TrimSpace(BranchRef(branch)) != "" && !probe.ProbeFailed?) ==>
      && |commands| == (if createBranch then 2 else 1)
      && commands[|commands| - 1] == GitArgs(worktreePath, AddArgs(branch, createBranch && probe.Absent?, baseBranch))
      && err == (if addOk then None else Some(AddFailed))
  {
    var probed, args := SelectAddArgs(worktreePath, branch, createBranch, baseBranch, probe);
    if args.Err? {
      return probed, Some(args.error);
    }
    commands := probed + [GitArgs(worktreePath, args.value)];
    err := if addOk then None else Some(AddFailed);
  }

  /** A new branch is requested (`-b`, six arguments) exactly when asked for and absent. */
  lemma AddArgsNewBranch(branch: string, newBranch: bool, baseBranch: string)
    ensures var add := AddArgs(branch, newBranch, baseBranch);
      (|add| == 6 <==> newBranch) && (newBranch ==> add[3] == "-b" && TrimSpace(add[5]) != "")
  {
    BaseBranchNotBlank(baseBranch);
  }
}
