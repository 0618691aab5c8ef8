/**
 * The project registry of internal/registry/store.go: a JSON map from names to projects, the
 * tag algebra on it, the listing that expands worktree bases into their leaves, and the
 * filters and lookups on that listing. The registry file and the directories the listing
 * reads are values passed in.
 */
module ProjectRegistry {
  import opened Wrappers
  import opened Text
  import opened Sorting
  import opened Paths

  /** A registered project; `tags` is left out of the JSON when empty. */
  datatype Project = Project(name: string, path: string, gitWorkTree: bool, tags: seq<string>)

  type Projects = map<string, Project>

  /** A listed project, with whether it came from a worktree base (`IsGWT`). */
  datatype ProjectEntry = ProjectEntry(project: Project, isGWT: bool)

  datatype FilterOptions = FilterOptions(onlyGWT: bool, onlyProjects: bool, tags: seq<string>)

  datatype RegistryError =
    | ReadFailed
    | ParseFailed
    | WriteFailed
    | EmptyName
    | NotFound(name: string)
    | BothFilters
    | UnreadableWorktree(path: string)

  /**
   * The registry file as `encoding/json` decodes it into a `Projects` map: unreadable, blank
   * (the empty file `EnsureRegistry` creates, which is not JSON), the literal `null` (a nil
   * map), any other text that is not an object of projects, or a map.
   */
  datatype RegistryFile = Unreadable | Blank | Null | Malformed | Stored(projects: Projects)

  /** `LoadProjects`: `None` is Go's nil map, which reads as empty but cannot be assigned to. */
  function LoadProjects(file: RegistryFile): (r: Result<Option<Projects>, RegistryError>)
    ensures r.Ok? <==> file.Null? || file.Stored?
    ensures r.Err? ==> r.error == (if file.Unreadable? then ReadFailed else ParseFailed)
    ensures file.Stored? ==> r == Ok(Some(file.projects))
  {
    match file
    case Unreadable => Err(ReadFailed)
    case Blank => Err(ParseFailed)
    case Null => Ok(None)
    case Malformed => Err(ParseFailed)
    case Stored(projects) => Ok(Some(projects))
  }

  /** `SaveProjects`: a nil map is written as `null`; whatever is written loads back unchanged. */
  function SaveProjects(projects: Option<Projects>): (file: RegistryFile)
    ensures LoadProjects(file) == Ok(projects)
  {
    if projects.None? then Null else Stored(projects.value)
  }

  /** The entries of a loaded map, a nil map having none. */
  function Entries(loaded: Option<Projects>): Projects {
    if loaded.None? then map[] else loaded.value
  }

  // ---------------------------------------------------------------------------------------
  // Tags
  // ---------------------------------------------------------------------------------------

  /** One tag as `normalizeTags` rewrites it: lower-cased, then trimmed. */
  function NormalizeTag(tag: string): string {
    TrimSpace(ToLower(tag))
  }

  /** A tag that normalising leaves as it is and does not drop. */
  predicate IsNormalTag(tag: string) {
    tag != "" && NormalizeTag(tag) == tag
  }

  /** Normalising a tag twice is normalising it once. */
  lemma NormalizeTagIdempotent(tag: string)
    ensures NormalizeTag(NormalizeTag(tag)) == NormalizeTag(tag)
  {
    var l := ToLower(tag);
    LowerNoUpper(tag);
    TrimSpaceNoUpper(l);
    LowerFixed(TrimSpace(l));
    TrimSpaceFixed(TrimSpace(l));
  }

  /** Each string mapped by `f`, the empty results dropped, the rest in input order. */
  function MapNonEmpty(s: seq<string>, f: string -> string): (r: seq<string>)
    ensures |r| <= |s|
  {
    if s == [] then []
    else MapNonEmpty(s[..|s| - 1], f) + (if f(s[|s| - 1]) == "" then [] else [f(s[|s| - 1])])
  }

  lemma {:induction false} MapNonEmptyAppend(a: seq<string>, b: seq<string>, f: string -> string)
    ensures MapNonEmpty(a + b, f) == MapNonEmpty(a, f) + MapNonEmpty(b, f)
  {
    if b == [] {
      assert a + b == a;
    } else {
      var b' := b[..|b| - 1];
      MapNonEmptyAppend(a, b', f);
      assert (a + b)[..|a + b| - 1] == a + b';
    }
  }

  lemma {:induction false} MapNonEmptyMember(s: seq<string>, f: string -> string, t: string)
    ensures t in MapNonEmpty(s, f) <==> t != "" && exists i :: 0 <= i < |s| && f(s[i]) == t
  {
    if s != [] {
      var init := s[..|s| - 1];
      MapNonEmptyMember(init, f, t);
      if exists i :: 0 <= i < |init| && f(init[i]) == t {
        var i :| 0 <= i < |init| && f(init[i]) == t;
        assert s[i] == init[i];
      }
      if exists i :: 0 <= i < |s| && f(s[i]) == t {
        var i :| 0 <= i < |s| && f(s[i]) == t;
        if i < |init| {
          assert init[i] == s[i];
        }
      }
    }
  }

  lemma {:induction false} MapNonEmptyIdempotent(s: seq<string>, f: string -> string)
    requires forall x :: f(f(x)) == f(x)
    ensures MapNonEmpty(MapNonEmpty(s, f), f) == MapNonEmpty(s, f)
  {
    if s != [] {
      var n := MapNonEmpty(s[..|s| - 1], f);
      var last := f(s[|s| - 1]);
      MapNonEmptyIdempotent(s[..|s| - 1], f);
      if last == "" {
        assert MapNonEmpty(s, f) == n;
      } else {
        MapNonEmptyAppend(n, [last], f);
        assert f(last) == last;
        assert [last][..0] == [];
        assert MapNonEmpty([last], f) == [last];
      }
    }
  }

  /** What `normalizeTags` returns: each tag normalised, the empty ones dropped, order kept. */
  function NormalizedTags(tags: seq<string>): (r: seq<string>)
    ensures |r| <= |tags|
  {
    MapNonEmpty(tags, NormalizeTag)
  }

  /** `normalizeTags`. */
  method NormalizeTags(tags: seq<string>) returns (out: seq<string>)
    ensures out == NormalizedTags(tags)
  {
    out := [];
    for i := 0 to |tags|
      invariant out == MapNonEmpty(tags[..i], NormalizeTag)
    {
      var tag := TrimSpace(ToLower(tags[i]));
      assert tags[..i + 1][..i] == tags[..i];
      if tag != "" {
        out := out + [tag];
      }
    }
    assert tags[..|tags|] == tags;
  }

  /** Every normalised tag is non-empty and already in normal form. */
  lemma NormalizedTagsNormal(tags: seq<string>)
    ensures forall t :: t in NormalizedTags(tags) ==> IsNormalTag(t)
  {
    forall t | t in NormalizedTags(tags) ensures IsNormalTag(t) {
      MapNonEmptyMember(tags, NormalizeTag, t);
      var i :| 0 <= i < |tags| && NormalizeTag(tags[i]) == t;
      NormalizeTagIdempotent(tags[i]);
    }
  }

  /** Normalising distributes over concatenation: the order of the input is kept. */
  lemma NormalizedTagsAppend(a: seq<string>, b: seq<string>)
    ensures NormalizedTags(a + b) == NormalizedTags(a) + NormalizedTags(b)
  {
    MapNonEmptyAppend(a, b, NormalizeTag);
  }

  /** A tag survives normalisation exactly when it is the non-empty normal form of an input tag. */
  lemma NormalizedTagsMember(tags: seq<string>, t: string)
    ensures t in NormalizedTags(tags) <==> t != "" && exists i :: 0 <= i < |tags| && NormalizeTag(tags[i]) == t
  {
    MapNonEmptyMember(tags, NormalizeTag, t);
  }

  /** Normalised tags are left alone by a second normalisation. */
  lemma NormalizedTagsIdempotent(tags: seq<string>)
    ensures NormalizedTags(NormalizedTags(tags)) == NormalizedTags(tags)
  {
    forall x ensures NormalizeTag(NormalizeTag(x)) == NormalizeTag(x) {
      NormalizeTagIdempotent(x);
    }
    MapNonEmptyIdempotent(tags, NormalizeTag);
  }

  /** Every required tag is among the entry's tags. */
  predicate HasAllTags(entryTags: seq<string>, required: seq<string>) {
    forall t :: t in required ==> t in entryTags
  }

  /** `matchesTags`: builds the entry's tag set, then looks every required tag up in it. */
  method MatchesTags(entryTags: seq<string>, required: seq<string>) returns (b: bool)
    ensures b <==> HasAllTags(entryTags, required)
  {
    if |required| == 0 {
      return true;
    }
    var tagSet: set<string> := {};
    for i := 0 to |entryTags|
      invariant forall t :: t in tagSet <==> t in entryTags[..i]
    {
      assert entryTags[..i + 1] == entryTags[..i] + [entryTags[i]];
      tagSet := tagSet + {entryTags[i]};
    }
    assert entryTags[..|entryTags|] == entryTags;
    for i := 0 to |required|
      invariant forall j :: 0 <= j < i ==> required[j] in tagSet
    {
      if required[i] !in tagSet {
        return false;
      }
    }
    return true;
  }

  /** The tags `applyTagUpdates` keeps: those current or added, less those removed. */
  function UpdatedTags(current: seq<string>, add: seq<string>, remove: seq<string>): set<string> {
    (set t | t in current) + (set t | t in add) - (set t | t in remove)
  }

  /**
   * `applyTagUpdates`: the updated tag set as a sorted list without duplicates; the empty
   * list (Go's nil) when no tag is left.
   */
  method ApplyTagUpdates(current: seq<string>, add: seq<string>, remove: seq<string>) returns (r: seq<string>)
    ensures StrictlySorted(r)
    ensures forall t :: t in r <==> t in UpdatedTags(current, add, remove)
  {
    var tagSet: set<string> := {};
    for i := 0 to |current|
      invariant forall t :: t in tagSet <==> t in current[..i]
    {
      assert current[..i + 1] == current[..i] + [current[i]];
      tagSet := tagSet + {current[i]};
    }
    assert current[..|current|] == current;
    for i := 0 to |add|
      invariant forall t :: t in tagSet <==> t in current || t in add[..i]
    {
      assert add[..i + 1] == add[..i] + [add[i]];
      tagSet := tagSet + {add[i]};
    }
    assert add[..|add|] == add;
    for i := 0 to |remove|
      invariant forall t :: t in tagSet <==> (t in current || t in add) && t !in remove[..i]
    {
      assert remove[..i + 1] == remove[..i] + [remove[i]];
      tagSet := tagSet - {remove[i]};
    }
    assert remove[..|remove|] == remove;
    if |tagSet| == 0 {
      return [];
    }
    var updated: seq<string> := [];
    var rest := tagSet;
    while rest != {}
      invariant rest <= tagSet
      invariant Distinct(updated)
      invariant forall t :: t in updated <==> t in tagSet && t !in rest
      decreases |rest|
    {
      var t :| t in rest;
      updated := updated + [t];
      rest := rest - {t};
    }
    r := SortStrings(updated);
    DistinctPerm(updated, r);
    forall t ensures t in r <==> t in updated {
      assert t in r <==> t in multiset(r);
      assert t in updated <==> t in multiset(updated);
    }
  }

  /**
   * A sorted list without duplicates is determined by its elements: whatever order Go's map
   * iteration hands the tags to `applyTagUpdates` in, the stored list is the same.
   */
  lemma StrictlySortedUnique(a: seq<string>, b: seq<string>)
    requires StrictlySorted(a) && StrictlySorted(b)
    requires forall t :: t in a <==> t in b
    ensures a == b
  {
    DistinctCount(a);
    DistinctCount(b);
    assert multiset(a) == multiset(b) by {
      forall t ensures multiset(a)[t] == multiset(b)[t] {
        assert t in a <==> t in multiset(a);
        assert t in b <==> t in multiset(b);
      }
    }
    SortedUnique(a, b);
  }

  // ---------------------------------------------------------------------------------------
  // Filtering
  // ---------------------------------------------------------------------------------------

  /** Whether `FilterProjectEntries` keeps an entry, given the normalised required tags. */
  predicate Keep(e: ProjectEntry, opts: FilterOptions, required: seq<string>) {
    && (!opts.onlyGWT || e.isGWT)
    && (!opts.onlyProjects || !e.isGWT)
    && (required == [] || HasAllTags(NormalizedTags(e.project.tags), required))
  }

  /** The elements of `s` satisfying `keep`, in order. */
  function Filter<T>(s: seq<T>, keep: T -> bool): (r: seq<T>)
    ensures |r| <= |s|
  {
    if s == [] then []
    else Filter(s[..|s| - 1], keep) + (if keep(s[|s| - 1]) then [s[|s| - 1]] else [])
  }

  /** The entries `FilterProjectEntries` keeps, in input order. */
  function Kept(entries: seq<ProjectEntry>, opts: FilterOptions, required: seq<string>): (r: seq<ProjectEntry>)
    ensures |r| <= |entries|
  {
    Filter(entries, e => Keep(e, opts, required))
  }

  /** `a` is `b` with some elements left out, the rest in their order. */
  predicate Subseq<T(==)>(a: seq<T>, b: seq<T>)
    decreases |b|
  {
    if a == [] then true
    else if b == [] then false
    else (a[|a| - 1] == b[|b| - 1] && Subseq(a[..|a| - 1], b[..|b| - 1])) || Subseq(a, b[..|b| - 1])
  }

  lemma {:induction false} FilterSubseq<T>(s: seq<T>, keep: T -> bool)
    ensures Subseq(Filter(s, keep), s)
  {
    if s != [] {
      var init := s[..|s| - 1];
      FilterSubseq(init, keep);
      var k := Filter(init, keep);
      if keep(s[|s| - 1]) {
        var r := k + [s[|s| - 1]];
        assert r[..|r| - 1] == k;
        assert Filter(s, keep) == r;
      } else {
        assert Filter(s, keep) == k;
      }
    }
  }

  lemma {:induction false} FilterMember<T>(s: seq<T>, keep: T -> bool, x: T)
    ensures x in Filter(s, keep) <==> x in s && keep(x)
  {
    if s != [] {
      FilterMember(s[..|s| - 1], keep, x);
      assert s == s[..|s| - 1] + [s[|s| - 1]];
    }
  }

  lemma {:induction false} FilterIdempotent<T>(s: seq<T>, keep: T -> bool)
    ensures Filter(Filter(s, keep), keep) == Filter(s, keep)
  {
    if s != [] {
      var init := s[..|s| - 1];
      var k := Filter(init, keep);
      FilterIdempotent(init, keep);
      if keep(s[|s| - 1]) {
        var r := k + [s[|s| - 1]];
        assert r[..|r| - 1] == k;
        assert Filter(s, keep) == r;
      } else {
        assert Filter(s, keep) == k;
      }
    }
  }

  /** Filtering keeps the input order. */
  lemma KeptSubseq(entries: seq<ProjectEntry>, opts: FilterOptions, required: seq<string>)
    ensures Subseq(Kept(entries, opts, required), entries)
  {
    FilterSubseq(entries, e => Keep(e, opts, required));
  }

  /** An entry is kept exactly when it is in the input and passes the filter. */
  lemma KeptMember(entries: seq<ProjectEntry>, opts: FilterOptions, required: seq<string>, e: ProjectEntry)
    ensures e in Kept(entries, opts, required) <==> e in entries && Keep(e, opts, required)
  {
    FilterMember(entries, e => Keep(e, opts, required), e);
  }

  /**
   * `FilterProjectEntries`: asking for worktrees only and for plain projects only at once is
   * an error; otherwise the entries passing the kind and tag filters, in order.
   */
  method FilterProjectEntries(entries: seq<ProjectEntry>, opts: FilterOptions) returns (r: Result<seq<ProjectEntry>, RegistryError>)
    ensures r.Err? <==> opts.onlyGWT && opts.onlyProjects
    ensures r.Err? ==> r.error == BothFilters
    ensures r.Ok? ==> r.value == Kept(entries, opts, NormalizedTags(opts.tags))
  {
    if opts.onlyGWT && opts.onlyProjects {
      return Err(BothFilters);
    }
    var filtered: seq<ProjectEntry> := [];
    var requiredTags := NormalizeTags(opts.tags);
    for i := 0 to |entries|
      invariant filtered == Kept(entries[..i], opts, requiredTags)
    {
      var entry := entries[i];
      assert entries[..i + 1][..i] == entries[..i];
      if opts.onlyGWT && !entry.isGWT {
        continue;
      }
      if opts.onlyProjects && entry.isGWT {
        continue;
      }
      if |requiredTags| > 0 {
        var entryTags := NormalizeTags(entry.project.tags);
        var ok := MatchesTags(entryTags, requiredTags);
        if !ok {
          continue;
        }
      }
      filtered := filtered + [entry];
    }
    assert entries[..|entries|] == entries;
    return Ok(filtered);
  }

  // ---------------------------------------------------------------------------------------
  // Tag updates
  // ---------------------------------------------------------------------------------------

  /**
   * `updateProjectTags` on a registry file: the name must be non-empty, the file must load
   * and hold the project; the project's normalised tags are updated and the map is written
   * back (`saveOk` is whether the write succeeds). `written` is the file written, if any.
   */
  method UpdateProjectTags(name: string, addTags: seq<string>, removeTags: seq<string>, file: RegistryFile, saveOk: bool)
    returns (written: Option<RegistryFile>, err: Option<RegistryError>)
    ensures name == "" ==> written == None && err == Some(EmptyName)
    ensures name != "" && LoadProjects(file).Err? ==> written == None && err == Some(LoadProjects(file).error)
    ensures name != "" && LoadProjects(file).Ok? && name !in Entries(LoadProjects(file).value) ==>
      written == None && err == Some(NotFound(name))
    ensures written.Some? ==> name != "" && file.Stored? && name in file.projects
    ensures name != "" && file.Stored? && name in file.projects ==>
      && written.Some? && written.value.Stored?
      && err == (if saveOk then None else Some(WriteFailed))
      && TagsUpdated(file.projects, written.value.projects, name, addTags, removeTags)
  {
    if name == "" {
      return None, Some(EmptyName);
    }
    var loaded := LoadProjects(file);
    if loaded.Err? {
      return None, Some(loaded.error);
    }
    var projects := Entries(loaded.value);
    if name !in projects {
      return None, Some(NotFound(name));
    }
    var project := projects[name];
    var current := NormalizeTags(project.tags);
    var added := NormalizeTags(addTags);
    var removed := NormalizeTags(removeTags);
    var updated := ApplyTagUpdates(current, added, removed);
    project := project.(tags := updated);
    projects := projects[name := project];
    written := Some(SaveProjects(Some(projects)));
    err := if saveOk then None else Some(WriteFailed);
  }

  /**
   * `after` is `before` with only `name`'s tags changed, to the sorted, duplicate-free list
   * of the normalised current and added tags less the normalised removed ones.
   */
  ghost predicate TagsUpdated(before: Projects, after: Projects, name: string, addTags: seq<string>, removeTags: seq<string>)
    requires name in before
  {
    && after.Keys == before.Keys
    && (forall k :: k in after && k != name ==> after[k] == before[k])
    && after[name] == before[name].(tags := after[name].tags)
    && StrictlySorted(after[name].tags)
    && (forall t :: t in after[name].tags <==>
          t in UpdatedTags(NormalizedTags(before[name].tags), NormalizedTags(addTags), NormalizedTags(removeTags)))
  }

  /** Added tags are present after an update, removed tags absent, in their normal form. */
  lemma TagsUpdatedMembers(before: Projects, after: Projects, name: string, addTags: seq<string>, removeTags: seq<string>, t: string)
    requires name in before && TagsUpdated(before, after, name, addTags, removeTags)
    ensures t in NormalizedTags(removeTags) ==> t !in after[name].tags
    ensures t in NormalizedTags(addTags) && t !in NormalizedTags(removeTags) ==> t in after[name].tags
    ensures t in after[name].tags ==> IsNormalTag(t)
  {
    if t in after[name].tags {
      NormalizedTagsNormal(before[name].tags);
      NormalizedTagsNormal(addTags);
    }
  }

  // ---------------------------------------------------------------------------------------
  // Expanded listing
  // ---------------------------------------------------------------------------------------

  /** One entry of a directory listing. */
  datatype DirEntry = DirEntry(name: string, isDir: bool)

  /**
   * What the listing reads from the disk: the paths that are worktree leaves (their `.git`
   * is a file) and the listing of each readable directory.
   */
  datatype FileSystem = FileSystem(leaves: set<string>, listings: map<string, seq<DirEntry>>)

  /** One assignment `out[key] = project; hitmap[key] = hit` the expansion makes. */
  datatype Contribution = Contribution(key: string, project: Project, hit: bool)

  /** The entry made for a subdirectory `e` of the worktree base `p`. */
  function Child(p: Project, e: DirEntry): Contribution {
    var sub := p.name + "/" + e.name;
    Contribution(sub, Project(sub, Join([p.path, e.name]), false, []), true)
  }

  /** The entries made for the subdirectories among `es`. */
  function ChildContribs(p: Project, es: seq<DirEntry>): set<Contribution> {
    if es == [] then {}
    else ChildContribs(p, es[..|es| - 1]) + (if es[|es| - 1].isDir then {Child(p, es[|es| - 1])} else {})
  }

  /** `p` is a worktree base the listing must read (with `leafCheck`, one that is not a leaf). */
  predicate IsBase(p: Project, fs: FileSystem, leafCheck: bool) {
    p.gitWorkTree && !(leafCheck && p.path in fs.leaves)
  }

  /** A worktree base whose directory cannot be read: the whole expansion fails. */
  predicate Unlisted(p: Project, fs: FileSystem, leafCheck: bool) {
    IsBase(p, fs, leafCheck) && p.path !in fs.listings
  }

  /**
   * The entries one registered project makes: a plain project itself (not a hit), a leaf
   * itself (a hit), a base one entry per subdirectory (hits) and none for itself.
   */
  function Contribs(p: Project, fs: FileSystem, leafCheck: bool): set<Contribution> {
    if !p.gitWorkTree then {Contribution(p.name, p, false)}
    else if !IsBase(p, fs, leafCheck) then {Contribution(p.name, p, true)}
    else if p.path !in fs.listings then {}
    else ChildContribs(p, fs.listings[p.path])
  }

  /** The entries the projects under `names` make. */
  ghost function AllContribs(base: Projects, fs: FileSystem, leafCheck: bool, names: set<string>): set<Contribution> {
    set n, c | n in names && n in base && c in Contribs(base[n], fs, leafCheck) :: c
  }

  /**
   * `out` and `hit` hold exactly the keys of `cs`, each with the project and hit flag of some
   * entry of `cs` for that key (when two entries share a key, Go's iteration order decides).
   */
  ghost predicate Covers(out: Projects, hit: map<string, bool>, cs: set<Contribution>) {
    && out.Keys == hit.Keys
    && (forall k :: k in out ==> Contribution(k, out[k], hit[k]) in cs)
    && (forall c :: c in cs ==> c.key in out)
  }

  lemma CoversAdd(out: Projects, hit: map<string, bool>, cs: set<Contribution>, c: Contribution)
    requires Covers(out, hit, cs)
    ensures Covers(out[c.key := c.project], hit[c.key := c.hit], cs + {c})
  {
  }

  lemma AllContribsAdd(base: Projects, fs: FileSystem, leafCheck: bool, names: set<string>, n: string)
    requires n in base
    ensures AllContribs(base, fs, leafCheck, names + {n}) == AllContribs(base, fs, leafCheck, names) + Contribs(base[n], fs, leafCheck)
  {
  }

  /** The inner loop of `ListProjectsExpanded`: one entry per subdirectory of a base. */
  method AddChildren(p: Project, entries: seq<DirEntry>, out: Projects, hitmap: map<string, bool>, ghost cs: set<Contribution>)
    returns (out': Projects, hitmap': map<string, bool>)
    requires Covers(out, hitmap, cs)
    ensures Covers(out', hitmap', cs + ChildContribs(p, entries))
  {
    out', hitmap' := out, hitmap;
    for j := 0 to |entries|
      invariant Covers(out', hitmap', cs + ChildContribs(p, entries[..j]))
    {
      assert entries[..j + 1][..j] == entries[..j];
      if entries[j].isDir {
        var c := Child(p, entries[j]);
        CoversAdd(out', hitmap', cs + ChildContribs(p, entries[..j]), c);
        out' := out'[c.key := c.project];
        hitmap' := hitmap'[c.key := c.hit];
      }
    }
    assert entries[..|entries|] == entries;
  }

  /** One turn of the outer loop of `ListProjectsExpanded`, for a project whose entries can be made. */
  method AddProject(p: Project, fs: FileSystem, leafCheck: bool, out: Projects, hitmap: map<string, bool>, ghost cs: set<Contribution>)
    returns (out': Projects, hitmap': map<string, bool>)
    requires Covers(out, hitmap, cs) && !Unlisted(p, fs, leafCheck)
    ensures Covers(out', hitmap', cs + Contribs(p, fs, leafCheck))
  {
    if !p.gitWorkTree {
      CoversAdd(out, hitmap, cs, Contribution(p.name, p, false));
      out', hitmap' := out[p.name := p], hitmap[p.name := false];
    } else if leafCheck && p.path in fs.leaves {
      CoversAdd(out, hitmap, cs, Contribution(p.name, p, true));
      out', hitmap' := out[p.name := p], hitmap[p.name := true];
    } else {
      out', hitmap' := AddChildren(p, fs.listings[p.path], out, hitmap, cs);
    }
  }

  /**
   * `ListProjectsExpanded` (with `leafCheck`, the variant that keeps leaves as they are):
   * fails exactly when some base's directory cannot be read, and otherwise returns the
   * entries the registered projects make.
   */
  method ListProjectsExpanded(base: Projects, fs: FileSystem, leafCheck: bool)
    returns (r: Result<(Projects, map<string, bool>), RegistryError>)
    ensures r.Err? <==> exists n :: n in base && Unlisted(base[n], fs, leafCheck)
    ensures r.Err? ==> exists n :: n in base && Unlisted(base[n], fs, leafCheck) && r.error == UnreadableWorktree(base[n].path)
    ensures r.Ok? ==> Covers(r.value.0, r.value.1, AllContribs(base, fs, leafCheck, base.Keys))
  {
    var out: Projects := map[];
    var hitmap: map<string, bool> := map[];
    var todo := base.Keys;
    ghost var done: set<string> := {};
    while todo != {}
      invariant todo <= base.Keys && done == base.Keys - todo
      invariant forall n :: n in done ==> !Unlisted(base[n], fs, leafCheck)
      invariant Covers(out, hitmap, AllContribs(base, fs, leafCheck, done))
      decreases |todo|
    {
      var n :| n in todo;
      var p := base[n];
      if p.gitWorkTree && !(leafCheck && p.path in fs.leaves) && p.path !in fs.listings {
        assert Unlisted(base[n], fs, leafCheck);
        return Err(UnreadableWorktree(p.path));
      }
      AllContribsAdd(base, fs, leafCheck, done, n);
      out, hitmap := AddProject(p, fs, leafCheck, out, hitmap, AllContribs(base, fs, leafCheck, done));
      todo := todo - {n};
      done := done + {n};
    }
    return Ok((out, hitmap));
  }

  /** An entry made by a registered project whose key no other entry shares. */
  ghost predicate UniqueKey(cs: set<Contribution>, c: Contribution) {
    c in cs && forall d :: d in cs && d.key == c.key ==> d == c
  }

  /** The listing holds every entry whose key is not shared, exactly as made. */
  lemma CoversUnique(out: Projects, hit: map<string, bool>, cs: set<Contribution>, c: Contribution)
    requires Covers(out, hit, cs) && UniqueKey(cs, c)
    ensures c.key in out && out[c.key] == c.project && hit[c.key] == c.hit
  {
    assert Contribution(c.key, out[c.key], hit[c.key]) in cs;
  }

  /** The entries a subdirectory listing makes: one per subdirectory, keyed `base/child`. */
  lemma ChildContribsMember(p: Project, es: seq<DirEntry>, c: Contribution)
    ensures c in ChildContribs(p, es) <==> exists i :: 0 <= i < |es| && es[i].isDir && c == Child(p, es[i])
  {
    if c in ChildContribs(p, es) {
      var i := ChildContribsWitness(p, es, c);
    }
    if exists i :: 0 <= i < |es| && es[i].isDir && c == Child(p, es[i]) {
      var i :| 0 <= i < |es| && es[i].isDir && c == Child(p, es[i]);
      ChildInContribs(p, es, i);
    }
  }

  lemma {:induction false} ChildContribsWitness(p: Project, es: seq<DirEntry>, c: Contribution) returns (i: nat)
    requires c in ChildContribs(p, es)
    ensures i < |es| && es[i].isDir && c == Child(p, es[i])
  {
    var init := es[..|es| - 1];
    if c in ChildContribs(p, init) {
      i := ChildContribsWitness(p, init, c);
      assert es[i] == init[i];
    } else {
      i := |es| - 1;
    }
  }

  lemma {:induction false} ChildInContribs(p: Project, es: seq<DirEntry>, i: nat)
    requires i < |es| && es[i].isDir
    ensures Child(p, es[i]) in ChildContribs(p, es)
  {
    if i < |es| - 1 {
      var init := es[..|es| - 1];
      assert init[i] == es[i];
      ChildInContribs(p, init, i);
    }
  }

  /**
   * A worktree base is not listed under its own name: every entry it makes is a plain
   * project `base/child` that is a hit, at the path of the child.
   */
  lemma BaseExpandsToChildren(p: Project, fs: FileSystem, leafCheck: bool, c: Contribution)
    requires IsBase(p, fs, leafCheck) && c in Contribs(p, fs, leafCheck)
    ensures c.key != p.name && c.hit && !c.project.gitWorkTree && c.project.name == c.key
    ensures exists e :: e in fs.listings[p.path] && e.isDir && c.key == p.name + "/" + e.name && c.project.path == Join([p.path, e.name])
  {
    ChildContribsMember(p, fs.listings[p.path], c);
    var es := fs.listings[p.path];
    var i :| 0 <= i < |es| && es[i].isDir && c == Child(p, es[i]);
    assert |c.key| > |p.name|;
  }

  /** A plain project, or (with `leafCheck`) a leaf, is listed as it is under its name. */
  lemma ExpandKeepsProject(base: Projects, fs: FileSystem, leafCheck: bool, n: string, out: Projects, hit: map<string, bool>)
    requires n in base && !IsBase(base[n], fs, leafCheck)
    requires Covers(out, hit, AllContribs(base, fs, leafCheck, base.Keys))
    requires UniqueKey(AllContribs(base, fs, leafCheck, base.Keys), Contribution(base[n].name, base[n], base[n].gitWorkTree))
    ensures base[n].name in out && out[base[n].name] == base[n] && hit[base[n].name] == base[n].gitWorkTree
  {
    CoversUnique(out, hit, AllContribs(base, fs, leafCheck, base.Keys), Contribution(base[n].name, base[n], base[n].gitWorkTree));
  }

  // ---------------------------------------------------------------------------------------
  // Sorted listing and lookup
  // ---------------------------------------------------------------------------------------

  /** The listed entry for key `k`: a project without a name takes the key as its name. */
  function EntryOf(projs: Projects, hit: map<string, bool>, k: string): (e: ProjectEntry)
    requires k in projs
    ensures e.project.name == (if projs[k].name == "" then k else projs[k].name)
    ensures e.project == projs[k].(name := e.project.name)
  {
    var p := projs[k];
    ProjectEntry(if p.name == "" then p.(name := k) else p, k in hit && hit[k])
  }

  function EntryName(e: ProjectEntry): string {
    e.project.name
  }

  /** The keys among `dom` whose entry is `e`. */
  ghost function KeysWith(projs: Projects, hit: map<string, bool>, dom: set<string>, e: ProjectEntry): set<string> {
    set k | k in dom && k in projs && EntryOf(projs, hit, k) == e
  }

  /** One more key adds itself to the keys of its own entry and to no other. */
  lemma KeysWithAdd(projs: Projects, hit: map<string, bool>, dom: set<string>, k: string, e: ProjectEntry)
    requires k in projs && k !in dom
    ensures |KeysWith(projs, hit, dom + {k}, e)| == |KeysWith(projs, hit, dom, e)| + (if EntryOf(projs, hit, k) == e then 1 else 0)
  {
    if EntryOf(projs, hit, k) == e {
      assert KeysWith(projs, hit, dom + {k}, e) == KeysWith(projs, hit, dom, e) + {k};
    } else {
      assert KeysWith(projs, hit, dom + {k}, e) == KeysWith(projs, hit, dom, e);
    }
  }

  /**
   * The loop of `SortedProjectEntries` before the sort: one entry per key, in the map's
   * iteration order, each as often as there are keys giving it.
   */
  method CollectEntries(projs: Projects, hitmap: map<string, bool>) returns (entries: seq<ProjectEntry>)
    ensures |entries| == |projs.Keys|
    ensures forall k :: k in projs ==> EntryOf(projs, hitmap, k) in entries
    ensures forall e :: e in entries ==> exists k :: k in projs && e == EntryOf(projs, hitmap, k)
    ensures forall e :: multiset(entries)[e] == |KeysWith(projs, hitmap, projs.Keys, e)|
  {
    entries := [];
    var todo := projs.Keys;
    while todo != {}
      invariant todo <= projs.Keys
      invariant |entries| + |todo| == |projs.Keys|
      invariant forall e :: multiset(entries)[e] == |KeysWith(projs, hitmap, projs.Keys - todo, e)|
      decreases |todo|
    {
      var name :| name in todo;
      var p := projs[name];
      if p.name == "" {
        p := p.(name := name);
      }
      CountStep(projs, hitmap, projs.Keys - todo, name, entries);
      assert projs.Keys - (todo - {name}) == (projs.Keys - todo) + {name};
      entries := entries + [ProjectEntry(p, name in hitmap && hitmap[name])];
      todo := todo - {name};
    }
    assert projs.Keys - todo == projs.Keys;
    CountedMembers(projs, hitmap, entries);
  }

  /** Appending the entry of a key not yet done keeps every count equal to its number of keys. */
  lemma CountStep(projs: Projects, hitmap: map<string, bool>, done: set<string>, name: string, entries: seq<ProjectEntry>)
    requires name in projs && name !in done
    requires forall e :: multiset(entries)[e] == |KeysWith(projs, hitmap, done, e)|
    ensures forall e :: multiset(entries + [EntryOf(projs, hitmap, name)])[e] == |KeysWith(projs, hitmap, done + {name}, e)|
  {
    forall e ensures multiset(entries + [EntryOf(projs, hitmap, name)])[e] == |KeysWith(projs, hitmap, done + {name}, e)| {
      KeysWithAdd(projs, hitmap, done, name, e);
    }
  }

  /** Entries counted by their keys are exactly the entries of the keys. */
  lemma CountedMembers(projs: Projects, hitmap: map<string, bool>, entries: seq<ProjectEntry>)
    requires forall e :: multiset(entries)[e] == |KeysWith(projs, hitmap, projs.Keys, e)|
    ensures forall k :: k in projs ==> EntryOf(projs, hitmap, k) in entries
    ensures forall e :: e in entries ==> exists k :: k in projs && e == EntryOf(projs, hitmap, k)
  {
    forall k | k in projs ensures EntryOf(projs, hitmap, k) in entries {
      var e := EntryOf(projs, hitmap, k);
      assert k in KeysWith(projs, hitmap, projs.Keys, e);
      assert multiset(entries)[e] > 0;
    }
    forall e | e in entries ensures exists k :: k in projs && e == EntryOf(projs, hitmap, k) {
      assert multiset(entries)[e] > 0;
      var k :| k in KeysWith(projs, hitmap, projs.Keys, e);
    }
  }

  /**
   * `SortedProjectEntries`: one entry per listed key, sorted by name; errors of the listing
   * are passed on. Each entry occurs exactly as often as there are keys giving it, so the
   * result is a permutation of the entries of the keys.
   */
  method SortedProjectEntries(listed: Result<(Projects, map<string, bool>), RegistryError>)
    returns (r: Result<seq<ProjectEntry>, RegistryError>)
    ensures listed.Err? ==> r == Err(listed.error)
    ensures listed.Ok? ==> r.Ok? && SortedBy(r.value, EntryName) && |r.value| == |listed.value.0|
    ensures listed.Ok? ==> forall k :: k in listed.value.0 ==> EntryOf(listed.value.0, listed.value.1, k) in r.value
    ensures listed.Ok? ==> forall e :: e in r.value ==> exists k :: k in listed.value.0 && e == EntryOf(listed.value.0, listed.value.1, k)
    ensures listed.Ok? ==> forall e :: multiset(r.value)[e] == |KeysWith(listed.value.0, listed.value.1, listed.value.0.Keys, e)|
  {
    if listed.Err? {
      return Err(listed.error);
    }
    var (projs, hitmap) := listed.value;
    var entries := CollectEntries(projs, hitmap);
    var sorted := SortBy(entries, EntryName);
    forall e ensures e in sorted <==> e in entries {
      assert e in sorted <==> e in multiset(sorted);
      assert e in entries <==> e in multiset(entries);
    }
    return Ok(sorted);
  }

  /**
   * `FindProjectEntry`: an empty name is refused before the listing is consulted; a listed
   * key gives its entry, named after the key when the project has no name.
   */
  function FindProjectEntry(name: string, listed: Result<(Projects, map<string, bool>), RegistryError>): (r: Result<ProjectEntry, RegistryError>)
    ensures name == "" ==> r == Err(EmptyName)
    ensures name != "" && listed.Err? ==> r == Err(listed.error)
    ensures name != "" && listed.Ok? ==> (r.Ok? <==> name in listed.value.0)
    ensures r.Ok? ==> listed.Ok? && name in listed.value.0 && r.value.project.name != ""
    ensures r.Err? && name != "" && listed.Ok? ==> r.error == NotFound(name)
    ensures r.Ok? ==> r.value == EntryOf(listed.value.0, listed.value.1, name)
  {
    if name == "" then Err(EmptyName)
    else if listed.Err? then Err(listed.error)
    else if name !in listed.value.0 then Err(NotFound(name))
    else Ok(EntryOf(listed.value.0, listed.value.1, name))
  }
}
