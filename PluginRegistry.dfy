/**
 * The plugin registry of internal/app/plugin/registry.go: a JSON file holding the list of
 * installed plugins, looked up by name. Every operation loads the file, works on the list
 * and, when it changed it, writes it back. The file is a value; whether a write succeeds is
 * an oracle.
 */
module PluginRegistry {
  import opened Wrappers

  /** One installed plugin as the registry records it. */
  datatype PluginEntry = PluginEntry(
    name: string,
    url: string,
    configKey: string,
    hooks: seq<string>,
    entrypoint: string,
    runtime: string)

  datatype PluginError = ReadFailed | ParseFailed | WriteFailed

  /**
   * The registry file: absent, unreadable, not a registry in JSON, or the decoded list (a
   * missing or `null` list decodes to the empty one).
   */
  datatype PluginFile = Missing | Unreadable | Malformed | Stored(plugins: seq<PluginEntry>)

  /** `Load`: a missing file is the empty registry; other read and parse failures are errors. */
  function Load(file: PluginFile): (r: Result<seq<PluginEntry>, PluginError>)
    ensures r.Ok? <==> file.Missing? || file.Stored?
    ensures file.Missing? ==> r == Ok([])
    ensures file.Stored? ==> r == Ok(file.plugins)
    ensures r.Err? ==> r.error == (if file.Unreadable? then ReadFailed else ParseFailed)
  {
    match file
    case Missing => Ok([])
    case Unreadable => Err(ReadFailed)
    case Malformed => Err(ParseFailed)
    case Stored(plugins) => Ok(plugins)
  }

  /** The position of the first entry called `name`, if any. */
  function FirstIndex(plugins: seq<PluginEntry>, name: string): (r: Option<nat>)
    ensures r.Some? ==> r.value < |plugins| && plugins[r.value].name == name
    ensures r.Some? ==> forall j :: 0 <= j < r.value ==> plugins[j].name != name
    ensures r.None? ==> forall j :: 0 <= j < |plugins| ==> plugins[j].name != name
  {
    if plugins == [] then None
    else if plugins[0].name == name then Some(0)
    else
      var r := FirstIndex(plugins[1..], name);
      if r.None? then None
      else
        assert forall j :: 1 <= j <= r.value ==> plugins[j] == plugins[1..][j - 1];
        Some(r.value + 1)
  }

  /** The scan the registry operations share: the first index of `name`, in list order. */
  method IndexOf(plugins: seq<PluginEntry>, name: string) returns (r: Option<nat>)
    ensures r == FirstIndex(plugins, name)
  {
    var i := 0;
    while i < |plugins|
      invariant 0 <= i <= |plugins|
      invariant forall j :: 0 <= j < i ==> plugins[j].name != name
    {
      if plugins[i].name == name {
        FirstIndexUnique(plugins, name, i);
        return Some(i);
      }
      i := i + 1;
    }
    FirstIndexUnique(plugins, name, |plugins|);
    return None;
  }

  /** The first index is determined by its defining properties. */
  lemma FirstIndexUnique(plugins: seq<PluginEntry>, name: string, i: nat)
    requires i <= |plugins|
    requires forall j :: 0 <= j < i ==> plugins[j].name != name
    requires i < |plugins| ==> plugins[i].name == name
    ensures FirstIndex(plugins, name) == if i < |plugins| then Some(i) else None
  {
  }

  /** The list after `Add(entry)`: the first entry of that name replaced, or `entry` appended. */
  function Added(plugins: seq<PluginEntry>, entry: PluginEntry): seq<PluginEntry> {
    var i := FirstIndex(plugins, entry.name);
    if i.Some? then plugins[i.value := entry] else plugins + [entry]
  }

  /** The list after `Remove(name)`: the first entry of that name cut out, the rest in order. */
  function Removed(plugins: seq<PluginEntry>, name: string): seq<PluginEntry> {
    var i := FirstIndex(plugins, name);
    if i.Some? then plugins[..i.value] + plugins[i.value + 1..] else plugins
  }

  /** The entry `Find(name)` returns from a list: the first one of that name. */
  function FindIn(plugins: seq<PluginEntry>, name: string): Option<PluginEntry> {
    var i := FirstIndex(plugins, name);
    if i.Some? then Some(plugins[i.value]) else None
  }

  /**
   * `Add`: loads the registry, replaces the first entry with the same name in place or else
   * appends the entry, and saves. `written` is the file written, if any.
   */
  method Add(file: PluginFile, entry: PluginEntry, saveOk: bool)
    returns (written: Option<PluginFile>, err: Option<PluginError>)
    ensures Load(file).Err? ==> written == None && err == Some(Load(file).error)
    ensures Load(file).Ok? ==> written == Some(Stored(Added(Load(file).value, entry)))
    ensures Load(file).Ok? ==> err == if saveOk then None else Some(WriteFailed)
  {
    var reg := Load(file);
    if reg.Err? {
      return None, Some(reg.error);
    }
    var plugins := reg.value;
    var i := IndexOf(plugins, entry.name);
    if i.Some? {
      plugins := plugins[i.value := entry];
    } else {
      plugins := plugins + [entry];
    }
    written := Some(Stored(plugins));
    err := if saveOk then None else Some(WriteFailed);
  }

  /**
   * `Remove`: loads the registry and cuts out the first entry with the name; when there is
   * none nothing is written.
   */
  method Remove(file: PluginFile, name: string, saveOk: bool)
    returns (written: Option<PluginFile>, err: Option<PluginError>)
    ensures Load(file).Err? ==> written == None && err == Some(Load(file).error)
    ensures Load(file).Ok? && FirstIndex(Load(file).value, name).None? ==> written == None && err == None
    ensures Load(file).Ok? && FirstIndex(Load(file).value, name).Some? ==>
      && written == Some(Stored(Removed(Load(file).value, name)))
      && err == (if saveOk then None else Some(WriteFailed))
  {
    var reg := Load(file);
    if reg.Err? {
      return None, Some(reg.error);
    }
    var plugins := reg.value;
    var i := IndexOf(plugins, name);
    if i.None? {
      return None, None;
    }
    plugins := plugins[..i.value] + plugins[i.value + 1..];
    written := Some(Stored(plugins));
    err := if saveOk then None else Some(WriteFailed);
  }

  /** `Find`: the first entry with the name; a registry that cannot be loaded finds nothing. */
  method Find(file: PluginFile, name: string) returns (r: Option<PluginEntry>)
    ensures Load(file).Err? ==> r.None?
    ensures Load(file).Ok? ==> r == FindIn(Load(file).value, name)
    ensures r.Some? ==> r.value.name == name
  {
    var reg := Load(file);
    if reg.Err? {
      return None;
    }
    var i := IndexOf(reg.value, name);
    if i.Some? {
      return Some(reg.value[i.value]);
    }
    return None;
  }

  /** No two entries share a name. */
  predicate UniqueNames(plugins: seq<PluginEntry>) {
    forall i, j :: 0 <= i < j < |plugins| ==> plugins[i].name != plugins[j].name
  }

  /**
   * Adding replaces the entry of the same name where it stands, keeping the length and every
   * other entry, or appends a new name at the end; names unique before are unique after.
   */
  lemma AddedShape(plugins: seq<PluginEntry>, entry: PluginEntry)
    ensures FirstIndex(plugins, entry.name).Some? ==>
      |Added(plugins, entry)| == |plugins|
      && Added(plugins, entry)[FirstIndex(plugins, entry.name).value] == entry
      && forall j :: 0 <= j < |plugins| && j != FirstIndex(plugins, entry.name).value ==> Added(plugins, entry)[j] == plugins[j]
    ensures FirstIndex(plugins, entry.name).None? ==> Added(plugins, entry) == plugins + [entry]
    ensures UniqueNames(plugins) ==> UniqueNames(Added(plugins, entry))
  {
  }

  /** After adding, finding the name gives the entry added; other names find what they found. */
  lemma FindAdded(plugins: seq<PluginEntry>, entry: PluginEntry, name: string)
    ensures FindIn(Added(plugins, entry), entry.name) == Some(entry)
    ensures name != entry.name ==> FindIn(Added(plugins, entry), name) == FindIn(plugins, name)
  {
    var a := Added(plugins, entry);
    var i := FirstIndex(plugins, entry.name);
    var k := FirstIndex(plugins, name);
    if i.Some? {
      FirstIndexUnique(a, entry.name, i.value);
      if name != entry.name {
        FirstIndexUnique(a, name, if k.Some? then k.value else |a|);
      }
    } else {
      FirstIndexUnique(a, entry.name, |plugins|);
      if name != entry.name {
        FirstIndexUnique(a, name, if k.Some? then k.value else |a|);
      }
    }
  }

  /** Removing cuts out the first entry of the name and keeps every other entry in order. */
  lemma RemovedShape(plugins: seq<PluginEntry>, name: string)
    requires FirstIndex(plugins, name).Some?
    ensures |Removed(plugins, name)| == |plugins| - 1
    ensures var i := FirstIndex(plugins, name).value;
      forall j :: 0 <= j < |plugins| - 1 ==> Removed(plugins, name)[j] == if j < i then plugins[j] else plugins[j + 1]
  {
  }

  /** With unique names, the name removed is gone and the names stay unique. */
  lemma RemovedUnique(plugins: seq<PluginEntry>, name: string)
    requires UniqueNames(plugins)
    ensures UniqueNames(Removed(plugins, name))
    ensures FindIn(Removed(plugins, name), name).None?
  {
    var r := Removed(plugins, name);
    var i := FirstIndex(plugins, name);
    if i.Some? {
      RemovedShape(plugins, name);
      forall j | 0 <= j < |r| ensures r[j].name != name {
        if j < i.value {
          assert r[j] == plugins[j];
        } else {
          assert r[j] == plugins[j + 1];
        }
      }
      FirstIndexUnique(r, name, |r|);
    }
  }

  /** Removing a name just added to a registry without it gives the registry back. */
  lemma RemoveAdded(plugins: seq<PluginEntry>, entry: PluginEntry)
    requires FirstIndex(plugins, entry.name).None?
    ensures Removed(Added(plugins, entry), entry.name) == plugins
  {
    var a := plugins + [entry];
    FirstIndexUnique(a, entry.name, |plugins|);
    assert a[..|plugins|] == plugins;
  }

  /** Go's `hasHook`: whether `target` is among `hooks`, scanned front to back. */
  function HasHook(hooks: seq<string>, target: string): (b: bool)
    ensures b ==> |hooks| > 0
  {
    if hooks == [] then false
    else if hooks[0] == target then true
    else HasHook(hooks[1..], target)
  }

  /** The scan answers exactly membership. */
  lemma {:induction false} HasHookMember(hooks: seq<string>, target: string)
    ensures HasHook(hooks, target) <==> target in hooks
  {
    if hooks != [] {
      HasHookMember(hooks[1..], target);
      assert hooks == [hooks[0]] + hooks[1..];
    }
  }
}
