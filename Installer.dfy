/**
 * The plugin installer of internal/app/plugin/installer.go: clone a plugin repository into
 * the plugins directory, validate its manifest (removing the clone when it is invalid) and
 * register it; uninstall by removing the directory and then the registry entry.
 *
 * The file system is given as the set of directories that exist, and the outcomes of
 * creating the plugins directory, of `git clone` and of removing a directory are oracles; the
 * manifest is the one the clone contains. What the installer does to the world is returned
 * as the sequence of its effects.
 */
module Installer {
  import opened Wrappers
  import opened Paths
  import opened RepoNames
  import opened PluginRegistry
  import opened Manifest

  /** An effect on the world: a clone, a directory removal, or a registry write. */
  datatype Effect = Clone(url: string, path: string) | RemoveDir(path: string) | WriteRegistry(file: PluginFile)

  datatype InstallError =
    | CreateDirFailed
    | AlreadyExists(name: string, path: string)
    | CloneFailed
    | InvalidPlugin(manifestError: ManifestError)
    | RegisterFailed(registryError: PluginError)
    | RemoveDirFailed

  /** Where a plugin cloned from `url` goes: the repository name under the plugins directory. */
  function InstallPath(pluginsDir: string, url: string): string {
    Join([pluginsDir, ExtractRepoName(url)])
  }

  /** The registry entry of an installed plugin: the manifest's fields and the URL it came from. */
  function EntryFrom(url: string, m: Manifest): (e: PluginEntry)
    ensures e.name == m.name && e.url == url && e.configKey == m.configKey && e.hooks == m.hooks
    ensures e.entrypoint == m.entrypoint && e.runtime == m.runtime
  {
    PluginEntry(m.name, url, m.configKey, m.hooks, m.entrypoint, m.runtime)
  }

  /**
   * `Install`: creates the plugins directory, refuses to clone when anything already exists at
   * the plugin's path (`existing` is the set of paths on disk, files as well as directories),
   * clones, loads the manifest (removing the clone when that fails), and
   * registers the entry. The registry is written only when the manifest is valid.
   */
  method Install(pluginsDir: string, url: string, mkdirOk: bool, existing: set<string>, cloneOk: bool,
                 manifest: ManifestFile, registry: PluginFile, saveOk: bool)
    returns (effects: seq<Effect>, r: Result<PluginEntry, InstallError>)
    ensures !mkdirOk ==> effects == [] && r == Err(CreateDirFailed)
    ensures mkdirOk && InstallPath(pluginsDir, url) in existing ==>
      effects == [] && r == Err(AlreadyExists(ExtractRepoName(url), InstallPath(pluginsDir, url)))
    ensures mkdirOk && InstallPath(pluginsDir, url) !in existing && !cloneOk ==>
      effects == [Clone(url, InstallPath(pluginsDir, url))] && r == Err(CloneFailed)
    ensures mkdirOk && InstallPath(pluginsDir, url) !in existing && cloneOk && manifest.Decoded? ==>
      var entry := EntryFrom(url, WithDefaults(manifest.manifest));
      && (Load(registry).Ok? ==> effects == [Clone(url, InstallPath(pluginsDir, url)),
                                            WriteRegistry(Stored(Added(Load(registry).value, entry)))])
      && (Load(registry).Err? ==> effects == [Clone(url, InstallPath(pluginsDir, url))])
      && (r.Ok? <==> Load(registry).Ok? && saveOk)
      && (r.Ok? ==> r.value == entry)
      && (r.Err? ==> r.error == RegisterFailed(if Load(registry).Err? then Load(registry).error else WriteFailed))
    ensures mkdirOk && InstallPath(pluginsDir, url) !in existing && cloneOk && !manifest.Decoded? ==>
      && effects == [Clone(url, InstallPath(pluginsDir, url)), RemoveDir(InstallPath(pluginsDir, url))]
      && r == Err(InvalidPlugin(if manifest.Unreadable? then ReadManifestFailed else ParseManifestFailed))
  {
    effects := [];
    if !mkdirOk {
      return effects, Err(CreateDirFailed);
    }
    var name := ExtractRepoName(url);
    var pluginPath := Join([pluginsDir, name]);
    if pluginPath in existing {
      return effects, Err(AlreadyExists(name, pluginPath));
    }
    effects := effects + [Clone(url, pluginPath)];
    if !cloneOk {
      return effects, Err(CloneFailed);
    }
    var more;
    more, r := Register(url, pluginPath, manifest, registry, saveOk);
    effects := effects + more;
  }

  /**
   * The steps of `Install` after a successful clone: an invalid manifest removes the clone,
   * a valid one is registered.
   */
  method Register(url: string, pluginPath: string, manifest: ManifestFile, registry: PluginFile, saveOk: bool)
    returns (effects: seq<Effect>, r: Result<PluginEntry, InstallError>)
    ensures manifest.Decoded? ==>
      var entry := EntryFrom(url, WithDefaults(manifest.manifest));
      && effects == (if Load(registry).Ok? then [WriteRegistry(Stored(Added(Load(registry).value, entry)))] else [])
      && (r.Ok? <==> Load(registry).Ok? && saveOk)
      && (r.Ok? ==> r.value == entry)
      && (r.Err? ==> r.error == RegisterFailed(if Load(registry).Err? then Load(registry).error else WriteFailed))
    ensures !manifest.Decoded? ==>
      && effects == [RemoveDir(pluginPath)]
      && r == Err(InvalidPlugin(if manifest.Unreadable? then ReadManifestFailed else ParseManifestFailed))
  {
    var m := LoadManifest(manifest);
    if m.Err? {
      return [RemoveDir(pluginPath)], Err(InvalidPlugin(m.error));
    }
    var entry := EntryFrom(url, m.value);
    var written, err := Add(registry, entry, saveOk);
    effects := if written.Some? then [WriteRegistry(written.value)] else [];
    if err.Some? {
      return effects, Err(RegisterFailed(err.value));
    }
    return effects, Ok(entry);
  }

  /** Where `Uninstall(name)` removes a plugin from. */
  function UninstallPath(pluginsDir: string, name: string): string {
    Join([pluginsDir, name])
  }

  /**
   * `Uninstall`: removes the plugin directory and stops if that fails; otherwise removes the
   * registry entry, which writes the registry only when the name was registered.
   */
  method Uninstall(pluginsDir: string, name: string, removeOk: bool, registry: PluginFile, saveOk: bool)
    returns (effects: seq<Effect>, err: Option<InstallError>)
    ensures !removeOk ==> effects == [] && err == Some(RemoveDirFailed)
    ensures removeOk && Load(registry).Err? ==>
      effects == [RemoveDir(UninstallPath(pluginsDir, name))] && err == Some(RegisterFailed(Load(registry).error))
    ensures removeOk && Load(registry).Ok? && FirstIndex(Load(registry).value, name).None? ==>
      effects == [RemoveDir(UninstallPath(pluginsDir, name))] && err == None
    ensures removeOk && Load(registry).Ok? && FirstIndex(Load(registry).value, name).Some? ==>
      && effects == [RemoveDir(UninstallPath(pluginsDir, name)), WriteRegistry(Stored(Removed(Load(registry).value, name)))]
      && err == (if saveOk then None else Some(RegisterFailed(WriteFailed)))
  {
    var pluginPath := Join([pluginsDir, name]);
    if !removeOk {
      return [], Some(RemoveDirFailed);
    }
    effects := [RemoveDir(pluginPath)];
    var written, e := Remove(registry, name, saveOk);
    if written.Some? {
      effects := effects + [WriteRegistry(written.value)];
    }
    err := if e.Some? then Some(RegisterFailed(e.value)) else None;
  }

  /**
   * Uninstalling undoes installing: the registry entry goes and the registry is as before
   * when the name was new; the directory removed is the clone when the manifest's name is the
   * repository's. The entry is registered under the manifest's name, so another name leaves
   * the clone in place.
   */
  lemma UninstallUndoesInstall(pluginsDir: string, url: string, m: Manifest, plugins: seq<PluginEntry>)
    requires FirstIndex(plugins, m.name).None?
    ensures Removed(Added(plugins, EntryFrom(url, m)), m.name) == plugins
    ensures FindIn(Added(plugins, EntryFrom(url, m)), m.name) == Some(EntryFrom(url, m))
    ensures m.name == ExtractRepoName(url) ==> UninstallPath(pluginsDir, m.name) == InstallPath(pluginsDir, url)
  {
    RemoveAdded(plugins, EntryFrom(url, m));
    FindAdded(plugins, EntryFrom(url, m), m.name);
  }
}
