/**
 * The plugin manifest of internal/app/plugin/manifest.go: `plugin.json` in the plugin's
 * directory, decoded and then completed with the default entry point and runtime. The
 * decoding is not modelled; the file is given as unreadable, not a manifest, or the decoded
 * fields.
 */
module Manifest {
  import opened Wrappers

  /** The decoded manifest; an empty string is a field the file left out. */
  datatype Manifest = Manifest(
    name: string,
    configKey: string,
    hooks: seq<string>,
    entrypoint: string,
    runtime: string)

  datatype ManifestFile = Unreadable | Malformed | Decoded(manifest: Manifest)

  datatype ManifestError = ReadManifestFailed | ParseManifestFailed

  const DefaultEntrypoint: string := "main.py"
  const DefaultRuntime: string := "python3"

  /** The manifest with its empty entry point and runtime replaced by the defaults. */
  function WithDefaults(m: Manifest): (r: Manifest)
    ensures r.entrypoint != "" && r.runtime != ""
    ensures r.name == m.name && r.configKey == m.configKey && r.hooks == m.hooks
    ensures m.entrypoint != "" ==> r.entrypoint == m.entrypoint
    ensures m.runtime != "" ==> r.runtime == m.runtime
  {
    m.(entrypoint := if m.entrypoint == "" then DefaultEntrypoint else m.entrypoint,
       runtime := if m.runtime == "" then DefaultRuntime else m.runtime)
  }

  /** Completing a manifest twice is completing it once, and a complete manifest is kept. */
  lemma WithDefaultsIdempotent(m: Manifest)
    ensures WithDefaults(WithDefaults(m)) == WithDefaults(m)
    ensures m.entrypoint != "" && m.runtime != "" ==> WithDefaults(m) == m
  {
  }

  /**
   * `LoadManifest`: a read or parse failure is an error; otherwise the decoded manifest with
   * its entry point and runtime defaulted, one field after the other. An empty name is not
   * rejected.
   */
  method LoadManifest(file: ManifestFile) returns (r: Result<Manifest, ManifestError>)
    ensures file.Unreadable? ==> r == Err(ReadManifestFailed)
    ensures file.Malformed? ==> r == Err(ParseManifestFailed)
    ensures file.Decoded? ==> r == Ok(WithDefaults(file.manifest))
  {
    if file.Unreadable? {
      return Err(ReadManifestFailed);
    }
    if file.Malformed? {
      return Err(ParseManifestFailed);
    }
    var m := file.manifest;
    if m.entrypoint == "" {
      m := m.(entrypoint := DefaultEntrypoint);
    }
    if m.runtime == "" {
      m := m.(runtime := DefaultRuntime);
    }
    return Ok(m);
  }
}
