/**
 * The plugin host of internal/app/plugin/service.go: the table of running plugin processes,
 * each reached over a Unix socket named after it, and the JSON-RPC 2.0 calls made to them
 * with a request counter.
 *
 * Sockets, processes and time are not modelled: whether a tracked plugin answers its
 * liveness probe, whether its entry point exists, whether the sockets directory can be
 * created and a stale socket removed, whether the process starts and its socket becomes
 * ready in time, and what a connection and a reply bring are all answers of a `World`.
 */
module PluginHost {
  import opened Wrappers
  import opened Paths
  import opened Values
  import opened PluginRegistry

  /** A tracked plugin: its name and the socket it listens on. */
  datatype PluginInfo = PluginInfo(name: string, socketPath: string)

  /** A JSON-RPC 2.0 request (section 4 of the JSON-RPC 2.0 specification). */
  datatype Request = Request(jsonrpc: string, id: int, rpcMethod: string, params: Value)

  /** The `error` member of a JSON-RPC 2.0 response (section 5.1). */
  datatype RpcError = RpcError(code: int, message: string)

  /** What comes back on a connection: something that does not decode, or a response. */
  datatype Reply = Garbled | Response(result: string, error: Option<RpcError>)

  /** The process a wakeup starts: its command line and its working directory. */
  datatype Spawn = Spawn(argv: seq<string>, dir: string)

  datatype HostError =
    | PluginMissing(name: string)
    | SocketsDirFailed
    | StaleSocket
    | StartFailed(name: string)
    | StartTimeout(name: string)
    | NotRunning(name: string)
    | ConnectFailed(name: string)
    | SendFailed
    | ReplyUnreadable
    | PluginFailed(code: int, message: string)
    | RegistryUnavailable(error: PluginError)

  /** The outcome for one plugin of `RunHook`. */
  datatype RunResult = Responded(raw: string) | Failed(error: HostError)

  /** The answers of the sockets, processes and file system the host works with. */
  datatype World = World(
    alive: string -> bool,
    entrypoints: set<string>,
    socketsDirOk: bool,
    staleRemovable: bool,
    startOk: string -> bool,
    ready: string -> bool,
    connectOk: string -> bool,
    sendOk: bool,
    reply: (string, string) -> Reply)

  /** The socket of plugin `name`: `<name>.sock` in the sockets directory. */
  function SocketPath(socketsDir: string, name: string): string {
    Join([socketsDir, name + ".sock"])
  }

  /** The plugin's directory. */
  function PluginDir(pluginsDir: string, name: string): string {
    Join([pluginsDir, name])
  }

  /** The script a wakeup runs: always `main.py` in the plugin's directory. */
  function Entrypoint(pluginsDir: string, name: string): string {
    Join([PluginDir(pluginsDir, name), "main.py"])
  }

  /** Whether a wakeup that has to start the plugin succeeds, given the world. */
  predicate StartSucceeds(pluginsDir: string, w: World, name: string) {
    Entrypoint(pluginsDir, name) in w.entrypoints && w.socketsDirOk && w.staleRemovable
    && w.startOk(name) && w.ready(name)
  }

  /** The first step of a start that fails, in the order the host takes them. */
  function StartError(pluginsDir: string, w: World, name: string): HostError {
    if Entrypoint(pluginsDir, name) !in w.entrypoints then PluginMissing(name)
    else if !w.socketsDirOk then SocketsDirFailed
    else if !w.staleRemovable then StaleSocket
    else if !w.startOk(name) then StartFailed(name)
    else StartTimeout(name)
  }

  /** What a connected call returns, given the world's reply. */
  function CallResult(w: World, name: string, rpcMethod: string): Result<string, HostError> {
    if !w.sendOk then Err(SendFailed)
    else match w.reply(name, rpcMethod)
      case Garbled => Err(ReplyUnreadable)
      case Response(result, error) =>
        if error.Some? then Err(PluginFailed(error.value.code, error.value.message)) else Ok(result)
  }

  /** The names of the plugins in `plugins` that declare `hook`. */
  function HookedNames(plugins: seq<PluginEntry>, hook: string): set<string> {
    set p | p in plugins && HasHook(p.hooks, hook) :: p.name
  }

  class PluginService {
    const pluginsDir: string
    const socketsDir: string
    var plugins: map<string, PluginInfo>
    var requestID: int
    /** The ids of the requests sent so far, in order. */
    ghost var sentIDs: seq<int>

    /**
     * Every tracked plugin sits under its own name at its own socket, and the requests sent
     * so far carry the ids 1, 2, ... up to the counter.
     */
    ghost predicate Valid()
      reads this
    {
      && requestID == |sentIDs|
      && (forall i :: 0 <= i < |sentIDs| ==> sentIDs[i] == i + 1)
      && (forall n :: n in plugins ==> plugins[n] == PluginInfo(n, SocketPath(socketsDir, n)))
    }

    /** `NewPluginService`: nothing tracked, no request sent. */
    constructor(pluginsDir: string, socketsDir: string)
      ensures Valid()
      ensures this.pluginsDir == pluginsDir && this.socketsDir == socketsDir
      ensures plugins == map[] && requestID == 0
    {
      this.pluginsDir := pluginsDir;
      this.socketsDir := socketsDir;
      plugins := map[];
      requestID := 0;
      sentIDs := [];
    }

    /**
     * `Wakeup`: a tracked plugin that answers is left alone; a tracked one that does not is
     * dropped. Then the plugin is started with `python3 main.py <socket>` in its directory
     * and tracked once its socket is ready; on any failure it is left untracked.
     */
    method Wakeup(name: string, w: World) returns (spawned: Option<Spawn>, err: Option<HostError>)
      requires Valid()
      modifies this
      ensures Valid()
      ensures requestID == old(requestID) && sentIDs == old(sentIDs)
      ensures name in old(plugins) && w.alive(name) ==>
        plugins == old(plugins) && spawned == None && err == None
      ensures !(name in old(plugins) && w.alive(name)) ==>
        && (err == None <==> StartSucceeds(pluginsDir, w, name))
        && (err == None ==> plugins == old(plugins)[name := PluginInfo(name, SocketPath(socketsDir, name))])
        && (err != None ==> plugins == old(plugins) - {name} && err == Some(StartError(pluginsDir, w, name)))
        && (spawned != None <==> Entrypoint(pluginsDir, name) in w.entrypoints && w.socketsDirOk && w.staleRemovable)
        && (spawned != None ==> spawned == Some(Spawn(["python3", Entrypoint(pluginsDir, name), SocketPath(socketsDir, name)],
                                                      PluginDir(pluginsDir, name))))
    {
      ghost var before := plugins;
      if name in plugins {
        if w.alive(name) {
          return None, None;
        }
        plugins := plugins - {name};
      } else {
        MapRemoveAbsent(plugins, name);
      }
      spawned, err := Start(name, w);
      MapRemoveUpdate(before, name, PluginInfo(name, SocketPath(socketsDir, name)));
    }

    /** Starting an untracked plugin: the part of `Wakeup` after the liveness check. */
    method Start(name: string, w: World) returns (spawned: Option<Spawn>, err: Option<HostError>)
      requires Valid() && name !in plugins
      modifies this
      ensures Valid()
      ensures requestID == old(requestID) && sentIDs == old(sentIDs)
      ensures err == None <==> StartSucceeds(pluginsDir, w, name)
      ensures err == None ==> plugins == old(plugins)[name := PluginInfo(name, SocketPath(socketsDir, name))]
      ensures err != None ==> plugins == old(plugins) && err == Some(StartError(pluginsDir, w, name))
      ensures spawned != None <==> Entrypoint(pluginsDir, name) in w.entrypoints && w.socketsDirOk && w.staleRemovable
      ensures spawned != None ==> spawned == Some(Spawn(["python3", Entrypoint(pluginsDir, name), SocketPath(socketsDir, name)],
                                                        PluginDir(pluginsDir, name)))
    {
      var pluginDir := Join([pluginsDir, name]);
      var entrypoint := Join([pluginDir, "main.py"]);
      if entrypoint !in w.entrypoints {
        return None, Some(PluginMissing(name));
      }
      if !w.socketsDirOk {
        return None, Some(SocketsDirFailed);
      }
      var socketPath := Join([socketsDir, name + ".sock"]);
      if !w.staleRemovable {
        return None, Some(StaleSocket);
      }
      spawned := Some(Spawn(["python3", entrypoint, socketPath], pluginDir));
      if !w.startOk(name) {
        return spawned, Some(StartFailed(name));
      }
      if !w.ready(name) {
        return spawned, Some(StartTimeout(name));
      }
      plugins := plugins[name := PluginInfo(name, socketPath)];
      err := None;
    }

    /**
     * `Call`: an untracked plugin is "not running"; a connection that fails is an error.
     * Otherwise the counter goes up by one and the request carries the new id; an `error`
     * member in the response becomes the returned error. The table does not change.
     */
    method Call(name: string, rpcMethod: string, params: Value, w: World)
      returns (sent: Option<Request>, r: Result<string, HostError>)
      requires Valid()
      modifies this
      ensures Valid()
      ensures plugins == old(plugins)
      ensures name !in plugins ==> r == Err(NotRunning(name)) && sent == None && requestID == old(requestID)
      ensures name in plugins && !w.connectOk(name) ==>
        r == Err(ConnectFailed(name)) && sent == None && requestID == old(requestID)
      ensures name in plugins && w.connectOk(name) ==>
        && requestID == old(requestID) + 1
        && sentIDs == old(sentIDs) + [requestID]
        && sent == Some(Request("2.0", requestID, rpcMethod, params))
        && r == CallResult(w, name, rpcMethod)
      ensures sent == None ==> sentIDs == old(sentIDs)
    {
      if name !in plugins {
        return None, Err(NotRunning(name));
      }
      if !w.connectOk(name) {
        return None, Err(ConnectFailed(name));
      }
      requestID := requestID + 1;
      sentIDs := sentIDs + [requestID];
      var reqID := requestID;
      sent := Some(Request("2.0", reqID, rpcMethod, params));
      if !w.sendOk {
        return sent, Err(SendFailed);
      }
      var resp := w.reply(name, rpcMethod);
      if resp.Garbled? {
        return sent, Err(ReplyUnreadable);
      }
      if resp.error.Some? {
        return sent, Err(PluginFailed(resp.error.value.code, resp.error.value.message));
      }
      r := Ok(resp.result);
    }

    /**
     * `Kill`: a tracked plugin is asked to shut down (a request with id 0, which does not
     * touch the counter), its socket removed and its entry dropped; an untracked name is a
     * no-op.
     */
    method Kill(name: string, w: World) returns (shutdown: Option<Request>, removedSocket: Option<string>)
      requires Valid()
      modifies this
      ensures Valid()
      ensures plugins == old(plugins) - {name}
      ensures requestID == old(requestID) && sentIDs == old(sentIDs)
      ensures name !in old(plugins) ==> shutdown == None && removedSocket == None
      ensures name in old(plugins) ==> removedSocket == Some(SocketPath(socketsDir, name))
      ensures name in old(plugins) ==>
        shutdown == if w.connectOk(name) then Some(Request("2.0", 0, "shutdown", Null)) else None
    {
      if name !in plugins {
        return None, None;
      }
      var info := plugins[name];
      shutdown := if w.connectOk(name) then Some(Request("2.0", 0, "shutdown", Null)) else None;
      removedSocket := Some(info.socketPath);
      plugins := plugins - {name};
    }

    /** `KillAll`: kills every plugin tracked when it starts; the table ends empty. */
    method KillAll(w: World)
      requires Valid()
      modifies this
      ensures Valid()
      ensures plugins == map[]
      ensures requestID == old(requestID) && sentIDs == old(sentIDs)
    {
      var names := ListRunning();
      var i := 0;
      while i < |names|
        invariant 0 <= i <= |names|
        invariant Valid()
        invariant forall n :: n in plugins ==> n in names[i..]
        invariant requestID == old(requestID) && sentIDs == old(sentIDs)
      {
        var _, _ := Kill(names[i], w);
        i := i + 1;
      }
    }

    /** `IsRunning`: tracked and answering its liveness probe. */
    predicate IsRunning(name: string, w: World)
      reads this
    {
      name in plugins && w.alive(name)
    }

    /** `ListRunning`: every tracked name once, in map order. */
    method ListRunning() returns (names: seq<string>)
      ensures forall n :: n in names <==> n in plugins
      ensures forall i, j :: 0 <= i < j < |names| ==> names[i] != names[j]
    {
      names := [];
      var todo := plugins.Keys;
      while todo != {}
        invariant todo <= plugins.Keys
        invariant forall n :: n in names <==> n in plugins && n !in todo
        invariant forall i, j :: 0 <= i < j < |names| ==> names[i] != names[j]
        decreases |todo|
      {
        var n :| n in todo;
        names := names + [n];
        todo := todo - {n};
      }
    }

    /**
     * `RunHook`: wakes and calls every registry plugin that declares `hook`, recording each
     * outcome under the plugin's name; a registry that cannot be read gives one "registry"
     * entry.
     */
    method RunHook(registry: PluginFile, hook: string, w: World) returns (results: map<string, RunResult>)
      requires Valid()
      modifies this
      ensures Valid()
      ensures Load(registry).Err? ==> results == map["registry" := Failed(RegistryUnavailable(Load(registry).error))]
      ensures Load(registry).Ok? ==> results.Keys == HookedNames(Load(registry).value, hook)
    {
      var listed := Load(registry);
      if listed.Err? {
        return map["registry" := Failed(RegistryUnavailable(listed.error))];
      }
      var entries := listed.value;
      results := map[];
      var i := 0;
      while i < |entries|
        invariant 0 <= i <= |entries|
        invariant Valid()
        invariant results.Keys == HookedNames(entries[..i], hook)
      {
        var p := entries[i];
        assert entries[..i + 1] == entries[..i] + [p];
        HookedNamesAppend(entries[..i], p, hook);
        if HasHook(p.hooks, hook) {
          var _, werr := Wakeup(p.name, w);
          if werr.Some? {
            results := results[p.name := Failed(werr.value)];
          } else {
            var _, resp := Call(p.name, hook, Null, w);
            results := results[p.name := if resp.Err? then Failed(resp.error) else Responded(resp.value)];
          }
        }
        i := i + 1;
      }
      assert entries[..|entries|] == entries;
    }
  }

  lemma HookedNamesAppend(plugins: seq<PluginEntry>, p: PluginEntry, hook: string)
    ensures HookedNames(plugins + [p], hook) == HookedNames(plugins, hook) + (if HasHook(p.hooks, hook) then {p.name} else {})
  {
    var l := HookedNames(plugins + [p], hook);
    var r := HookedNames(plugins, hook) + (if HasHook(p.hooks, hook) then {p.name} else {});
    forall n | n in l ensures n in r {
      var q :| q in plugins + [p] && HasHook(q.hooks, hook) && q.name == n;
      if q != p {
        assert q in plugins;
      }
    }
  }

  lemma MapRemoveAbsent<K, V>(m: map<K, V>, k: K)
    requires k !in m
    ensures m - {k} == m
  {
  }

  lemma MapRemoveUpdate<K, V>(m: map<K, V>, k: K, v: V)
    ensures (m - {k})[k := v] == m[k := v]
  {
  }

  /** The ids of a host's requests strictly increase from 1. */
  lemma SentIDsIncrease(host: PluginService)
    requires host.Valid()
    ensures forall i, j :: 0 <= i < j < |host.sentIDs| ==> 1 <= host.sentIDs[i] < host.sentIDs[j]
  {
  }
}
