/**
 * Hook dispatch of internal/app/hook/service.go: a lifecycle hook first runs the profile's
 * shell commands in order, stopping at the first failure, and then calls every registered
 * plugin that declares the hook, one result per plugin in registry order. Log and tmux
 * events skip the shell commands and send a fixed payload.
 */
module HookDispatch {
  import opened Wrappers
  import opened Text
  import opened Values
  import opened PluginRegistry
  import opened PluginHost
  import Profiles
  import ProjectRegistry

  datatype DispatchError =
    | HostFailed(hostError: HostError)
    | RegistryFailed(pluginError: PluginError)
    /** The 1-based position of the shell command that failed. */
    | ShellHookFailed(hookType: string, index: nat)

  /** What one plugin answered, or why it could not; a registry failure has no plugin name. */
  datatype HookResult = HookResult(pluginName: string, response: string, error: Option<DispatchError>)

  /** What a lifecycle hook is run with. */
  datatype HookContext = HookContext(projectName: string, shellCommands: seq<string>, pluginConfigs: map<string, Value>)

  /** One pair of enclosing double quotes removed, if there is one. */
  function Unquote(s: string): (r: string)
    ensures r == s || s == ['"'] + r + ['"']
  {
    if |s| >= 2 && s[0] == '"' && s[|s| - 1] == '"' then s[1..|s| - 1] else s
  }

  /**
   * `cleanResponse`: the reply with surrounding white space removed and then one pair of
   * enclosing double quotes, if there is one.
   */
  function CleanResponse(resp: string): (r: string)
    ensures |r| <= |resp|
    ensures r == TrimSpace(resp) || TrimSpace(resp) == ['"'] + r + ['"']
  {
    Unquote(TrimSpace(resp))
  }

  lemma UnquoteQuoted(x: string)
    ensures Unquote(['"'] + x + ['"']) == x
  {
    var q := ['"'] + x + ['"'];
    assert q[1..|q| - 1] == x;
  }

  lemma QuotedTrimmed(x: string)
    ensures TrimSpace(['"'] + x + ['"']) == ['"'] + x + ['"']
  {
    var q := ['"'] + x + ['"'];
    assert !IsSpace('"');
    assert q[0] == '"' && q[|q| - 1] == '"';
    TrimSpaceFixed(q);
  }

  /** A quoted string comes back as it was quoted, quotes inside it included. */
  lemma CleanQuoted(x: string)
    ensures CleanResponse(['"'] + x + ['"']) == x
  {
    QuotedTrimmed(x);
    UnquoteQuoted(x);
  }

  /** A reply that is already trimmed and not quoted comes back unchanged. */
  lemma CleanUnquoted(s: string)
    requires s == [] || (!IsSpace(s[0]) && !IsSpace(s[|s| - 1]))
    requires |s| < 2 || s[0] != '"' || s[|s| - 1] != '"'
    ensures CleanResponse(s) == s
  {
    TrimSpaceFixed(s);
  }

  /**
   * The payload a plugin is called with: `name` under "project"; a configuration object keeps
   * its other keys, anything else that is not null goes under "params".
   */
  function WithProject(name: string, payload: Value): (r: Value)
    ensures r.Object? && "project" in r.fields && r.fields["project"] == Str(name)
  {
    if payload.Null? then Object(map["project" := Str(name)])
    else if payload.Object? then Object(payload.fields["project" := Str(name)])
    else Object(map["project" := Str(name), "params" := payload])
  }

  /**
   * Null gives the project alone; an object keeps every other key and its value; any other
   * value is kept whole under "params".
   */
  lemma WithProjectFields(name: string, payload: Value)
    ensures payload.Null? ==> WithProject(name, payload).fields.Keys == {"project"}
    ensures payload.Object? ==> WithProject(name, payload).fields.Keys == payload.fields.Keys + {"project"}
    ensures payload.Object? ==> forall k :: k in payload.fields && k != "project" ==> WithProject(name, payload).fields[k] == payload.fields[k]
    ensures !payload.Null? && !payload.Object? ==>
      && WithProject(name, payload).fields.Keys == {"project", "params"}
      && WithProject(name, payload).fields["params"] == payload
  {
    if !payload.Null? && !payload.Object? {
      assert "params" != "project";
    }
  }

  /** Adding the project twice is adding it once. */
  lemma WithProjectIdempotent(name: string, payload: Value)
    ensures WithProject(name, WithProject(name, payload)) == WithProject(name, payload)
  {
    var r := WithProject(name, payload);
    assert r.fields["project" := Str(name)] == r.fields;
  }

  /**
   * `addProjectToPayload`: the project's name is trimmed, and a configuration object is
   * copied into a fresh map before the name is added.
   */
  method AddProjectToPayload(projectName: string, payload: Value) returns (r: Value)
    ensures r == WithProject(TrimSpace(projectName), payload)
  {
    var name := Str(TrimSpace(projectName));
    if payload.Null? {
      return Object(map["project" := name]);
    }
    if payload.Object? {
      var out := CopyFields(payload.fields);
      return Object(out["project" := name]);
    }
    return Object(map["project" := name, "params" := payload]);
  }

  /** A fresh map with the same entries, copied one key at a time. */
  method CopyFields(m: map<string, Value>) returns (out: map<string, Value>)
    ensures out == m
  {
    out := map[];
    var todo := m.Keys;
    while todo != {}
      invariant todo <= m.Keys
      invariant out.Keys == m.Keys - todo
      invariant forall k :: k in out ==> out[k] == m[k]
      decreases |todo|
    {
      var k :| k in todo;
      out := out[k := m[k]];
      todo := todo - {k};
    }
  }

  /** The configuration a plugin is called with: its entry, or null when there is none. */
  function ConfigOf(pluginConfigs: map<string, Value>, configKey: string): Value {
    if configKey in pluginConfigs then pluginConfigs[configKey] else Null
  }

  /** The registry's plugins that declare `hook`, in registry order. */
  function Hooked(plugins: seq<PluginEntry>, hook: string): seq<PluginEntry> {
    ProjectRegistry.Filter(plugins, (p: PluginEntry) => HasHook(p.hooks, hook))
  }

  /** Exactly the registry's entries that list the hook are called. */
  lemma HookedMember(plugins: seq<PluginEntry>, hook: string, p: PluginEntry)
    ensures p in Hooked(plugins, hook) <==> p in plugins && hook in p.hooks
  {
    ProjectRegistry.FilterMember(plugins, (q: PluginEntry) => HasHook(q.hooks, hook), p);
    HasHookMember(p.hooks, hook);
  }

  lemma HookedAppend(entries: seq<PluginEntry>, i: nat, hook: string)
    requires i < |entries|
    ensures Hooked(entries[..i + 1], hook) == Hooked(entries[..i], hook) + (if HasHook(entries[i].hooks, hook) then [entries[i]] else [])
  {
    assert entries[..i + 1][..i] == entries[..i];
  }

  /** What a successful call is reported as: cleaned for lifecycle hooks, raw for events. */
  function Answer(clean: bool, raw: string): string {
    if clean then CleanResponse(raw) else raw
  }

  /**
   * Whether waking plugin `name` leaves it running, given the plugins the host tracked when the
   * dispatch began: a tracked plugin that answers, or one that can be started.
   */
  ghost predicate Up(tracked: map<string, PluginInfo>, pluginsDir: string, w: World, name: string) {
    (name in tracked && w.alive(name)) || StartSucceeds(pluginsDir, w, name)
  }

  /**
   * The error a plugin's result carries: why it could not be started, why the connection
   * failed, or why the call failed; none when it answered.
   */
  ghost function Outcome(tracked: map<string, PluginInfo>, pluginsDir: string, w: World, name: string, hook: string): (e: Option<DispatchError>)
    ensures e.None? <==> Up(tracked, pluginsDir, w, name) && w.connectOk(name) && CallResult(w, name, hook).Ok?
    ensures e.Some? ==> e.value.HostFailed?
  {
    if !Up(tracked, pluginsDir, w, name) then Some(HostFailed(StartError(pluginsDir, w, name)))
    else if !w.connectOk(name) then Some(HostFailed(ConnectFailed(name)))
    else if CallResult(w, name, hook).Err? then Some(HostFailed(CallResult(w, name, hook).error))
    else None
  }

  /**
   * One result for plugin `p`: its name; the error `Outcome` names, so no error exactly when
   * the plugin was up, the connection opened and the plugin answered; no response with an
   * error, and the plugin's answer (cleaned or raw) without one.
   */
  ghost predicate AnswersOne(res: HookResult, p: PluginEntry, hook: string, w: World, clean: bool,
                             tracked: map<string, PluginInfo>, pluginsDir: string) {
    && res.pluginName == p.name
    && res.error == Outcome(tracked, pluginsDir, w, p.name, hook)
    && (res.error.Some? ==> res.response == "")
    && (res.error.None? ==> res.response == Answer(clean, CallResult(w, p.name, hook).value))
  }

  /** One result per plugin of `hooked`, in the same order. */
  ghost predicate Answers(results: seq<HookResult>, hooked: seq<PluginEntry>, hook: string, w: World, clean: bool,
                          tracked: map<string, PluginInfo>, pluginsDir: string) {
    && |results| == |hooked|
    && forall k :: 0 <= k < |results| ==> AnswersOne(results[k], hooked[k], hook, w, clean, tracked, pluginsDir)
  }

  lemma AnswersAppend(results: seq<HookResult>, hooked: seq<PluginEntry>, res: HookResult, p: PluginEntry, hook: string,
                      w: World, clean: bool, tracked: map<string, PluginInfo>, pluginsDir: string)
    requires Answers(results, hooked, hook, w, clean, tracked, pluginsDir)
    requires AnswersOne(res, p, hook, w, clean, tracked, pluginsDir)
    ensures Answers(results + [res], hooked + [p], hook, w, clean, tracked, pluginsDir)
  {
  }

  /**
   * The results a dispatch returns: one error result when the registry cannot be listed,
   * otherwise one result per plugin declaring the hook, in registry order.
   */
  ghost predicate Dispatched(results: seq<HookResult>, registry: PluginFile, hook: string, w: World, clean: bool,
                             tracked: map<string, PluginInfo>, pluginsDir: string) {
    if Load(registry).Err? then results == [HookResult("", "", Some(RegistryFailed(Load(registry).error)))]
    else Answers(results, Hooked(Load(registry).value, hook), hook, w, clean, tracked, pluginsDir)
  }

  /** The plugins of `hooked` that are called: those up and reachable, in the same order. */
  ghost function Reached(hooked: seq<PluginEntry>, tracked: map<string, PluginInfo>, pluginsDir: string, w: World): (r: seq<PluginEntry>)
    ensures |r| <= |hooked|
  {
    ProjectRegistry.Filter(hooked, (p: PluginEntry) => Up(tracked, pluginsDir, w, p.name) && w.connectOk(p.name))
  }

  lemma ReachedAppend(hooked: seq<PluginEntry>, p: PluginEntry, tracked: map<string, PluginInfo>, pluginsDir: string, w: World)
    ensures Reached(hooked + [p], tracked, pluginsDir, w)
      == Reached(hooked, tracked, pluginsDir, w) + (if Up(tracked, pluginsDir, w, p.name) && w.connectOk(p.name) then [p] else [])
  {
    assert (hooked + [p])[..|hooked|] == hooked;
  }

  lemma TargetsAppend(sent: seq<(PluginEntry, Request)>, s: (PluginEntry, Request))
    ensures Targets(sent + [s]) == Targets(sent) + [s.0]
  {
    assert (sent + [s])[..|sent|] == sent;
  }

  /** One more registry entry adds itself to the plugins called exactly when it declares the hook and is reachable. */
  lemma ReachedStep(entries: seq<PluginEntry>, i: nat, hook: string, tracked: map<string, PluginInfo>, pluginsDir: string, w: World)
    requires i < |entries|
    ensures Reached(Hooked(entries[..i + 1], hook), tracked, pluginsDir, w)
      == Reached(Hooked(entries[..i], hook), tracked, pluginsDir, w)
         + (if HasHook(entries[i].hooks, hook) && Up(tracked, pluginsDir, w, entries[i].name) && w.connectOk(entries[i].name)
            then [entries[i]] else [])
  {
    var before := Hooked(entries[..i], hook);
    HookedAppend(entries, i, hook);
    ReachedAppend(before, entries[i], tracked, pluginsDir, w);
    if HasHook(entries[i].hooks, hook) {
      assert Hooked(entries[..i + 1], hook) == before + [entries[i]];
    } else {
      assert Hooked(entries[..i + 1], hook) == before;
    }
  }

  /** The plugins `sent` went to, in order. */
  function Targets(sent: seq<(PluginEntry, Request)>): (r: seq<PluginEntry>)
    ensures |r| == |sent| && forall k :: 0 <= k < |sent| ==> r[k] == sent[k].0
  {
    if sent == [] then [] else Targets(sent[..|sent| - 1]) + [sent[|sent| - 1].0]
  }

  /** The request made to plugin `p` carries the payload its dispatch promises. */
  ghost predicate SentTo(p: PluginEntry, req: Request, entries: seq<PluginEntry>, hook: string,
                         configs: Option<(map<string, Value>, string)>, payload: Value) {
    && p in entries && hook in p.hooks
    && req.rpcMethod == hook
    && req.params == if configs.Some? then WithProject(TrimSpace(configs.value.1), ConfigOf(configs.value.0, p.configKey)) else payload
  }

  /**
   * One plugin: woken, then called with `params`. The call is made exactly when the plugin
   * is up, and the result has no error exactly when the plugin was up, the connection
   * opened and the plugin answered.
   */
  method DispatchOne(host: PluginService, p: PluginEntry, hook: string, params: Value, clean: bool, w: World)
    returns (res: HookResult, sent: Option<Request>)
    requires host.Valid()
    modifies host
    ensures host.Valid()
    ensures AnswersOne(res, p, hook, w, clean, old(host.plugins), host.pluginsDir)
    ensures sent.Some? <==> Up(old(host.plugins), host.pluginsDir, w, p.name) && w.connectOk(p.name)
    ensures sent.Some? ==> sent.value.rpcMethod == hook && sent.value.params == params
    ensures forall n :: Up(host.plugins, host.pluginsDir, w, n) == Up(old(host.plugins), host.pluginsDir, w, n)
  {
    var _, werr := host.Wakeup(p.name, w);
    if werr.Some? {
      return HookResult(p.name, "", Some(HostFailed(werr.value))), None;
    }
    var s, resp := host.Call(p.name, hook, params, w);
    sent := s;
    if resp.Err? {
      return HookResult(p.name, "", Some(HostFailed(resp.error))), sent;
    }
    var response := if clean then CleanResponse(resp.value) else resp.value;
    res := HookResult(p.name, response, None);
  }

  /** One registry entry: skipped unless it declares the hook, otherwise dispatched. */
  method Visit(host: PluginService, p: PluginEntry, hook: string, configs: Option<(map<string, Value>, string)>,
               payload: Value, w: World, ghost entries: seq<PluginEntry>)
    returns (res: Option<HookResult>, req: Option<Request>)
    requires host.Valid() && p in entries
    modifies host
    ensures host.Valid()
    ensures res.Some? <==> HasHook(p.hooks, hook)
    ensures res.Some? ==> AnswersOne(res.value, p, hook, w, configs.Some?, old(host.plugins), host.pluginsDir)
    ensures req.Some? <==> HasHook(p.hooks, hook) && Up(old(host.plugins), host.pluginsDir, w, p.name) && w.connectOk(p.name)
    ensures req.Some? ==> SentTo(p, req.value, entries, hook, configs, payload)
    ensures forall n :: Up(host.plugins, host.pluginsDir, w, n) == Up(old(host.plugins), host.pluginsDir, w, n)
  {
    if !HasHook(p.hooks, hook) {
      return None, None;
    }
    HasHookMember(p.hooks, hook);
    var params := payload;
    if configs.Some? {
      params := AddProjectToPayload(configs.value.1, ConfigOf(configs.value.0, p.configKey));
    }
    var r;
    r, req := DispatchOne(host, p, hook, params, configs.Some?, w);
    res := Some(r);
  }

  /**
   * What `Dispatch` has done after the first `i` registry entries: one result per hooked plugin
   * among them, requests that keep their promise, made to exactly the reachable ones, and a
   * table of tracked plugins that agrees with the one at the start on which plugins are up.
   */
  ghost predicate Progress(entries: seq<PluginEntry>, i: nat, hook: string, configs: Option<(map<string, Value>, string)>,
                           payload: Value, w: World, tracked: map<string, PluginInfo>, current: map<string, PluginInfo>,
                           pluginsDir: string, results: seq<HookResult>, sent: seq<(PluginEntry, Request)>)
  {
    && i <= |entries|
    && Answers(results, Hooked(entries[..i], hook), hook, w, configs.Some?, tracked, pluginsDir)
    && (forall k :: 0 <= k < |sent| ==> SentTo(sent[k].0, sent[k].1, entries, hook, configs, payload))
    && Targets(sent) == Reached(Hooked(entries[..i], hook), tracked, pluginsDir, w)
    && (forall n :: Up(current, pluginsDir, w, n) == Up(tracked, pluginsDir, w, n))
  }

  /**
   * The loop body of `Dispatch`: entry `i` is visited, and its result and request, if any,
   * are appended, so that the results and requests cover one more registry entry.
   */
  method Step(host: PluginService, entries: seq<PluginEntry>, i: nat, hook: string,
              configs: Option<(map<string, Value>, string)>, payload: Value, w: World,
              ghost tracked: map<string, PluginInfo>, results: seq<HookResult>, sent: seq<(PluginEntry, Request)>)
    returns (results': seq<HookResult>, sent': seq<(PluginEntry, Request)>)
    requires host.Valid() && i < |entries|
    requires Progress(entries, i, hook, configs, payload, w, tracked, host.plugins, host.pluginsDir, results, sent)
    modifies host
    ensures host.Valid()
    ensures Progress(entries, i + 1, hook, configs, payload, w, tracked, host.plugins, host.pluginsDir, results', sent')
  {
    var p := entries[i];
    ghost var dir := host.pluginsDir;
    ghost var before := host.plugins;
    OutcomeUp(before, tracked, dir, w, p.name, hook);
    var res, req := Visit(host, p, hook, configs, payload, w, entries);
    ResultsStep(entries, i, hook, w, configs.Some?, tracked, dir, results, res);
    SentStep(entries, i, hook, configs, payload, w, tracked, dir, sent, req);
    SentToStep(entries, hook, configs, payload, sent, p, req);
    UpChain(tracked, before, host.plugins, dir, w);
    results' := if res.Some? then results + [res.value] else results;
    sent' := if req.Some? then sent + [(p, req.value)] else sent;
  }

  /** The outcome for a plugin depends on the tracked table only through whether the plugin is up. */
  lemma OutcomeUp(t: map<string, PluginInfo>, t': map<string, PluginInfo>, pluginsDir: string, w: World, name: string, hook: string)
    requires Up(t, pluginsDir, w, name) == Up(t', pluginsDir, w, name)
    ensures Outcome(t, pluginsDir, w, name, hook) == Outcome(t', pluginsDir, w, name, hook)
    ensures Up(t, pluginsDir, w, name) == Up(t', pluginsDir, w, name)
  {
  }

  /** A request to `p` that keeps the promise joins the requests made so far. */
  lemma SentToStep(entries: seq<PluginEntry>, hook: string, configs: Option<(map<string, Value>, string)>, payload: Value,
                   sent: seq<(PluginEntry, Request)>, p: PluginEntry, req: Option<Request>)
    requires forall k :: 0 <= k < |sent| ==> SentTo(sent[k].0, sent[k].1, entries, hook, configs, payload)
    requires req.Some? ==> SentTo(p, req.value, entries, hook, configs, payload)
    ensures var sent' := if req.Some? then sent + [(p, req.value)] else sent;
      forall k :: 0 <= k < |sent'| ==> SentTo(sent'[k].0, sent'[k].1, entries, hook, configs, payload)
  {
  }

  /** Two tables that agree on which plugins are up chain into one. */
  lemma UpChain(t0: map<string, PluginInfo>, t1: map<string, PluginInfo>, t2: map<string, PluginInfo>, pluginsDir: string, w: World)
    requires forall n :: Up(t1, pluginsDir, w, n) == Up(t0, pluginsDir, w, n)
    requires forall n :: Up(t2, pluginsDir, w, n) == Up(t1, pluginsDir, w, n)
    ensures forall n :: Up(t2, pluginsDir, w, n) == Up(t0, pluginsDir, w, n)
  {
  }

  /** Entry `i`'s result, if any, extends the results for the entries before it. */
  lemma ResultsStep(entries: seq<PluginEntry>, i: nat, hook: string, w: World, clean: bool,
                    tracked: map<string, PluginInfo>, pluginsDir: string, results: seq<HookResult>, res: Option<HookResult>)
    requires i < |entries|
    requires Answers(results, Hooked(entries[..i], hook), hook, w, clean, tracked, pluginsDir)
    requires res.Some? <==> HasHook(entries[i].hooks, hook)
    requires res.Some? ==> AnswersOne(res.value, entries[i], hook, w, clean, tracked, pluginsDir)
    ensures Answers(if res.Some? then results + [res.value] else results, Hooked(entries[..i + 1], hook), hook, w, clean, tracked, pluginsDir)
  {
    HookedAppend(entries, i, hook);
    if res.Some? {
      AnswersAppend(results, Hooked(entries[..i], hook), res.value, entries[i], hook, w, clean, tracked, pluginsDir);
    }
  }

  /** Entry `i`'s request, if any, extends the requests for the entries before it. */
  lemma SentStep(entries: seq<PluginEntry>, i: nat, hook: string, configs: Option<(map<string, Value>, string)>, payload: Value,
                 w: World, tracked: map<string, PluginInfo>, pluginsDir: string, sent: seq<(PluginEntry, Request)>, req: Option<Request>)
    requires i < |entries|
    requires Targets(sent) == Reached(Hooked(entries[..i], hook), tracked, pluginsDir, w)
    requires req.Some? <==> HasHook(entries[i].hooks, hook) && Up(tracked, pluginsDir, w, entries[i].name) && w.connectOk(entries[i].name)
    ensures Targets(if req.Some? then sent + [(entries[i], req.value)] else sent) == Reached(Hooked(entries[..i + 1], hook), tracked, pluginsDir, w)
  {
    ReachedStep(entries, i, hook, tracked, pluginsDir, w);
    if req.Some? {
      TargetsAppend(sent, (entries[i], req.value));
    }
  }

  /**
   * `runPluginHooks` and `runPluginHooksWithPayload`: every plugin that declares the hook is
   * dispatched in registry order. With `configs` present each call carries the plugin's
   * configuration with the project added and answers are cleaned; otherwise every call
   * carries `payload` and answers are kept raw. `sent` pairs each request made with its plugin:
   * exactly the hooked plugins that were up and reachable are called, once each, in registry order.
   */
  method Dispatch(host: PluginService, registry: PluginFile, hook: string,
                  configs: Option<(map<string, Value>, string)>, payload: Value, w: World)
    returns (results: seq<HookResult>, sent: seq<(PluginEntry, Request)>)
    requires host.Valid()
    modifies host
    ensures host.Valid()
    ensures Dispatched(results, registry, hook, w, configs.Some?, old(host.plugins), host.pluginsDir)
    ensures Load(registry).Err? ==> sent == [] && host.plugins == old(host.plugins) && host.requestID == old(host.requestID)
    ensures forall k :: 0 <= k < |sent| ==> SentTo(sent[k].0, sent[k].1, Load(registry).value, hook, configs, payload)
    ensures Load(registry).Ok? ==> Targets(sent) == Reached(Hooked(Load(registry).value, hook), old(host.plugins), host.pluginsDir, w)
  {
    var listed := Load(registry);
    if listed.Err? {
      return [HookResult("", "", Some(RegistryFailed(listed.error)))], [];
    }
    results, sent := DispatchEntries(host, listed.value, hook, configs, payload, w);
  }

  /** The loop of `Dispatch` over the listed registry entries. */
  method DispatchEntries(host: PluginService, entries: seq<PluginEntry>, hook: string,
                         configs: Option<(map<string, Value>, string)>, payload: Value, w: World)
    returns (results: seq<HookResult>, sent: seq<(PluginEntry, Request)>)
    requires host.Valid()
    modifies host
    ensures host.Valid()
    ensures Answers(results, Hooked(entries, hook), hook, w, configs.Some?, old(host.plugins), host.pluginsDir)
    ensures forall k :: 0 <= k < |sent| ==> SentTo(sent[k].0, sent[k].1, entries, hook, configs, payload)
    ensures Targets(sent) == Reached(Hooked(entries, hook), old(host.plugins), host.pluginsDir, w)
  {
    ghost var tracked := host.plugins;
    results := [];
    sent := [];
    var i := 0;
    while i < |entries|
      invariant 0 <= i <= |entries|
      invariant host.Valid()
      invariant Progress(entries, i, hook, configs, payload, w, tracked, host.plugins, host.pluginsDir, results, sent)
    {
      results, sent := Step(host, entries, i, hook, configs, payload, w, tracked, results, sent);
      i := i + 1;
    }
    assert entries[..|entries|] == entries;
  }

  /**
   * `runPluginHooks`: each plugin is called with its own configuration and the project's
   * name, and its answer is cleaned.
   */
  method RunPluginHooks(host: PluginService, registry: PluginFile, hookType: string,
                        pluginConfigs: map<string, Value>, projectName: string, w: World)
    returns (results: seq<HookResult>)
    requires host.Valid()
    modifies host
    ensures host.Valid()
    ensures Dispatched(results, registry, hookType, w, true, old(host.plugins), host.pluginsDir)
  {
    var sent;
    results, sent := Dispatch(host, registry, hookType, Some((pluginConfigs, projectName)), Null, w);
  }

  /** `runPluginHooksWithPayload`: every plugin gets the same payload; answers stay raw. */
  method RunPluginHooksWithPayload(host: PluginService, registry: PluginFile, hookType: string, payload: Value, w: World)
    returns (results: seq<HookResult>)
    requires host.Valid()
    modifies host
    ensures host.Valid()
    ensures Dispatched(results, registry, hookType, w, false, old(host.plugins), host.pluginsDir)
  {
    var sent;
    results, sent := Dispatch(host, registry, hookType, None, payload, w);
  }

  /** `runShellHooks`: the commands in order; the first that fails stops the rest. */
  method RunShellHooks(hookType: string, commands: seq<string>, succeeds: nat -> bool)
    returns (ran: seq<string>, err: Option<DispatchError>)
    ensures err.None? <==> forall i :: 0 <= i < |commands| ==> succeeds(i)
    ensures err.Some? ==>
      && err.value.ShellHookFailed? && err.value.hookType == hookType
      && 1 <= err.value.index <= |commands| && !succeeds(err.value.index - 1)
      && (forall i :: 0 <= i < err.value.index - 1 ==> succeeds(i))
      && ran == commands[..err.value.index]
    ensures err.None? ==> ran == commands
  {
    var failed;
    ran, failed := Profiles.RunHooks(commands, succeeds);
    err := if failed.Some? then Some(ShellHookFailed(hookType, failed.value)) else None;
  }

  /**
   * `runHook`: the shell commands, then the plugins. A failing command is returned as the
   * error and no plugin is woken or called.
   */
  method RunHook(host: PluginService, hookType: string, ctx: HookContext, succeeds: nat -> bool,
                 registry: PluginFile, w: World)
    returns (results: Option<seq<HookResult>>, err: Option<DispatchError>)
    requires host.Valid()
    modifies host
    ensures host.Valid()
    ensures err.None? <==> forall i :: 0 <= i < |ctx.shellCommands| ==> succeeds(i)
    ensures err.Some? ==> results == None && host.plugins == old(host.plugins) && host.requestID == old(host.requestID)
    ensures err.None? ==> results.Some? && Dispatched(results.value, registry, hookType, w, true, old(host.plugins), host.pluginsDir)
  {
    var _, shellErr := RunShellHooks(hookType, ctx.shellCommands, succeeds);
    if shellErr.Some? {
      return None, shellErr;
    }
    var rs := RunPluginHooks(host, registry, hookType, ctx.pluginConfigs, ctx.projectName, w);
    return Some(rs), None;
  }
}
