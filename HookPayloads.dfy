/**
 * Hook payloads of internal/app/hook/models.go: the event a hook receives, built by
 * `NewPayload` and completed field by field with builder methods that update the payload in
 * place and return it, so that calls can be chained.
 */
module HookPayloads {
  import opened Wrappers
  import opened Values

  // The hook types.
  const HookOnLoad: string := "on_load"
  const HookOnClose: string := "on_close"
  const HookOnCreate: string := "on_create"
  const HookOnDelete: string := "on_delete"
  const HookOnShellRunIn: string := "on_shell_run_in"
  const HookOnShellRunOut: string := "on_shell_run_out"
  const HookOnPluginWakeup: string := "on_plugin_wakeup"
  const HookOnError: string := "on_error"
  const HookOnWarning: string := "on_warning"
  const HookOnDebug: string := "on_debug"
  const HookOnMessage: string := "on_message"
  const HookOnTmuxSessionStart: string := "on_tmux_session_start"
  const HookOnTmuxWindow: string := "on_tmux_window"

  // The keys of a payload's data.
  const FieldError: string := "error"
  const FieldWarning: string := "warning"
  const FieldMessage: string := "message"
  const FieldContext: string := "context"
  const FieldSource: string := "source"
  const FieldSession: string := "session"
  const FieldWindow: string := "window"
  const FieldCommand: string := "command"

  /** A payload as a value, as it stands when it is handed to the hooks. */
  datatype Payload = Payload(project: string, hookType: string, data: map<string, Value>, config: Option<map<string, Value>>)

  class HookPayload {
    var project: string
    var hookType: string
    var data: map<string, Value>
    /** `None` is the nil map `NewPayload` leaves. */
    var config: Option<map<string, Value>>

    /** The payload's current contents. */
    function Snapshot(): (p: Payload)
      reads this
      ensures p.project == project && p.hookType == hookType && p.data == data && p.config == config
    {
      Payload(project, hookType, data, config)
    }

    /** `NewPayload`: the project and the hook type, no data, no configuration. */
    constructor(project: string, hookType: string)
      ensures Snapshot() == Payload(project, hookType, map[], None)
    {
      this.project := project;
      this.hookType := hookType;
      data := map[];
      config := None;
    }

    /** `WithError`: a present error sets the `error` key to its message; none changes nothing. */
    method WithError(err: Option<string>) returns (self: HookPayload)
      modifies this
      ensures self == this
      ensures data == if err.Some? then old(data)[FieldError := Str(err.value)] else old(data)
      ensures project == old(project) && hookType == old(hookType) && config == old(config)
    {
      if err.Some? {
        data := data[FieldError := Str(err.value)];
      }
      return this;
    }

    /** `WithErrorMsg`: sets the `error` key. */
    method WithErrorMsg(msg: string) returns (self: HookPayload)
      modifies this
      ensures self == this
      ensures data == old(data)[FieldError := Str(msg)]
      ensures project == old(project) && hookType == old(hookType) && config == old(config)
    {
      data := data[FieldError := Str(msg)];
      return this;
    }

    /** `WithWarning`: sets the `warning` key. */
    method WithWarning(msg: string) returns (self: HookPayload)
      modifies this
      ensures self == this
      ensures data == old(data)[FieldWarning := Str(msg)]
      ensures project == old(project) && hookType == old(hookType) && config == old(config)
    {
      data := data[FieldWarning := Str(msg)];
      return this;
    }

    /** `WithMessage`: sets the `message` key. */
    method WithMessage(msg: string) returns (self: HookPayload)
      modifies this
      ensures self == this
      ensures data == old(data)[FieldMessage := Str(msg)]
      ensures project == old(project) && hookType == old(hookType) && config == old(config)
    {
      data := data[FieldMessage := Str(msg)];
      return this;
    }

    /** `WithContext`: sets the `context` key. */
    method WithContext(ctx: string) returns (self: HookPayload)
      modifies this
      ensures self == this
      ensures data == old(data)[FieldContext := Str(ctx)]
      ensures project == old(project) && hookType == old(hookType) && config == old(config)
    {
      data := data[FieldContext := Str(ctx)];
      return this;
    }

    /** `WithSource`: sets the `source` key. */
    method WithSource(src: string) returns (self: HookPayload)
      modifies this
      ensures self == this
      ensures data == old(data)[FieldSource := Str(src)]
      ensures project == old(project) && hookType == old(hookType) && config == old(config)
    {
      data := data[FieldSource := Str(src)];
      return this;
    }

    /** `WithSession`: sets the `session` key. */
    method WithSession(session: string) returns (self: HookPayload)
      modifies this
      ensures self == this
      ensures data == old(data)[FieldSession := Str(session)]
      ensures project == old(project) && hookType == old(hookType) && config == old(config)
    {
      data := data[FieldSession := Str(session)];
      return this;
    }

    /** `WithWindow`: sets the `window` key to the window's index. */
    method WithWindow(idx: int) returns (self: HookPayload)
      modifies this
      ensures self == this
      ensures data == old(data)[FieldWindow := Int(idx)]
      ensures project == old(project) && hookType == old(hookType) && config == old(config)
    {
      data := data[FieldWindow := Int(idx)];
      return this;
    }

    /** `WithCommand`: sets the `command` key. */
    method WithCommand(cmd: string) returns (self: HookPayload)
      modifies this
      ensures self == this
      ensures data == old(data)[FieldCommand := Str(cmd)]
      ensures project == old(project) && hookType == old(hookType) && config == old(config)
    {
      data := data[FieldCommand := Str(cmd)];
      return this;
    }

    /** `WithField`: sets any key. */
    method WithField(key: string, value: Value) returns (self: HookPayload)
      modifies this
      ensures self == this
      ensures data == old(data)[key := value]
      ensures project == old(project) && hookType == old(hookType) && config == old(config)
    {
      data := data[key := value];
      return this;
    }

    /** `WithConfig`: replaces the configuration and leaves the data alone. */
    method WithConfig(cfg: Option<map<string, Value>>) returns (self: HookPayload)
      modifies this
      ensures self == this
      ensures config == cfg
      ensures project == old(project) && hookType == old(hookType) && data == old(data)
    {
      config := cfg;
      return this;
    }
  }

  /**
   * Chaining accumulates: a payload built by `NewPayload(project, t).WithMessage(m).WithContext(c)`
   * holds exactly the two keys (`p`), and the chain in the other order with the message set
   * twice gives the same payload (`q`).
   */
  method ChainedPayload(project: string, hookType: string, m: string, c: string) returns (p: Payload, q: Payload)
    ensures p == Payload(project, hookType, map[FieldMessage := Str(m), FieldContext := Str(c)], None)
    ensures q == p
  {
    var a := new HookPayload(project, hookType);
    a := a.WithMessage(m);
    a := a.WithContext(c);
    var b := new HookPayload(project, hookType);
    b := b.WithContext(c);
    b := b.WithMessage(m);
    b := b.WithMessage(m);
    p := a.Snapshot();
    q := b.Snapshot();
  }
}
