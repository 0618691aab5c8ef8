/**
 * The log service of internal/app/log/service.go: every log call prints one line and, when
 * the service has a hook runner, hands the runner one payload built with the hook payload
 * builder. The printed lines and the payloads handed over are recorded in order; colours and
 * icons are not modelled, and whether verbose output is on is a parameter.
 */
module AppLog {
  import opened Wrappers
  import opened Text
  import opened Values
  import opened HookPayloads
  import Paths

  datatype Stream = Stdout | Stderr

  /** One printed line: where it went, its level label and its text. */
  datatype Line = Line(stream: Stream, levelLabel: string, text: string)

  /** The log calls that reach the hooks. */
  datatype Call = ErrorCall | WarnCall | InfoCall | SuccessCall | DebugCall

  /** The hook a call is sent to. */
  function HookOf(c: Call): string {
    match c
    case ErrorCall => HookOnError
    case WarnCall => HookOnWarning
    case InfoCall | SuccessCall => HookOnMessage
    case DebugCall => HookOnDebug
  }

  /** The key the call's text is stored under. */
  function TextKey(c: Call): string {
    match c
    case ErrorCall => FieldError
    case WarnCall => FieldWarning
    case _ => FieldMessage
  }

  /** The key the call's context is stored under: messages name it their source. */
  function ContextKey(c: Call): string {
    if c.InfoCall? || c.SuccessCall? then FieldSource else FieldContext
  }

  /** The payload a log call hands to the hooks. */
  function PayloadOf(c: Call, project: string, context: string, text: string): Payload {
    Payload(project, HookOf(c), map[TextKey(c) := Str(text), ContextKey(c) := Str(context)], None)
  }

  /** The label a call prints with. */
  function LabelOf(c: Call): string {
    match c
    case ErrorCall => "ERROR"
    case WarnCall => "WARN"
    case InfoCall => "INFO"
    case SuccessCall => "OK"
    case DebugCall => "DEBUG"
  }

  /** Errors and warnings go to standard error, the rest to standard output. */
  function StreamOf(c: Call): Stream {
    if c.ErrorCall? || c.WarnCall? then Stderr else Stdout
  }

  /** Warnings and debug lines are printed only with verbose output on. */
  predicate Prints(c: Call, verbose: bool) {
    verbose || !(c.WarnCall? || c.DebugCall?)
  }

  /**
   * Every payload holds exactly the call's text and its context, under two different keys,
   * and carries no configuration; the text key tells an error from a warning from a message.
   */
  lemma PayloadShape(c: Call, project: string, context: string, text: string)
    ensures var p := PayloadOf(c, project, context, text);
      && p.project == project && p.config == None
      && p.data.Keys == {TextKey(c), ContextKey(c)}
      && TextKey(c) != ContextKey(c)
      && p.data[TextKey(c)] == Str(text) && p.data[ContextKey(c)] == Str(context)
    ensures HookOf(c) == HookOnError <==> c.ErrorCall?
    ensures HookOf(c) == HookOnMessage <==> c.InfoCall? || c.SuccessCall?
  {
    assert FieldError != FieldContext && FieldWarning != FieldContext && FieldMessage != FieldContext && FieldMessage != FieldSource;
    assert HookOnError != HookOnWarning && HookOnError != HookOnMessage && HookOnError != HookOnDebug;
    assert HookOnMessage != HookOnWarning && HookOnMessage != HookOnDebug;
  }

  /** `projectNameFromCwd`: the last element of the working directory, or "" without one. */
  function ProjectNameFromCwd(cwd: Option<string>): (name: string)
    ensures cwd.None? ==> name == ""
    ensures cwd.Some? ==> name != "" && (name == "/" || '/' !in name)
  {
    if cwd.None? then "" else Paths.Base(cwd.value)
  }

  class LogService {
    /** Whether the service has a hook runner. */
    const hasHooks: bool
    var project: string
    /** The payloads handed to the hook runner, in order. */
    var sent: seq<Payload>
    /** The lines printed, in order. */
    var printed: seq<Line>

    /** Nothing reaches a missing runner, and only log payloads without configuration reach one. */
    ghost predicate Valid()
      reads this
    {
      && (!hasHooks ==> sent == [])
      && (forall i :: 0 <= i < |sent| ==> sent[i].config == None && sent[i].hookType in {HookOnError, HookOnWarning, HookOnMessage, HookOnDebug})
    }

    /** What one call hands over: its payload with a runner, nothing without. */
    function Delivered(p: Payload): seq<Payload>
      reads this
    {
      if hasHooks then [p] else []
    }

    /** `NewLogService`: the project is named after the working directory. */
    constructor(hasHooks: bool, cwd: Option<string>)
      ensures Valid()
      ensures this.hasHooks == hasHooks && project == ProjectNameFromCwd(cwd)
      ensures sent == [] && printed == []
    {
      this.hasHooks := hasHooks;
      project := ProjectNameFromCwd(cwd);
      sent := [];
      printed := [];
    }

    /** `SetProject`: the name is stored trimmed. */
    method SetProject(name: string)
      modifies this
      ensures project == TrimSpace(name)
      ensures sent == old(sent) && printed == old(printed)
    {
      project := TrimSpace(name);
    }

    /** Hands a payload to the runner, when there is one. */
    method Send(b: HookPayload)
      requires Valid()
      requires b.config == None && b.hookType in {HookOnError, HookOnWarning, HookOnMessage, HookOnDebug}
      modifies this
      ensures Valid()
      ensures sent == old(sent) + Delivered(b.Snapshot())
      ensures project == old(project) && printed == old(printed)
    {
      if hasHooks {
        sent := sent + [b.Snapshot()];
      }
    }

    /**
     * `Error`: no error is no call at all. Otherwise the error is printed to standard error,
     * handed to the `on_error` hooks with its context, and returned.
     */
    method Error(context: string, err: Option<string>) returns (r: Option<string>)
      requires Valid()
      modifies this
      ensures Valid()
      ensures r == err && project == old(project)
      ensures err.None? ==> sent == old(sent) && printed == old(printed)
      ensures err.Some? ==>
        && printed == old(printed) + [Line(Stderr, LabelOf(ErrorCall), err.value)]
        && sent == old(sent) + Delivered(PayloadOf(ErrorCall, project, context, err.value))
    {
      if err.None? {
        return None;
      }
      printed := printed + [Line(Stderr, "ERROR", err.value)];
      var b := new HookPayload(project, HookOnError);
      b := b.WithError(err);
      b := b.WithContext(context);
      Send(b);
      return err;
    }

    /** `ErrorMsg`: the formatted message, printed and handed over like an error. */
    method ErrorMsg(context: string, formatted: string)
      requires Valid()
      modifies this
      ensures Valid()
      ensures project == old(project)
      ensures printed == old(printed) + [Line(Stderr, LabelOf(ErrorCall), formatted)]
      ensures sent == old(sent) + Delivered(PayloadOf(ErrorCall, project, context, formatted))
    {
      printed := printed + [Line(Stderr, "ERROR", formatted)];
      var b := new HookPayload(project, HookOnError);
      b := b.WithErrorMsg(formatted);
      b := b.WithContext(context);
      Send(b);
    }

    /** `Warn`: printed only with verbose output on, handed to `on_warning` regardless. */
    method Warn(context: string, formatted: string, verbose: bool)
      requires Valid()
      modifies this
      ensures Valid()
      ensures project == old(project)
      ensures printed == old(printed) + (if verbose then [Line(Stderr, LabelOf(WarnCall), formatted)] else [])
      ensures sent == old(sent) + Delivered(PayloadOf(WarnCall, project, context, formatted))
    {
      if verbose {
        printed := printed + [Line(Stderr, "WARN", formatted)];
      }
      var b := new HookPayload(project, HookOnWarning);
      b := b.WithWarning(formatted);
      b := b.WithContext(context);
      Send(b);
    }

    /** `Info`: printed, and handed to `on_message` with the context as its source. */
    method Info(context: string, formatted: string)
      requires Valid()
      modifies this
      ensures Valid()
      ensures project == old(project)
      ensures printed == old(printed) + [Line(Stdout, LabelOf(InfoCall), formatted)]
      ensures sent == old(sent) + Delivered(PayloadOf(InfoCall, project, context, formatted))
    {
      printed := printed + [Line(Stdout, "INFO", formatted)];
      var b := new HookPayload(project, HookOnMessage);
      b := b.WithMessage(formatted);
      b := b.WithSource(context);
      Send(b);
    }

    /** `Success`: like `Info`, with its own label. */
    method Success(context: string, formatted: string)
      requires Valid()
      modifies this
      ensures Valid()
      ensures project == old(project)
      ensures printed == old(printed) + [Line(Stdout, LabelOf(SuccessCall), formatted)]
      ensures sent == old(sent) + Delivered(PayloadOf(SuccessCall, project, context, formatted))
    {
      printed := printed + [Line(Stdout, "OK", formatted)];
      var b := new HookPayload(project, HookOnMessage);
      b := b.WithMessage(formatted);
      b := b.WithSource(context);
      Send(b);
    }

    /** `Debug`: printed only with verbose output on, handed to `on_debug` regardless. */
    method Debug(context: string, formatted: string, verbose: bool)
      requires Valid()
      modifies this
      ensures Valid()
      ensures project == old(project)
      ensures printed == old(printed) + (if verbose then [Line(Stdout, LabelOf(DebugCall), formatted)] else [])
      ensures sent == old(sent) + Delivered(PayloadOf(DebugCall, project, context, formatted))
    {
      if verbose {
        printed := printed + [Line(Stdout, "DEBUG", formatted)];
      }
      var b := new HookPayload(project, HookOnDebug);
      b := b.WithMessage(formatted);
      b := b.WithContext(context);
      Send(b);
    }

    /**
     * Any call (an `Error` with an error present): one line exactly when the call prints, on
     * the call's stream with its label, and one payload exactly when there is a runner.
     */
    method Log(c: Call, context: string, formatted: string, verbose: bool)
      requires Valid()
      modifies this
      ensures Valid()
      ensures project == old(project)
      ensures printed == old(printed) + (if Prints(c, verbose) then [Line(StreamOf(c), LabelOf(c), formatted)] else [])
      ensures sent == old(sent) + Delivered(PayloadOf(c, project, context, formatted))
    {
      match c
      case ErrorCall => ErrorMsg(context, formatted);
      case WarnCall => Warn(context, formatted, verbose);
      case InfoCall => Info(context, formatted);
      case SuccessCall => Success(context, formatted);
      case DebugCall => Debug(context, formatted, verbose);
    }
  }
}
