/**
 * The structured logger (src/application/utils/logger.ts): a process-wide context and level,
 * four level-gated emitters and one line of JSON per emitted entry.
 *
 * The pure part (level codes, message formatting, the entry record) and a state-transition
 * view of each operation come first; the class `Logger` holds the module state and its methods
 * are proved to follow those transitions.
 */
module Logging {

  import opened Wrappers
  import opened JsValues
  import opened JsStrings
  import Authorisation

  /** The `level` field written into each entry. */
  datatype LogLevel = DEBUG | INFO | WARN | ERROR

  /** `LogLevelCode`: the configured threshold, from 0 (ERROR) to 3 (DEBUG). */
  type LevelCode = c: int | 0 <= c <= 3

  function Name(level: LogLevel): string {
    match level
    case DEBUG => "DEBUG"
    case INFO => "INFO"
    case WARN => "WARN"
    case ERROR => "ERROR"
  }

  function Code(level: LogLevel): LevelCode {
    match level
    case DEBUG => 3
    case INFO => 2
    case WARN => 1
    case ERROR => 0
  }

  /** The value of `nameToCode(name)`: a level name gives its code, anything else DEBUG's. */
  function LevelCodeOf(name: Option<string>): (code: LevelCode)
    ensures forall level :: name == Some(Name(level)) ==> code == Code(level)
    ensures (forall level :: name != Some(Name(level))) ==> code == Code(DEBUG)
  {
    if name == Some("DEBUG") then 3
    else if name == Some("INFO") then assert name == Some(Name(INFO)); 2
    else if name == Some("WARN") then assert name == Some(Name(WARN)); 1
    else if name == Some("ERROR") then assert name == Some(Name(ERROR)); 0
    else 3
  }

  /** The warning `nameToCode` issues from its default branch, if it reaches it. */
  function InvalidLevelWarning(name: Option<string>): (w: Option<string>)
    ensures w.None? <==> exists level :: name == Some(Name(level))
    ensures name.Some? && name.value != "" && w.Some? ==>
              w.value == name.value + " is an invalid log level. Defaulting to DEBUG"
    ensures (name.None? || name == Some("")) ==> w == Some("No log level set, defaulting to DEBUG")
  {
    if name == Some("DEBUG") || name == Some("INFO") || name == Some("WARN") || name == Some("ERROR") then
      assert name == Some(Name(LevelOfName(name.value)));
      None
    else if name.Some? && name.value != "" then
      Some(name.value + " is an invalid log level. Defaulting to DEBUG")
    else
      Some("No log level set, defaulting to DEBUG")
  }

  /** The level a recognised name stands for. */
  function LevelOfName(name: string): (level: LogLevel)
    requires name in {"DEBUG", "INFO", "WARN", "ERROR"}
    ensures Name(level) == name
  {
    if name == "DEBUG" then DEBUG else if name == "INFO" then INFO else if name == "WARN" then WARN else ERROR
  }

  /** Codes and names agree both ways: the code of a level's name is its code, and codes are distinct. */
  lemma NameCodeRoundTrip(level: LogLevel)
    ensures LevelCodeOf(Some(Name(level))) == Code(level)
    ensures InvalidLevelWarning(Some(Name(level))).None?
    ensures forall other :: Code(other) == Code(level) ==> other == level
  {
  }

  /**
   * Whether an emitter for `severity` writes under the level code in force: `error` always
   * does, the others when `logLevel >= code`, which is false while `logLevel` is `undefined`.
   */
  predicate Passes(severity: LogLevel, level: Option<LevelCode>) {
    severity == ERROR || (level.Some? && level.value >= Code(severity))
  }

  /** The thresholds of the four emitters. */
  lemma Thresholds(level: Option<LevelCode>)
    ensures Passes(DEBUG, level) <==> level.Some? && level.value >= 3
    ensures Passes(INFO, level) <==> level.Some? && level.value >= 2
    ensures Passes(WARN, level) <==> level.Some? && level.value >= 1
    ensures Passes(ERROR, level)
  {
  }

  /** The filter is monotone in the threshold, and nested by severity. */
  lemma PassesMonotone(severity: LogLevel, low: LevelCode, high: LevelCode, moreSevere: LogLevel)
    requires Passes(severity, Some(low))
    ensures low <= high ==> Passes(severity, Some(high))
    ensures Code(moreSevere) <= Code(severity) ==> Passes(moreSevere, Some(low))
  {
  }

  /** `LogContext`: the fields copied into every entry. */
  datatype LogContext = LogContext(service: string, staffNumber: Option<string>)

  /** One line of output: the object passed to `JSON.stringify` in `log`. */
  datatype Entry = Entry(context: Option<LogContext>, level: LogLevel, message: string)

  /** The entry's properties in output order: `{...logContext, level, message}`. */
  function Record(e: Entry): (fields: seq<(string, string)>)
    ensures |fields| >= 2
    ensures fields[|fields| - 2] == ("level", Name(e.level)) && fields[|fields| - 1] == ("message", e.message)
    ensures e.context.None? ==> |fields| == 2
    ensures e.context.Some? ==> fields[0] == ("service", e.context.value.service)
    ensures e.context.Some? ==> |fields| == if e.context.value.staffNumber.Some? then 4 else 3
    ensures e.context.Some? && e.context.value.staffNumber.Some? ==>
              fields[1] == ("staffNumber", e.context.value.staffNumber.value)
  {
    var contextFields :=
      match e.context
      case None => []
      case Some(LogContext(service, staffNumber)) =>
        [("service", service)] + (if staffNumber.Some? then [("staffNumber", staffNumber.value)] else []);
    contextFields + [("level", Name(e.level)), ("message", e.message)]
  }

  /** One extra value as `formatMessage` renders it; `undefined` from `JSON.stringify` joins as "". */
  function Render(stringify: JsValue -> Option<string>, x: JsValue): (part: string)
    ensures x.ErrorObj? ==> part == x.name + ": " + x.message
    ensures !x.ErrorObj? && stringify(x).Some? ==> part == stringify(x).value
    ensures !x.ErrorObj? && stringify(x).None? ==> part == ""
  {
    if x.ErrorObj? then x.name + ": " + x.message else stringify(x).GetOr("")
  }

  /** `objs.map(...)`. */
  function RenderAll(stringify: JsValue -> Option<string>, objs: seq<JsValue>): (parts: seq<string>)
    ensures |parts| == |objs|
    ensures forall i :: 0 <= i < |objs| && objs[i].ErrorObj? ==> parts[i] == objs[i].name + ": " + objs[i].message
    ensures forall i :: 0 <= i < |objs| && !objs[i].ErrorObj? ==> parts[i] == stringify(objs[i]).GetOr("")
  {
    seq(|objs|, i requires 0 <= i < |objs| => Render(stringify, objs[i]))
  }

  /** `formatMessage(msg, objs)`. */
  function FormatMessage(stringify: JsValue -> Option<string>, msg: string, objs: seq<JsValue>): (r: string)
    ensures objs == [] ==> r == msg
    ensures msg <= r
  {
    if |objs| > 0 then msg + Join(RenderAll(stringify, objs), " ") else msg
  }

  /**
   * The message grows value by value: the first value follows `msg` with no separator,
   * each later one after a single space.
   */
  lemma {:induction false} FormatMessageSnoc(stringify: JsValue -> Option<string>, msg: string, objs: seq<JsValue>, x: JsValue)
    ensures FormatMessage(stringify, msg, objs + [x])
            == FormatMessage(stringify, msg, objs) + (if objs == [] then "" else " ") + Render(stringify, x)
  {
    assert RenderAll(stringify, objs + [x]) == RenderAll(stringify, objs) + [Render(stringify, x)];
    JoinSnoc(RenderAll(stringify, objs), Render(stringify, x), " ");
  }

  /** An `Error` value renders as "Name: message", whatever `JSON.stringify` does. */
  lemma ErrorValueMessage(stringify: JsValue -> Option<string>)
    ensures FormatMessage(stringify, "Log Message: ", [ErrorObj("Error", "Oops")]) == "Log Message: Error: Oops"
  {
  }

  /** The state the module holds, and everything written to standard output so far. */
  datatype LoggerState = LoggerState(context: Option<LogContext>, level: Option<LevelCode>, out: seq<Entry>)

  /** `log(level, msg)`: one entry, with the context when one has been set. */
  function Appended(st: LoggerState, severity: LogLevel, message: string): (st': LoggerState)
    ensures st'.context == st.context && st'.level == st.level
    ensures |st'.out| == |st.out| + 1 && st'.out[..|st.out|] == st.out
    ensures st'.out[|st.out|] == Entry(st.context, severity, message)
  {
    st.(out := st.out + [Entry(st.context, severity, message)])
  }

  /** `debug`/`info`/`warn`/`error` with the message already formatted. */
  function Emitted(st: LoggerState, severity: LogLevel, message: string): (st': LoggerState)
    ensures st'.context == st.context && st'.level == st.level
    ensures Passes(severity, st.level) ==> st'.out == st.out + [Entry(st.context, severity, message)]
    ensures !Passes(severity, st.level) ==> st'.out == st.out
  {
    if Passes(severity, st.level) then Appended(st, severity, message) else st
  }

  /** The context `bootstrapLogging` builds: a staff number only when the lookup gave a non-empty one. */
  function ContextFor(serviceName: string, staffNumber: Option<string>): (ctx: LogContext)
    ensures ctx.service == serviceName
    ensures ctx.staffNumber.Some? <==> staffNumber.Some? && staffNumber.value != ""
    ensures ctx.staffNumber.Some? ==> ctx.staffNumber == staffNumber
  {
    var ctx := LogContext(serviceName, None);
    if staffNumber.Some? && staffNumber.value != "" then ctx.(staffNumber := staffNumber) else ctx
  }

  /**
   * `bootstrapLogging`: the context is replaced first, then `nameToCode` runs (and may warn,
   * under the old level and with the new context), and only then is the level replaced.
   */
  function Bootstrapped(st: LoggerState, serviceName: string, staffNumber: Option<string>, envLogLevel: Option<string>)
    : (st': LoggerState)
    ensures st'.context == Some(ContextFor(serviceName, staffNumber))
    ensures st'.level == Some(LevelCodeOf(envLogLevel))
    ensures InvalidLevelWarning(envLogLevel).None? || !Passes(WARN, st.level) ==> st'.out == st.out
    ensures InvalidLevelWarning(envLogLevel).Some? && Passes(WARN, st.level) ==>
              st'.out == st.out + [Entry(st'.context, WARN, InvalidLevelWarning(envLogLevel).value)]
  {
    var withContext := st.(context := Some(ContextFor(serviceName, staffNumber)));
    var warned :=
      match InvalidLevelWarning(envLogLevel)
      case Some(w) => Emitted(withContext, WARN, w)
      case None => withContext;
    warned.(level := Some(LevelCodeOf(envLogLevel)))
  }

  /** Nothing of an earlier bootstrap survives: context and level depend only on the arguments. */
  lemma BootstrapForgetsEarlierState(st1: LoggerState, st2: LoggerState, serviceName: string,
                                     staffNumber: Option<string>, envLogLevel: Option<string>)
    ensures Bootstrapped(st1, serviceName, staffNumber, envLogLevel).context
            == Bootstrapped(st2, serviceName, staffNumber, envLogLevel).context
    ensures Bootstrapped(st1, serviceName, staffNumber, envLogLevel).level
            == Bootstrapped(st2, serviceName, staffNumber, envLogLevel).level
  {
  }

  /** Before the first bootstrap the level is `undefined`, so even a bad LOG_LEVEL writes nothing. */
  lemma FirstBootstrapIsSilent(st: LoggerState, serviceName: string, staffNumber: Option<string>,
                               envLogLevel: Option<string>)
    requires st.level.None?
    ensures Bootstrapped(st, serviceName, staffNumber, envLogLevel).out == st.out
  {
  }

  /** With LOG_LEVEL=WARN, debug and info write nothing while warn and error write one entry each. */
  lemma WarnLevelFilters(st: LoggerState, serviceName: string, staffNumber: Option<string>, message: string)
    ensures var b := Bootstrapped(st, serviceName, staffNumber, Some("WARN"));
            && b.out == st.out
            && Emitted(b, DEBUG, message).out == b.out
            && Emitted(b, INFO, message).out == b.out
            && Emitted(b, WARN, message).out == b.out + [Entry(b.context, WARN, message)]
            && Emitted(b, ERROR, message).out == b.out + [Entry(b.context, ERROR, message)]
  {
    NameCodeRoundTrip(WARN);
  }

  /** An unrecognised LOG_LEVEL falls back to DEBUG, so every emitter writes afterwards. */
  lemma InvalidLevelMeansDebug(st: LoggerState, serviceName: string, staffNumber: Option<string>,
                               envLogLevel: Option<string>, severity: LogLevel)
    requires forall level :: envLogLevel != Some(Name(level))
    ensures Passes(severity, Bootstrapped(st, serviceName, staffNumber, envLogLevel).level)
  {
  }

  /** The process-wide logger. `stringify` is the host's `JSON.stringify`. */
  class Logger {
    var context: Option<LogContext>
    var level: Option<LevelCode>
    /** Standard output, one entry per `console.log` line. */
    ghost var out: seq<Entry>
    const stringify: JsValue -> Option<string>

    ghost function State(): LoggerState
      reads this
    {
      LoggerState(context, level, out)
    }

    /** The module as loaded: no context, level `undefined`, nothing written. */
    constructor (stringify: JsValue -> Option<string>)
      ensures this.stringify == stringify
      ensures State() == LoggerState(None, None, [])
    {
      this.stringify := stringify;
      context := None;
      level := None;
      out := [];
    }

    /** `bootstrapLogging(serviceName, event)`, with `process.env.LOG_LEVEL` as `envLogLevel`. */
    method BootstrapLogging(serviceName: string, event: JsValue, envLogLevel: Option<string>)
      requires !Nullish(event)
      modifies this
      ensures State() == Bootstrapped(old(State()), serviceName,
                                      Authorisation.GetStaffNumberFromRequestContext(Get(event, "requestContext")),
                                      envLogLevel)
    {
      context := Some(LogContext(serviceName, None));
      var staffNumber := Authorisation.GetStaffNumberFromRequestContext(Get(event, "requestContext"));
      if staffNumber.Some? && staffNumber.value != "" {
        context := Some(context.value.(staffNumber := staffNumber));
      }
      var code := NameToCode(envLogLevel);
      level := Some(code);
    }

    /** `nameToCode(name)`, with the warning of its default branch. */
    method NameToCode(name: Option<string>) returns (code: LevelCode)
      modifies this
      ensures code == LevelCodeOf(name)
      ensures State() == match InvalidLevelWarning(name)
                         case Some(w) => Emitted(old(State()), WARN, w)
                         case None => old(State())
    {
      if name == Some("DEBUG") {
        code := 3;
      } else if name == Some("INFO") {
        code := 2;
      } else if name == Some("WARN") {
        code := 1;
      } else if name == Some("ERROR") {
        code := 0;
      } else {
        if name.Some? && name.value != "" {
          Warn(name.value + " is an invalid log level. Defaulting to DEBUG", []);
        } else {
          Warn("No log level set, defaulting to DEBUG", []);
        }
        code := 3;
      }
    }

    method Debug(msg: string, objs: seq<JsValue>)
      modifies this
      ensures State() == Emitted(old(State()), DEBUG, FormatMessage(stringify, msg, objs))
    {
      if level.Some? && level.value >= 3 {
        Log(DEBUG, FormatMessage(stringify, msg, objs));
      }
    }

    method Info(msg: string, objs: seq<JsValue>)
      modifies this
      ensures State() == Emitted(old(State()), INFO, FormatMessage(stringify, msg, objs))
    {
      if level.Some? && level.value >= 2 {
        Log(INFO, FormatMessage(stringify, msg, objs));
      }
    }

    method Warn(msg: string, objs: seq<JsValue>)
      modifies this
      ensures State() == Emitted(old(State()), WARN, FormatMessage(stringify, msg, objs))
    {
      if level.Some? && level.value >= 1 {
        Log(WARN, FormatMessage(stringify, msg, objs));
      }
    }

    method Error(msg: string, objs: seq<JsValue>)
      modifies this
      ensures State() == Emitted(old(State()), ERROR, FormatMessage(stringify, msg, objs))
    {
      Log(ERROR, FormatMessage(stringify, msg, objs));
    }

    /** `log(logLevel, msg)`: one line on standard output. */
    method Log(severity: LogLevel, message: string)
      modifies this
      ensures State() == Appended(old(State()), severity, message)
    {
      out := out + [Entry(context, severity, message)];
    }
  }
}
