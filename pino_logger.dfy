/** `createPinoLogger` (src/loggers/pinoLogger.ts): a handle closing over one mutable
    `LogContext`, a fixed list of pino streams, and the `formatters.log` merge that
    builds every record from the call's message and the context as it is at log time. */
module PinoLogger {
  import opened Js
  import opened Interface
  import opened Utils
  import opened Tags
  import opened Context

  /** The level name each handle method passes to `createLogMessage`, and the pino
      method it calls (`log` is pino's `info`). */
  function PinoLevel(m: LogMethod): string
  {
    match m
    case Log => "info"
    case Info => "info"
    case Warn => "warn"
    case Error => "error"
    case Fatal => "fatal"
    case Debug => "debug"
    case Trace => "trace"
  }

  /** Only the `error` and `fatal` methods take the error-class path. */
  lemma PinoLevelClassification(m: LogMethod)
    ensures IsErrorLevel(PinoLevel(m)) <==> m == Error || m == Fatal
  {
    ErrorNamesAreErrorClass();
    OtherNamesAreNotErrorClass();
  }

  /** A pino output stream: the pretty console, or the Datadog transport with the
      options it is created with. */
  datatype PinoStream =
    | PrettyConsole
    | DatadogStream(apiKey: string, service: string, hostname: string, ddtags: string)

  /** `hostname || 'unknown-host'`. */
  function HostOrUnknown(hostname: Option<string>): string
  {
    if hostname.Some? && hostname.value != "" then hostname.value else "unknown-host"
  }

  /** The streams a pino logger writes to: the console, then Datadog when its key is
      truthy, carrying the tags of the context at creation time. */
  function Streams(options: LoggerOptions, ddtags: string): seq<PinoStream>
  {
    [PrettyConsole]
    + (if HasKey(options.datadog)
       then [DatadogStream(options.datadog.value.apiKey, options.serviceName,
                           HostOrUnknown(options.hostname), ddtags)]
       else [])
  }

  /** The console stream is always first; a Datadog stream is added exactly when
      `datadog.apiKey` is truthy, and `localMode` is not consulted. */
  lemma StreamsSpec(options: LoggerOptions, ddtags: string)
    ensures var s := Streams(options, ddtags);
            && |s| >= 1 && s[0] == PrettyConsole
            && (|s| == 2 <==> HasKey(options.datadog))
            && |s| <= 2
            && (|s| == 2 ==> s[1] == DatadogStream(options.datadog.value.apiKey, options.serviceName,
                                                   HostOrUnknown(options.hostname), ddtags))
            && forall b: Option<bool> :: Streams(options.(localMode := b), ddtags) == s
  {
  }

  /** The object `wrapLogFn` hands to pino: `{ msg: "[<scope>]", ...logMessage }` with
      any `header` key deleted. */
  function Shaped(scopeHeader: string, logMessage: Fields): Fields
  {
    (map["msg" := Str("[" + scopeHeader + "]")] + logMessage) - {"header"}
  }

  /** The message's own keys, except `header`, come through the shaping unchanged, and
      `msg` is the bracketed scope unless the message brings its own. */
  lemma ShapedSpec(scopeHeader: string, logMessage: Fields)
    ensures var obj := Shaped(scopeHeader, logMessage);
            && "header" !in obj
            && ("log" in obj <==> "log" in logMessage)
            && (forall k :: k in logMessage && k != "header" ==> k in obj && obj[k] == logMessage[k])
            && ("msg" !in logMessage ==> obj["msg"] == Str("[" + scopeHeader + "]"))
  {
  }

  /** `formatters.log`: the object without its `log` key, then that key's own fields,
      then `service`, then the context, then the joined scope, later keys winning. */
  function FormatLog(obj: Fields, serviceName: string, context: Fields, scope: seq<string>): Fields
  {
    var log := if "log" in obj then OwnFields(obj["log"]) else map[];
    (obj - {"log"}) + log + map["service" := Str(serviceName)] + context
    + map["scope" := Str(Join(scope, "/"))]
  }

  /** The record's keys are those of every layer, with the `log` key itself removed
      unless a later layer brings one back. */
  lemma FormatLogKeys(obj: Fields, serviceName: string, context: Fields, scope: seq<string>)
    ensures var record := FormatLog(obj, serviceName, context, scope);
            var log := if "log" in obj then OwnFields(obj["log"]) else map[];
            && record.Keys == (obj.Keys - {"log"}) + log.Keys + {"service"} + context.Keys + {"scope"}
            && ("log" !in log && "log" !in context ==> "log" !in record)
  {
  }

  /** Which layer of the merge decides each key: `scope` always; then the context; then
      `service`; then the fields of `log`; then the object's other keys. */
  lemma FormatLogSpec(obj: Fields, serviceName: string, context: Fields, scope: seq<string>)
    ensures var record := FormatLog(obj, serviceName, context, scope);
            var log := if "log" in obj then OwnFields(obj["log"]) else map[];
            && record["scope"] == Str(Join(scope, "/"))
            && (forall k :: k in context && k != "scope" ==> record[k] == context[k])
            && ("service" !in context ==> record["service"] == Str(serviceName))
            && (forall k :: k in log && k !in context && k != "service" && k != "scope" ==>
                  record[k] == log[k])
            && (forall k :: (k in obj && k != "log" && k !in log && k !in context
                               && k != "service" && k != "scope") ==>
                  record[k] == obj[k])
  {
  }

  /** How each key of an emitted record is decided: `scope` is the joined scope;
      `service` is the service name, as no context key is named so; context keys
      override the message's; `msg` is the bracketed scope unless the message itself
      carries `msg`; any other message key comes through as it was. */
  lemma RecordSpec(scope: seq<string>, serviceName: string, context: Fields, logMessage: Fields)
    requires "scope" !in context && "service" !in context && "msg" !in context
    ensures var header := Join(scope, "/");
            var record := FormatLog(Shaped(header, logMessage), serviceName, context, scope);
            var log := if "log" in logMessage then OwnFields(logMessage["log"]) else map[];
            && record["scope"] == Str(header)
            && record["service"] == Str(serviceName)
            && (forall k :: k in context ==> record[k] == context[k])
            && ("msg" !in logMessage && "msg" !in log ==> record["msg"] == Str("[" + header + "]"))
            && (forall k :: (k in logMessage && k !in log && k !in context
                               && k !in {"header", "log", "service", "scope"}) ==>
                  record[k] == logMessage[k])
            && (forall k :: k in log && k !in context && k != "service" && k != "scope" ==>
                  record[k] == log[k])
  {
    var header := Join(scope, "/");
    var obj := Shaped(header, logMessage);
    ShapedSpec(header, logMessage);
    FormatLogSpec(obj, serviceName, context, scope);
    var log := if "log" in logMessage then OwnFields(logMessage["log"]) else map[];
    assert log == (if "log" in obj then OwnFields(obj["log"]) else map[]);
  }

  /** One record handed to pino: its level and the object `formatters.log` returns. */
  datatype PinoEntry = PinoEntry(level: string, record: Fields)

  class PinoLogger {
    const options: LoggerOptions
    const ctx: LogContext
    const streams: seq<PinoStream>
    /** Every record handed to the streams, in call order. */
    var written: seq<PinoEntry>

    /** `service:<serviceName>,env:<env>`; pino gives `env` no default. */
    function Base(): string
    {
      BaseTags(options.serviceName, OptText(options.env))
    }

    /** `createPinoLogger(options, parentContext)`: the parent context object itself, or
        a fresh root context. */
    constructor (options: LoggerOptions, parent: LogContext?)
      ensures this.options == options
      ensures parent != null ==> ctx == parent
      ensures parent == null ==> fresh(ctx) && ctx.scope == ["Main"]
                                 && ctx.ddtags == BaseTags(options.serviceName, OptText(options.env))
                                 && ctx.metadata == null && ctx.traceContext == null
                                 && ctx.instigator.None?
      ensures streams == Streams(options, ctx.ddtags)
      ensures written == []
    {
      this.options := options;
      var c: LogContext;
      if parent != null {
        c := parent;
      } else {
        c := new LogContext.Root(BaseTags(options.serviceName, OptText(options.env)));
      }
      ctx := c;
      streams := Streams(options, c.ddtags);
      written := [];
    }

    /** The entry a successful call through `m` writes, for the context as it is now. */
    function Entry(m: LogMethod, logMessage: Fields): PinoEntry
      reads ctx, ctx.metadata, ctx.traceContext
    {
      PinoEntry(PinoLevel(m),
                FormatLog(Shaped(Join(ctx.scope, "/"), logMessage), options.serviceName,
                          ctx.Fields(), ctx.scope))
    }

    /** A level method (`log`, `info`, ... `trace`): normalise the input, shape it and
        write one record; an invalid input rejects the returned promise and writes
        nothing. */
    method Call(m: LogMethod, msgOrData: Value, data: Option<Fields>) returns (r: Result<()>)
      modifies this`written
      ensures var msg := CreateLogMessage(PinoLevel(m), msgOrData, data);
              && (msg.Err? ==> r == Err(msg.error) && written == old(written))
              && (msg.Ok? ==> r == Ok(()) && written == old(written) + [old(Entry(m, msg.value))])
    {
      var msg := CreateLogMessage(PinoLevel(m), msgOrData, data);
      if msg.Err? {
        r := Err(msg.error);
        return;
      }
      var entry := Entry(m, msg.value);
      written := written + [entry];
      r := Ok(());
    }

    /** `branch({ scope })`: a new logger over a shallow copy of the context, one scope
        segment longer. The parent is untouched; maps that exist now are shared. */
    method Branch(segment: string) returns (child: PinoLogger)
      ensures fresh(child) && fresh(child.ctx)
      ensures child.options == options && child.written == []
      ensures child.ctx.scope == ctx.scope + [segment]
      ensures |ctx.scope| > 0 ==> Join(child.ctx.scope, "/") == Join(ctx.scope, "/") + "/" + segment
      ensures child.ctx.ddtags == ctx.ddtags && child.ctx.instigator == ctx.instigator
      ensures child.ctx.metadata == ctx.metadata && child.ctx.traceContext == ctx.traceContext
      ensures child.streams == Streams(options, ctx.ddtags)
    {
      var c := new LogContext.Branched(ctx, segment);
      child := new PinoLogger(options, c);
      if |ctx.scope| > 0 {
        JoinSnoc(ctx.scope, segment, "/");
      }
    }

    /** `addDdtags(tags)`: keep the valid tags; if there are none do nothing, otherwise
        reset to the base pair and append them. */
    method AddDdtags(tags: TagsArg)
      modifies ctx
      ensures ctx.ddtags == PinoDdtags(old(ctx.ddtags), Base(), tags)
      ensures ctx.scope == old(ctx.scope) && ctx.instigator == old(ctx.instigator)
      ensures ctx.metadata == old(ctx.metadata) && ctx.traceContext == old(ctx.traceContext)
    {
      var validTags := FilterValid(AsList(tags));
      if |validTags| == 0 {
        return;
      }
      ctx.ddtags := Base();
      ctx.ddtags := ctx.ddtags + "," + Join(validTags, ",");
    }

    /** `addMetadata(key, value)`: no validation of the key. */
    method AddMetadata(key: string, value: Value)
      modifies ctx, ctx.metadata
      ensures ctx.metadata != null
      ensures old(ctx.metadata) != null ==> ctx.metadata == old(ctx.metadata)
      ensures old(ctx.metadata) == null ==> fresh(ctx.metadata)
      ensures ctx.metadata.entries
              == (if old(ctx.metadata) == null then map[] else old(ctx.metadata.entries))[key := value]
      ensures ctx.scope == old(ctx.scope) && ctx.ddtags == old(ctx.ddtags)
      ensures ctx.traceContext == old(ctx.traceContext) && ctx.instigator == old(ctx.instigator)
    {
      ctx.PutMetadata(key, value);
    }

    /** `getCurrentLogContext()`: the live context object, not a copy. */
    method GetCurrentLogContext() returns (c: LogContext)
      ensures c == ctx
    {
      c := ctx;
    }
  }

  /** A metadata map that exists when a branch is made is shared by reference: a key the
      child adds afterwards is visible from the parent. */
  method BranchSharesMetadata(options: LoggerOptions, k1: string, v1: Value, k2: string, v2: Value)
    returns (seenByParent: Option<Value>)
    ensures seenByParent == Some(v2)
  {
    var root := new PinoLogger(options, null);
    root.AddMetadata(k1, v1);
    var child := root.Branch("Child");
    child.AddMetadata(k2, v2);
    seenByParent := if k2 in root.ctx.metadata.entries then Some(root.ctx.metadata.entries[k2]) else None;
  }

  /** Siblings branched before any metadata exists each create their own map: metadata
      added through one is invisible from the other and from the parent. */
  method SiblingsBranchedEarlyAreIsolated(options: LoggerOptions, k: string, v: Value)
    returns (seenByA: Option<Value>, siblingHasMetadata: bool, parentHasMetadata: bool)
    ensures seenByA == Some(v) && !siblingHasMetadata && !parentHasMetadata
  {
    var root := new PinoLogger(options, null);
    var a := root.Branch("A");
    var b := root.Branch("B");
    a.AddMetadata(k, v);
    seenByA := if k in a.ctx.metadata.entries then Some(a.ctx.metadata.entries[k]) else None;
    siblingHasMetadata := b.ctx.metadata != null;
    parentHasMetadata := root.ctx.metadata != null;
  }

  /** Branching twice gives the scope `Main/X/Y`, and the records of the grandchild carry
      that header. */
  method NestedBranchScope(options: LoggerOptions) returns (scope: seq<string>, header: string)
    ensures scope == ["Main", "X", "Y"] && header == "Main/X/Y"
  {
    var root := new PinoLogger(options, null);
    var x := root.Branch("X");
    var y := x.Branch("Y");
    scope := y.ctx.scope;
    header := Join(scope, "/");
    assert Join(["Main"], "/") == "Main";
  }
}
