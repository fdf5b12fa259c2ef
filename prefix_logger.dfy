/** The earlier pino-only logger (src/customLogger/logger.ts): messages are prefixed with
    the joined prefix path, the context always holds a trace-id map and an extra-metadata
    map, and the handle exposes direct setters and removers for them. */
module PrefixLogger {
  import opened Js
  import opened Interface
  import opened Utils
  import opened Tags
  import opened PinoLogger

  /** The options of this logger. */
  datatype PrefixOptions = PrefixOptions(
    env: Option<string>,
    enableDatadog: Option<bool>,
    serviceName: string,
    ddApiKey: Option<string>,
    hostname: Option<string>,
    level: Option<string>)

  /** This logger's own message builder: the text is `[<prefix>] - <message>` and
      `logInfo` always exists, `undefined` when no data is given; an object becomes
      `logInfo` itself. */
  function CreatePrefixedMessage(msgOrData: Value, prefix: string, data: Option<Fields>)
    : (r: Result<Fields>)
    ensures r.Err? <==> !(msgOrData.Str? || IsObject(msgOrData))
    ensures r.Err? ==> r.error == InvalidLogInput
    ensures r.Ok? ==> r.value.Keys == {"msg", "logInfo"} && r.value["msg"].Str?
  {
    if msgOrData.Str? then
      Ok(map["msg" := Str("[" + prefix + "] - " + msgOrData.s), "logInfo" := DataValue(data)])
    else if IsObject(msgOrData) then
      Ok(map["msg" := Str("[" + prefix + "] - Logging object directly"), "logInfo" := msgOrData])
    else
      Err(InvalidLogInput)
  }

  /** The text of every message starts with the bracketed prefix and ` - `, followed by
      the string given, or by the fixed object text with the object under `logInfo`; for
      a string, `logInfo` is `data` or `undefined`. */
  lemma PrefixedMessageSpec(msgOrData: Value, prefix: string, data: Option<Fields>)
    requires msgOrData.Str? || IsObject(msgOrData)
    ensures var r := CreatePrefixedMessage(msgOrData, prefix, data);
            var head := "[" + prefix + "] - ";
            var text := r.value["msg"].s;
            && |text| >= |head| && text[..|head|] == head
            && (msgOrData.Str? ==> text[|head|..] == msgOrData.s
                                   && r.value["logInfo"] == (if data.Some? then Obj(data.value) else Undefined))
            && (IsObject(msgOrData) ==> text[|head|..] == "Logging object directly"
                                        && r.value["logInfo"] == msgOrData)
  {
    var r := CreatePrefixedMessage(msgOrData, prefix, data);
    var head := "[" + prefix + "] - ";
    if msgOrData.Str? {
      assert r.value["msg"].s == head + msgOrData.s;
    } else {
      assert r.value["msg"].s == head + "Logging object directly";
    }
  }

  /** The pino `level` for each handle method; the handle has no `log` method. */
  function PrefixLevel(m: LogMethod): string
    requires m != Log
  {
    PinoLevel(m)
  }

  /** The streams: the console, then Datadog exactly when both `enableDatadog` and
      `ddApiKey` are truthy. */
  function PrefixStreams(options: PrefixOptions, ddtags: string): seq<PinoStream>
  {
    [PrettyConsole]
    + (if options.enableDatadog == Some(true) && options.ddApiKey.Some? && options.ddApiKey.value != ""
       then [DatadogStream(options.ddApiKey.value, options.serviceName,
                           HostOrUnknown(options.hostname), ddtags)]
       else [])
  }

  /** Datadog is off unless both switches are on, and its stream carries the tags of the
      context at creation time. */
  lemma PrefixStreamsSpec(options: PrefixOptions, ddtags: string)
    ensures var s := PrefixStreams(options, ddtags);
            && s[0] == PrettyConsole && 1 <= |s| <= 2
            && (|s| == 2 <==>
                  options.enableDatadog == Some(true) && options.ddApiKey.Some? && options.ddApiKey.value != "")
            && (options.enableDatadog.None? ==> s == [PrettyConsole])
            && (|s| == 2 ==> s[1].DatadogStream? && s[1].ddtags == ddtags
                             && s[1].apiKey == options.ddApiKey.value)
  {
  }

  /** `formatters.log`: the object, then `service`, `traceIds` and `ddtags`, then every
      extra-metadata key, which wins over all of them. */
  function FormatPrefixed(obj: Fields, serviceName: string, traceIds: Fields, ddtags: string,
                          extra: Fields): Fields
  {
    obj["service" := Str(serviceName)]["traceIds" := Obj(traceIds)]["ddtags" := Str(ddtags)] + extra
  }

  /** Extra metadata overrides everything, even `service`, `traceIds`, `ddtags` and `msg`;
      otherwise the three context fields are the context's and the message's own fields
      come through. */
  lemma FormatPrefixedSpec(obj: Fields, serviceName: string, traceIds: Fields, ddtags: string,
                           extra: Fields)
    ensures var r := FormatPrefixed(obj, serviceName, traceIds, ddtags, extra);
            && r.Keys == obj.Keys + {"service", "traceIds", "ddtags"} + extra.Keys
            && (forall k :: k in extra ==> r[k] == extra[k])
            && ("service" !in extra ==> r["service"] == Str(serviceName))
            && ("traceIds" !in extra ==> r["traceIds"] == Obj(traceIds))
            && ("ddtags" !in extra ==> r["ddtags"] == Str(ddtags))
            && (forall k :: (k in obj && k !in extra && k !in {"service", "traceIds", "ddtags"}) ==>
                  r[k] == obj[k])
  {
  }

  /** The context object of this logger. Both maps exist from the root on, so every
      branch shares them. */
  class PrefixContext {
    var traceIds: Dict
    var ddtags: string
    var extraMetadata: Dict
    var prefix: seq<string>

    predicate Valid()
      reads this
    {
      traceIds != extraMetadata
    }

    /** `{ traceIds: { genesis: 'local' }, ddtags, extraMetadata: {}, prefix: ['Main'] }`. */
    constructor Root(ddtags: string)
      ensures Valid() && fresh(traceIds) && fresh(extraMetadata)
      ensures traceIds.entries == map["genesis" := Str("local")]
      ensures this.ddtags == ddtags && extraMetadata.entries == map[] && prefix == ["Main"]
    {
      traceIds := new Dict(map["genesis" := Str("local")]);
      this.ddtags := ddtags;
      extraMetadata := new Dict(map[]);
      prefix := ["Main"];
    }

    /** `{ ...parent, prefix: [...parent.prefix, segment] }`. */
    constructor Branched(parent: PrefixContext, segment: string)
      requires parent.Valid()
      ensures Valid()
      ensures prefix == parent.prefix + [segment] && ddtags == parent.ddtags
      ensures traceIds == parent.traceIds && extraMetadata == parent.extraMetadata
    {
      traceIds := parent.traceIds;
      ddtags := parent.ddtags;
      extraMetadata := parent.extraMetadata;
      prefix := parent.prefix + [segment];
    }
  }

  class PrefixLogger {
    const options: PrefixOptions
    const ctx: PrefixContext
    const streams: seq<PinoStream>
    /** Every record handed to the streams, in call order. */
    var written: seq<PinoEntry>

    /** `createLogger(customOptions, parentContext)`: the parent context itself, or a
        fresh root whose tags use `env` as given, without a default. */
    constructor (options: PrefixOptions, parent: PrefixContext?)
      requires parent != null ==> parent.Valid()
      ensures this.options == options && ctx.Valid()
      ensures parent != null ==> ctx == parent
      ensures parent == null ==> fresh(ctx) && fresh(ctx.traceIds) && fresh(ctx.extraMetadata)
                                 && ctx.traceIds.entries == map["genesis" := Str("local")]
                                 && ctx.extraMetadata.entries == map[] && ctx.prefix == ["Main"]
                                 && ctx.ddtags == BaseTags(options.serviceName, OptText(options.env))
      ensures streams == PrefixStreams(options, ctx.ddtags)
      ensures written == []
    {
      this.options := options;
      var c: PrefixContext;
      if parent != null {
        c := parent;
      } else {
        c := new PrefixContext.Root(BaseTags(options.serviceName, OptText(options.env)));
      }
      ctx := c;
      streams := PrefixStreams(options, c.ddtags);
      written := [];
    }

    /** The entry a successful call through `m` writes, for the context as it is now. */
    function Entry(m: LogMethod, logMessage: Fields): PinoEntry
      requires m != Log
      reads ctx, ctx.traceIds, ctx.extraMetadata
    {
      PinoEntry(PrefixLevel(m),
                FormatPrefixed(logMessage, options.serviceName, ctx.traceIds.entries, ctx.ddtags,
                               ctx.extraMetadata.entries))
    }

    /** A level method (`info` ... `trace`): an invalid input rejects the returned
        promise and writes nothing. */
    method Call(m: LogMethod, msgOrData: Value, data: Option<Fields>) returns (r: Result<()>)
      requires m != Log
      modifies this`written
      ensures var msg := CreatePrefixedMessage(msgOrData, Join(ctx.prefix, "/"), data);
              && (msg.Err? ==> r == Err(msg.error) && written == old(written))
              && (msg.Ok? ==> r == Ok(()) && written == old(written) + [old(Entry(m, msg.value))])
    {
      var msg := CreatePrefixedMessage(msgOrData, Join(ctx.prefix, "/"), data);
      if msg.Err? {
        r := Err(msg.error);
        return;
      }
      var entry := Entry(m, msg.value);
      written := written + [entry];
      r := Ok(());
    }

    /** `setTraceId(key, value)`: in place, so every logger of the tree sees it. */
    method SetTraceId(key: string, value: string)
      requires ctx.Valid()
      modifies ctx.traceIds
      ensures ctx.traceIds.entries == old(ctx.traceIds.entries)[key := Str(value)]
      ensures ctx.extraMetadata.entries == old(ctx.extraMetadata.entries)
    {
      ctx.traceIds.entries := ctx.traceIds.entries[key := Str(value)];
    }

    /** `removeTraceId(key)`: `delete`, also in place. */
    method RemoveTraceId(key: string)
      requires ctx.Valid()
      modifies ctx.traceIds
      ensures ctx.traceIds.entries == old(ctx.traceIds.entries) - {key}
      ensures ctx.extraMetadata.entries == old(ctx.extraMetadata.entries)
    {
      ctx.traceIds.entries := ctx.traceIds.entries - {key};
    }

    /** `setDdtags(tags)`: replaces the string on this context object only; no
        validation. */
    method SetDdtags(tags: string)
      modifies ctx
      ensures ctx.ddtags == tags
      ensures ctx.prefix == old(ctx.prefix)
      ensures ctx.traceIds == old(ctx.traceIds) && ctx.extraMetadata == old(ctx.extraMetadata)
    {
      ctx.ddtags := tags;
    }

    /** `addExtraMetadata(key, value)`: in place, shared by the whole tree. */
    method AddExtraMetadata(key: string, value: Value)
      requires ctx.Valid()
      modifies ctx.extraMetadata
      ensures ctx.extraMetadata.entries == old(ctx.extraMetadata.entries)[key := value]
      ensures ctx.traceIds.entries == old(ctx.traceIds.entries)
    {
      ctx.extraMetadata.entries := ctx.extraMetadata.entries[key := value];
    }

    /** `removeExtraMetadata(key)`. */
    method RemoveExtraMetadata(key: string)
      requires ctx.Valid()
      modifies ctx.extraMetadata
      ensures ctx.extraMetadata.entries == old(ctx.extraMetadata.entries) - {key}
      ensures ctx.traceIds.entries == old(ctx.traceIds.entries)
    {
      ctx.extraMetadata.entries := ctx.extraMetadata.entries - {key};
    }

    /** `getCurrentLogContext()`: the live context object. */
    method GetCurrentLogContext() returns (c: PrefixContext)
      ensures c == ctx
    {
      c := ctx;
    }

    /** `branch({ context })`: a new logger whose prefix path is one segment longer and
        whose maps are this logger's. */
    method Branch(segment: string) returns (child: PrefixLogger)
      requires ctx.Valid()
      ensures fresh(child) && fresh(child.ctx) && child.ctx.Valid()
      ensures child.options == options && child.written == []
      ensures child.ctx.prefix == ctx.prefix + [segment] && child.ctx.ddtags == ctx.ddtags
      ensures child.ctx.traceIds == ctx.traceIds && child.ctx.extraMetadata == ctx.extraMetadata
      ensures child.streams == PrefixStreams(options, ctx.ddtags)
    {
      var c := new PrefixContext.Branched(ctx, segment);
      child := new PrefixLogger(options, c);
    }
  }

  /** Trace ids live in one map for the whole tree: an id set through a branch is seen by
      the root and by a sibling made earlier, next to the root's `genesis` id. */
  method TraceIdsAreTreeWide(options: PrefixOptions, key: string, value: string)
    returns (seenByRoot: Fields, seenBySibling: Fields)
    ensures key in seenByRoot && seenByRoot[key] == Str(value)
    ensures seenBySibling == seenByRoot
    ensures key != "genesis" ==> "genesis" in seenByRoot && seenByRoot["genesis"] == Str("local")
  {
    var root := new PrefixLogger(options, null);
    var sibling := root.Branch("A");
    var child := root.Branch("B");
    child.SetTraceId(key, value);
    seenByRoot := root.ctx.traceIds.entries;
    seenBySibling := sibling.ctx.traceIds.entries;
  }

  /** Tags are a string property of each context object: setting them through a branch
      leaves the root's tags as they were. */
  method DdtagsArePerContext(options: PrefixOptions, tags: string)
    returns (rootTags: string, childTags: string)
    ensures rootTags == BaseTags(options.serviceName, OptText(options.env))
    ensures childTags == tags
  {
    var root := new PrefixLogger(options, null);
    var child := root.Branch("B");
    child.SetDdtags(tags);
    rootTags := root.ctx.ddtags;
    childTags := child.ctx.ddtags;
  }
}
