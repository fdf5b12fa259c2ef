# CustomLogger logger-context engine, in Dafny

This project models the core of the CustomLogger TypeScript library: the context engine that
sits between application code and the `pino` and `winston` logging libraries.

The model covers the following:

- **Message normalisation.** `createLogMessage` turns a string or an object, plus optional
  `data`, into the fields of one record. An error-class level (one whose name contains
  `error` or `fatal`, in any case) spreads the data into the record. Other levels nest it
  under `logInfo`. Any other input throws. The older prefix-style builder of the first
  logger generation is modelled too.
- **The mutable log context.** Every logger handle closes over one `LogContext` object.
  Its parts are the scope path, the Datadog tag string and the optional `metadata`,
  `traceContext` and `instigator`. `branch` makes a shallow copy, so a map that exists at
  branch time is shared by the parent and the child. The maps are heap objects (`Js.Dict`),
  and the handles are classes whose methods update them in place.
- **The two tag policies.** Both keep only the tags matching `^[a-zA-Z0-9_.-]+:.+$`. Pino
  does nothing when no tag is valid, and otherwise resets the tags to
  `service:<name>,env:<env>` before appending. Winston always appends a comma and the valid
  tags.
- **Record assembly.** Each variant has its own object-spread merge, modelled as
  right-biased map updates and unions:
  - pino's `formatters.log`;
  - winston's `loggableData`, including removal of ANSI colour codes from the level;
  - the prefix logger's formatter, where extra metadata overrides everything.
- **The winston console format.** The model gives the parts of each console line: the
  header, the choice between the error and the plain style, light mode, and the trailing
  newline.
- **Sinks.** The pino streams, the winston transport registration loop, and the transport
  factory's insertion-ordered map.
- **The two entry points.** `LoggerMaker` and `CustomLoggerMaker` choose a factory and
  default `env`.

Sinks are modelled as an append-only sequence (`written`) of the records each logger hands
to its sinks. Clock readings are parameters.

Where the documented design and the code differ, the model follows the code:

- **Branching shares maps.** Existing maps are shared by reference between branches. They
  are not copied, so a branch is not isolated from its parent.
- **The context handle is live.** `getCurrentLogContext` returns the context object itself,
  not a copy.
- **Winston never resets tags.** Winston's `addDdtags` appends, and with no valid tag it
  appends a lone comma. Only pino resets to the base pair.
- **No truncation.** No message or payload is truncated.
- **No inspected error text.** Error-class data is spread into the record rather than
  inspected into a string.

## Model

| member | source | states |
|---|---|---|
| `Utils.ErrorRegexFromFinds` | src/utils/utils.ts:6-8 | The left-to-right scan of the unanchored regular expression succeeds from a start position exactly when "error" or "fatal" occurs, ignoring case, at or after that position. |
| `Utils.IsErrorLevel` | src/utils/utils.ts:6-8 | Defined by its body as the regex test `/(error|fatal)/i`, scanned from every start position. Stated by `ErrorLevelIff`: it holds exactly when `error` or `fatal` occurs in the name, ignoring case. |
| `Utils.ErrorLevelIff` | src/utils/utils.ts:6-8 | A level is error-class if and only if it contains "error" or "fatal" anywhere, ignoring case. |
| `Utils.ErrorNamesAreErrorClass` | src/utils/utils.ts:6-8 | "error", "fatal", "ERROR", "DbError" and "xFaTaLx" are error-class. |
| `Utils.NotErrorClass` | src/utils/utils.ts:6-8 | A string where no position that could start a five-letter match holds an `e` or an `f` (ignoring case) is not error-class. |
| `Utils.OtherNamesAreNotErrorClass` | src/utils/utils.ts:6-8 | info, warn, trace, silly, log and debug are not error-class. |
| `Utils.CreateLogMessage` | src/utils/utils.ts:1-37 | The call fails exactly when the input is neither a string nor a non-null object, and then with the invalid-input error. A success always has a `message` key. |
| `Utils.PrimitivesRejected` | src/utils/utils.ts:19-36 | Numbers, booleans, null and undefined are rejected at every level, with the message "Invalid log input. Must be a string or an object.". |
| `Utils.StringAtPlainLevel` | src/utils/utils.ts:24-28 | At a non-error level, a string becomes `message` verbatim. `logInfo` is present if and only if `data` has an own key, and then it equals `data`. There are no other keys. |
| `Utils.StringAtErrorLevel` | src/utils/utils.ts:9-13 | At an error-class level, the keys of `data` are copied to the top level. A `data` key named `message` overrides the message. No `logInfo` is made unless `data` has one. |
| `Utils.ObjectAtPlainLevel` | src/utils/utils.ts:29-33 | At a non-error level, an object gives "Logging object directly", with the object under `logInfo` if and only if it has an own key. |
| `Utils.ObjectAtErrorLevel` | src/utils/utils.ts:14-18 | At an error-class level, an object gives "Logging error directly", with its own fields spread at the top level, where they can override `message`. |
| `Utils.NothingToAdd` | src/utils/utils.ts:12 | An object, or `data`, with no own keys contributes nothing. The record is then `message` alone. |
| `Utils.ErrorPropertiesReachTheRecord` | src/utils/utils.ts:14-33 | An `Error` carrying a `code` property is spread next to "Logging error directly" at an error-class level, and becomes `logInfo` under "Logging object directly" at any other level. A bare `Error` gives a record with `message` alone at every level. |
| `Js.OptText` | src/factory/transportFactory.ts:23 | An absent string renders as "undefined" inside a template literal. |
| `Js.JoinSnoc` | src/loggers/pinoLogger.ts:76-80 | Appending one segment to a non-empty scope extends its joined form by the separator and that segment. |
| `Js.TrimStart` | src/loggers/winstonLogger.ts:156 | The result is the suffix of the input after a run of white space, and it does not start with white space. |
| `Js.TrimEnd` | src/loggers/winstonLogger.ts:156 | The result is the prefix of the input before a run of white space, and it does not end with white space. |
| `Js.Trim` | src/loggers/winstonLogger.ts:156 | The trimmed key is empty if and only if every character of the key is JavaScript white space. |
| `Tags.IsValidTag` | src/loggers/pinoLogger.ts:102 | Defined by its body as the regex `^[a-zA-Z0-9_.-]+:.+$`, matched at the greedy key run. Stated by `ValidTagIff` against an independent split predicate, and by the tag examples. |
| `Tags.KeyRunFacts` | src/loggers/pinoLogger.ts:102 | The greedy key run contains only key characters and stops at the first character that is not one. |
| `Tags.ValidTagIff` | src/loggers/pinoLogger.ts:102 | The matcher accepts a tag exactly when it splits into a non-empty key, a colon and a non-empty value free of line terminators. The split is unique and falls at the first colon. |
| `Tags.ValidTagExamples` | src/loggers/pinoLogger.ts:102 | "env:prod" and "url:a:b" are valid; the value may contain colons. |
| `Tags.InvalidTagExamples` | src/loggers/pinoLogger.ts:102 | These are rejected: no colon, an empty key, an empty value, a space in the key, and a newline in the value. |
| `Tags.FilterValid` | src/loggers/pinoLogger.ts:99-102 | The kept tags are exactly the valid tags of the input, and none is invented. |
| `Tags.FilterValidAppend` | src/loggers/pinoLogger.ts:102 | Filtering keeps input order, because it distributes over concatenation. |
| `Tags.FilterValidKeepsValid` | src/loggers/pinoLogger.ts:102 | An all-valid list is kept unchanged, so filtering is idempotent. |
| `Tags.AsList` | src/loggers/pinoLogger.ts:99 | Defined by its body as `Array.isArray(tags) ? tags : [tags]`. Stated by `SingleTagAsList`. |
| `Tags.PinoDdtags` | src/loggers/pinoLogger.ts:97-113 | Defined by its body. Stated by `PinoDdtagsSpec` and `PinoDdtagsIdempotent`. |
| `Tags.SingleTagAsList` | src/loggers/pinoLogger.ts:99 | A lone tag string gives the same tags as the one-element array holding it, in both pino and winston. |
| `Tags.PinoDdtagsSpec` | src/loggers/pinoLogger.ts:97-113 | With no valid tag the tags are unchanged. Otherwise they are exactly the base pair, a comma and the valid tags joined by commas. |
| `Tags.PinoDdtagsIdempotent` | src/loggers/pinoLogger.ts:97-113 | Repeating a call changes nothing, and a successful call discards whatever tags were there before. |
| `Tags.WinstonDdtags` | src/loggers/winstonLogger.ts:145-154 | Defined by its body. Stated by `WinstonDdtagsSpec` and `WinstonDdtagsAccumulate`. |
| `Tags.WinstonDdtagsSpec` | src/loggers/winstonLogger.ts:145-154 | The old tags always stay as a prefix followed by a comma, and a call with no valid tag appends a lone comma. |
| `Tags.WinstonDdtagsAccumulate` | src/loggers/winstonLogger.ts:145-154 | Two successful calls append the valid tags of both, in order. |
| `Tags.JoinAppend` | src/loggers/winstonLogger.ts:153 | Joining two non-empty lists equals joining each and putting the separator between them. |
| `Interface.InstigatorValue` | src/interface/interface.types.ts:26-30 | The instigator is shown as an object with `email` and `id`, and with `role` exactly when one is given. |
| `Context.LogContext.Root` | src/loggers/pinoLogger.ts:12-15 | The root context has scope ["Main"], the given tags, and no metadata, trace context or instigator. |
| `Context.LogContext.Branched` | src/loggers/pinoLogger.ts:76-80 | The child has the parent's scope plus one segment. Its other fields are the parent's, with the maps shared by reference. |
| `Context.LogContext.Fields` | src/loggers/pinoLogger.ts:56 | `...logContext` adds `ddtags`, and adds `metadata`, `traceContext` and `instigator` exactly when they exist, each with its current contents. |
| `Context.LogContext.SetTraceContext` | src/loggers/pinoLogger.ts:91 | The trace context becomes the given object, and nothing else changes. |
| `Context.LogContext.AddAdditionalTraceContext` | src/loggers/pinoLogger.ts:92-95 | The trace-context map is created if absent, or else kept as the same object, and exactly one key is set. Scope and tags are untouched. |
| `Context.LogContext.SetInstigator` | src/loggers/pinoLogger.ts:96 | Only the instigator is replaced. |
| `Context.LogContext.PutMetadata` | src/loggers/pinoLogger.ts:114-117 | The metadata map is created if absent, or else kept as the same object, and exactly one key is set without validation. Scope and tags are untouched. |
| `TransportFactory.Planned` | src/factory/transportFactory.ts:14-44 | Defined by its body as the transports the constructor registers, in order. Stated by `PlannedSpec`, and the constructor is proved equal to it. |
| `TransportFactory.PlannedSpec` | src/factory/transportFactory.ts:14-44 | For pino the map is empty. A `datadog` entry exists if and only if the logger is winston and its key is truthy, and likewise for `newRelic`. The keys are among those two, with datadog first. Every entry is an SSL transport to the Datadog intake whose path carries its own key, the service and the host. |
| `TransportFactory.Put` | src/factory/transportFactory.ts:27 | `Map.set` with a new key appends the entry at the end of the insertion order. |
| `TransportFactory.TransportMap.Set` | src/factory/transportFactory.ts:27 | The map's entries become the insertion-ordered update of the old entries. |
| `TransportFactory.TransportFactory.constructor` | src/factory/transportFactory.ts:6-45 | The map filled step by step holds exactly the planned entries, in order. |
| `TransportFactory.TransportFactory.GetTransports` | src/factory/transportFactory.ts:46-50 | Every call returns the same map object. |
| `PinoLogger.PinoLevel` | src/loggers/pinoLogger.ts:82-89 | Defined by its body as the level each handle method routes to. Stated by `PinoLevelClassification`. |
| `PinoLogger.PinoLevelClassification` | src/loggers/pinoLogger.ts:82-89 | Among the level methods, only `error` and `fatal` take the error-class path. |
| `PinoLogger.Streams` | src/loggers/pinoLogger.ts:17-41 | Defined by its body. Stated by `StreamsSpec`. |
| `PinoLogger.StreamsSpec` | src/loggers/pinoLogger.ts:17-41 | The console stream is always first. A Datadog stream is added if and only if `datadog.apiKey` is truthy, carrying the creation-time tags and `hostname` or 'unknown-host'. `localMode` is not consulted. |
| `PinoLogger.Shaped` | src/loggers/pinoLogger.ts:68-70 | Defined by its body. Stated by `ShapedSpec`. |
| `PinoLogger.ShapedSpec` | src/loggers/pinoLogger.ts:68-70 | The bracketed scope becomes `msg` unless the message has its own. Every message key except `header` comes through unchanged, and `header` is deleted. |
| `PinoLogger.FormatLog` | src/loggers/pinoLogger.ts:47-59 | Defined by its body as the spreads of `formatters.log`. Stated by `FormatLogSpec` and `FormatLogKeys`. |
| `PinoLogger.FormatLogSpec` | src/loggers/pinoLogger.ts:47-59 | Later spreads win. `scope` is always the joined scope, context keys override `service`, `service` overrides the fields of `log`, and those override the object's other keys. |
| `PinoLogger.FormatLogKeys` | src/loggers/pinoLogger.ts:47-58 | The record's keys are the object's keys without `log`, plus the fields of `log`, `service`, the context keys and `scope`. The `log` key itself is gone unless `log`'s fields or the context put it back. |
| `PinoLogger.RecordSpec` | src/loggers/pinoLogger.ts:47-70 | In the emitted record, `scope` is the joined scope and `service` is the service name. Context keys override message keys. `msg` is the bracketed scope unless the message brings its own. Other message keys and the fields of `log` come through. |
| `PinoLogger.PinoLogger.constructor` | src/loggers/pinoLogger.ts:9-41 | The logger uses the parent context itself, or a fresh root context whose tags are `service:<name>,env:<env>` with no default for env. Its streams are those of `Streams`. |
| `PinoLogger.PinoLogger.Call` | src/loggers/pinoLogger.ts:65-74 | Invalid input fails with nothing written. Otherwise exactly one entry is appended, built from the context as it is at call time. |
| `PinoLogger.PinoLogger.Branch` | src/loggers/pinoLogger.ts:76-80 | The child is a new logger over a new context, one segment longer, with the same tags, instigator and shared maps, and streams built from the current tags. |
| `PinoLogger.PinoLogger.AddDdtags` | src/loggers/pinoLogger.ts:97-113 | The tags become `PinoDdtags` of the old tags, and nothing else changes. |
| `PinoLogger.PinoLogger.AddMetadata` | src/loggers/pinoLogger.ts:114-117 | The metadata map is created if absent and one key is set. Scope, tags, trace context and instigator stay as they were. |
| `PinoLogger.PinoLogger.GetCurrentLogContext` | src/loggers/pinoLogger.ts:118 | The live context object is returned, not a copy. |
| `PinoLogger.BranchSharesMetadata` | src/loggers/pinoLogger.ts:76-80 | Metadata added through a child is visible from the parent when the map existed at branch time. |
| `PinoLogger.SiblingsBranchedEarlyAreIsolated` | src/loggers/pinoLogger.ts:114-117 | Branches made before any metadata exists each create their own map, so neither the sibling nor the parent sees it. |
| `PinoLogger.NestedBranchScope` | src/loggers/pinoLogger.ts:76-80 | Two branches give the scope Main/X/Y. |
| `WinstonLogger.WinstonLevel` | src/loggers/winstonLogger.ts:125-132 | Defined by its body as the level each handle method routes to. Stated by `WinstonLevelClassification`. |
| `WinstonLogger.WinstonLevelClassification` | src/loggers/winstonLogger.ts:125-132 | `fatal` is logged at winston's `error` level. Only `error` and `fatal` are error-class. |
| `WinstonLogger.StripAnsi` | src/loggers/winstonLogger.ts:112 | Defined by its body as removal of every colour escape. Stated by `StripAnsiNoEscape`, `StripSgrThen`, `StripTextThenSgr` and `StripAnsiRecoversLevel`. |
| `WinstonLogger.StripAnsiNoEscape` | src/loggers/winstonLogger.ts:112 | Text without an escape character is left unchanged. |
| `WinstonLogger.StripSgrThen` | src/loggers/winstonLogger.ts:112 | A leading colour code is removed entirely. |
| `WinstonLogger.StripTextThenSgr` | src/loggers/winstonLogger.ts:112 | A trailing colour code after escape-free text is removed entirely. |
| `WinstonLogger.StripAnsiRecoversLevel` | src/loggers/winstonLogger.ts:112 | Stripping a coloured level gives back the bare level, and a bare level is unchanged. |
| `WinstonLogger.StripAnsiOfLevelNames` | src/loggers/winstonLogger.ts:112 | Every level a handle method uses survives stripping unchanged. |
| `WinstonLogger.ContainsInsideColour` | src/loggers/winstonLogger.ts:63 | Wrapping text in colour codes neither adds nor removes an occurrence of "error" or "fatal". |
| `WinstonLogger.ColouredLevelKeepsClass` | src/loggers/winstonLogger.ts:43-63 | The coloured level that `printf` tests is error-class exactly when the bare level is. |
| `WinstonLogger.LoggableData` | src/loggers/winstonLogger.ts:107-118 | Defined by its body as the spreads of the sanitized record. Stated by `LoggableDataSpec`. |
| `WinstonLogger.LoggableDataSpec` | src/loggers/winstonLogger.ts:107-118 | The record's keys are the message keys without `message`, plus `level` (stripped), `service`, `timestamp`, `hostname` (possibly undefined), the context keys and the joined `scope`. Context keys override message keys, and other message keys come through. |
| `WinstonLogger.Shown` | src/loggers/winstonLogger.ts:54-60 | Defined by its body. Stated by `ShownSpec`. |
| `WinstonLogger.ShownSpec` | src/loggers/winstonLogger.ts:54-60 | `message` is always shown. Light mode shows only `message` and the truthy `logInfo` and `error`. Otherwise every field is shown. |
| `WinstonLogger.Printf` | src/loggers/winstonLogger.ts:45-73 | Defined by its body. Stated by `PrintfSpec`. |
| `WinstonLogger.PrintfSpec` | src/loggers/winstonLogger.ts:45-73 | The error style is chosen if and only if the level is error-class or `error` is an Error, in either mode. The empty-body branch never happens. The header carries the timestamp, the level and the scope text. The line ends with a newline exactly when `newLineEOL` is set. |
| `WinstonLogger.Render` | src/loggers/winstonLogger.ts:44-73 | Defined by its body as the colorize, timestamp and printf formats in order. Stated by `EntryRendering` for logged entries and `AnnouncementRendering` for announcements. |
| `WinstonLogger.AnnouncementRendering` | src/loggers/winstonLogger.ts:44-99 | In either mode, a transport announcement is printed under the Initializer scope in the plain style, stamped with the render-time clock. Light mode shows its message and `{ transport: key }`. Otherwise `scope` is shown as well. |
| `WinstonLogger.AnnouncementFields` | src/loggers/winstonLogger.ts:94-99 | An announcement has none of the keys `printf` splits off (`level`, `message`, `timestamp`), so it carries no timestamp of its own. Light mode shows its message and its `logInfo`. |
| `WinstonLogger.Registered` | src/loggers/winstonLogger.ts:82-101 | Defined by its body. Stated by `RegisteredSpec`, and `RegisterTransports` is proved equal to it. |
| `WinstonLogger.RegisteredSpec` | src/loggers/winstonLogger.ts:82-101 | Remote transports are added only when `localMode` is explicitly false (the default is true) and `transports` is given. Then exactly the backends with a truthy key are added. The top-level `datadog` option plays no part. |
| `WinstonLogger.AnnounceOneMore` | src/loggers/winstonLogger.ts:92-99 | Each registered transport adds exactly one sink and one announcement at the end, in map order. |
| `WinstonLogger.WinstonLogger.Init` | src/loggers/winstonLogger.ts:21-101 | The options are kept as given (their `lightMode` and `newLineEOL` defaults are read through `LightModeOf` and `NewLineOf` when a line is printed), and the context is the parent's or a fresh root with env defaulting to staging. The console sink comes first, followed by one HTTP sink per registered transport in the map's order. The log holds "Adding transports" and then one announcement per transport. |
| `WinstonLogger.ContextKeysAreNotRecordKeys` | src/loggers/winstonLogger.ts:107-118 | The keys a context spreads (`ddtags`, `metadata`, `traceContext`, `instigator`) are never one of the record's own keys. |
| `WinstonLogger.RecordSurvivesPrintfSplit` | src/loggers/winstonLogger.ts:45 | Splitting off `level`, `message` and `timestamp` keeps a record's `error`, `scope`, `service` and `hostname` as they were. |
| `WinstonLogger.WinstonLogger.EntryRendering` | src/loggers/winstonLogger.ts:21-73 | A logged entry is printed with the call's own (non-empty) timestamp rather than the render-time clock, the coloured routed level and the joined scope as header. Its line ends with a newline unless `newLineEOL` is false (the default is true). The error style is chosen exactly for `error`/`fatal` calls or an Error in `error`. Light mode (off by default) shows at most `message`, `logInfo` and `error`. Otherwise `service` and `hostname` are shown with the options' values. |
| `WinstonLogger.WinstonLogger.RegisterTransports` | src/loggers/winstonLogger.ts:82-101 | After the "Adding transports" record, the loop leaves one HTTP sink and one announcement per registered transport, in the map's order. |
| `WinstonLogger.WinstonLogger.Call` | src/loggers/winstonLogger.ts:103-123 | Invalid input fails with nothing logged. Otherwise one entry is appended, with the routed level, the message and `LoggableData` of the context at call time. |
| `WinstonLogger.WinstonLogger.Branch` | src/loggers/winstonLogger.ts:134-138 | The child has one more scope segment and shares the parent's maps. As a whole new winston logger, it registers and announces its transports again. |
| `WinstonLogger.WinstonLogger.AddDdtags` | src/loggers/winstonLogger.ts:145-154 | The tags become `WinstonDdtags` of the old tags, and nothing else changes. |
| `WinstonLogger.WinstonLogger.AddMetadata` | src/loggers/winstonLogger.ts:155-161 | A whitespace-only key fails with "Invalid metadata key." and changes nothing. Any other key is set in a map created if absent. |
| `WinstonLogger.WinstonLogger.GetCurrentLogContext` | src/loggers/winstonLogger.ts:162 | The live context object is returned. |
| `WinstonLogger.CreateWinstonLogger` | src/loggers/winstonLogger.ts:16-19 | The call throws the logger-type error exactly when `logger` is not "winston". |
| `WinstonLogger.BranchTagsAndBlankKey` | src/loggers/winstonLogger.ts:145-161 | Tags added through a branch extend only the branch's tags, and a blank metadata key is refused. |
| `PrefixLogger.CreatePrefixedMessage` | src/customLogger/logger.ts:7-25 | The call fails exactly for input that is not a string or non-null object. A success has exactly the keys `msg` and `logInfo`. |
| `PrefixLogger.PrefixedMessageSpec` | src/customLogger/logger.ts:12-21 | The text is "[prefix] - " followed by the string or by "Logging object directly". `logInfo` is `data` (possibly undefined) or the object. |
| `PrefixLogger.PrefixStreams` | src/customLogger/logger.ts:37-67 | Defined by its body. Stated by `PrefixStreamsSpec`. |
| `PrefixLogger.PrefixStreamsSpec` | src/customLogger/logger.ts:37-67 | Datadog is added if and only if both `enableDatadog` and `ddApiKey` are truthy, carrying the creation-time tags. |
| `PrefixLogger.FormatPrefixed` | src/customLogger/logger.ts:74-82 | Defined by its body. Stated by `FormatPrefixedSpec`. |
| `PrefixLogger.FormatPrefixedSpec` | src/customLogger/logger.ts:74-82 | Extra metadata overrides everything, `service`, `traceIds` and `ddtags` included. Otherwise those three are the context's, and the message's own keys come through. |
| `PrefixLogger.PrefixContext.Root` | src/customLogger/logger.ts:30-35 | The root has traceIds {genesis: "local"}, empty extra metadata, prefix ["Main"] and the base tags, with two distinct maps. |
| `PrefixLogger.PrefixContext.Branched` | src/customLogger/logger.ts:114-118 | One more prefix segment, with both maps shared. |
| `PrefixLogger.PrefixLogger.constructor` | src/customLogger/logger.ts:27-67 | The logger uses the parent context itself or a fresh root, with streams from `PrefixStreams`. |
| `PrefixLogger.PrefixLogger.Call` | src/customLogger/logger.ts:88-93 | Invalid input fails with nothing written. Otherwise one entry is appended, formatted with the context at call time. |
| `PrefixLogger.PrefixLogger.SetTraceId` | src/customLogger/logger.ts:96-98 | Exactly one trace id is set, and extra metadata is unchanged. |
| `PrefixLogger.PrefixLogger.RemoveTraceId` | src/customLogger/logger.ts:99-101 | Exactly one trace id is deleted, and extra metadata is unchanged. |
| `PrefixLogger.PrefixLogger.SetDdtags` | src/customLogger/logger.ts:102-104 | The tags are replaced verbatim, without validation. |
| `PrefixLogger.PrefixLogger.AddExtraMetadata` | src/customLogger/logger.ts:105-107 | Exactly one metadata key is set, and trace ids are unchanged. |
| `PrefixLogger.PrefixLogger.RemoveExtraMetadata` | src/customLogger/logger.ts:108-110 | Exactly one metadata key is deleted, and trace ids are unchanged. |
| `PrefixLogger.PrefixLogger.GetCurrentLogContext` | src/customLogger/logger.ts:111 | The live context object is returned. |
| `PrefixLogger.PrefixLogger.Branch` | src/customLogger/logger.ts:114-121 | The child has one more prefix segment and the same two maps. |
| `PrefixLogger.TraceIdsAreTreeWide` | src/customLogger/logger.ts:114-121 | A trace id set through a branch is seen by the root and by an earlier sibling, next to `genesis: local`. |
| `PrefixLogger.DdtagsArePerContext` | src/customLogger/logger.ts:102-104 | Tags set through a branch leave the root's tags as they were. |
| `LoggerMakers.LoggerMaker` | src/logger/logger.ts:5-16 | Defined by its body. Stated by `LoggerMakerSpec`. |
| `LoggerMakers.LoggerMakerSpec` | src/logger/logger.ts:5-16 | Pino is chosen if and only if `logger` is "pino". Every other request goes to winston, labelled so its guard passes. `env` defaults to staging, and every other option is passed on unchanged. |
| `LoggerMakers.CustomLoggerMaker` | src/customLogger/customLogger.ts:8-17 | The maker as written. Stated by `CustomMakerRejectsWinston` and `CustomWinstonRequest`. |
| `LoggerMakers.CustomMakerRejectsWinston` | src/customLogger/customLogger.ts:8-17 | Every request that is not for pino reaches winston without `logger`, so the guard rejects it. |
| `LoggerMakers.CustomWinstonRequest` | src/customLogger/customLogger.ts:14-17 | A request that asks for winston ends in the logger-type error. |
| `LoggerMakers.CustomLoggerMakerFixed` | src/customLogger/customLogger.ts:8-17 | The maker with `logger` forwarded. Stated by `CustomMakerFixedSpec`. |
| `LoggerMakers.CustomMakerFixedSpec` | src/customLogger/customLogger.ts:8-17 | The corrected maker passes the winston guard. On pino requests it agrees with the code as written, and on winston requests it makes the same call as `LoggerMaker`. |

## Left out

- Arrays are not a `Value` variant. The scope array that `...logContext` spreads is always overwritten by the joined scope, and arrays given as `data` are not modelled.
- Floating-point numbers and `NaN` are not modelled. Numbers are integers.
- Key order of JavaScript objects is not modelled. Records are maps.
- A key present with the value `undefined` is treated like an absent key, with two exceptions: winston's `hostname`, and the prefix logger's `logInfo` when no `data` is given (`CreatePrefixedMessage`, src/customLogger/logger.ts:12-21). Both are kept as `Undefined`.
- `data` is modelled only as a map of plain fields, so an `Error` or an array passed as `data` cannot be expressed. An `Error` or object given as the first argument is modelled.
- Winston's `Logger.log` merges the meta object into the record only when the message has no printf token (`%s`, `%d` and the like); otherwise the fields stay in the splat array, which no configured format reads. The model assumes the merge always happens.
- Symbol keys are not modelled. Winston's `cleanMeta` is therefore the identity and is folded into `Render`.
- PinoLogger.RecordSpec: a string-valued `log` field, whose characters a spread would copy as indexed keys, contributes nothing in the model.
- The level threshold option (`level`) of pino and winston is not modelled, because it is filtering inside those libraries. Every call is recorded.
- Pino's own handling of the `msg` property, pino-pretty, chalk colours and `util.inspect` text are not modelled. The console line is modelled as its parts, and the colour codes are parameters.
- Actual HTTP delivery to Datadog or New Relic is left out, because it is network I/O. Transports are opaque `{host, path, ssl}` records.
- The `async` wrappers of the pino level methods turn a throw into a rejected promise. They are modelled as an error result.
- Timestamps are parameters (`now`).
- PrefixLogger.PrefixLogger.Call: requires a method other than `log`, because the prefix logger's handle defines no `log` method.
- A `transports` key that is present with value `undefined` is not modelled. The factory would throw on it.
- Metadata keys that are not strings are not modelled, so winston's `typeof key !== 'string'` check is always passed.
- Truncation of long messages and sink-failure isolation are not modelled, because no code implements them.
- The demo scripts, dotenv configuration and the Jest test harness are not modelled.

## Findings

| source | as written | input that shows it | evidently intended | confidence | as-written member | corrected member |
|---|---|---|---|---|---|---|
| src/customLogger/customLogger.ts:8-17 | `logger` is destructured out of the options and never passed on, so `createWinstonLogger` receives no `logger` and throws at its guard. | `CustomLoggerMaker({ logger: 'winston', serviceName: 's', localMode: true })` | A winston request builds a winston logger. The option types declare `logger: 'winston'`, and `LoggerMaker` forwards it. | not executed | `LoggerMakers.CustomMakerRejectsWinston` | `LoggerMakers.CustomMakerFixedSpec` |

The as-written maker is `LoggerMakers.CustomLoggerMaker`, and `LoggerMakers.CustomWinstonRequest` composes it with `CreateWinstonLogger`. The corrected maker is `LoggerMakers.CustomLoggerMakerFixed`.
