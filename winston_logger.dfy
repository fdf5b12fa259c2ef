/** `createWinstonLogger` (src/loggers/winstonLogger.ts): a handle over one mutable
    `LogContext` and one winston instance whose console sink renders records through a
    `printf` format, and to which the remote transports of the factory are added. */
module WinstonLogger {
  import opened Js
  import opened Interface
  import opened Utils
  import opened Tags
  import opened Context
  import opened TransportFactory

  /** The level name each handle method uses, both for `createLogMessage` and for winston:
      `fatal` is logged as `error`, `trace` as `silly`. */
  function WinstonLevel(m: LogMethod): string
  {
    match m
    case Log => "info"
    case Info => "info"
    case Warn => "warn"
    case Error => "error"
    case Fatal => "error"
    case Debug => "debug"
    case Trace => "silly"
  }

  /** Only `error` and `fatal` are error-class, and they share winston's `error` level. */
  lemma WinstonLevelClassification(m: LogMethod)
    ensures IsErrorLevel(WinstonLevel(m)) <==> m == Error || m == Fatal
    ensures WinstonLevel(m) == "error" <==> m == Error || m == Fatal
  {
    ErrorNamesAreErrorClass();
    OtherNamesAreNotErrorClass();
  }

  // ---------------------------------------------------------------- ANSI colour codes

  const Esc: char := '\U{1B}'

  predicate IsParamChar(c: char)
  {
    ('0' <= c <= '9') || c == ';'
  }

  predicate IsSgrParams(p: string)
  {
    forall k :: 0 <= k < |p| ==> IsParamChar(p[k])
  }

  /** A select-graphic-rendition escape, as a terminal colouring library emits. */
  function Sgr(params: string): string
  {
    [Esc, '['] + params + "m"
  }

  /** The length of the greedy `[0-9;]*` run at the start of `s`. */
  function ParamRun(s: string): (k: nat)
    ensures k <= |s|
  {
    if |s| > 0 && IsParamChar(s[0]) then 1 + ParamRun(s[1..]) else 0
  }

  /** The length of the match of `/\x1B\[[0-9;]*m/` at the start of `s`, or 0 when there
      is none. Backtracking into a shorter parameter run cannot produce `m`. */
  function SgrPrefix(s: string): (n: nat)
    ensures n <= |s|
  {
    if |s| >= 2 && s[0] == Esc && s[1] == '[' then
      var k := ParamRun(s[2..]);
      if 2 + k < |s| && s[2 + k] == 'm' then 3 + k else 0
    else 0
  }

  /** `s.replace(/\x1B\[[0-9;]*m/g, '')`: matches are removed left to right, scanning
      resumes after each match. */
  function StripAnsi(s: string): string
    decreases |s|
  {
    if |s| == 0 then ""
    else
      var n := SgrPrefix(s);
      if n > 0 then StripAnsi(s[n..]) else [s[0]] + StripAnsi(s[1..])
  }

  lemma {:induction false} ParamRunOver(p: string, rest: string)
    requires IsSgrParams(p)
    requires |rest| > 0 && !IsParamChar(rest[0])
    ensures ParamRun(p + rest) == |p|
  {
    if |p| > 0 {
      assert (p + rest)[1..] == p[1..] + rest;
      ParamRunOver(p[1..], rest);
    } else {
      assert p + rest == rest;
    }
  }

  /** A string without escape characters is left unchanged. */
  lemma {:induction false} StripAnsiNoEscape(s: string)
    requires forall k :: 0 <= k < |s| ==> s[k] != Esc
    ensures StripAnsi(s) == s
  {
    if |s| > 0 {
      StripAnsiNoEscape(s[1..]);
    }
  }

  /** A leading colour code is removed entirely. */
  lemma StripSgrThen(params: string, s: string)
    requires IsSgrParams(params)
    ensures StripAnsi(Sgr(params) + s) == StripAnsi(s)
  {
    var w := Sgr(params) + s;
    assert w[2..] == params + ("m" + s);
    ParamRunOver(params, "m" + s);
    assert SgrPrefix(w) == 3 + |params|;
    assert w[3 + |params|..] == s;
  }

  /** A trailing colour code after escape-free text is removed entirely. */
  lemma {:induction false} StripTextThenSgr(s: string, params: string)
    requires forall k :: 0 <= k < |s| ==> s[k] != Esc
    requires IsSgrParams(params)
    ensures StripAnsi(s + Sgr(params)) == s
  {
    if |s| == 0 {
      assert s + Sgr(params) == Sgr(params) + "";
      StripSgrThen(params, "");
    } else {
      var w := s + Sgr(params);
      assert w[0] == s[0];
      assert w[1..] == s[1..] + Sgr(params);
      StripTextThenSgr(s[1..], params);
    }
  }

  /** The level text as a colouring format wraps it. */
  function Coloured(open: string, level: string, close: string): string
  {
    Sgr(open) + level + Sgr(close)
  }

  /** Stripping recovers a coloured level, and leaves the plain level names unchanged:
      the `level` field of a record is always the bare name. */
  lemma StripAnsiRecoversLevel(open: string, level: string, close: string)
    requires IsSgrParams(open) && IsSgrParams(close)
    requires forall k :: 0 <= k < |level| ==> level[k] != Esc
    ensures StripAnsi(Coloured(open, level, close)) == level
    ensures StripAnsi(level) == level
  {
    var tail := level + Sgr(close);
    assert Coloured(open, level, close) == Sgr(open) + tail by {
      assert Sgr(open) + level + Sgr(close) == Sgr(open) + (level + Sgr(close));
    }
    StripSgrThen(open, tail);
    StripTextThenSgr(level, close);
    StripAnsiNoEscape(level);
  }

  lemma StripAnsiOfLevelNames(m: LogMethod)
    ensures StripAnsi(WinstonLevel(m)) == WinstonLevel(m)
  {
    StripAnsiNoEscape(WinstonLevel(m));
  }

  /** No character of a colour code folds onto `e` or `f`, and its first character is
      not a letter. */
  lemma SgrCharacters(params: string)
    requires IsSgrParams(params)
    ensures var c := Sgr(params);
            && (forall k :: 0 <= k < |c| ==> Lower(c[k]) != 'e' && Lower(c[k]) != 'f')
            && |c| > 0 && !('a' <= Lower(c[0]) <= 'z')
  {
    var c := Sgr(params);
    forall k | 0 <= k < |c|
      ensures Lower(c[k]) != 'e' && Lower(c[k]) != 'f'
    {
      if 2 <= k < 2 + |params| {
        assert c[k] == params[k - 2];
      }
    }
  }

  /** A case-insensitive match of a lower-case word inside `pre + s + post` lies wholly
      inside `s` when no character around `s` can start the word and `post` does not
      start with a letter; every match inside `s` is one of the whole string. */
  lemma MatchInside(pre: string, s: string, post: string, pat: string, i: nat)
    requires |pat| > 0 && forall j :: 0 <= j < |pat| ==> 'a' <= pat[j] <= 'z'
    requires forall k :: 0 <= k < |pre| ==> Lower(pre[k]) != pat[0]
    requires forall k :: 0 <= k < |post| ==> Lower(post[k]) != pat[0]
    requires |post| > 0 && !('a' <= Lower(post[0]) <= 'z')
    ensures MatchesAt(pre + s + post, i, pat) ==> |pre| <= i && MatchesAt(s, i - |pre|, pat)
    ensures MatchesAt(s, i, pat) ==> MatchesAt(pre + s + post, i + |pre|, pat)
  {
    var w := pre + s + post;
    var e := |pre| + |s|;
    assert forall k :: 0 <= k < |pre| ==> w[k] == pre[k];
    assert forall k :: e <= k < |w| ==> w[k] == post[k - e];
    assert forall k :: |pre| <= k < e ==> w[k] == s[k - |pre|];
    assert w[e] == post[0];
    if MatchesAt(w, i, pat) {
      forall k | i <= k < i + |pat|
        ensures 'a' <= Lower(w[k]) <= 'z'
      {
        assert Lower(w[i + (k - i)]) == pat[k - i];
      }
      assert Lower(w[i]) == pat[0];
      assert |pre| <= i && i + |pat| <= e;
      forall j | 0 <= j < |pat|
        ensures Lower(s[i - |pre| + j]) == pat[j]
      {
        assert w[i + j] == s[i - |pre| + j];
      }
    }
    if MatchesAt(s, i, pat) {
      forall j | 0 <= j < |pat|
        ensures Lower(w[i + |pre| + j]) == pat[j]
      {
        assert w[i + |pre| + j] == s[i + j];
      }
    }
  }

  /** Colouring around a string neither adds nor removes an occurrence of "error" or
      "fatal". */
  lemma ContainsInsideColour(open: string, s: string, close: string, pat: string)
    requires IsSgrParams(open) && IsSgrParams(close)
    requires pat == "error" || pat == "fatal"
    ensures ContainsIgnoringCase(Coloured(open, s, close), pat) <==> ContainsIgnoringCase(s, pat)
  {
    var pre := Sgr(open);
    var post := Sgr(close);
    var w := Coloured(open, s, close);
    SgrCharacters(open);
    SgrCharacters(close);
    if ContainsIgnoringCase(w, pat) {
      var i: nat :| MatchesAt(w, i, pat);
      MatchInside(pre, s, post, pat, i);
      assert MatchesAt(s, i - |pre|, pat);
    }
    if ContainsIgnoringCase(s, pat) {
      var i: nat :| MatchesAt(s, i, pat);
      MatchInside(pre, s, post, pat, i);
      assert MatchesAt(w, i + |pre|, pat);
    }
  }

  /** Colouring does not change the error class of a level: the console format tests the
      coloured level, and still picks the error style exactly for error-class levels. */
  lemma ColouredLevelKeepsClass(open: string, level: string, close: string)
    requires IsSgrParams(open) && IsSgrParams(close)
    ensures IsErrorLevel(Coloured(open, level, close)) <==> IsErrorLevel(level)
  {
    ErrorLevelIff(Coloured(open, level, close));
    ErrorLevelIff(level);
    ContainsInsideColour(open, level, close, "error");
    ContainsInsideColour(open, level, close, "fatal");
  }

  // ---------------------------------------------------------------- records

  /** The metadata object `wrapLogFn` hands to winston: the message fields without
      `message`, then `level` (stripped of colour codes), `service`, `timestamp` and
      `hostname`, then the context, then the joined scope, later keys winning. */
  function LoggableData(logMessage: Fields, level: string, serviceName: string, timestamp: string,
                        hostname: Option<string>, context: Fields, scope: seq<string>): Fields
  {
    var own := (logMessage - {"message"})["level" := Str(StripAnsi(level))]["service" := Str(serviceName)]
               ["timestamp" := Str(timestamp)]["hostname" := OptValue(hostname)];
    (own + context)["scope" := Str(Join(scope, "/"))]
  }

  /** Every record carries `level`, `service`, `timestamp`, `hostname` (possibly
      `undefined`) and the joined `scope`, never `message`; context keys override the
      message's; every other message key comes through as it was. */
  lemma LoggableDataSpec(logMessage: Fields, level: string, serviceName: string, timestamp: string,
                         hostname: Option<string>, context: Fields, scope: seq<string>)
    requires context.Keys !! {"message", "level", "service", "timestamp", "hostname", "scope"}
    ensures var r := LoggableData(logMessage, level, serviceName, timestamp, hostname, context, scope);
            && r.Keys == (logMessage.Keys - {"message"})
                         + {"level", "service", "timestamp", "hostname", "scope"} + context.Keys
            && "message" !in r
            && r["level"] == Str(StripAnsi(level))
            && r["service"] == Str(serviceName)
            && r["timestamp"] == Str(timestamp)
            && r["hostname"] == OptValue(hostname)
            && r["scope"] == Str(Join(scope, "/"))
            && (forall k :: k in context ==> r[k] == context[k])
            && (forall k :: (k in logMessage && k !in context
                             && k !in {"message", "level", "service", "timestamp", "hostname", "scope"}) ==>
                  r[k] == logMessage[k])
  {
  }

  /** What `...logContext` can bring never collides with the keys the record sets itself. */
  lemma ContextKeysAreNotRecordKeys(context: Fields)
    requires context.Keys <= {"ddtags", "metadata", "traceContext", "instigator"}
    ensures context.Keys !! {"message", "level", "service", "timestamp", "hostname", "scope"}
  {
    assert "hostname" != "metadata" by {
      assert "hostname"[0] != "metadata"[0];
    }
  }

  /** Splitting `level`, `message` and `timestamp` off a record leaves `error`, `scope`,
      `service` and `hostname` where they were. */
  lemma RecordSurvivesPrintfSplit(meta: Fields)
    ensures var log := meta - {"level", "message", "timestamp"};
            && ("error" in log <==> "error" in meta) && ("error" in log ==> log["error"] == meta["error"])
            && ("scope" in log <==> "scope" in meta) && ("scope" in log ==> log["scope"] == meta["scope"])
            && ("service" in log <==> "service" in meta)
            && ("service" in log ==> log["service"] == meta["service"])
            && ("hostname" in log <==> "hostname" in meta)
            && ("hostname" in log ==> log["hostname"] == meta["hostname"])
  {
    assert "error"[0] != "level"[0] && "scope"[0] != "level"[0];
    assert "service"[0] != "message"[0];
  }

  /** One call of `winstonLogger.log(level, message, meta)`. */
  datatype WinstonEntry = WinstonEntry(level: string, message: Value, meta: Fields)

  /** The first record of every winston logger. */
  const AddingTransports := WinstonEntry("info", Str("Adding transports"), map["scope" := Str("Initializer")])

  /** The record announcing one added transport; the scope is rendered the way a template
      literal renders an array, joined with commas. */
  function Announcement(key: string, scope: seq<string>): WinstonEntry
  {
    WinstonEntry("info", Str("Added transport " + key + " for " + Join(scope, ",")),
                 map["scope" := Str("Initializer"), "logInfo" := Obj(map["transport" := Str(key)])])
  }

  function Announcements(items: seq<(string, HttpTransport)>, scope: seq<string>): seq<WinstonEntry>
  {
    seq(|items|, i requires 0 <= i < |items| => Announcement(items[i].0, scope))
  }

  // ---------------------------------------------------------------- console format

  /** How the console `printf` lays out the body: the red inspected object for errors,
      the coloured inspected object otherwise, or nothing when the object has no keys. */
  datatype ConsoleStyle = ErrorBlock | Inspected | Blank

  /** The parts of one console line: header timestamp, level and scope text, the body's
      style and object, and whether a newline ends it. Colouring and `util.inspect` are
      not modelled beyond this. */
  datatype ConsoleLine = ConsoleLine(timestamp: string, level: string, scopeText: string,
                                     style: ConsoleStyle, shown: Fields, eol: bool)

  /** The object `printf` displays: in light mode `message` and the truthy ones of
      `logInfo` and `error`; otherwise every field, with `message` set. */
  function Shown(message: Value, log: Fields, lightMode: bool): Fields
  {
    if lightMode then
      var withInfo :=
        if "logInfo" in log && Truthy(log["logInfo"])
        then map["message" := message, "logInfo" := log["logInfo"]]
        else map["message" := message];
      if "error" in log && Truthy(log["error"]) then withInfo["error" := log["error"]] else withInfo
    else log["message" := message]
  }

  /** `message` is always shown; light mode shows nothing but `message` and the truthy
      ones of `logInfo` and `error`; otherwise every field is shown unchanged. */
  lemma ShownSpec(message: Value, log: Fields, lightMode: bool)
    ensures var shown := Shown(message, log, lightMode);
            && "message" in shown && shown["message"] == message
            && (lightMode ==>
                  && shown.Keys <= {"message", "logInfo", "error"}
                  && ("logInfo" in shown <==> "logInfo" in log && Truthy(log["logInfo"]))
                  && ("logInfo" in shown ==> shown["logInfo"] == log["logInfo"])
                  && ("error" in shown <==> "error" in log && Truthy(log["error"]))
                  && ("error" in shown ==> shown["error"] == log["error"]))
            && (!lightMode ==>
                  && shown.Keys == log.Keys + {"message"}
                  && forall k :: k in log && k != "message" ==> shown[k] == log[k])
  {
  }

  /** The `printf` callback, given the fields winston passes it: `level`, `message`,
      `timestamp`, and the rest as `log`. */
  function Printf(level: string, message: Value, timestamp: string, log: Fields,
                  lightMode: bool, newLineEOL: bool): ConsoleLine
  {
    var scopeText := if "scope" in log then Display(log["scope"]) else "undefined";
    var shown := Shown(message, log, lightMode);
    var style :=
      if ("error" in shown && shown["error"].ErrorInstance?) || IsErrorLevel(level) then ErrorBlock
      else if shown.Keys != {} then Inspected
      else Blank;
    ConsoleLine(timestamp, level, scopeText, style, shown, newLineEOL)
  }

  /** The console line: the error style is chosen exactly when the level is error-class
      or `error` holds an `Error` instance, whatever the mode; the empty-body branch
      never happens, as `message` is always shown; the header carries the timestamp,
      the level and the scope as a template literal renders it; the line ends in a
      newline exactly when `newLineEOL` is set. */
  lemma PrintfSpec(level: string, message: Value, timestamp: string, log: Fields,
                   lightMode: bool, newLineEOL: bool)
    ensures var line := Printf(level, message, timestamp, log, lightMode, newLineEOL);
            && line.timestamp == timestamp && line.level == level && line.eol == newLineEOL
            && line.scopeText == (if "scope" in log then Display(log["scope"]) else "undefined")
            && (line.style == ErrorBlock <==>
                  IsErrorLevel(level) || ("error" in log && log["error"].ErrorInstance?))
            && line.style != Blank
            && line.shown == Shown(message, log, lightMode)
  {
    ShownSpec(message, log, lightMode);
    var shown := Shown(message, log, lightMode);
    assert "message" in shown.Keys;
  }

  /** What the console sink prints for one entry. Winston's timestamp format fills in
      `timestamp` only when the record has no truthy one, so the render-time `clock`
      shows only on records without their own; the colouring format wraps the level;
      `printf` receives the other fields as `log`. */
  function Render(entry: WinstonEntry, clock: string, open: string, close: string,
                  lightMode: bool, newLineEOL: bool): ConsoleLine
  {
    var timestamp :=
      if "timestamp" in entry.meta && Truthy(entry.meta["timestamp"])
      then Display(entry.meta["timestamp"]) else clock;
    Printf(Coloured(open, entry.level, close), entry.message, timestamp,
           entry.meta - {"level", "message", "timestamp"}, lightMode, newLineEOL)
  }

  /** The announcement carries no timestamp of its own, its fields survive the split
      `printf` makes, and in light mode `printf` shows its message and its `logInfo`. */
  lemma AnnouncementFields(key: string, scope: seq<string>)
    ensures var e := Announcement(key, scope);
            && "timestamp" !in e.meta
            && e.meta - {"level", "message", "timestamp"} == e.meta
            && Shown(e.message, e.meta, true) == map["message" := e.message, "logInfo" := e.meta["logInfo"]]
  {
    var e := Announcement(key, scope);
    assert "error" != "scope" && "error" != "logInfo";
    assert "level" != "scope" && "level" != "logInfo";
    assert "message" != "scope" && "message" != "logInfo";
    assert "timestamp" != "scope" && "timestamp" != "logInfo";
  }

  /** In either mode a transport announcement is printed with the render-time clock,
      under the `Initializer` scope, in the plain style; light mode shows just its
      message and `{ transport: key }`, the default mode adds its `scope`. */
  lemma AnnouncementRendering(key: string, scope: seq<string>, clock: string, open: string,
                              close: string, lightMode: bool, newLineEOL: bool)
    requires IsSgrParams(open) && IsSgrParams(close)
    ensures var line := Render(Announcement(key, scope), clock, open, close, lightMode, newLineEOL);
            var text := Str("Added transport " + key + " for " + Join(scope, ","));
            var info := Obj(map["transport" := Str(key)]);
            && line.timestamp == clock
            && line.scopeText == "Initializer"
            && line.style == Inspected
            && (lightMode ==> line.shown == map["message" := text, "logInfo" := info])
            && (!lightMode ==>
                  line.shown == map["scope" := Str("Initializer"), "logInfo" := info, "message" := text])
  {
    ColouredLevelKeepsClass(open, "info", close);
    OtherNamesAreNotErrorClass();
    var e := Announcement(key, scope);
    AnnouncementFields(key, scope);
    PrintfSpec(Coloured(open, "info", close), e.message, clock, e.meta, lightMode, newLineEOL);
  }

  // ---------------------------------------------------------------- the logger

  /** Where a winston logger sends its records: the console, then each remote transport. */
  datatype WinstonSink = ConsoleSink | HttpSink(name: string, transport: HttpTransport)

  function HttpSinks(items: seq<(string, HttpTransport)>): seq<WinstonSink>
  {
    seq(|items|, i requires 0 <= i < |items| => HttpSink(items[i].0, items[i].1))
  }

  /** Registering one more transport extends the sinks and the announcements by one. */
  lemma AnnounceOneMore(items: seq<(string, HttpTransport)>, i: nat, scope: seq<string>)
    requires i < |items|
    ensures HttpSinks(items[..i + 1]) == HttpSinks(items[..i]) + [HttpSink(items[i].0, items[i].1)]
    ensures Announcements(items[..i + 1], scope)
            == Announcements(items[..i], scope) + [Announcement(items[i].0, scope)]
  {
  }

  /** `env = 'staging'`. */
  function EnvOf(options: LoggerOptions): string
  {
    if options.env.Some? then options.env.value else "staging"
  }

  /** `lightMode = false`. */
  predicate LightModeOf(options: LoggerOptions)
  {
    options.lightMode == Some(true)
  }

  /** `newLineEOL = true`. */
  predicate NewLineOf(options: LoggerOptions)
  {
    options.newLineEOL != Some(false)
  }

  /** `localMode = true`. */
  predicate IsLocal(options: LoggerOptions)
  {
    options.localMode != Some(false)
  }

  /** The transports a winston logger adds: those of the factory, unless it runs locally
      or has no `transports` option. */
  function Registered(options: LoggerOptions): seq<(string, HttpTransport)>
  {
    if !IsLocal(options) && options.transports.Some?
    then Planned("winston", options.transports.value, options.serviceName, options.hostname)
    else []
  }

  /** Remote transports are only ever added when `localMode` is explicitly false, which is
      not the default; then exactly the backends with a truthy key are added; the
      top-level `datadog` option (which pino uses) plays no part. */
  lemma RegisteredSpec(options: LoggerOptions)
    ensures options.localMode.None? ==> Registered(options) == []
    ensures "datadog" in Keys(Registered(options)) <==>
              options.localMode == Some(false) && options.transports.Some?
              && HasKey(options.transports.value.datadog)
    ensures "newRelic" in Keys(Registered(options)) <==>
              options.localMode == Some(false) && options.transports.Some?
              && HasKey(options.transports.value.newRelic)
    ensures forall d :: Registered(options.(datadog := d)) == Registered(options)
  {
    if options.transports.Some? {
      PlannedSpec("winston", options.transports.value, options.serviceName, options.hostname);
    }
  }

  class WinstonLogger {
    const options: LoggerOptions
    const ctx: LogContext
    var sinks: seq<WinstonSink>
    /** Every `winstonLogger.log` call, in order. */
    var written: seq<WinstonEntry>

    /** Every handle was made for a winston request. */
    predicate Valid()
    {
      options.logger == Some("winston")
    }

    /** The body of `createWinstonLogger` after its guard: pick the context, announce,
        then add and announce each transport of the factory in the map's order. */
    constructor Init(options: LoggerOptions, parent: LogContext?)
      requires options.logger == Some("winston")
      ensures this.options == options && Valid()
      ensures parent != null ==> ctx == parent
      ensures parent == null ==> fresh(ctx) && ctx.scope == ["Main"]
                                 && ctx.ddtags == BaseTags(options.serviceName, EnvOf(options))
                                 && ctx.metadata == null && ctx.traceContext == null
                                 && ctx.instigator.None?
      ensures sinks == [ConsoleSink] + HttpSinks(Registered(options))
      ensures written == [AddingTransports] + Announcements(Registered(options), ctx.scope)
    {
      this.options := options;
      var c: LogContext;
      if parent != null {
        c := parent;
      } else {
        c := new LogContext.Root(BaseTags(options.serviceName, EnvOf(options)));
      }
      ctx := c;
      sinks := [ConsoleSink];
      written := [AddingTransports];
      new;
      RegisterTransports();
    }

    /** The registration loop: add each transport of the factory's map, in its order, as
        an HTTP sink and announce it under the context's scope. */
    method RegisterTransports()
      requires sinks == [ConsoleSink] && written == [AddingTransports]
      modifies this`sinks, this`written
      ensures sinks == [ConsoleSink] + HttpSinks(Registered(options))
      ensures written == [AddingTransports] + Announcements(Registered(options), ctx.scope)
    {
      if !IsLocal(options) && options.transports.Some? {
        var factory := new TransportFactory("winston", options.transports.value,
                                            options.serviceName, options.hostname);
        var transports := factory.GetTransports();
        var items := transports.items;
        var scope := ctx.scope;
        var i := 0;
        while i < |items|
          modifies this`sinks, this`written
          invariant 0 <= i <= |items|
          invariant sinks == [ConsoleSink] + HttpSinks(items[..i])
          invariant written == [AddingTransports] + Announcements(items[..i], scope)
        {
          AnnounceOneMore(items, i, scope);
          sinks := sinks + [HttpSink(items[i].0, items[i].1)];
          written := written + [Announcement(items[i].0, scope)];
          i := i + 1;
        }
        assert items[..i] == items;
      }
    }

    /** The entry a successful call through `m` writes at time `now`, for the context as
        it is now. */
    function Entry(m: LogMethod, logMessage: Fields, now: string): WinstonEntry
      reads ctx, ctx.metadata, ctx.traceContext
      requires "message" in logMessage
    {
      WinstonEntry(WinstonLevel(m), logMessage["message"],
                   LoggableData(logMessage, WinstonLevel(m), options.serviceName, now,
                                options.hostname, ctx.Fields(), ctx.scope))
    }

    /** How this logger's console sink prints an entry: in light mode only when the
        options ask for it, and ending in a newline unless they turn it off. */
    function Printed(entry: WinstonEntry, clock: string, open: string, close: string): ConsoleLine
    {
      Render(entry, clock, open, close, LightModeOf(options), NewLineOf(options))
    }

    /** A record logged through `m` at time `now` is printed with that time, the coloured
        level and the joined scope in its header, in the error style exactly when `m` is
        `error` or `fatal` or the record's `error` is an `Error`, with the logger's own
        newline setting; light mode shows at most `message`, `logInfo` and `error`, the
        default mode shows every record field, `service` and `hostname` included. */
    lemma EntryRendering(m: LogMethod, logMessage: Fields, now: string, clock: string,
                         open: string, close: string)
      requires "message" in logMessage && now != ""
      requires IsSgrParams(open) && IsSgrParams(close)
      ensures var entry := Entry(m, logMessage, now);
              var line := Printed(entry, clock, open, close);
              && line.timestamp == now
              && line.level == Coloured(open, WinstonLevel(m), close)
              && line.scopeText == Join(ctx.scope, "/")
              && line.eol == NewLineOf(options)
              && (line.style == ErrorBlock <==>
                    m == Error || m == Fatal || ("error" in entry.meta && entry.meta["error"].ErrorInstance?))
              && (LightModeOf(options) ==> line.shown.Keys <= {"message", "logInfo", "error"})
              && (!LightModeOf(options) ==>
                    line.shown["service"] == Str(options.serviceName)
                    && line.shown["hostname"] == OptValue(options.hostname))
    {
      var level := WinstonLevel(m);
      var context := ctx.Fields();
      ContextKeysAreNotRecordKeys(context);
      var meta := LoggableData(logMessage, level, options.serviceName, now, options.hostname,
                               context, ctx.scope);
      LoggableDataSpec(logMessage, level, options.serviceName, now, options.hostname,
                       context, ctx.scope);
      var log := meta - {"level", "message", "timestamp"};
      RecordSurvivesPrintfSplit(meta);
      ColouredLevelKeepsClass(open, level, close);
      WinstonLevelClassification(m);
      PrintfSpec(Coloured(open, level, close), logMessage["message"], now, log,
                 LightModeOf(options), NewLineOf(options));
      ShownSpec(logMessage["message"], log, LightModeOf(options));
    }

    /** A level method: normalise the input, build the record and log it; an invalid input
        throws to the caller and logs nothing. The clock reading is a parameter. */
    method Call(m: LogMethod, msgOrData: Value, data: Option<Fields>, now: string)
      returns (r: Result<()>)
      modifies this`written
      ensures var msg := CreateLogMessage(WinstonLevel(m), msgOrData, data);
              && (msg.Err? ==> r == Err(msg.error) && written == old(written))
              && (msg.Ok? ==> r == Ok(()) && written == old(written) + [old(Entry(m, msg.value, now))])
    {
      var msg := CreateLogMessage(WinstonLevel(m), msgOrData, data);
      if msg.Err? {
        r := Err(msg.error);
        return;
      }
      var entry := Entry(m, msg.value, now);
      written := written + [entry];
      r := Ok(());
    }

    /** `branch({ scope })`: a whole new winston logger over a shallow copy of the context,
        one scope segment longer; it announces and adds its transports again. */
    method Branch(segment: string) returns (child: WinstonLogger)
      requires Valid()
      ensures fresh(child) && fresh(child.ctx) && child.Valid()
      ensures child.options == options
      ensures child.ctx.scope == ctx.scope + [segment]
      ensures |ctx.scope| > 0 ==> Join(child.ctx.scope, "/") == Join(ctx.scope, "/") + "/" + segment
      ensures child.ctx.ddtags == ctx.ddtags && child.ctx.instigator == ctx.instigator
      ensures child.ctx.metadata == ctx.metadata && child.ctx.traceContext == ctx.traceContext
      ensures child.sinks == [ConsoleSink] + HttpSinks(Registered(options))
      ensures child.written == [AddingTransports] + Announcements(Registered(options), ctx.scope + [segment])
    {
      var c := new LogContext.Branched(ctx, segment);
      child := new WinstonLogger.Init(options, c);
      if |ctx.scope| > 0 {
        JoinSnoc(ctx.scope, segment, "/");
      }
    }

    /** `addDdtags(tags)`: append a comma and the valid tags, whatever they are. */
    method AddDdtags(tags: TagsArg)
      modifies ctx
      ensures ctx.ddtags == WinstonDdtags(old(ctx.ddtags), tags)
      ensures ctx.scope == old(ctx.scope) && ctx.instigator == old(ctx.instigator)
      ensures ctx.metadata == old(ctx.metadata) && ctx.traceContext == old(ctx.traceContext)
    {
      var validTags := FilterValid(AsList(tags));
      ctx.ddtags := ctx.ddtags + "," + Join(validTags, ",");
    }

    /** `addMetadata(key, value)`: a key that is empty after trimming throws and changes
        nothing; any other key is set on the metadata map, created if absent. */
    method AddMetadata(key: string, value: Value) returns (r: Result<()>)
      modifies ctx, ctx.metadata
      ensures r.Err? <==> forall i :: 0 <= i < |key| ==> IsJsWhitespace(key[i])
      ensures r.Err? ==> r.error == InvalidMetadataKey
      ensures r.Err? ==> ctx.metadata == old(ctx.metadata)
                         && (ctx.metadata != null ==> ctx.metadata.entries == old(ctx.metadata.entries))
      ensures r.Ok? ==> ctx.metadata != null
                        && (old(ctx.metadata) != null ==> ctx.metadata == old(ctx.metadata))
                        && (old(ctx.metadata) == null ==> fresh(ctx.metadata))
                        && ctx.metadata.entries
                           == (if old(ctx.metadata) == null then map[] else old(ctx.metadata.entries))[key := value]
      ensures ctx.scope == old(ctx.scope) && ctx.ddtags == old(ctx.ddtags)
      ensures ctx.traceContext == old(ctx.traceContext) && ctx.instigator == old(ctx.instigator)
    {
      if Trim(key) == "" {
        r := Err(InvalidMetadataKey);
        return;
      }
      ctx.PutMetadata(key, value);
      r := Ok(());
    }

    /** `getCurrentLogContext()`: the live context object, not a copy. */
    method GetCurrentLogContext() returns (c: LogContext)
      ensures c == ctx
    {
      c := ctx;
    }
  }

  /** The guard of `createWinstonLogger`: `options.logger` must be `"winston"`. */
  predicate AcceptsOptions(options: LoggerOptions)
  {
    options.logger == Some("winston")
  }

  /** `createWinstonLogger(options, parentContext)`: throws unless the options ask for
      winston. */
  method CreateWinstonLogger(options: LoggerOptions, parent: LogContext?)
    returns (r: Result<WinstonLogger>)
    ensures r.Err? <==> !AcceptsOptions(options)
    ensures r.Err? ==> r.error == InvalidLoggerType
    ensures r.Ok? ==> fresh(r.value) && r.value.options == options
                      && r.value.sinks == [ConsoleSink] + HttpSinks(Registered(options))
                      && (parent != null ==> r.value.ctx == parent)
  {
    if !AcceptsOptions(options) {
      r := Err(InvalidLoggerType);
      return;
    }
    var logger := new WinstonLogger.Init(options, parent);
    r := Ok(logger);
  }

  /** Winston keeps appending: tags added through a branch extend the tags the parent
      shares at branch time only in the child, and a blank metadata key is refused. */
  method BranchTagsAndBlankKey(options: LoggerOptions, tag: string) returns (
    parentTags: string, childTags: string, blank: Result<()>)
    requires options.logger == Some("winston")
    requires IsValidTag(tag)
    ensures childTags == parentTags + "," + tag
    ensures blank == Err(InvalidMetadataKey)
  {
    var root := new WinstonLogger.Init(options, null);
    var child := root.Branch("Job");
    child.AddDdtags(One(tag));
    parentTags := root.ctx.ddtags;
    childTags := child.ctx.ddtags;
    blank := child.AddMetadata(" \t", Str("x"));
  }
}
