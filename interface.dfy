/** The shapes the loggers are configured and called with
    (src/interface/interface.types.ts, src/customLogger/customLogger.types.ts). */
module Interface {
  import opened Js

  /** `{ apiKey }` for one remote backend. */
  datatype Credentials = Credentials(apiKey: string)

  /** The `transports` option: per-backend credentials, each possibly absent. */
  datatype TransportsConfig = TransportsConfig(datadog: Option<Credentials>, newRelic: Option<Credentials>)

  /** The options object handed to the logger factories. `logger` is the discriminator
      between pino and winston; an absent optional field is `None`. */
  datatype LoggerOptions = LoggerOptions(
    logger: Option<string>,
    env: Option<string>,
    level: Option<string>,
    serviceName: string,
    hostname: Option<string>,
    lightMode: Option<bool>,
    localMode: Option<bool>,
    newLineEOL: Option<bool>,
    datadog: Option<Credentials>,
    transports: Option<TransportsConfig>)

  /** A credential is usable when its `apiKey` is truthy: a non-empty string. */
  predicate HasKey(c: Option<Credentials>)
  {
    c.Some? && c.value.apiKey != ""
  }

  /** The level methods of a logger handle. */
  datatype LogMethod = Log | Info | Warn | Error | Fatal | Debug | Trace

  /** `{ email, id, role? }`: who caused the log line. */
  datatype Instigator = Instigator(email: string, id: string, role: Option<string>)

  /** The instigator as the record shows it. */
  function InstigatorValue(who: Instigator): (v: Value)
    ensures v.Obj? && "email" in v.fields && "id" in v.fields
    ensures v.fields["email"] == Str(who.email) && v.fields["id"] == Str(who.id)
    ensures "role" in v.fields <==> who.role.Some?
  {
    Obj(map["email" := Str(who.email), "id" := Str(who.id)]
        + (if who.role.Some? then map["role" := Str(who.role.value)] else map[]))
  }
}
