/** The two public entry points that choose between the pino and the winston factory:
    `LoggerMaker` (src/logger/logger.ts) and `CustomLoggerMaker`
    (src/customLogger/customLogger.ts). Both only rewrite the options and pick a factory;
    which factory call they make is modelled as a value. */
module LoggerMakers {
  import opened Js
  import opened Interface
  import opened WinstonLogger

  /** The factory a maker calls, with the options it passes. */
  datatype FactoryCall = CreatePino(options: LoggerOptions) | CreateWinston(options: LoggerOptions)

  /** `LoggerMaker(options)`: pino exactly for `logger: 'pino'`, winston for anything
      else, with `logger` set to the chosen name and `env` defaulted to `staging`. */
  function LoggerMaker(options: LoggerOptions): (c: FactoryCall)
  {
    var env := Some(EnvOf(options));
    if options.logger == Some("pino") then CreatePino(options.(logger := Some("pino"), env := env))
    else CreateWinston(options.(logger := Some("winston"), env := env))
  }

  /** The choice and the rewrite: pino only when asked for; every other request,
      including one with no `logger` at all, goes to winston labelled so that its guard
      passes; `env` is always set; every other option is passed on unchanged. */
  lemma LoggerMakerSpec(options: LoggerOptions)
    ensures var c := LoggerMaker(options);
            && (c.CreatePino? <==> options.logger == Some("pino"))
            && (c.CreateWinston? ==> AcceptsOptions(c.options))
            && c.options.env == Some(if options.env.Some? then options.env.value else "staging")
            && c.options.(logger := options.logger, env := options.env) == options
  {
  }

  /** `CustomLoggerMaker(options)` as written: `logger` and `env` are taken out of the
      options and only `env` is put back, so neither factory receives `logger`. */
  function CustomLoggerMaker(options: LoggerOptions): (c: FactoryCall)
  {
    var rest := options.(logger := None, env := Some(EnvOf(options)));
    if options.logger == Some("pino") then CreatePino(rest) else CreateWinston(rest)
  }

  /** As written, every request that is not for pino reaches winston without `logger`,
      so the winston guard rejects it: `CustomLoggerMaker` can never build a winston
      logger. */
  lemma CustomMakerRejectsWinston(options: LoggerOptions)
    requires options.logger != Some("pino")
    ensures CustomLoggerMaker(options).CreateWinston?
    ensures !AcceptsOptions(CustomLoggerMaker(options).options)
  {
  }

  /** The same, composing the as-written maker with `CreateWinstonLogger` for a request
      that asks for winston: the factory call the maker makes throws the logger-type error. */
  method CustomWinstonRequest(options: LoggerOptions) returns (r: Result<WinstonLogger>)
    requires options.logger == Some("winston")
    ensures r == Err(InvalidLoggerType)
    ensures ErrorMessage(r.error) == "Invalid logger type for createWinstonLogger. Expected \"winston\"."
  {
    var call := CustomLoggerMaker(options);
    r := CreateWinstonLogger(call.options, null);
  }

  /** `CustomLoggerMaker` with `logger` forwarded on the winston path, as its types
      (`logger: 'winston'`) evidently intend. */
  function CustomLoggerMakerFixed(options: LoggerOptions): (c: FactoryCall)
  {
    var rest := options.(logger := None, env := Some(EnvOf(options)));
    if options.logger == Some("pino") then CreatePino(rest)
    else CreateWinston(rest.(logger := Some("winston")))
  }

  /** The corrected maker passes the winston guard for every non-pino request, agrees
      with the as-written maker on pino requests, and on winston requests makes exactly
      the call `LoggerMaker` makes. */
  lemma CustomMakerFixedSpec(options: LoggerOptions)
    ensures var c := CustomLoggerMakerFixed(options);
            && (c.CreatePino? <==> options.logger == Some("pino"))
            && (c.CreateWinston? ==> AcceptsOptions(c.options))
            && (options.logger == Some("pino") ==> c == CustomLoggerMaker(options))
            && (options.logger == Some("winston") ==> c == LoggerMaker(options))
  {
  }
}
