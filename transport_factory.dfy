/** `createTransportFactory` (src/factory/transportFactory.ts): fills a JavaScript `Map`
    of remote HTTP transports, keyed by backend name, from the `transports` option, and
    hands out that same map on every `getTransports()` call. */
module TransportFactory {
  import opened Js
  import opened Interface

  /** The options a `winston.transports.Http` is built with; the transport itself is
      opaque to this model. */
  datatype HttpTransport = HttpTransport(host: string, path: string, ssl: bool)

  const IntakeHost := "http-intake.logs.datadoghq.com"

  /** The intake path for one API key; an absent hostname prints as "undefined". */
  function IntakePath(apiKey: string, serviceName: string, hostname: Option<string>): string
  {
    "/api/v2/logs?dd-api-key=" + apiKey + "&ddsource=nodejs&service=" + serviceName
    + "&host=" + OptText(hostname)
  }

  function IntakeTransport(apiKey: string, serviceName: string, hostname: Option<string>): HttpTransport
  {
    HttpTransport(IntakeHost, IntakePath(apiKey, serviceName, hostname), true)
  }

  /** The entries the factory sets, in insertion order: nothing for pino; for winston a
      `datadog` entry and then a `newRelic` entry, each when its API key is truthy. Both
      point at the Datadog intake. */
  function Planned(loggerName: string, config: TransportsConfig, serviceName: string,
                   hostname: Option<string>): seq<(string, HttpTransport)>
  {
    if loggerName != "winston" then []
    else
      (if HasKey(config.datadog)
       then [("datadog", IntakeTransport(config.datadog.value.apiKey, serviceName, hostname))]
       else [])
      + (if HasKey(config.newRelic)
         then [("newRelic", IntakeTransport(config.newRelic.value.apiKey, serviceName, hostname))]
         else [])
  }

  function Keys(items: seq<(string, HttpTransport)>): seq<string>
  {
    if |items| == 0 then [] else [items[0].0] + Keys(items[1..])
  }

  /** What the factory builds: no entry for pino; a `datadog` entry exactly when the
      logger is winston and the datadog key is truthy, likewise `newRelic`; keys drawn
      from those two, datadog first; every entry an SSL transport to the Datadog
      intake carrying its own key, the service name and the host. */
  lemma PlannedSpec(loggerName: string, config: TransportsConfig, serviceName: string,
                    hostname: Option<string>)
    ensures var p := Planned(loggerName, config, serviceName, hostname);
            && (loggerName == "pino" ==> p == [])
            && ("datadog" in Keys(p) <==> loggerName == "winston" && HasKey(config.datadog))
            && ("newRelic" in Keys(p) <==> loggerName == "winston" && HasKey(config.newRelic))
            && (forall k :: k in Keys(p) ==> k == "datadog" || k == "newRelic")
            && |p| <= 2
            && (|p| == 2 ==> Keys(p) == ["datadog", "newRelic"])
            && (forall i :: 0 <= i < |p| ==>
                  && p[i].1.host == IntakeHost
                  && p[i].1.ssl
                  && (p[i].0 == "datadog" ==>
                        p[i].1.path == IntakePath(config.datadog.value.apiKey, serviceName, hostname))
                  && (p[i].0 == "newRelic" ==>
                        p[i].1.path == IntakePath(config.newRelic.value.apiKey, serviceName, hostname)))
  {
    var p := Planned(loggerName, config, serviceName, hostname);
    if loggerName == "winston" {
      var d := if HasKey(config.datadog)
               then [("datadog", IntakeTransport(config.datadog.value.apiKey, serviceName, hostname))]
               else [];
      var n := if HasKey(config.newRelic)
               then [("newRelic", IntakeTransport(config.newRelic.value.apiKey, serviceName, hostname))]
               else [];
      assert p == d + n;
      if |p| == 2 {
        assert p[0].0 == "datadog" && p[1].0 == "newRelic";
        assert Keys(p) == [p[0].0] + Keys(p[1..]);
        assert Keys(p[1..]) == [p[1].0] + Keys(p[2..]);
      } else if |p| == 1 {
        assert Keys(p) == [p[0].0] + Keys(p[1..]);
      }
    }
  }

  /** `map.set(key, value)` on an insertion-ordered map: an existing key keeps its
      place, a new key goes last. */
  function Put(items: seq<(string, HttpTransport)>, key: string, value: HttpTransport)
    : (r: seq<(string, HttpTransport)>)
    ensures key !in Keys(items) ==> r == items + [(key, value)]
  {
    if |items| == 0 then [(key, value)]
    else if items[0].0 == key then [(key, value)] + items[1..]
    else
      assert (items + [(key, value)])[1..] == items[1..] + [(key, value)];
      [items[0]] + Put(items[1..], key, value)
  }

  /** A JavaScript `Map<string, HttpTransport>`, mutated in place. */
  class TransportMap {
    /** The entries in insertion order. */
    var items: seq<(string, HttpTransport)>

    constructor ()
      ensures items == []
    {
      items := [];
    }

    method Set(key: string, value: HttpTransport)
      modifies this
      ensures items == Put(old(items), key, value)
    {
      items := Put(items, key, value);
    }
  }

  /** The object `createTransportFactory` returns: a closure over one map. */
  class TransportFactory {
    const transports: TransportMap

    constructor (loggerName: string, config: TransportsConfig, serviceName: string,
                 hostname: Option<string>)
      ensures fresh(transports)
      ensures transports.items == Planned(loggerName, config, serviceName, hostname)
    {
      var m := new TransportMap();
      if loggerName == "winston" {
        if config.datadog.Some? {
          if config.datadog.value.apiKey != "" {
            m.Set("datadog", IntakeTransport(config.datadog.value.apiKey, serviceName, hostname));
          }
        }
        if config.newRelic.Some? {
          if config.newRelic.value.apiKey != "" {
            assert "newRelic" !in Keys(m.items) by {
              if |m.items| == 1 {
                assert Keys(m.items) == [m.items[0].0] + Keys(m.items[1..]);
              }
            }
            m.Set("newRelic", IntakeTransport(config.newRelic.value.apiKey, serviceName, hostname));
          }
        }
      }
      transports := m;
    }

    /** `getTransports()`: the same map object on every call. */
    method GetTransports() returns (m: TransportMap)
      ensures m == transports
    {
      m := transports;
    }
  }
}
