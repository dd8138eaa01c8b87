/** The configuration shapes the engine reads: `LoggerConfig` and
    `IntentLoggerOptions`. */
module Interfaces {
  import opened Wrappers
  import Formats
  import Transports
  import Levels
  import opened Winston

  /** A spec's `format`: a single enum member or an array of them. */
  datatype FormatField = One(format: Formats.Format) | Many(formats: seq<Formats.Format>)

  /** One entry of `LoggerConfig.transports`. */
  datatype TransportSpec = TransportSpec(
    transport: Transports.Transport,
    format: FormatField,
    labels: Option<Record>,
    options: Option<Record>)

  /** `LoggerConfig`: both keys are optional; None is an absent key. */
  datatype LoggerConfig = LoggerConfig(
    level: Option<Levels.LogLevel>,
    transports: Option<seq<TransportSpec>>)

  /** `IntentLoggerOptions`, the `logger` section of the application configuration. */
  datatype LoggerOptions = LoggerOptions(
    defaultLogger: string,
    disableConsole: bool,
    loggers: map<string, LoggerConfig>)

  /** `config.loggers[name]`: undefined when the name is not configured. */
  function Lookup(loggers: map<string, LoggerConfig>, name: string): (r: Option<LoggerConfig>)
    ensures r.Some? <==> name in loggers
    ensures r.Some? ==> r.value == loggers[name]
  {
    if name in loggers then Some(loggers[name]) else None
  }
}
