/** Opaque descriptors for what the engine takes from the Winston logging
    library: format factories and the stages they produce, transport classes
    and the sinks built from them, and loggers.  Nothing here says what a
    stage does to an entry or how a sink delivers it. */
module Winston {
  import Levels

  /** A JavaScript value held in a labels, options or context record. */
  datatype Value = Str(s: string) | Num(n: int) | Bool(b: bool) | Null

  type Record = map<string, Value>

  /** A format factory: one of Winston's `format.*` exports, or the
      repository's own `defaultFormat`. */
  datatype Factory =
    | DefaultFormat
    | Simple | Align | Cli | Colorize | Combine | Errors | Json | Label
    | Logstash | Metadata | Ms | PadLevels | PrettyPrint | Printf | Splat | Timestamp | Uncolorize

  /** The name under which Winston exports the factory (`format.<name>`);
      the custom factory has the name of its TypeScript constant. */
  function ExportName(f: Factory): string
  {
    match f
    case DefaultFormat => "defaultFormat"
    case Simple => "simple"
    case Align => "align"
    case Cli => "cli"
    case Colorize => "colorize"
    case Combine => "combine"
    case Errors => "errors"
    case Json => "json"
    case Label => "label"
    case Logstash => "logstash"
    case Metadata => "metadata"
    case Ms => "ms"
    case PadLevels => "padLevels"
    case PrettyPrint => "prettyPrint"
    case Printf => "printf"
    case Splat => "splat"
    case Timestamp => "timestamp"
    case Uncolorize => "uncolorize"
  }

  /** True for the factories Winston itself exports. */
  predicate IsWinstonExport(f: Factory)
  {
    f != DefaultFormat
  }

  /** One stage of a formatting pipeline, as the call that produced it. */
  datatype Stage =
    | Invoked(factory: Factory)            // factory(), no arguments
    | ErrorsStage(stack: bool)             // format.errors({ stack })
    | TimestampStage(pattern: string)      // format.timestamp({ format: pattern })
    | LabelStage(labels: Record)           // format.label(labels)

  /** A Winston transport class. */
  datatype SinkKind = ConsoleSink | FileSink | HttpSink | StreamSink

  /** A constructed transport: its class, the options object it was given
      (without its `format` key) and the pipeline given as that `format`. */
  datatype Sink = Sink(kind: SinkKind, options: Record, format: seq<Stage>)

  /** The `context` a logger attaches to its entries: never set, set to a
      record, or explicitly set to `undefined`. */
  datatype Context = NoContext | Ctx(context: Record) | Cleared

  /** A Winston logger: its sinks in construction order, its level and the
      context its entries carry. */
  datatype Logger = Logger(sinks: seq<Sink>, level: Levels.LogLevel, context: Context)

  /** The call `logger[level](payload)`. */
  datatype Emission = Emission(logger: Logger, level: Levels.LogLevel, payload: Value)
}
