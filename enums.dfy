/** The `Formats` enum: eighteen numeric members, numbered 0..17 in declaration order. */
module Formats {
  import opened Wrappers

  datatype Format =
    | Default | Simple | Align | Cli | Colorize | Combine | Errors | Json | Label
    | Logstash | Metadata | Ms | PadLevels | PrettyPrint | Printf | Splat | Timestamp | Uncolorize

  /** The members in declaration order; a member's index is its numeric value. */
  const All: seq<Format> :=
    [Default, Simple, Align, Cli, Colorize, Combine, Errors, Json, Label,
     Logstash, Metadata, Ms, PadLevels, PrettyPrint, Printf, Splat, Timestamp, Uncolorize]

  /** The numeric value TypeScript assigns to the member. */
  function Code(f: Format): (n: nat)
    ensures n < |All| && All[n] == f
  {
    match f
    case Default => 0
    case Simple => 1
    case Align => 2
    case Cli => 3
    case Colorize => 4
    case Combine => 5
    case Errors => 6
    case Json => 7
    case Label => 8
    case Logstash => 9
    case Metadata => 10
    case Ms => 11
    case PadLevels => 12
    case PrettyPrint => 13
    case Printf => 14
    case Splat => 15
    case Timestamp => 16
    case Uncolorize => 17
  }

  /** The member whose numeric value is `n`, if there is one (`Formats[n]` read back as a member). */
  function FromCode(n: int): (r: Option<Format>)
    ensures r.Some? <==> 0 <= n < 18
    ensures r.Some? ==> Code(r.value) == n
  {
    if 0 <= n < |All| then Some(All[n]) else None
  }

  /** The member's name as declared. */
  function Name(f: Format): string
  {
    match f
    case Default => "Default"
    case Simple => "Simple"
    case Align => "Align"
    case Cli => "Cli"
    case Colorize => "Colorize"
    case Combine => "Combine"
    case Errors => "Errors"
    case Json => "Json"
    case Label => "Label"
    case Logstash => "Logstash"
    case Metadata => "Metadata"
    case Ms => "Ms"
    case PadLevels => "PadLevels"
    case PrettyPrint => "PrettyPrint"
    case Printf => "Printf"
    case Splat => "Splat"
    case Timestamp => "Timestamp"
    case Uncolorize => "Uncolorize"
  }

  /** Numeric values and members are in one-to-one correspondence. */
  lemma CodeRoundTrip(f: Format)
    ensures FromCode(Code(f)) == Some(f)
  {
  }
}

/** The `Transports` enum: five numeric members, numbered 0..4. */
module Transports {
  import opened Wrappers

  datatype Transport = Default | Console | File | Http | Stream

  const All: seq<Transport> := [Default, Console, File, Http, Stream]

  function Code(t: Transport): (n: nat)
    ensures n < |All| && All[n] == t
  {
    match t
    case Default => 0
    case Console => 1
    case File => 2
    case Http => 3
    case Stream => 4
  }

  function FromCode(n: int): (r: Option<Transport>)
    ensures r.Some? <==> 0 <= n < 5
    ensures r.Some? ==> Code(r.value) == n
  {
    if 0 <= n < |All| then Some(All[n]) else None
  }

  lemma CodeRoundTrip(t: Transport)
    ensures FromCode(Code(t)) == Some(t)
  {
  }
}

/** The `LogLevel` enum: six string-valued members, most severe first. */
module Levels {
  import opened Wrappers

  datatype LogLevel = ERROR | WARN | INFO | HTTP | VERBOSE | DEBUG

  /** The string value of the member. */
  function Value(l: LogLevel): string
  {
    match l
    case ERROR => "error"
    case WARN => "warn"
    case INFO => "info"
    case HTTP => "http"
    case VERBOSE => "verbose"
    case DEBUG => "debug"
  }

  /** The six string values are distinct, so a value names one member. */
  lemma ValuesDistinct(a: LogLevel, b: LogLevel)
    requires Value(a) == Value(b)
    ensures a == b
  {
  }
}
