/** The two registries: `FormatsMap` and `TransportsMap`. */
module Constants {
  import Formats
  import Transports
  import W = Winston

  /** `FormatsMap`: the factory each format member selects.  A Dafny
      function over the enum, so it is total by construction. */
  function FormatsMap(f: Formats.Format): W.Factory
  {
    match f
    case Default => W.DefaultFormat
    case Simple => W.Simple
    case Align => W.Align
    case Cli => W.Cli
    case Colorize => W.Colorize
    case Combine => W.Combine
    case Errors => W.Errors
    case Json => W.Json
    case Label => W.Label
    case Logstash => W.Logstash
    case Metadata => W.Metadata
    case Ms => W.Ms
    case PadLevels => W.PadLevels
    case PrettyPrint => W.PrettyPrint
    case Printf => W.Printf
    case Splat => W.Splat
    case Timestamp => W.Timestamp
    case Uncolorize => W.Uncolorize
  }

  /** `TransportsMap`: the transport class each transport member selects. */
  function TransportsMap(t: Transports.Transport): W.SinkKind
  {
    match t
    case Default => W.ConsoleSink
    case Console => W.ConsoleSink
    case File => W.FileSink
    case Http => W.HttpSink
    case Stream => W.StreamSink
  }

  /** `c` in lower case when it is an ASCII capital. */
  function Lower(c: char): char
  {
    if 'A' <= c <= 'Z' then (c as int + 32) as char else c
  }

  /** `e` is `n` with its initial in lower case: Winston's export names are
      the enum member names written that way. */
  predicate LowerInitialOf(e: string, n: string)
  {
    |e| == |n| > 0 && e[0] == Lower(n[0]) && forall i :: 1 <= i < |n| ==> e[i] == n[i]
  }

  /** `Default` selects the repository's own `defaultFormat`, and only `Default` does. */
  lemma DefaultFormatIsCustom(f: Formats.Format)
    ensures !W.IsWinstonExport(FormatsMap(f)) <==> f == Formats.Default
  {
  }

  /** Every other member selects the Winston export of the same name. */
  lemma FormatsMapSameName(f: Formats.Format)
    requires f != Formats.Default
    ensures W.IsWinstonExport(FormatsMap(f))
    ensures LowerInitialOf(W.ExportName(FormatsMap(f)), Formats.Name(f))
  {
    match f
    case Simple =>
    case Align =>
    case Cli =>
    case Colorize =>
    case Combine =>
    case Errors =>
    case Json =>
    case Label =>
    case Logstash =>
    case Metadata =>
    case Ms =>
    case PadLevels =>
    case PrettyPrint =>
    case Printf =>
    case Splat =>
    case Timestamp =>
    case Uncolorize =>
  }

  /** Distinct members select distinct factories. */
  lemma FormatsMapInjective(f: Formats.Format, g: Formats.Format)
    requires FormatsMap(f) == FormatsMap(g)
    ensures f == g
  {
  }

  /** `Default` and `Console` both select the console transport class. */
  lemma TransportsMapNotInjective()
    ensures Transports.Default != Transports.Console
    ensures TransportsMap(Transports.Default) == TransportsMap(Transports.Console) == W.ConsoleSink
  {
  }

  /** File, Http and Stream select the class of the same name; `File` is
      the only member selecting the file class. */
  lemma TransportsMapNamed(t: Transports.Transport)
    ensures TransportsMap(t) == W.FileSink <==> t == Transports.File
    ensures TransportsMap(t) == W.HttpSink <==> t == Transports.Http
    ensures TransportsMap(t) == W.StreamSink <==> t == Transports.Stream
    ensures TransportsMap(t) == W.ConsoleSink <==> t == Transports.Default || t == Transports.Console
  {
  }
}
