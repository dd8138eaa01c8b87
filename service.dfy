/** `LoggerService`: pipeline construction (`buildFormatter`), logger
    construction (`makeLogger`), named resolution through the store
    (`logger`) and the context derivations it attaches. */
module Service {
  import opened Wrappers
  import Formats
  import Transports
  import Levels
  import opened Winston
  import opened Failures
  import opened Interfaces
  import Constants
  import Defaults
  import Store

  /** The pattern of the mandatory timestamp stage. */
  const TimestampPattern: string := "YYYY-MM-DD HH:mm:ss"

  /** The directory, under the project root, that file transports write to. */
  const LogsDirectory: string := "storage/logs"

  /** The two stages every pipeline starts with. */
  const Prefix: seq<Stage> := [ErrorsStage(true), TimestampStage(TimestampPattern)]

  // ---------------------------------------------------------------- buildFormatter

  /** The stage each user format produces: its registry factory, called with no arguments. */
  function UserStages(formats: seq<Formats.Format>): (r: seq<Stage>)
  {
    seq(|formats|, i requires 0 <= i < |formats| => Invoked(Constants.FormatsMap(formats[i])))
  }

  /** The stages `buildFormatter(formats, labels)` combines: error stacks,
      the timestamp, the user formats in order, then a label stage when
      labels are given (an empty record is given too: any object is truthy). */
  function Pipeline(formats: seq<Formats.Format>, labels: Option<Record>): seq<Stage>
  {
    Prefix + UserStages(formats) + (if labels.Some? then [LabelStage(labels.value)] else [])
  }

  lemma PipelineShape(formats: seq<Formats.Format>, labels: Option<Record>)
    ensures |Pipeline(formats, labels)| == 2 + |formats| + (if labels.Some? then 1 else 0)
    ensures Pipeline(formats, labels)[0] == ErrorsStage(true)
    ensures Pipeline(formats, labels)[1] == TimestampStage(TimestampPattern)
    ensures forall i :: 0 <= i < |formats| ==>
      Pipeline(formats, labels)[2 + i] == Invoked(Constants.FormatsMap(formats[i]))
    ensures labels.Some? ==> Pipeline(formats, labels)[2 + |formats|] == LabelStage(labels.value)
  {
  }

  /** Appending user formats appends their stages: the user part of a
      pipeline is a homomorphic image of the format list, so order is kept. */
  lemma {:induction false} UserStagesAppend(xs: seq<Formats.Format>, ys: seq<Formats.Format>)
    ensures UserStages(xs + ys) == UserStages(xs) + UserStages(ys)
  {
    var l, r := UserStages(xs + ys), UserStages(xs) + UserStages(ys);
    assert |l| == |r|;
    forall i | 0 <= i < |l| ensures l[i] == r[i] {
      if i < |xs| { assert (xs + ys)[i] == xs[i]; }
      else { assert (xs + ys)[i] == ys[i - |xs|]; }
    }
  }

  /** No user format can displace the prefix. */
  lemma PrefixFixed(formats: seq<Formats.Format>, labels: Option<Record>)
    ensures Pipeline(formats, labels)[..2] == Prefix
  {
  }

  /** `buildFormatter`: collects the user stages with a loop, then combines. */
  method BuildFormatter(formats: seq<Formats.Format>, labels: Option<Record>) returns (pipeline: seq<Stage>)
    ensures pipeline == Pipeline(formats, labels)
  {
    var formatters: seq<Stage> := [];
    var i := 0;
    while i < |formats|
      invariant 0 <= i <= |formats|
      invariant |formatters| == i
      invariant forall j :: 0 <= j < i ==> formatters[j] == Invoked(Constants.FormatsMap(formats[j]))
    {
      formatters := formatters + [Invoked(Constants.FormatsMap(formats[i]))];
      i := i + 1;
    }
    if labels.Some? {
      formatters := formatters + [LabelStage(labels.value)];
    }
    pipeline := [ErrorsStage(true), TimestampStage(TimestampPattern)] + formatters;
  }

  // ---------------------------------------------------------------- makeLogger

  /** `{ ...defaults, ...given }` over the two keys of a LoggerConfig;
      `given` is `undefined` when the logger is not configured. */
  function Merge(defaults: LoggerConfig, given: Option<LoggerConfig>): (r: LoggerConfig)
    ensures given.None? ==> r == defaults
    ensures given.Some? && given.value.level.Some? ==> r.level == given.value.level
    ensures given.Some? && given.value.level.None? ==> r.level == defaults.level
    ensures given.Some? && given.value.transports.Some? ==> r.transports == given.value.transports
    ensures given.Some? && given.value.transports.None? ==> r.transports == defaults.transports
  {
    match given
    case None => defaults
    case Some(c) =>
      LoggerConfig(
        if c.level.Some? then c.level else defaults.level,
        if c.transports.Some? then c.transports else defaults.transports)
  }

  /** Merging is idempotent and the defaults are its neutral element. */
  lemma MergeLaws(defaults: LoggerConfig, given: Option<LoggerConfig>)
    ensures Merge(defaults, Some(Merge(defaults, given))) == Merge(defaults, given)
    ensures Merge(defaults, Some(defaults)) == defaults
  {
  }

  /** The configuration `makeLogger` works from: defaults overlaid with the given one. */
  function Effective(given: Option<LoggerConfig>): (r: LoggerConfig)
    ensures r.level.Some? && r.transports.Some?
  {
    Merge(Defaults.DefaultLoggerOptions(), given)
  }

  /** The integer-or-array `format` of a spec as an array. */
  function Normalize(field: FormatField): (r: seq<Formats.Format>)
    ensures field.One? ==> r == [field.format]
    ensures field.Many? ==> r == field.formats
  {
    match field
    case One(f) => [f]
    case Many(fs) => fs
  }

  /** A spec's options; an absent options object contributes no keys. */
  function OptionsOf(spec: TransportSpec): Record
  {
    spec.options.GetOr(map[])
  }

  function FilenameOf(spec: TransportSpec): Option<Value>
  {
    if "filename" in OptionsOf(spec) then Some(OptionsOf(spec)["filename"]) else None
  }

  /** True when `path.join` would throw for this spec: a file transport
      whose `filename` option is absent or not a string. */
  predicate BadFilename(spec: TransportSpec)
  {
    spec.transport == Transports.File && !(FilenameOf(spec).Some? && FilenameOf(spec).value.Str?)
  }

  /** `path.join(root, dir, file)`, as plain `/`-concatenation. */
  function Join(root: string, dir: string, file: string): string
  {
    root + "/" + dir + "/" + file
  }

  /** The transport one spec yields. */
  function BuildSink(spec: TransportSpec, root: string): (r: Result<Sink, Error>)
    ensures r.Failure? <==> BadFilename(spec)
    ensures r.Failure? ==> r.error == PathNotString(FilenameOf(spec))
    ensures r.Success? ==> r.value.kind == Constants.TransportsMap(spec.transport)
    ensures r.Success? ==> r.value.format == Pipeline(Normalize(spec.format), spec.labels)
    ensures r.Success? ==> "format" !in r.value.options
    ensures r.Success? ==> forall k :: k != "format" && (k != "filename" || spec.transport != Transports.File) ==>
      (k in r.value.options <==> k in OptionsOf(spec)) &&
      (k in OptionsOf(spec) ==> r.value.options[k] == OptionsOf(spec)[k])
    ensures r.Success? && spec.transport == Transports.File ==>
      "filename" in r.value.options &&
      r.value.options["filename"] == Str(Join(root, LogsDirectory, FilenameOf(spec).value.s))
  {
    var options := OptionsOf(spec) - {"format"};
    var pipeline := Pipeline(Normalize(spec.format), spec.labels);
    var kind := Constants.TransportsMap(spec.transport);
    if spec.transport == Transports.File then
      if BadFilename(spec) then Failure(PathNotString(FilenameOf(spec)))
      else Success(Sink(kind, options["filename" := Str(Join(root, LogsDirectory, FilenameOf(spec).value.s))], pipeline))
    else Success(Sink(kind, options, pipeline))
  }

  /** The spec is skipped: console output is disabled and it names `Console`
      itself (`Default`, which also selects the console class, is not skipped). */
  predicate Skipped(spec: TransportSpec, disableConsole: bool)
    ensures Skipped(spec, disableConsole) ==> Constants.TransportsMap(spec.transport) == ConsoleSink
    ensures spec.transport != Transports.Console ==> !Skipped(spec, disableConsole)
    ensures !disableConsole ==> !Skipped(spec, disableConsole)
  {
    disableConsole && spec.transport == Transports.Console
  }

  /** The specs that are not skipped, in order. */
  function Kept(specs: seq<TransportSpec>, disableConsole: bool): seq<TransportSpec>
    decreases |specs|
  {
    if specs == [] then []
    else
      var last := specs[|specs| - 1];
      Kept(specs[..|specs| - 1], disableConsole) + (if Skipped(last, disableConsole) then [] else [last])
  }

  /** The transports the loop of `makeLogger` collects; the first spec whose
      construction throws ends it with that error. */
  function SinksOf(specs: seq<TransportSpec>, disableConsole: bool, root: string): Result<seq<Sink>, Error>
    decreases |specs|
  {
    if specs == [] then Success([])
    else
      var last := specs[|specs| - 1];
      match SinksOf(specs[..|specs| - 1], disableConsole, root)
      case Failure(e) => Failure(e)
      case Success(sinks) =>
        if Skipped(last, disableConsole) then Success(sinks)
        else match BuildSink(last, root)
          case Failure(e) => Failure(e)
          case Success(s) => Success(sinks + [s])
  }

  /** The logger `makeLogger(given)` returns. */
  function BuiltLogger(given: Option<LoggerConfig>, config: LoggerOptions, root: string): Result<Logger, Error>
  {
    var merged := Effective(given);
    match SinksOf(merged.transports.value, config.disableConsole, root)
    case Failure(e) => Failure(e)
    case Success(sinks) => Success(Logger(sinks, merged.level.value, NoContext))
  }

  /** `makeLogger`: merges the defaults, then builds one transport per
      spec that is not skipped, in spec order. */
  method MakeLogger(given: Option<LoggerConfig>, config: LoggerOptions, root: string) returns (r: Result<Logger, Error>)
    ensures r == BuiltLogger(given, config, root)
  {
    var options := Merge(Defaults.DefaultLoggerOptions(), given);
    var specs := options.transports.value;
    var transportsConfig: seq<Sink> := [];
    var i := 0;
    while i < |specs|
      invariant 0 <= i <= |specs|
      invariant SinksOf(specs[..i], config.disableConsole, root) == Success(transportsConfig)
    {
      var spec := specs[i];
      assert specs[..i + 1][..i] == specs[..i];
      if config.disableConsole && spec.transport == Transports.Console {
        i := i + 1;
        continue;
      }
      var formats := Normalize(spec.format);
      var pipeline := BuildFormatter(formats, spec.labels);
      var sinkOptions := OptionsOf(spec) - {"format"};
      if spec.transport == Transports.File {
        var filename := FilenameOf(spec);
        if !(filename.Some? && filename.value.Str?) {
          SinksOfFailureSticks(specs, i + 1, config.disableConsole, root);
          assert specs[..|specs|] == specs;
          return Failure(PathNotString(filename));
        }
        sinkOptions := sinkOptions["filename" := Str(Join(root, LogsDirectory, filename.value.s))];
      }
      transportsConfig := transportsConfig + [Sink(Constants.TransportsMap(spec.transport), sinkOptions, pipeline)];
      i := i + 1;
    }
    assert specs[..|specs|] == specs;
    r := Success(Logger(transportsConfig, options.level.value, NoContext));
  }

  /** Once a prefix of the specs fails, the whole list fails with that error. */
  lemma {:induction false} SinksOfFailureSticks(specs: seq<TransportSpec>, n: nat, disableConsole: bool, root: string)
    requires n <= |specs|
    requires SinksOf(specs[..n], disableConsole, root).Failure?
    ensures SinksOf(specs, disableConsole, root) == SinksOf(specs[..n], disableConsole, root)
    decreases |specs| - n
  {
    if n < |specs| {
      assert specs[..n + 1][..n] == specs[..n];
      SinksOfFailureSticks(specs, n + 1, disableConsole, root);
    } else {
      assert specs[..n] == specs;
    }
  }

  // ---------------------------------------------------------------- properties of makeLogger

  /** One transport per kept spec, in spec order: the i-th transport is
      the one built from the i-th kept spec. */
  lemma {:induction false} SinksFollowKept(specs: seq<TransportSpec>, disableConsole: bool, root: string)
    requires SinksOf(specs, disableConsole, root).Success?
    ensures var sinks := SinksOf(specs, disableConsole, root).value;
      |sinks| == |Kept(specs, disableConsole)| &&
      forall j :: 0 <= j < |sinks| ==> BuildSink(Kept(specs, disableConsole)[j], root) == Success(sinks[j])
  {
    if specs != [] {
      var init := specs[..|specs| - 1];
      SinksFollowKept(init, disableConsole, root);
    }
  }

  /** Without any bad `filename`, every kept spec yields its transport. */
  lemma {:induction false} SinksOfSucceeds(specs: seq<TransportSpec>, disableConsole: bool, root: string)
    requires forall i :: 0 <= i < |specs| ==> !BadFilename(specs[i])
    ensures SinksOf(specs, disableConsole, root).Success?
  {
    if specs != [] {
      var init := specs[..|specs| - 1];
      SinksOfSucceeds(init, disableConsole, root);
    }
  }

  /** With a bad `filename`, construction fails with the error of the first
      such spec, whatever follows it. */
  lemma {:induction false} SinksOfFailsAtFirst(specs: seq<TransportSpec>, i: nat, disableConsole: bool, root: string)
    requires i < |specs| && BadFilename(specs[i])
    requires forall j :: 0 <= j < i ==> !BadFilename(specs[j])
    ensures SinksOf(specs, disableConsole, root) == Failure(PathNotString(FilenameOf(specs[i])))
  {
    var prefix := specs[..i + 1];
    assert prefix[..i] == specs[..i];
    SinksOfSucceeds(specs[..i], disableConsole, root);
    SinksOfFailureSticks(specs, i + 1, disableConsole, root);
  }

  /** With console output enabled nothing is skipped. */
  lemma {:induction false} KeptAllWhenEnabled(specs: seq<TransportSpec>)
    ensures Kept(specs, false) == specs
  {
    if specs != [] {
      KeptAllWhenEnabled(specs[..|specs| - 1]);
      assert specs[..|specs| - 1] + [specs[|specs| - 1]] == specs;
    }
  }

  /** The kept specs are exactly the specs that are not skipped. */
  lemma {:induction false} KeptMembers(specs: seq<TransportSpec>, disableConsole: bool)
    ensures forall s :: s in Kept(specs, disableConsole) <==> s in specs && !Skipped(s, disableConsole)
  {
    if specs != [] {
      var init := specs[..|specs| - 1];
      KeptMembers(init, disableConsole);
      assert specs == init + [specs[|specs| - 1]];
    }
  }

  /** The number of specs naming `Console`. */
  function ConsoleCount(specs: seq<TransportSpec>): nat
    decreases |specs|
  {
    if specs == [] then 0
    else ConsoleCount(specs[..|specs| - 1]) + (if specs[|specs| - 1].transport == Transports.Console then 1 else 0)
  }

  /** With console output disabled, exactly the `Console` specs are dropped. */
  lemma {:induction false} KeptCount(specs: seq<TransportSpec>)
    ensures |Kept(specs, true)| == |specs| - ConsoleCount(specs)
  {
    if specs != [] {
      KeptCount(specs[..|specs| - 1]);
    }
  }

  lemma {:induction false} KeptNoneWhenAllSkipped(specs: seq<TransportSpec>)
    requires forall i :: 0 <= i < |specs| ==> specs[i].transport == Transports.Console
    ensures Kept(specs, true) == []
  {
    if specs != [] {
      KeptNoneWhenAllSkipped(specs[..|specs| - 1]);
    }
  }

  /** A configuration whose every spec is a console one, with console output
      disabled, still yields a logger: one with no transports at the
      configured level. */
  lemma AllSkippedStillBuilds(given: LoggerConfig, config: LoggerOptions, root: string)
    requires config.disableConsole
    requires given.transports.Some?
    requires forall i :: 0 <= i < |given.transports.value| ==> given.transports.value[i].transport == Transports.Console
    ensures BuiltLogger(Some(given), config, root) ==
      Success(Logger([], Effective(Some(given)).level.value, NoContext))
  {
    var specs := given.transports.value;
    KeptNoneWhenAllSkipped(specs);
    SinksOfSucceeds(specs, true, root);
    SinksFollowKept(specs, true, root);
  }

  /** An unconfigured name yields the defaults-only logger: one console
      transport with the default format, at `debug`.  Its spec names
      `Default`, not `Console`, so `disableConsole` does not remove it. */
  lemma DefaultsOnlyLogger(config: LoggerOptions, root: string)
    ensures BuiltLogger(None, config, root) ==
      Success(Logger([Sink(ConsoleSink, map[], Pipeline([Formats.Default], None))], Levels.DEBUG, NoContext))
  {
    var specs := [Defaults.DefaultSpec];
    assert specs[..0] == [];
    assert OptionsOf(Defaults.DefaultSpec) - {"format"} == map[];
    var sink := Sink(ConsoleSink, map[], Pipeline([Formats.Default], None));
    assert BuildSink(Defaults.DefaultSpec, root) == Success(sink);
    assert Effective(None).transports.value == specs;
    assert SinksOf(specs[..0], config.disableConsole, root) == Success([]);
    assert !Skipped(specs[0], config.disableConsole);
    assert [] + [sink] == [sink];
    assert SinksOf(specs, config.disableConsole, root) == Success([sink]);
  }

  /** The single-member `format` and the one-element array build the same transport. */
  lemma NormalizeOne(spec: TransportSpec, f: Formats.Format, root: string)
    requires spec.format == One(f)
    ensures BuildSink(spec, root) == BuildSink(spec.(format := Many([f])), root)
  {
  }

  // ---------------------------------------------------------------- logger(name)

  /** The outcome of `logger(name)`: the logger returned, the store's state
      afterwards, and whether `makeLogger` ran. */
  datatype Resolution = Resolution(logger: Logger, entries: map<string, Logger>, order: seq<string>, built: bool)

  /** `name ?? config.default`. */
  function ResolveName(config: LoggerOptions, name: Option<string>): (key: string)
    ensures name.Some? ==> key == name.value
    ensures name.None? ==> key == config.defaultLogger
  {
    name.GetOr(config.defaultLogger)
  }

  /** What `logger(name)` does to a store holding `entries` in `order`. */
  function Resolve(entries: map<string, Logger>, order: seq<string>, config: LoggerOptions, root: string, name: Option<string>): (r: Result<Resolution, Error>)
    ensures r.Failure? ==> ResolveName(config, name) !in entries
    ensures r.Success? ==> r.value.built == (ResolveName(config, name) !in entries)
    ensures r.Success? ==> r.value.entries.Keys == entries.Keys + {ResolveName(config, name)}
    ensures r.Success? ==> r.value.entries[ResolveName(config, name)] == r.value.logger
    ensures r.Success? ==> forall k :: k in entries ==> r.value.entries[k] == entries[k]
  {
    var key := ResolveName(config, name);
    if key in entries then Success(Resolution(entries[key], entries, order, false))
    else
      match BuiltLogger(Lookup(config.loggers, key), config, root)
      case Failure(e) => Failure(e)
      case Success(l) => Success(Resolution(l, entries[key := l], order + [key], true))
  }

  /** A successful resolution leaves the name cached: resolving it again
      returns the same logger, builds nothing and changes nothing. */
  lemma ResolveCaches(entries: map<string, Logger>, order: seq<string>, config: LoggerOptions, root: string, name: Option<string>)
    requires Resolve(entries, order, config, root, name).Success?
    ensures var res := Resolve(entries, order, config, root, name).value;
      Resolve(res.entries, res.order, config, root, name) == Success(res.(built := false))
  {
  }

  /** A cached name is served from the store whatever the configuration says now. */
  lemma ResolveHit(entries: map<string, Logger>, order: seq<string>, config: LoggerOptions, root: string, name: Option<string>)
    requires ResolveName(config, name) in entries
    ensures Resolve(entries, order, config, root, name) ==
      Success(Resolution(entries[ResolveName(config, name)], entries, order, false))
  {
  }

  /** A miss builds from `config.loggers[name]` (the defaults alone when the
      name is not configured) and stores the result under the name, last. */
  lemma ResolveMiss(entries: map<string, Logger>, order: seq<string>, config: LoggerOptions, root: string, name: Option<string>)
    requires ResolveName(config, name) !in entries
    requires BuiltLogger(Lookup(config.loggers, ResolveName(config, name)), config, root).Success?
    ensures var key := ResolveName(config, name);
      var l := BuiltLogger(Lookup(config.loggers, key), config, root).value;
      Resolve(entries, order, config, root, name) == Success(Resolution(l, entries[key := l], order + [key], true)) &&
      (key !in config.loggers ==> l == BuiltLogger(None, config, root).value)
  {
  }

  /** `logger(name)`: the stored logger on a hit; otherwise makes one, and
      stores it under the name. */
  method NamedLogger(store: Store.LoggerStore, config: LoggerOptions, root: string, name: Option<string>)
    returns (r: Result<Logger, Error>, ghost built: bool)
    requires store.Valid()
    modifies store
    ensures store.Valid()
    ensures built <==> ResolveName(config, name) !in old(store.entries)
    ensures match Resolve(old(store.entries), old(store.order), config, root, name)
      case Success(res) => r == Success(res.logger) && built == res.built && store.entries == res.entries && store.order == res.order
      case Failure(e) => r == Failure(e) && store.entries == old(store.entries) && store.order == old(store.order)
  {
    built := false;
    var key := name.GetOr(config.defaultLogger);
    var cached := store.Exists(key);
    if cached {
      var hit := store.Get(key);
      return Success(hit.value), built;
    }
    var options := Lookup(config.loggers, key);
    built := true;
    var made := MakeLogger(options, config, root);
    if made.Failure? {
      return Failure(made.error), built;
    }
    var _ := store.Create(key, made.value);
    r := Success(made.value);
  }

  // ---------------------------------------------------------------- context derivations

  /** `withContext(context)`: a child of the base logger, sharing its
      transports and level, whose entries carry `context`. */
  function WithContext(base: Logger, context: Record): (child: Logger)
    ensures child.sinks == base.sinks && child.level == base.level
    ensures child.context == Ctx(context)
  {
    base.(context := Ctx(context))
  }

  /** `withoutContext()`: a child of the base logger whose context is set to `undefined`. */
  function WithoutContext(base: Logger): (child: Logger)
    ensures child.sinks == base.sinks && child.level == base.level
    ensures child.context == Cleared
  {
    base.(context := Cleared)
  }

  /** Both derivations act on the base logger: a later one replaces an
      earlier one, and a cleared context differs from one never set. */
  lemma ContextDerivations(base: Logger, a: Record, b: Record)
    ensures WithContext(WithContext(base, a), b) == WithContext(base, b)
    ensures WithoutContext(WithContext(base, a)) == WithoutContext(base)
    ensures base.context == NoContext ==> WithoutContext(base) != base
  {
  }
}
