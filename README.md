# Logger engine of the Intent framework, in Dafny

This project models the logging subsystem of the Intent framework's core
package (`packages/core/lib/logger`): the engine that turns a declarative
logger configuration into a Winston logger, and the process-wide cache of
loggers by name.

- **Registries** (module `Constants`). `FormatsMap` selects a format factory
  for each of the eighteen `Formats` members (0..17). `TransportsMap`
  selects a transport class for each of the five `Transports` members (0..4).
  Both are Dafny functions over datatypes, so they are total by construction.
- **Defaults** (module `Defaults`). `defaultLoggerOptions` is level `debug`
  with one spec: default transport, default format.
- **Pipeline builder** (`Service.BuildFormatter`). It returns the stages
  that `format.combine` receives: `errors({stack: true})`, then
  `timestamp({format: 'YYYY-MM-DD HH:mm:ss'})`, then one stage per user
  format in order, then `label(labels)` when labels are given.
- **Logger factory** (`Service.MakeLogger`). It shallow-merges the
  defaults under the given config. It skips specs naming `Console` when
  `disableConsole` is set. It normalises `format` to an array. The sink
  options are the spec options without `format`, plus the pipeline. For
  `File` it rewrites `filename` to `<root>/storage/logs/<filename>`. It
  builds one transport per spec that is not skipped, in spec order.
- **Logger store** (class `Store.LoggerStore`). It holds a map from
  names to loggers, plus the names in first-insertion order, because a
  JavaScript `Map` enumerates in that order.
- **Named resolution** (`Service.NamedLogger`, `Entry.Log`, `Entry.LogPayload`).
  A missing name defaults to `config.default`. A cached logger is returned
  as is. Otherwise a logger is built and cached. `withContext` produces a
  child with `context` set, and `withoutContext` a child with `context`
  set to `undefined`.

Winston itself is opaque. A format stage is the call that produced it
(`Winston.Stage`). A transport is its class, its options record and its
pipeline (`Winston.Sink`). A logger is its transports, its level and its
context tag (`Winston.Logger`). A logger is a value, so "the identical
instance" means the stored value. The pure function `Service.Resolve`
describes what `logger(name)` does: which logger it returns, the store's
new state, and whether `makeLogger` ran. `Service.NamedLogger` is proved
to do exactly that.

The application configuration (`ConfigService.get('logger')`) and the
project root (`findProjectRoot()`) are parameters of the operations. The
static store is an explicit `LoggerStore` object passed to them.

Where the intended behaviour and the code disagree, the model follows the
code:
- An unconfigured name does not fail. `config.loggers[name]` is
  `undefined`, spreading it adds nothing, and the result is the
  defaults-only logger (`Service.DefaultsOnlyLogger`).
- A transport is never skipped with a diagnostic. The code always indexes
  `TransportsMap` with the spec's transport, so only enum transports are
  modelled.
- `disableConsole` removes only specs that name `Console`, although its
  doc comment (`logger-options.interface.ts:20`) says console logs are
  disabled globally. A spec naming `Default` still yields a console
  transport, so the defaults-only logger writes to the console even with
  console output disabled.

## Model

| member | source | states |
|---|---|---|
| Formats.Code | packages/core/lib/logger/enums/formats.enum.ts:6-97 | a member's numeric value is its position in declaration order, below 18 |
| Formats.FromCode | packages/core/lib/logger/enums/formats.enum.ts:6-97 | a number denotes a member exactly when it is in 0..17, and it denotes the member with that value |
| Formats.CodeRoundTrip | packages/core/lib/logger/enums/formats.enum.ts:6-97 | reading a member's value back gives the member |
| Transports.Code | packages/core/lib/logger/enums/transports.enum.ts:6-36 | a member's numeric value is its position in declaration order, below 5 |
| Transports.FromCode | packages/core/lib/logger/enums/transports.enum.ts:6-36 | a number denotes a member exactly when it is in 0..4, and it denotes the member with that value |
| Transports.CodeRoundTrip | packages/core/lib/logger/enums/transports.enum.ts:6-36 | reading a member's value back gives the member |
| Levels.ValuesDistinct | packages/core/lib/logger/enums/levels.enum.ts:6-41 | the six string values are distinct, so each names one level |
| Failures.MissingMessage | packages/core/lib/logger/utils/store.util.ts:66 | the message is `Logger with key "`, then the key, then `" does not exist.` |
| Failures.Message | packages/core/lib/logger/utils/store.util.ts:66 | a missing-key error carries exactly that message; the text of `path.join`'s error is not modelled |
| Failures.MissingMessageNamesKey | packages/core/lib/logger/utils/store.util.ts:66 | distinct keys give distinct messages |
| Interfaces.Lookup | packages/core/lib/logger/services/logger.service.ts:113 | `config.loggers[name]` is defined exactly when the name is configured, and is then its config |
| Constants.DefaultFormatIsCustom | packages/core/lib/logger/constants/formats.constant.ts:15 | `Default` selects the repository's own `defaultFormat`, and no other member does |
| Constants.FormatsMapSameName | packages/core/lib/logger/constants/formats.constant.ts:21-117 | every other member selects the Winston export whose name is the member's name with a lower-case initial |
| Constants.FormatsMapInjective | packages/core/lib/logger/constants/formats.constant.ts:10-118 | distinct members select distinct factories |
| Constants.TransportsMapNotInjective | packages/core/lib/logger/constants/transports.constant.ts:14-20 | `Default` and `Console` are distinct members that both select the console class |
| Constants.TransportsMapNamed | packages/core/lib/logger/constants/transports.constant.ts:9-39 | File, Http and Stream select their namesake class and are the only members that do; console is selected by Default and Console alone |
| Defaults.DefaultLoggerOptions | packages/core/lib/logger/utils/default-logger-options.util.ts:9-19 | level `debug` and exactly one spec `{transport: Default, format: Default}` without labels or options |
| Store.LoggerStore.constructor | packages/core/lib/logger/utils/store.util.ts:14 | the store starts empty |
| Store.LoggerStore.GetAll | packages/core/lib/logger/utils/store.util.ts:21-24 | one logger per stored key, the logger of the i-th key in insertion order at position i |
| Store.LoggerStore.Get | packages/core/lib/logger/utils/store.util.ts:32-35 | defined exactly when the key is stored, and then the stored logger; reads only |
| Store.LoggerStore.Create | packages/core/lib/logger/utils/store.util.ts:45-51 | returns true; the key now maps to the logger and every other entry is unchanged; a new key goes last, an existing key keeps its place |
| Store.LoggerStore.Update | packages/core/lib/logger/utils/store.util.ts:62-73 | on an absent key, fails with `LoggerMissing(key)`, whose message is `Logger with key "<key>" does not exist.`, and changes nothing; on a present key, returns true, replaces only that entry and keeps the key order |
| Store.LoggerStore.Delete | packages/core/lib/logger/utils/store.util.ts:82-85 | true exactly when the key was stored; afterwards it is absent and the other entries and their order remain |
| Store.LoggerStore.Exists | packages/core/lib/logger/utils/store.util.ts:93-96 | true exactly when the key is stored, which is exactly when `Get` is defined; reads only |
| Store.LoggerStore.GetAllKeys | packages/core/lib/logger/utils/store.util.ts:103-106 | exactly the stored keys, each once, in first-insertion order |
| Store.LoggerStore.Clear | packages/core/lib/logger/utils/store.util.ts:112-115 | afterwards there are no entries and no keys |
| Store.WithoutKeeps | packages/core/lib/logger/utils/store.util.ts:82-85 | deleting a key from the key order keeps exactly the other keys, still without duplicates |
| Store.WithoutAbsent | packages/core/lib/logger/utils/store.util.ts:82-85 | deleting an absent key leaves the key order unchanged |
| Store.KeysCount | packages/core/lib/logger/utils/store.util.ts:103-106 | the key list is as long as the store is large |
| Service.BuildFormatter | packages/core/lib/logger/services/logger.service.ts:143-165 | the loop and the combine produce exactly `Pipeline(formats, labels)` |
| Service.PipelineShape | packages/core/lib/logger/services/logger.service.ts:143-165 | length is 2 + number of formats + 1 if labels are given; errors-with-stack first, the timestamp pattern second, the i-th user format's factory at 2+i, the label stage last when labels are given |
| Service.UserStagesAppend | packages/core/lib/logger/services/logger.service.ts:151-154 | the user stages of a concatenation of format lists are the concatenation of their stages, so user order is kept |
| Service.PrefixFixed | packages/core/lib/logger/services/logger.service.ts:160-164 | whatever the formats and labels, the pipeline's first two stages are the fixed prefix |
| Service.Merge | packages/core/lib/logger/services/logger.service.ts:31 | an undefined config gives exactly the defaults; otherwise each key the config carries wins and each absent key takes the default |
| Service.MergeLaws | packages/core/lib/logger/services/logger.service.ts:31 | merging is idempotent, and merging the defaults onto themselves gives the defaults |
| Service.Effective | packages/core/lib/logger/services/logger.service.ts:31 | after merging, a level and a transports list are always present |
| Service.Normalize | packages/core/lib/logger/services/logger.service.ts:50-52 | a single format becomes the one-element array of it; an array is used unchanged |
| Service.Skipped | packages/core/lib/logger/services/logger.service.ts:47 | only a spec naming `Console` with console output disabled is skipped, and a skipped spec always selects the console class |
| Service.BuildSink | packages/core/lib/logger/services/logger.service.ts:49-85 | fails exactly when a File spec's `filename` is absent or not a string; otherwise the class is `TransportsMap` of the transport, the format is the pipeline of the normalised formats and labels, `format` is gone from the options, every other option is unchanged, and for File alone `filename` is `<root>/storage/logs/<filename>` |
| Service.MakeLogger | packages/core/lib/logger/services/logger.service.ts:29-93 | the loop produces exactly `BuiltLogger`: the merged level, no context, and the transports of the specs that are not skipped |
| Service.SinksOfFailureSticks | packages/core/lib/logger/services/logger.service.ts:43-86 | once a spec throws, later specs do not change the outcome |
| Service.SinksFollowKept | packages/core/lib/logger/services/logger.service.ts:43-86 | one transport per spec that is not skipped, in spec order, the i-th built from the i-th such spec |
| Service.SinksOfSucceeds | packages/core/lib/logger/services/logger.service.ts:72-78 | with no File spec lacking a string filename, construction does not throw |
| Service.SinksOfFailsAtFirst | packages/core/lib/logger/services/logger.service.ts:72-78 | otherwise construction throws the error of the first such spec |
| Service.KeptAllWhenEnabled | packages/core/lib/logger/services/logger.service.ts:47 | with console output enabled no spec is skipped |
| Service.KeptMembers | packages/core/lib/logger/services/logger.service.ts:47 | the kept specs are exactly those that are not `Console` specs under `disableConsole`; `Default` specs are kept |
| Service.KeptCount | packages/core/lib/logger/services/logger.service.ts:47 | with console output disabled, exactly as many specs are dropped as name `Console` |
| Service.KeptNoneWhenAllSkipped | packages/core/lib/logger/services/logger.service.ts:43-47 | with console output disabled, an all-`Console` spec list keeps nothing |
| Service.AllSkippedStillBuilds | packages/core/lib/logger/services/logger.service.ts:43-92 | such a config still yields a logger, with no transports, at the merged level |
| Service.DefaultsOnlyLogger | packages/core/lib/logger/services/logger.service.ts:29-92 | an undefined config yields one console transport with the default-format pipeline, at `debug`, whatever `disableConsole` says |
| Service.NormalizeOne | packages/core/lib/logger/services/logger.service.ts:50-52 | a single format builds the same transport as the one-element array of it |
| Service.ResolveName | packages/core/lib/logger/services/logger.service.ts:107 | a given name is used as is; no name means `config.default` |
| Service.Resolve | packages/core/lib/logger/services/logger.service.ts:102-133 | it fails only for a name not stored; on success it has built exactly when the name was not stored, stores the returned logger under the name, adds no other key and keeps every earlier entry |
| Service.ResolveCaches | packages/core/lib/logger/services/logger.service.ts:102-133 | after a successful `logger(name)`, a second call returns the same logger, builds nothing and leaves the store as it is |
| Service.ResolveHit | packages/core/lib/logger/services/logger.service.ts:107-110 | a stored name, or for no name the stored default, is served from the store with no build and no store change |
| Service.ResolveMiss | packages/core/lib/logger/services/logger.service.ts:113-129 | a name not stored is built from `config.loggers[name]` (the defaults alone when unconfigured) and stored last under that name |
| Service.NamedLogger | packages/core/lib/logger/services/logger.service.ts:102-133 | returns, and leaves the store in, exactly what `Resolve` describes; its ghost `built` result says whether `makeLogger` ran, which is exactly when the name was not stored; on a thrown construction error the store is unchanged |
| Service.WithContext | packages/core/lib/logger/services/logger.service.ts:119-121 | the child shares the base's transports and level and carries the given context |
| Service.WithoutContext | packages/core/lib/logger/services/logger.service.ts:124-126 | the child shares the base's transports and level and its context is set to `undefined` |
| Service.ContextDerivations | packages/core/lib/logger/services/logger.service.ts:119-126 | both act on the base: a later derivation replaces an earlier one, and a cleared context differs from none set |
| Entry.DefaultLevelIsDebug | packages/core/lib/logger/logger.ts:25-28 | the default level of `log` is the level whose value is `'debug'` |
| Entry.Log | packages/core/lib/logger/logger.ts:12-15 | exactly `logger(name)`: same result, same store change and same `built` flag; no name means the configured default |
| Entry.LogPayload | packages/core/lib/logger/logger.ts:25-34 | resolves the default logger as `logger()` does and calls it at the given level, `debug` if none, with the payload |

## Left out

- Winston internals are left out because Winston is a foreign library. This covers what each stage does to an entry, severity filtering by level, what `createLogger` and `child` construct beyond their arguments, and delivery to console, file, HTTP or stream.
- `defaultFormat` rendering (`default-format.util.ts`) is left out: it depends on the clock, `JSON.stringify` and colorising. Only its identity as a factory is modelled.
- `ConfigService.get`, `findProjectRoot` and `Num.isInteger` are external calls. The configuration and the root are parameters, and the integer-or-array test is the `FormatField` datatype.
- Service.Join: `path.join` is modelled as plain `/`-concatenation, without its normalisation of `.`, `..` and repeated separators.
- Service.BuildSink: a non-string `filename` makes `path.join` throw. The model returns `PathNotString`; Node's error message is not modelled.
- `Obj.except` is not part of this model. An absent `options` object is read as an empty record, because the default spec has no options and every default logger passes through this code.
- Pre-constructed transport objects and non-enum transport values are left out, since the code indexes the registry with them. Specs without a `format` are left out too, since the code iterates `undefined`. The datatypes rule out all of these.
- Numeric `format` values outside 0..17 are left out. For them `FormatsMap[formatEnum]` is `undefined` and calling it throws a `TypeError`. The `Formats.Format` and `FormatField` datatypes rule these values out.
- `Winston.Value` holds only strings, integers, booleans and `null`. The source accepts any JavaScript value in labels, transport options and context. Nested objects, arrays, fractional numbers and functions are left out, including the stream object a `Stream` transport is given.
- Service.Merge: a key present with the value `undefined` is indistinguishable from an absent key in this model. In JavaScript such a key overrides the default with `undefined`.
- Entry.LogPayload: `log` is asynchronous, and `logger[level]` accepts any string. The model restricts the level to the six `LogLevel` members and records the call as an `Emission` instead of performing it.
- Concurrent resolution of the same unseen name is left out. The model is sequential.
- Logger identity is value equality. Two builds from the same configuration give equal values, so object identity beyond the stored value is not modelled. Caching is shown by what `Resolve` returns and stores, and by its `built` flag.
- The Nest `@Injectable` decoration, the mailer and cache services, the build configuration and the sample application are outside the logger engine and are left out.
