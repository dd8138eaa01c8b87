/** The entry helpers `Log(name?)` and `log(payload, level?)`. */
module Entry {
  import opened Wrappers
  import Levels
  import opened Winston
  import opened Failures
  import opened Interfaces
  import Store
  import Service

  /** The level `log` uses when none is given. */
  const DefaultLevel: Levels.LogLevel := Levels.DEBUG

  lemma DefaultLevelIsDebug()
    ensures Levels.Value(DefaultLevel) == "debug"
  {
  }

  /** `Log(name?)`: exactly `LoggerService.logger(name)`, so it returns the
      cached instance on every call after the first for the same name, and
      the configuration's default logger when no name is given. */
  method Log(store: Store.LoggerStore, config: LoggerOptions, root: string, name: Option<string>)
    returns (r: Result<Logger, Error>, ghost built: bool)
    requires store.Valid()
    modifies store
    ensures store.Valid()
    ensures name.None? ==> Service.ResolveName(config, name) == config.defaultLogger
    ensures built <==> Service.ResolveName(config, name) !in old(store.entries)
    ensures match Service.Resolve(old(store.entries), old(store.order), config, root, name)
      case Success(res) => r == Success(res.logger) && built == res.built && store.entries == res.entries && store.order == res.order
      case Failure(e) => r == Failure(e) && store.entries == old(store.entries) && store.order == old(store.order)
  {
    r, built := Service.NamedLogger(store, config, root, name);
  }

  /** `log(payload, level = 'debug')`: resolves the default logger and calls
      its method for `level` with `payload`. */
  method LogPayload(store: Store.LoggerStore, config: LoggerOptions, root: string, payload: Value, level: Option<Levels.LogLevel>)
    returns (r: Result<Emission, Error>)
    requires store.Valid()
    modifies store
    ensures store.Valid()
    ensures match Service.Resolve(old(store.entries), old(store.order), config, root, None)
      case Success(res) =>
        r == Success(Emission(res.logger, level.GetOr(DefaultLevel), payload)) &&
        store.entries == res.entries && store.order == res.order
      case Failure(e) => r == Failure(e) && store.entries == old(store.entries) && store.order == old(store.order)
  {
    var logger, _ := Log(store, config, root, None);
    if logger.Failure? {
      return Failure(logger.error);
    }
    r := Success(Emission(logger.value, level.GetOr(DefaultLevel), payload));
  }
}
