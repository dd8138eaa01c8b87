/** `defaultLoggerOptions`: the configuration every logger is merged onto. */
module Defaults {
  import opened Wrappers
  import Formats
  import Transports
  import Levels
  import opened Interfaces

  /** The one transport spec of the defaults: default transport, default
      format, no labels, no options. */
  const DefaultSpec: TransportSpec :=
    TransportSpec(Transports.Default, One(Formats.Default), None, None)

  /** A fresh object literal on every call in the source; as a Dafny
      function every call yields the same value. */
  function DefaultLoggerOptions(): (c: LoggerConfig)
    ensures c.level == Some(Levels.DEBUG)
    ensures c.transports.Some? && |c.transports.value| == 1
    ensures c.transports.value[0].transport == Transports.Default
    ensures c.transports.value[0].format == One(Formats.Default)
    ensures c.transports.value[0].labels.None? && c.transports.value[0].options.None?
  {
    LoggerConfig(Some(Levels.DEBUG), Some([DefaultSpec]))
  }
}
