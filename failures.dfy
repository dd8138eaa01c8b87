/** The errors the engine's operations can throw. */
module Failures {
  import opened Wrappers
  import Winston

  datatype Error =
    /** `LoggerStore.update` on a key the store does not hold. */
    | LoggerMissing(key: string)
    /** `path.join` was handed a non-string `filename` option (`undefined` when the option is absent). */
    | PathNotString(received: Option<Winston.Value>)

  const MissingPrefix: string := "Logger with key \""
  const MissingSuffix: string := "\" does not exist."

  /** The message of the `Error` that `LoggerStore.update` throws: the key,
      quoted, between a fixed prefix and suffix. */
  function MissingMessage(key: string): (m: string)
    ensures |m| == |MissingPrefix| + |key| + |MissingSuffix|
    ensures m[..|MissingPrefix|] == MissingPrefix
    ensures m[|MissingPrefix|..|MissingPrefix| + |key|] == key
    ensures m[|MissingPrefix| + |key|..] == MissingSuffix
  {
    MissingPrefix + key + MissingSuffix
  }

  /** The message an error carries, where the model knows it: the store's
      own message for a missing key; Node's text for a bad path argument
      is not modelled. */
  function Message(e: Error): (m: Option<string>)
    ensures e.LoggerMissing? ==> m == Some(MissingMessage(e.key))
    ensures e.PathNotString? ==> m.None?
  {
    match e
    case LoggerMissing(key) => Some(MissingMessage(key))
    case PathNotString(_) => None
  }

  /** Distinct keys give distinct messages, so the message names the key. */
  lemma MissingMessageNamesKey(k1: string, k2: string)
    requires MissingMessage(k1) == MissingMessage(k2)
    ensures k1 == k2
  {
    var n := |MissingPrefix|;
    assert |k1| == |k2|;
    assert k1 == MissingMessage(k1)[n..n + |k1|];
  }
}
