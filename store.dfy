/** `LoggerStore`: the process-wide cache of loggers by name.  The source
    keeps it in a static JavaScript `Map`; here it is one object holding the
    map and, because a `Map` enumerates in first-insertion order, the
    sequence of its keys in that order. */
module Store {
  import opened Wrappers
  import opened Winston
  import opened Failures

  /** `order` without `key`, the others keeping their relative order. */
  function Without(order: seq<string>, key: string): (r: seq<string>)
    ensures |r| <= |order|
  {
    if order == [] then []
    else if order[0] == key then Without(order[1..], key)
    else [order[0]] + Without(order[1..], key)
  }

  ghost predicate NoDuplicates(s: seq<string>)
  {
    forall i, j :: 0 <= i < j < |s| ==> s[i] != s[j]
  }

  /** Removing a key keeps exactly the other keys and keeps them distinct. */
  lemma {:induction false} WithoutKeeps(order: seq<string>, key: string)
    requires NoDuplicates(order)
    ensures forall x :: x in Without(order, key) <==> x in order && x != key
    ensures NoDuplicates(Without(order, key))
  {
    if order != [] {
      assert NoDuplicates(order[1..]) by {
        forall i, j | 0 <= i < j < |order[1..]| ensures order[1..][i] != order[1..][j] {
          assert order[1..][i] == order[i + 1] && order[1..][j] == order[j + 1];
        }
      }
      WithoutKeeps(order[1..], key);
      assert forall x :: x in order <==> x == order[0] || x in order[1..];
      if order[0] != key {
        var r := [order[0]] + Without(order[1..], key);
        assert order[0] !in order[1..];
        forall i, j | 0 <= i < j < |r| ensures r[i] != r[j] {
          if i == 0 { assert r[j] in Without(order[1..], key); }
          else { assert r[i] == Without(order[1..], key)[i - 1] && r[j] == Without(order[1..], key)[j - 1]; }
        }
      }
    }
  }

  /** Removing a key that is absent changes nothing. */
  lemma {:induction false} WithoutAbsent(order: seq<string>, key: string)
    requires key !in order
    ensures Without(order, key) == order
  {
    if order != [] {
      WithoutAbsent(order[1..], key);
      assert order == [order[0]] + order[1..];
    }
  }

  class LoggerStore {
    /** The stored loggers by key. */
    var entries: map<string, Logger>
    /** The stored keys, each once, in the order they were first inserted. */
    var order: seq<string>

    ghost predicate Valid()
      reads this
    {
      NoDuplicates(order) && forall k :: k in entries <==> k in order
    }

    /** The empty store the module starts with. */
    constructor ()
      ensures Valid() && entries == map[] && order == []
    {
      entries := map[];
      order := [];
    }

    /** `getAll`: every stored logger, in key insertion order. */
    method GetAll() returns (loggers: seq<Logger>)
      requires Valid()
      ensures |loggers| == |order| == |entries|
      ensures forall i :: 0 <= i < |order| ==> loggers[i] == entries[order[i]]
    {
      var e, o := entries, order;
      KeysCount(e, o);
      loggers := seq(|o|, i requires 0 <= i < |o| && o[i] in e => e[o[i]]);
    }

    /** `get`: the logger under `key`, or undefined. */
    method Get(key: string) returns (r: Option<Logger>)
      ensures r.Some? <==> key in entries
      ensures r.Some? ==> r.value == entries[key]
    {
      r := if key in entries then Some(entries[key]) else None;
    }

    /** `create`: stores `logger` under `key`, overwriting any previous
        logger there; a new key goes last, an existing key keeps its place. */
    method Create(key: string, logger: Logger) returns (ok: bool)
      requires Valid()
      modifies this
      ensures Valid() && ok
      ensures entries == old(entries)[key := logger]
      ensures order == if key in old(entries) then old(order) else old(order) + [key]
    {
      if key !in entries {
        order := order + [key];
      }
      entries := entries[key := logger];
      ok := true;
    }

    /** `update`: replaces the logger under an existing `key`; throws, and
        changes nothing, when the key is absent. */
    method Update(key: string, logger: Logger) returns (r: Result<bool, Error>)
      requires Valid()
      modifies this
      ensures Valid()
      ensures key !in old(entries) ==> r == Failure(LoggerMissing(key))
      ensures key !in old(entries) ==> Message(r.error) == Some("Logger with key \"" + key + "\" does not exist.")
      ensures key !in old(entries) ==> entries == old(entries) && order == old(order)
      ensures key in old(entries) ==> r == Success(true)
      ensures key in old(entries) ==> entries == old(entries)[key := logger] && order == old(order)
    {
      if key !in entries {
        return Failure(LoggerMissing(key));
      }
      entries := entries[key := logger];
      r := Success(true);
    }

    /** `delete`: removes `key`; true exactly when it was present. */
    method Delete(key: string) returns (removed: bool)
      requires Valid()
      modifies this
      ensures Valid()
      ensures removed == (key in old(entries))
      ensures entries == old(entries) - {key}
      ensures order == Without(old(order), key)
    {
      WithoutKeeps(order, key);
      removed := key in entries;
      entries := entries - {key};
      order := Without(order, key);
    }

    /** `exists`: whether `key` is stored. */
    method Exists(key: string) returns (present: bool)
      ensures present <==> key in entries
    {
      present := key in entries;
    }

    /** `getAllKeys`: every stored key, once each, in insertion order. */
    method GetAllKeys() returns (keys: seq<string>)
      requires Valid()
      ensures keys == order && |keys| == |entries|
      ensures forall k :: k in keys <==> k in entries
      ensures forall i, j :: 0 <= i < j < |keys| ==> keys[i] != keys[j]
    {
      KeysCount(entries, order);
      keys := order;
    }

    /** `clear`: empties the store. */
    method Clear()
      modifies this
      ensures Valid() && entries == map[] && order == []
    {
      entries := map[];
      order := [];
    }
  }

  /** A duplicate-free key sequence listing exactly a map's keys is as long as the map. */
  lemma {:induction false} KeysCount(entries: map<string, Logger>, order: seq<string>)
    requires NoDuplicates(order)
    requires forall k :: k in entries <==> k in order
    ensures |order| == |entries|
  {
    if order != [] {
      var k := order[0];
      var rest := entries - {k};
      assert forall x :: x in rest <==> x in order[1..] by {
        forall x ensures x in rest <==> x in order[1..] {
          assert x in order <==> x == k || x in order[1..];
        }
      }
      KeysCount(rest, order[1..]);
    }
  }
}
