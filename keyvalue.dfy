/**
 * The key-value example service: a handler that keeps an in-memory map from
 * keys to values, read by `GetValue` and written by `SetValue`. The request
 * and response metadata of the RPC layer, and the read-write lock that guards
 * the map, have no sequential meaning and are not modelled.
 */
module KeyValue {
  import opened Wrappers

  /** The thrift exception `ResourceDoesNotExist{Key}`. */
  datatype Error = ResourceDoesNotExist(key: string)

  /** The value and the error that `GetValue` returns. */
  datatype Reply = Reply(value: string, err: Option<Error>)

  /** What a lookup of `key` in `items` replies. */
  function Lookup(items: map<string, string>, key: string): Reply
  {
    if key in items then Reply(items[key], None)
    else Reply("", Some(ResourceDoesNotExist(key)))
  }

  /** The map after a sequence of `SetValue(key, value)` calls, in order. */
  function Apply(items: map<string, string>, writes: seq<(string, string)>): map<string, string>
    decreases |writes|
  {
    if writes == [] then items else Apply(items[writes[0].0 := writes[0].1], writes[1..])
  }

  /** The value written last to `key` by a sequence of writes, if any. */
  function LastWrite(writes: seq<(string, string)>, key: string): Option<string>
    decreases |writes|
  {
    if writes == [] then None
    else if LastWrite(writes[1..], key).Some? then LastWrite(writes[1..], key)
    else if writes[0].0 == key then Some(writes[0].1)
    else None
  }

  /** A lookup right after `SetValue(key, value)` finds `value`, whether or not `key` was there. */
  lemma GetAfterSet(items: map<string, string>, key: string, value: string)
    ensures Lookup(items[key := value], key) == Reply(value, None)
  {
  }

  /** `SetValue(key, value)` leaves the lookup of every other key as it was. */
  lemma SetLeavesOthers(items: map<string, string>, key: string, value: string, other: string)
    requires other != key
    ensures Lookup(items[key := value], other) == Lookup(items, other)
  {
  }

  /**
   * After any sequence of writes, a lookup finds the value written last to
   * the key, and where no write touched the key, what it found before.
   */
  lemma {:induction false} LastWriteWins(items: map<string, string>, writes: seq<(string, string)>, key: string)
    ensures Lookup(Apply(items, writes), key) ==
      match LastWrite(writes, key)
      case Some(v) => Reply(v, None)
      case None => Lookup(items, key)
    decreases |writes|
  {
    if writes != [] {
      LastWriteWins(items[writes[0].0 := writes[0].1], writes[1..], key);
    }
  }

  class YarpcHandler {
    var items: map<string, string>

    /** `NewYarpcThriftHandler`: a handler with no items. */
    constructor ()
      ensures items == map[]
    {
      items := map[];
    }

    /** `GetValue`: the stored value, or ResourceDoesNotExist naming the key. */
    method GetValue(key: string) returns (value: string, err: Option<Error>)
      ensures key in items ==> value == items[key] && err == None
      ensures key !in items ==> value == "" && err == Some(ResourceDoesNotExist(key))
      ensures Reply(value, err) == Lookup(items, key)
    {
      if key in items {
        return items[key], None;
      }
      return "", Some(ResourceDoesNotExist(key));
    }

    /** `SetValue`: inserts or overwrites one key and never fails. */
    method SetValue(key: string, value: string) returns (err: Option<Error>)
      modifies this
      ensures err == None
      ensures items == old(items)[key := value]
      ensures items == Apply(old(items), [(key, value)])
      ensures key in items && items[key] == value
      ensures forall k :: k != key ==> (k in items <==> k in old(items))
      ensures forall k :: k != key && k in items ==> items[k] == old(items)[k]
    {
      ghost var before := items;
      items := items[key := value];
      err := None;
      assert Apply(before, [(key, value)]) == Apply(items, []);
    }
  }
}
