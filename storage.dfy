/**
 * AsyncStorage, the app's persistent key-value store. Keys listed in `failing` make
 * `getItem` and `setItem` reject; every operation is appended to `log` so that the order
 * of reads and writes can be stated.
 */
module Storage {
  import opened Wrappers
  import opened Http

  const AccessTokenKey := "accessToken"
  const RefreshTokenKey := "refreshToken"
  const TokenTypeKey := "tokenType"
  const ExpiresInKey := "expiresIn"
  const UserKey := "user"

  /** The keys that logout and a failed refresh remove with one `multiRemove`. */
  const SessionKeys: seq<string> := [AccessTokenKey, RefreshTokenKey, UserKey]

  datatype StoreOp = GetOp(key: string) | SetOp(key: string, value: string) | RemoveOp(keys: seq<string>)

  /** `getItem` on a map: the stored string, or null. */
  function Lookup(entries: map<string, string>, key: string): (r: Option<string>)
    ensures r.Some? <==> key in entries
    ensures r.Some? ==> r.value == entries[key]
  {
    if key in entries then Some(entries[key]) else None
  }

  /** How `getItem(key)` settles. */
  function ReadResult(entries: map<string, string>, failing: set<string>, key: string): Result<Option<string>, Error> {
    if key in failing then Failure(StorageError(key)) else Success(Lookup(entries, key))
  }

  /** The entries after `multiRemove(keys)`. */
  /** A read after a write of a key gives the written value; every other key reads as before. */
  lemma LookupAfterSet(entries: map<string, string>, key: string, value: string, other: string)
    ensures Lookup(entries[key := value], key) == Some(value)
    ensures other != key ==> Lookup(entries[key := value], other) == Lookup(entries, other)
  {
  }

  /** After `multiRemove(keys)` a removed key reads as null; every other key reads as before. */
  lemma LookupAfterRemove(entries: map<string, string>, keys: seq<string>, key: string)
    ensures key in keys ==> Lookup(Removed(entries, keys), key) == None
    ensures key !in keys ==> Lookup(Removed(entries, keys), key) == Lookup(entries, key)
  {
  }

  function Removed(entries: map<string, string>, keys: seq<string>): (r: map<string, string>)
    ensures r.Keys == entries.Keys - set k | k in keys
    ensures forall k :: k in r ==> r[k] == entries[k]
  {
    entries - set k | k in keys
  }

  class Store {
    var entries: map<string, string>
    var failing: set<string>
    var log: seq<StoreOp>

    constructor (entries: map<string, string>, failing: set<string>)
      ensures this.entries == entries && this.failing == failing && log == []
    {
      this.entries := entries;
      this.failing := failing;
      log := [];
    }

    method GetItem(key: string) returns (r: Result<Option<string>, Error>)
      modifies this
      ensures entries == old(entries) && failing == old(failing)
      ensures log == old(log) + [GetOp(key)]
      ensures r == ReadResult(entries, failing, key)
    {
      log := log + [GetOp(key)];
      r := ReadResult(entries, failing, key);
    }

    /** `setItem(key, value)`; `ok` is false when the write rejects, and then nothing is stored. */
    method SetItem(key: string, value: string) returns (ok: bool)
      modifies this
      ensures failing == old(failing) && log == old(log) + [SetOp(key, value)]
      ensures ok <==> key !in failing
      ensures entries == if ok then old(entries)[key := value] else old(entries)
    {
      log := log + [SetOp(key, value)];
      ok := key !in failing;
      if ok {
        entries := entries[key := value];
      }
    }

    method MultiRemove(keys: seq<string>)
      modifies this
      ensures failing == old(failing) && log == old(log) + [RemoveOp(keys)]
      ensures entries == Removed(old(entries), keys)
    {
      log := log + [RemoveOp(keys)];
      entries := Removed(entries, keys);
    }
  }
}
