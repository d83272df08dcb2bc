/**
 * The credential store of src/lib/auth.ts: one bearer token kept in the
 * browser's localStorage under a fixed key.
 */
module Auth {
  import opened Wrappers
  import opened JsStrings

  /** The one localStorage key the store reads and writes. */
  const StorageKey := "onceonly_api_key"

  /** What `getApiKey` returns for a storage state; on the server
      (`typeof window === "undefined"`) it is always null. */
  function ReadSlot(inBrowser: bool, entries: map<string, string>): (key: Option<string>)
    ensures !inBrowser ==> key == None
    ensures inBrowser ==> (key.Some? <==> StorageKey in entries)
    ensures key.Some? ==> key.value == entries[StorageKey]
  {
    if inBrowser && StorageKey in entries then Some(entries[StorageKey]) else None
  }

  /** localStorage after `setApiKey(key)`: the trimmed key in the one slot. */
  function StoredAfterSet(entries: map<string, string>, key: string): (m: map<string, string>)
    ensures StorageKey in m && m[StorageKey] == Trim(key)
    ensures m - {StorageKey} == entries - {StorageKey}
  {
    entries[StorageKey := Trim(key)]
  }

  /** localStorage after `clearApiKey()`: the slot removed, the rest untouched. */
  function StoredAfterClear(entries: map<string, string>): (m: map<string, string>)
    ensures StorageKey !in m
    ensures m - {StorageKey} == entries - {StorageKey}
  {
    entries - {StorageKey}
  }

  class CredentialStore {
    /** whether the code runs in a browser, where `window` exists */
    const inBrowser: bool
    /** window.localStorage */
    var entries: map<string, string>

    constructor (inBrowser: bool, entries: map<string, string>)
      ensures this.inBrowser == inBrowser && this.entries == entries
    {
      this.inBrowser := inBrowser;
      this.entries := entries;
    }

    /** `getApiKey()` */
    method GetApiKey() returns (key: Option<string>)
      ensures key == ReadSlot(inBrowser, entries)
    {
      if !inBrowser {
        return None;
      }
      if StorageKey in entries {
        key := Some(entries[StorageKey]);
      } else {
        key := None;
      }
    }

    /** `setApiKey(key)`. Without a window the source throws a ReferenceError;
        `ok` is false then and nothing is written. */
    method SetApiKey(key: string) returns (ok: bool)
      modifies this
      ensures ok == inBrowser
      ensures entries == if ok then StoredAfterSet(old(entries), key) else old(entries)
    {
      ok := inBrowser;
      if ok {
        entries := entries[StorageKey := Trim(key)];
      }
    }

    /** `clearApiKey()`; like `SetApiKey`, it fails without a window. */
    method ClearApiKey() returns (ok: bool)
      modifies this
      ensures ok == inBrowser
      ensures entries == if ok then StoredAfterClear(old(entries)) else old(entries)
    {
      ok := inBrowser;
      if ok {
        entries := entries - {StorageKey};
      }
    }
  }

  /** Reading right after setting gives back exactly the trimmed key. */
  lemma SetThenGet(entries: map<string, string>, key: string)
    ensures ReadSlot(true, StoredAfterSet(entries, key)) == Some(Trim(key))
  {
  }

  /** Setting an already trimmed key, or setting the same key twice, stores
      the same as setting it once. */
  lemma SetIdempotent(entries: map<string, string>, key: string)
    ensures StoredAfterSet(StoredAfterSet(entries, key), key) == StoredAfterSet(entries, key)
    ensures StoredAfterSet(entries, Trim(key)) == StoredAfterSet(entries, key)
  {
    TrimIdempotent(key);
  }

  /** After clearing, there is no key, whatever was there. */
  lemma ClearThenGet(inBrowser: bool, entries: map<string, string>)
    ensures ReadSlot(inBrowser, StoredAfterClear(entries)) == None
  {
  }
}
