/**
 * Unity's PlayerPrefs: a persisted key-value store holding 32-bit integers and
 * strings. `Save()` only flushes to disk and has no observable effect here.
 */
module Prefs {
  import opened CSharpInt

  datatype PrefValue = IntPref(i: Int32) | StringPref(s: string)

  type Store = map<string, PrefValue>

  /** `PlayerPrefs.GetInt(key, default)`: the stored integer, or `default` when there is none. */
  function GetInt(store: Store, key: string, default: Int32): (v: Int32)
    ensures key in store && store[key].IntPref? ==> v == store[key].i
    ensures !(key in store && store[key].IntPref?) ==> v == default
  {
    if key in store && store[key].IntPref? then store[key].i else default
  }

  /** `PlayerPrefs.GetString(key, default)`. */
  function GetString(store: Store, key: string, default: string): (v: string)
    ensures key in store && store[key].StringPref? ==> v == store[key].s
    ensures !(key in store && store[key].StringPref?) ==> v == default
  {
    if key in store && store[key].StringPref? then store[key].s else default
  }

  function SetInt(store: Store, key: string, value: Int32): Store
  {
    store[key := IntPref(value)]
  }

  function SetString(store: Store, key: string, value: string): Store
  {
    store[key := StringPref(value)]
  }

  function DeleteKey(store: Store, key: string): Store
  {
    store - {key}
  }

  /** The one store every component of the game reads and writes. */
  class PlayerPrefs {
    var entries: Store

    constructor (initial: Store)
      ensures entries == initial
    {
      entries := initial;
    }

    method SetIntPref(key: string, value: Int32)
      modifies this
      ensures entries == SetInt(old(entries), key, value)
    {
      entries := SetInt(entries, key, value);
    }

    method SetStringPref(key: string, value: string)
      modifies this
      ensures entries == SetString(old(entries), key, value)
    {
      entries := SetString(entries, key, value);
    }

    method DeleteKeyPref(key: string)
      modifies this
      ensures entries == DeleteKey(old(entries), key)
    {
      entries := DeleteKey(entries, key);
    }
  }
}
