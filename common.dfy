/**
 * Values shared by every screen of the client: an optional value, the
 * device's key-value storage (AsyncStorage) and the JavaScript truthiness
 * of the `string | null` it hands back.
 */
module Common {

  datatype Option<+T> = None | Some(value: T)

  /** AsyncStorage: string keys to string values. */
  type Storage = map<string, string>

  /** `AsyncStorage.getItem(key)`: the stored string, or null. */
  function GetItem(store: Storage, key: string): Option<string>
  {
    if key in store then Some(store[key]) else None
  }

  /** `if (x)` for a `string | null`: null and the empty string are falsy. */
  predicate Given(x: Option<string>)
  {
    x.Some? && x.value != ""
  }

  /** `a || b` for two `string | undefined` values. */
  function OrString(a: Option<string>, b: Option<string>): Option<string>
  {
    if Given(a) then a else b
  }

  /** `AsyncStorage.removeItem` for several keys. */
  function RemoveKeys(store: Storage, keys: set<string>): (r: Storage)
    ensures r.Keys == store.Keys - keys
    ensures forall k :: k in r ==> r[k] == store[k]
  {
    map k | k in store && k !in keys :: store[k]
  }
}
