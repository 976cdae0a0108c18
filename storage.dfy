/** The browser's `localStorage`, as a map from keys to stored strings. */
module Storage {
  import opened Wrappers

  type Store = map<string, string>

  /** `localStorage.getItem(key)`: the stored string, or null. */
  function GetItem(store: Store, key: string): (v: Option<string>)
    ensures v.Some? <==> key in store
    ensures v.Some? ==> v.value == store[key]
  {
    if key in store then Some(store[key]) else None
  }

  /** `localStorage.getItem(key)` is truthy: present and not the empty string. */
  predicate HasItem(store: Store, key: string) {
    key in store && store[key] != ""
  }
}
