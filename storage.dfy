/**
 * The browser's `localStorage`: one string-to-string store shared by the
 * session manager and the request/response hooks. The client only ever uses
 * the keys `token` (the bearer credential) and `userInfo` (the cached identity).
 */
module Storage {
  import opened Wrappers

  type Store = map<string, string>

  const TokenKey := "token"
  const UserInfoKey := "userInfo"

  /** `getItem(key)`: null (here `None`) when the key is absent. */
  function Get(store: Store, key: string): (r: Option<string>)
    ensures r.Some? <==> key in store
    ensures r.Some? ==> r.value == store[key]
  {
    if key in store then Some(store[key]) else None
  }

  /** `if (v)` on a stored value: present and not the empty string. */
  predicate Truthy(v: Option<string>) {
    v.Some? && v.value != ""
  }

  class LocalStorage {
    var items: Store

    constructor (initial: Store)
      ensures items == initial
    {
      items := initial;
    }

    method GetItem(key: string) returns (v: Option<string>)
      ensures v == Get(items, key)
    {
      v := if key in items then Some(items[key]) else None;
    }

    method SetItem(key: string, value: string)
      modifies this
      ensures items == old(items)[key := value]
    {
      items := items[key := value];
    }

    /** Removing an absent key is a no-op, not an error. */
    method RemoveItem(key: string)
      modifies this
      ensures items == old(items) - {key}
    {
      items := items - {key};
    }
  }
}
