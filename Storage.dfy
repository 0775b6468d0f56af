/** The two backend tags and the browser's `localStorage`, which the session,
    the HTTP interceptors and the socket handshake all share. */
module Storage {
  import opened Js

  /** The backend tags the application compares against. A backend read
      back from storage may be any other string. */
  const AutoTask: string := "AUTOTASK"
  const ClTech: string := "CL_TECH"

  /** The tag of a channel or navigation item shown on either backend. */
  const Both: string := "BOTH"

  /** The two keys the application stores. */
  const AuthTokenKey: string := "auth_token"
  const BackendKey: string := "current_backend"

  /** `localStorage.getItem(key)` on a snapshot of the store: `null` (None)
      when the key is absent. */
  function Lookup(items: map<string, string>, key: string): Option<string> {
    if key in items then Some(items[key]) else None
  }

  /** The store after removing both session keys, as `logout` and the
      401 handler do. */
  function WithoutSession(items: map<string, string>): (r: map<string, string>)
    ensures AuthTokenKey !in r && BackendKey !in r
    ensures forall k :: k != AuthTokenKey && k != BackendKey ==> Lookup(r, k) == Lookup(items, k)
  {
    items - {AuthTokenKey, BackendKey}
  }

  /** Removing the session keys twice is the same as once. */
  lemma WithoutSessionIdempotent(items: map<string, string>)
    ensures WithoutSession(WithoutSession(items)) == WithoutSession(items)
  {
  }

  /** `window.localStorage`: one string-to-string store per page. */
  class LocalStorage {
    var items: map<string, string>

    constructor (initial: map<string, string>)
      ensures items == initial
    {
      items := initial;
    }

    function GetItem(key: string): (r: Option<string>)
      reads this
      ensures r.Some? <==> key in items
      ensures r.Some? ==> r.value == items[key]
    {
      Lookup(items, key)
    }

    method SetItem(key: string, value: string)
      modifies this
      ensures items == old(items)[key := value]
    {
      items := items[key := value];
    }

    method RemoveItem(key: string)
      modifies this
      ensures items == old(items) - {key}
    {
      items := items - {key};
    }
  }
}
