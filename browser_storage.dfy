/** The two Web Storage areas the application reads and writes: the durable
    `localStorage` and the tab-scoped `sessionStorage`, each a map from keys
    to string values. */
module BrowserStorage {
  import opened JsRuntime

  type Store = map<string, string>

  datatype Storage = Storage(local: Store, session: Store)

  /** The key under which both stores keep the bearer token. */
  const TokenKey := "authToken"

  /** `getItem(key)`: the stored value, or null when the key is absent. */
  function GetItem(store: Store, key: string): (v: Option<string>)
    ensures v.Some? <==> key in store
    ensures v.Some? ==> v.value == store[key]
  {
    if key in store then Some(store[key]) else None
  }

  /** The lookup the pages and the create-poll modal write inline:
      `localStorage.getItem('authToken') || sessionStorage.getItem('authToken')`.
      The durable store is asked first. */
  function LocalFirstToken(st: Storage): (token: Option<string>)
    ensures Truthy(GetItem(st.local, TokenKey)) ==> token == GetItem(st.local, TokenKey)
    ensures !Truthy(GetItem(st.local, TokenKey)) ==> token == GetItem(st.session, TokenKey)
    ensures Truthy(token) <==> Truthy(GetItem(st.local, TokenKey)) || Truthy(GetItem(st.session, TokenKey))
  {
    Or(GetItem(st.local, TokenKey), GetItem(st.session, TokenKey))
  }
}
