/** The slice of the browser the dashboard touches: `localStorage` as a map from
    keys to strings, and the current location's pathname. */
module Browser {

  type Storage = map<string, string>

  datatype Browser = Browser(storage: Storage, path: string)

  /** The key the login page sets and the route guard reads. */
  const AuthKey := "auth"

  /** The key holding the bearer token for API requests. */
  const TokenKey := "token"

  const LoginPath := "/login"

  /** What every page does on an HTTP 403: drop the token and go to `/login`.
      The `"auth"` entry is left alone. */
  function ExpireSession(b: Browser): (r: Browser)
    ensures TokenKey !in r.storage
    ensures r.path == LoginPath
    ensures forall k :: k in b.storage && k != TokenKey ==> k in r.storage && r.storage[k] == b.storage[k]
    ensures forall k :: k in r.storage ==> k in b.storage
  {
    Browser(b.storage - {TokenKey}, LoginPath)
  }

  /** Several 403s in a row have the effect of one. */
  lemma ExpireSessionIdempotent(b: Browser)
    ensures ExpireSession(ExpireSession(b)) == ExpireSession(b)
  {
  }
}
