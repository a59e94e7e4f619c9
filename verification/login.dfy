/** `src/pages/Login.jsx`: the hard-coded credential check of `handleLogin`. */
module Login {
  import opened Browser

  const AdminUser := "admin"
  const AdminPassword := "ironman"

  /** Submitting the form: the right pair stores `"auth" = "true"` and moves to
      `/dashboard`; anything else only shows an alert, so the browser state is
      untouched. */
  function HandleLogin(b: Browser, username: string, password: string): (r: Browser)
    ensures username == AdminUser && password == AdminPassword ==>
      r.storage == b.storage[AuthKey := "true"] && r.path == "/dashboard"
    ensures !(username == AdminUser && password == AdminPassword) ==> r == b
    ensures AuthKey in b.storage ==> AuthKey in r.storage
  {
    if username == AdminUser && password == AdminPassword then
      Browser(b.storage[AuthKey := "true"], "/dashboard")
    else
      b
  }

  /** Exactly one credential pair writes `"auth" = "true"`, and a login never
      touches any other key. */
  lemma LoginWritesAuthIff(b: Browser, username: string, password: string)
    requires AuthKey !in b.storage
    ensures AuthKey in HandleLogin(b, username, password).storage <==>
      username == AdminUser && password == AdminPassword
    ensures AuthKey in HandleLogin(b, username, password).storage ==>
      HandleLogin(b, username, password).storage[AuthKey] == "true"
    ensures forall k :: k != AuthKey ==>
      (k in HandleLogin(b, username, password).storage <==> k in b.storage)
  {
  }
}
