/** `src/App.jsx`: the route table and the `ProtectedRoute` guard. Router
    matching is modelled as exact comparison of pathnames. */
module App {
  import opened Wrappers
  import opened Browser
  import Login
  import Layout

  datatype Page = Dashboard | Delivery | Calendar | Partners | Hubs | Locations | Users | Reports

  /** What the router renders for a pathname. */
  datatype Screen =
    | LoginScreen
    | InLayout(page: Page)
    | Redirect(to: string, replace: bool)
    | NoMatch

  /** The eight child routes of the guarded layout route `/`. */
  const ChildRoutes: seq<(string, Page)> := [
    ("dashboard", Dashboard), ("delivery", Delivery), ("calendar", Calendar),
    ("partners", Partners), ("hubs", Hubs), ("locations", Locations),
    ("users", Users), ("reports", Reports)
  ]

  /** `localStorage.getItem("auth") === "true"`. */
  predicate IsAuthenticated(storage: Storage) {
    AuthKey in storage && storage[AuthKey] == "true"
  }

  /** `ProtectedRoute`: the children when authenticated, otherwise a replacing
      redirect to `/login`. */
  function ProtectedRoute(storage: Storage, children: Screen): (r: Screen)
    ensures IsAuthenticated(storage) ==> r == children
    ensures !IsAuthenticated(storage) ==> r == Redirect(LoginPath, true)
  {
    if IsAuthenticated(storage) then children else Redirect(LoginPath, true)
  }

  /** The page a child segment names, if any. */
  function ChildPage(segment: string): (r: Option<Page>)
    ensures r.Some? <==> exists i :: 0 <= i < |ChildRoutes| && ChildRoutes[i].0 == segment
    ensures r.Some? ==> exists i :: 0 <= i < |ChildRoutes| && ChildRoutes[i] == (segment, r.value)
  {
    Lookup(ChildRoutes, segment)
  }

  function Lookup(routes: seq<(string, Page)>, segment: string): (r: Option<Page>)
    ensures r.Some? <==> exists i :: 0 <= i < |routes| && routes[i].0 == segment
    ensures r.Some? ==> exists i :: 0 <= i < |routes| && routes[i] == (segment, r.value)
  {
    if |routes| == 0 then None
    else if routes[0].0 == segment then Some(routes[0].1)
    else
      var r := Lookup(routes[1..], segment);
      assert forall i :: 0 < i < |routes| ==> routes[i] == routes[1..][i - 1];
      assert r.Some? ==> exists i :: 0 <= i < |routes[1..]| && routes[1..][i] == (segment, r.value);
      r
  }

  /** The route table. `/login` is outside the guard; the index route and the
      eight children sit inside it. */
  function Resolve(path: string, storage: Storage): (r: Screen)
    ensures path == LoginPath ==> r == LoginScreen
    ensures path != LoginPath && !IsAuthenticated(storage) ==> r == Redirect(LoginPath, true) || r == NoMatch
    ensures path == "/" ==> r == ProtectedRoute(storage, Redirect("/dashboard", false))
    ensures r.InLayout? ==> IsAuthenticated(storage)
  {
    if path == LoginPath then LoginScreen
    else if path == "/" then ProtectedRoute(storage, Redirect("/dashboard", false))
    else if |path| > 1 && path[0] == '/' && ChildPage(path[1..]).Some? then
      ProtectedRoute(storage, InLayout(ChildPage(path[1..]).value))
    else NoMatch
  }

  /** Every child route is reachable when authenticated and guarded otherwise. */
  lemma ChildRoutesGuarded(i: nat, storage: Storage)
    requires i < |ChildRoutes|
    ensures IsAuthenticated(storage) ==> Resolve("/" + ChildRoutes[i].0, storage) == InLayout(ChildRoutes[i].1)
    ensures !IsAuthenticated(storage) ==> Resolve("/" + ChildRoutes[i].0, storage) == Redirect(LoginPath, true)
  {
    var path := "/" + ChildRoutes[i].0;
    assert path[1..] == ChildRoutes[i].0;
    assert forall j :: 0 <= j < |ChildRoutes| && j != i ==> ChildRoutes[j].0 != ChildRoutes[i].0;
  }

  /** A successful login opens the dashboard; a failed one leaves the guard's
      answer as it was. */
  lemma LoginThenGuard(b: Browser, username: string, password: string)
    ensures username == Login.AdminUser && password == Login.AdminPassword ==>
      IsAuthenticated(Login.HandleLogin(b, username, password).storage)
    ensures !(username == Login.AdminUser && password == Login.AdminPassword) ==>
      IsAuthenticated(Login.HandleLogin(b, username, password).storage) == IsAuthenticated(b.storage)
  {
  }

  /** After logout the guard rejects every protected route. */
  lemma LogoutThenGuard(b: Browser)
    ensures !IsAuthenticated(Layout.Logout(b).storage)
    ensures Resolve("/dashboard", Layout.Logout(b).storage) == Redirect(LoginPath, true)
  {
    ChildRoutesGuarded(0, Layout.Logout(b).storage);
  }

  /** The 403 handlers drop `"token"`, not `"auth"`, so the guard still admits
      whoever it admitted before. */
  lemma ExpiredSessionStillAdmitted(b: Browser)
    ensures IsAuthenticated(ExpireSession(b).storage) == IsAuthenticated(b.storage)
  {
  }
}
