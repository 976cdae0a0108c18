/**
 * The route table and the `beforeEach` navigation guard. The guard reads the
 * browser store, given here as a map from keys to stored strings.
 */
module Router {
  import opened Wrappers
  import opened Storage

  /** A route record: its path, its name, and its `meta.requiresAuth` flag (false when absent). */
  datatype Route = Route(path: string, name: string, requiresAuth: bool)

  const LoginRoute := Route("/", "login", false)
  const DashboardRoute := Route("/dashboard", "dashboard", true)
  const Routes: seq<Route> := [LoginRoute, DashboardRoute]

  /** The store key the guard consults. */
  const AuthTokenKey := "auth_token"

  /** The argument the guard passes to `next`: nothing (allow) or a named location. */
  datatype Next = Allow | RedirectTo(name: string)

  /** The two properties a route is looked up by: its path (on navigation) and its name (on a named redirect). */
  datatype Field = PathField | NameField

  function KeyOf(r: Route, field: Field): string {
    match field
    case PathField => r.path
    case NameField => r.name
  }

  /** The index of the first route in `routes` whose `field` is `key`, if any. */
  function FindRoute(routes: seq<Route>, field: Field, key: string): (r: Option<nat>)
    ensures r.None? <==> forall i :: 0 <= i < |routes| ==> KeyOf(routes[i], field) != key
    ensures r.Some? ==> r.value < |routes| && KeyOf(routes[r.value], field) == key
    ensures r.Some? ==> forall j :: 0 <= j < r.value ==> KeyOf(routes[j], field) != key
  {
    if routes == [] then None
    else if KeyOf(routes[0], field) == key then Some(0)
    else match FindRoute(routes[1..], field, key)
      case Some(k) => Some(k + 1)
      case None => None
  }

  /** The route of the table a path matches. */
  function RouteByPath(path: string): (r: Option<Route>)
    ensures r.Some? <==> exists i :: 0 <= i < |Routes| && Routes[i].path == path
    ensures r.Some? ==> r.value in Routes && r.value.path == path
  {
    match FindRoute(Routes, PathField, path)
    case Some(i) => Some(Routes[i])
    case None => None
  }

  /** The route of the table a name designates. */
  function RouteByName(name: string): (r: Option<Route>)
    ensures r.Some? <==> exists i :: 0 <= i < |Routes| && Routes[i].name == name
    ensures r.Some? ==> r.value in Routes && r.value.name == name
  {
    match FindRoute(Routes, NameField, name)
    case Some(i) => Some(Routes[i])
    case None => None
  }

  /** `to.meta.requiresAuth` of the location a path resolves to; an unmatched path has empty meta. */
  function TargetRequiresAuth(path: string): (b: bool)
    ensures b <==> exists i :: 0 <= i < |Routes| && Routes[i].path == path && Routes[i].requiresAuth
  {
    match RouteByPath(path)
    case Some(r) => r.requiresAuth
    case None => false
  }

  /** Only `/dashboard` is protected; `/` (the login page) and every unmatched path are open. */
  lemma ProtectedRoutes(path: string)
    ensures TargetRequiresAuth(path) <==> path == "/dashboard"
  {
    assert Routes[0] == LoginRoute && Routes[1] == DashboardRoute;
  }

  /** Paths and names each identify at most one route. */
  lemma RouteTableUnique()
    ensures |Routes| == 2
    ensures forall i, j :: 0 <= i < |Routes| && 0 <= j < |Routes| && Routes[i].path == Routes[j].path ==> i == j
    ensures forall i, j :: 0 <= i < |Routes| && 0 <= j < |Routes| && Routes[i].name == Routes[j].name ==> i == j
  {
  }

  /**
   * The guard: a target that requires authentication while `auth_token` is
   * missing or empty is sent to the route named `login`; any other target passes.
   * Being a function, it calls `next` exactly once and leaves the store as it is.
   */
  function Guard(requiresAuth: bool, store: Store): (n: Next)
    ensures n == RedirectTo(LoginRoute.name) <==> requiresAuth && !HasItem(store, AuthTokenKey)
    ensures n.Allow? <==> !(requiresAuth && !HasItem(store, AuthTokenKey))
  {
    if requiresAuth && !HasItem(store, AuthTokenKey) then RedirectTo(LoginRoute.name) else Allow
  }

  /** The path the browser ends on after navigating to `path`, following one guard redirect. */
  function Navigate(path: string, store: Store): (landing: string)
    ensures landing == (if TargetRequiresAuth(path) && !HasItem(store, AuthTokenKey) then LoginRoute.path else path)
    ensures Guard(TargetRequiresAuth(landing), store).Allow?
  {
    match Guard(TargetRequiresAuth(path), store)
    case Allow => path
    case RedirectTo(name) =>
      match RouteByName(name)
      case Some(r) => r.path
      case None => path
  }

  /** The login page is always reachable, whatever the store holds. */
  lemma LoginAlwaysAllowed(store: Store)
    ensures Guard(TargetRequiresAuth(LoginRoute.path), store) == Allow
    ensures Navigate(LoginRoute.path, store) == LoginRoute.path
  {
  }

  /** The redirect target is one the guard lets through, so a redirect never repeats. */
  lemma RedirectSettles(requiresAuth: bool, store: Store)
    requires Guard(requiresAuth, store).RedirectTo?
    ensures RouteByName(Guard(requiresAuth, store).name).Some?
    ensures Guard(RouteByName(Guard(requiresAuth, store).name).value.requiresAuth, store) == Allow
  {
  }

  /** The guard's decision depends on the store only through `auth_token`. */
  lemma GuardReadsOnlyToken(requiresAuth: bool, s: Store, t: Store)
    requires (AuthTokenKey in s <==> AuthTokenKey in t)
    requires AuthTokenKey in s ==> s[AuthTokenKey] == t[AuthTokenKey]
    ensures Guard(requiresAuth, s) == Guard(requiresAuth, t)
  {
  }
}
