/**
 * How the pieces meet: the navigation guard reads `auth_token`, a key the
 * authentication composable neither writes nor removes.
 */
module App {
  import Api
  import Auth
  import Router
  import Storage

  /** No operation of the composable touches the guard's key. */
  lemma AuthNeverTouchesToken()
    ensures Router.AuthTokenKey !in Auth.WrittenKeys
    ensures Router.AuthTokenKey !in Auth.ClearedKeys
  {
  }

  /** Whatever the composable does, the guard decides every navigation as it did before. */
  lemma GuardUnaffectedByAuth(requiresAuth: bool, s: Auth.Session, ops: seq<Auth.Op>)
    ensures Router.Guard(requiresAuth, Auth.Run(s, ops).store) == Router.Guard(requiresAuth, s.store)
  {
    Auth.RunKeepsOtherKeys(s, ops, Router.AuthTokenKey);
    Router.GuardReadsOnlyToken(requiresAuth, Auth.Run(s, ops).store, s.store);
  }

  /**
   * Signing in through `setAuth` marks the session authenticated, yet without an
   * `auth_token` entry a navigation to `/dashboard` still lands on the login page.
   */
  lemma SignInLeavesDashboardGuarded(s: Auth.Session, u: Auth.User)
    requires !Storage.HasItem(s.store, Router.AuthTokenKey)
    ensures Auth.Step(s, Auth.Set(u)).isAuthenticated
    ensures Router.Navigate("/dashboard", Auth.Step(s, Auth.Set(u)).store) == Router.LoginRoute.path
  {
    Router.ProtectedRoutes("/dashboard");
    assert Auth.Run(s, [Auth.Set(u)]) == Auth.Step(s, Auth.Set(u));
    GuardUnaffectedByAuth(true, s, [Auth.Set(u)]);
  }

  /** Conversely, signing out does not lock the dashboard while an `auth_token` is stored. */
  lemma SignOutLeavesDashboardOpen(s: Auth.Session, reply: Api.Outcome)
    requires Storage.HasItem(s.store, Router.AuthTokenKey)
    ensures !Auth.Step(s, Auth.LogOut(reply)).isAuthenticated
    ensures Router.Navigate("/dashboard", Auth.Step(s, Auth.LogOut(reply)).store) == "/dashboard"
  {
    Router.ProtectedRoutes("/dashboard");
    assert Auth.Run(s, [Auth.LogOut(reply)]) == Auth.Step(s, Auth.LogOut(reply));
    GuardUnaffectedByAuth(true, s, [Auth.LogOut(reply)]);
  }
}
