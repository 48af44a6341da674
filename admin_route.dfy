/** `AdminRoute`, a guard that admits only administrators. Unlike
    `ProtectedRoute` it does not wait for the session restoration and it
    sends every other visitor to the login page. */
module AdminRoute {
  import opened Js
  import opened Roles
  import opened AuthContext
  import App

  /** The guard: the children for a user whose role is "admin", a redirect
      to the login page for everyone else, known role or not. */
  function Guard(user: Option<User>): (d: App.Decision)
    ensures d == App.ShowChildren <==> user.Some? && user.value.role == Admin
    ensures d != App.ShowChildren ==> d == App.Redirect(App.LoginPath)
  {
    if user.None? || user.value.role != Admin then App.Redirect(App.LoginPath) else App.ShowChildren
  }

  /** Compared with `ProtectedRoute` guarding ["admin"] once loading is over,
      the two admit the same users; they differ only in where a non-admin
      with a dashboard is sent. While the session is restored, a visitor not
      yet known is turned away here, where `ProtectedRoute` waits. */
  lemma AgreesWithProtectedRoute(loading: bool, user: Option<User>)
    ensures !loading ==>
              (Guard(user) == App.ShowChildren <==> App.ProtectedRoute(loading, user, [Admin]) == App.ShowChildren)
    ensures loading && user.None? ==>
              Guard(user) == App.Redirect(App.LoginPath) && App.ProtectedRoute(loading, user, [Admin]) == App.ShowLoading
    ensures user.Some? && IsKnown(user.value.role) && user.value.role != Admin ==>
              Guard(user) == App.Redirect(App.LoginPath)
              && App.ProtectedRoute(false, user, [Admin]) == App.Redirect("/" + user.value.role)
  {
  }
}
