/** `DriverRoute`, a guard that admits only drivers. Like `AdminRoute` it
    does not wait for the session restoration and sends every other visitor
    to the login page. */
module DriverRoute {
  import opened Js
  import opened Roles
  import opened AuthContext
  import App

  /** The guard: the children for a user whose role is "driver", a redirect
      to the login page for everyone else, known role or not. */
  function Guard(user: Option<User>): (d: App.Decision)
    ensures d == App.ShowChildren <==> user.Some? && user.value.role == Driver
    ensures d != App.ShowChildren ==> d == App.Redirect(App.LoginPath)
  {
    if user.None? || user.value.role != Driver then App.Redirect(App.LoginPath) else App.ShowChildren
  }

  /** The guard never shows the loading placeholder, so during the session
      restoration a provider that started without a stored user is turned
      away, while `ProtectedRoute` guarding ["driver"] waits. */
  lemma IgnoresLoading(p: AuthProvider)
    requires p.loading && p.user.None?
    ensures Guard(p.user) == App.Redirect(App.LoginPath)
    ensures App.ProtectedRoute(p.loading, p.user, [Driver]) == App.ShowLoading
  {
  }
}
