/** The login page: where it sends a visitor who already has a session, and
    how its submit handler reports the outcome of `login`. */
module LoginPage {
  import opened Js
  import opened Roles
  import opened AuthContext

  const SubmitFallback: string := "Login failed"

  /** The page's redirect: none without a user (the form is shown), the
      role's own dashboard for a known role, and "/" for any other role. */
  function Redirect(user: Option<User>): (to: Option<string>)
    ensures to.None? <==> user.None?
    ensures user.Some? && IsKnown(user.value.role) ==> to == Some("/" + user.value.role)
    ensures user.Some? && !IsKnown(user.value.role) ==> to == Some(LandingPath)
  {
    match user
    case None => None
    case Some(u) => Some(LandingFor(u.role))
  }

  /** The redirect as evidently intended: a role without a dashboard is
      shown the form instead of being sent to "/", which leads straight back
      here. Known roles are sent where `Redirect` sends them. */
  function RedirectFixed(user: Option<User>): (to: Option<string>)
    ensures to.Some? <==> user.Some? && IsKnown(user.value.role)
    ensures to.Some? ==> to == Redirect(user)
  {
    match user
    case None => None
    case Some(u) => DashboardFor(u.role)
  }

  /** The page's form state. */
  class LoginForm {
    var username: string
    var password: string
    var error: string

    constructor ()
      ensures username == "" && password == "" && error == ""
    {
      username, password, error := "", "", "";
    }

    /** `handleSubmit`: clears the error, calls `login` with the server's
        `reply`, and on failure shows the message `login` returned, or
        "Login failed" when that message is empty. On success the session
        changes and the redirect above takes over. */
    method HandleSubmit(auth: AuthProvider, reply: AuthReply)
      modifies this`error, auth
      ensures reply.Granted? ==>
                && error == ""
                && auth.accessToken == Some(reply.accessToken)
                && auth.user == Some(User(reply.role, reply.username))
                && auth.storage == Saved(old(auth.storage), reply.accessToken, reply.role, reply.username)
                && auth.loading == old(auth.loading)
                && auth.InSync()
      ensures reply.Denied? ==>
                && error == OrElse(reply.error.message, LoginFallback)
                && unchanged(auth)
      ensures Redirect(auth.user).Some? <==> reply.Granted? || old(auth.user).Some?
    {
      error := "";
      var result := auth.Login(reply);
      match result
      case LoginOk =>
      case LoginFailed(message) =>
        error := OrElse(Some(message), SubmitFallback);
    }
  }
}
