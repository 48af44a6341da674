/** Following `<Navigate>` redirects from route to route for a fixed
    session. With the login page as written, a user whose role is not one of
    the three known roles bounces between "/login" and "/" forever; with
    `LoginPage.RedirectFixed` every path settles within two redirects. */
module Navigation {
  import opened Js
  import opened Roles
  import opened AuthContext
  import App
  import LoginPage

  /** Which login page the routes use. */
  datatype Build = AsWritten | Fixed

  /** One render of `path`; the fixed build differs only on the login page. */
  function Step(path: string, loading: bool, user: Option<User>, build: Build): App.Screen {
    if build == Fixed && App.Match(path) == App.Login then
      match LoginPage.RedirectFixed(user)
      case Some(to) => App.Navigate(to)
      case None => App.Content(App.Login)
    else
      App.Render(path, loading, user)
  }

  /** The screen reached from `path` after following at most `fuel`
      redirects; none when the last render still redirects. */
  function Follow(path: string, loading: bool, user: Option<User>, build: Build, fuel: nat): Option<App.Screen>
    decreases fuel
  {
    match Step(path, loading, user, build)
    case Navigate(to) => if fuel == 0 then None else Follow(to, loading, user, build, fuel - 1)
    case screen => Some(screen)
  }

  /** As written, a user with an unknown role is sent from "/login" to "/"
      and from "/" back to "/login". */
  lemma UnknownRoleBounces(loading: bool, user: Option<User>)
    requires user.Some? && !IsKnown(user.value.role)
    ensures Step(App.LoginPath, loading, user, AsWritten) == App.Navigate(LandingPath)
    ensures Step(LandingPath, loading, user, AsWritten) == App.Navigate(App.LoginPath)
  {
  }

  /** ... and so never settles, however many redirects are followed. */
  lemma {:induction false} UnknownRoleNeverSettles(loading: bool, user: Option<User>, fuel: nat)
    requires user.Some? && !IsKnown(user.value.role)
    ensures Follow(App.LoginPath, loading, user, AsWritten, fuel).None?
    ensures Follow(LandingPath, loading, user, AsWritten, fuel).None?
  {
    UnknownRoleBounces(loading, user);
    if fuel > 0 {
      UnknownRoleNeverSettles(loading, user, fuel - 1);
    }
  }

  /** A concrete session that loops: role "dispatcher". */
  lemma DispatcherLoops(fuel: nat)
    ensures Follow("/login", false, Some(User("dispatcher", "sam")), AsWritten, fuel).None?
  {
    UnknownRoleNeverSettles(false, Some(User("dispatcher", "sam")), fuel);
  }

  /** A known role's dashboard does not redirect its own role. */
  lemma DashboardSettles(role: string, loading: bool, user: Option<User>, build: Build)
    requires IsKnown(role) && user.Some? && user.value.role == role
    ensures !Step("/" + role, loading, user, build).Navigate?
  {
    assert role == Admin || role == Customer || role == Driver;
  }

  /** The login page settles at once in the fixed build. */
  lemma FixedLoginSettles(loading: bool, user: Option<User>)
    ensures Follow(App.LoginPath, loading, user, Fixed, 1).Some?
  {
    if user.Some? && IsKnown(user.value.role) {
      DashboardSettles(user.value.role, loading, user, Fixed);
    }
  }

  /** With the fixed login page, every path settles within two redirects,
      whatever the session. */
  lemma FixedNavigationSettles(path: string, loading: bool, user: Option<User>)
    ensures Follow(path, loading, user, Fixed, 2).Some?
  {
    var page := App.Match(path);
    FixedLoginSettles(loading, user);
    var known := user.Some? && IsKnown(user.value.role);
    if known {
      DashboardSettles(user.value.role, loading, user, Fixed);
    }
    match page
    case Login =>
    case Register =>
      if user.Some? && !known {
        assert Step(path, loading, user, Fixed) == App.Navigate("/");
        assert Step("/", loading, user, Fixed) == App.Navigate(App.LoginPath);
        assert Step(App.LoginPath, loading, user, Fixed) == App.Content(App.Login);
      }
    case Root =>
    case _ =>
  }

  /** As written, a visitor without a session or with a known role also
      settles within two redirects: the loop needs an unknown role. */
  lemma KnownRoleSettles(path: string, loading: bool, user: Option<User>)
    requires user.None? || IsKnown(user.value.role)
    ensures Follow(path, loading, user, AsWritten, 2).Some?
  {
    FixedNavigationSettles(path, loading, user);
    assert forall p :: Step(p, loading, user, AsWritten) == Step(p, loading, user, Fixed);
    SameSteps(path, loading, user, 2);
  }

  /** Two builds that render every path alike follow alike. */
  lemma {:induction false} SameSteps(path: string, loading: bool, user: Option<User>, fuel: nat)
    requires forall p :: Step(p, loading, user, AsWritten) == Step(p, loading, user, Fixed)
    ensures Follow(path, loading, user, AsWritten, fuel) == Follow(path, loading, user, Fixed, fuel)
    decreases fuel
  {
    var s := Step(path, loading, user, Fixed);
    if s.Navigate? && fuel > 0 {
      SameSteps(s.to, loading, user, fuel - 1);
    }
  }
}
