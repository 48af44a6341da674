/** The application's routes and the role guard `ProtectedRoute` that wraps
    the dashboards and the job-details page. */
module App {
  import opened Js
  import opened Roles
  import opened AuthContext
  import LoginPage

  const LoginPath: string := "/login"
  const JobsPrefix: string := "/jobs/"

  /** What a guard renders: the loading placeholder, its children, or a
      `<Navigate>`. */
  datatype Decision = ShowLoading | ShowChildren | Redirect(to: string)

  /** `ProtectedRoute`: while the session is being restored only the
      placeholder is shown; afterwards the children are shown exactly to a
      user whose role is allowed. Anyone else is redirected: a user with a
      known role to that role's dashboard, everyone else to the login page. */
  function ProtectedRoute(loading: bool, user: Option<User>, allowedRoles: seq<string>): (d: Decision)
    ensures d == ShowLoading <==> loading
    ensures d == ShowChildren <==> !loading && user.Some? && user.value.role in allowedRoles
    ensures d.Redirect? && user.Some? && IsKnown(user.value.role) ==> d.to == "/" + user.value.role
    ensures d.Redirect? && !(user.Some? && IsKnown(user.value.role)) ==> d.to == LoginPath
  {
    if loading then ShowLoading
    else if user.None? then Redirect(LoginPath)
    else if user.value.role !in allowedRoles then
      match DashboardFor(user.value.role)
      case Some(path) => Redirect(path)
      case None => Redirect(LoginPath)
    else ShowChildren
  }

  /** The pages of the route table. */
  datatype Page =
    | Login
    | Register
    | AdminHome
    | CustomerHome
    | DriverHome
    | JobDetails(jobId: string)
    | Root
    | NotFound

  /** The route a path selects, on exact paths: "/jobs/" followed by one
      non-empty segment is the job-details route, and anything unlisted is
      the catch-all. */
  function Match(path: string): (page: Page)
    ensures page.JobDetails? ==> path == JobsPrefix + page.jobId && page.jobId != "" && '/' !in page.jobId
  {
    if path == "/login" then Login
    else if path == "/register" then Register
    else if path == "/admin" then AdminHome
    else if path == "/customer" then CustomerHome
    else if path == "/driver" then DriverHome
    else if path == "/" then Root
    else if |path| > |JobsPrefix| && path[..|JobsPrefix|] == JobsPrefix && '/' !in path[|JobsPrefix|..] then
      JobDetails(path[|JobsPrefix|..])
    else NotFound
  }

  /** The `allowedRoles` of the guard around each page; none for the pages
      that are not guarded. */
  function AllowedRoles(page: Page): Option<seq<string>> {
    match page
    case AdminHome => Some([Admin])
    case CustomerHome => Some([Customer])
    case DriverHome => Some([Driver])
    case JobDetails(_) => Some([Admin, Driver, Customer])
    case _ => None
  }

  /** The route table: each dashboard admits its own role and no other, the
      job-details page admits all three roles, and the public pages are not
      guarded. */
  lemma RouteTable(role: string, jobId: string)
    requires jobId != "" && '/' !in jobId
    ensures AllowedRoles(Match("/admin")).Some? && (role in AllowedRoles(Match("/admin")).value <==> role == Admin)
    ensures AllowedRoles(Match("/customer")).Some? && (role in AllowedRoles(Match("/customer")).value <==> role == Customer)
    ensures AllowedRoles(Match("/driver")).Some? && (role in AllowedRoles(Match("/driver")).value <==> role == Driver)
    ensures AllowedRoles(Match(JobsPrefix + jobId)).Some?
    ensures role in AllowedRoles(Match(JobsPrefix + jobId)).value <==> IsKnown(role)
    ensures AllowedRoles(Match("/login")).None? && AllowedRoles(Match("/register")).None?
  {
    var path := JobsPrefix + jobId;
    assert path[..|JobsPrefix|] == JobsPrefix && path[|JobsPrefix|..] == jobId;
    assert |path| > |JobsPrefix| && path[1] == 'j';
    assert path != "/" && path != "/login" && path != "/register" by {
      assert "/login"[1] == 'l' && "/register"[1] == 'r';
    }
    assert path != "/admin" && path != "/customer" && path != "/driver" by {
      assert "/admin"[1] == 'a' && "/customer"[1] == 'c' && "/driver"[1] == 'd';
    }
  }

  /** What is on screen at a path: the loading placeholder, a page's
      content, or a `<Navigate>` to another path. */
  datatype Screen = Loading | Content(page: Page) | Navigate(to: string)

  function ScreenOf(page: Page, d: Decision): Screen {
    match d
    case ShowLoading => Loading
    case ShowChildren => Content(page)
    case Redirect(to) => Navigate(to)
  }

  /** The element `<Routes>` renders for `path`, given the session. */
  function Render(path: string, loading: bool, user: Option<User>): Screen {
    var page := Match(path);
    match page
    case Login =>
      (match LoginPage.Redirect(user) case Some(to) => Navigate(to) case None => Content(Login))
    case Register =>
      (match user case Some(u) => Navigate(LandingFor(u.role)) case None => Content(Register))
    case Root => Navigate(LoginPath)
    case _ =>
      match AllowedRoles(page)
      case Some(roles) => ScreenOf(page, ProtectedRoute(loading, user, roles))
      case None => Content(page)
  }

  /** "/" always redirects to the login page, whatever the session. */
  lemma RootRedirectsToLogin(loading: bool, user: Option<User>)
    ensures Render("/", loading, user) == Navigate(LoginPath)
  {
  }

  /** No redirect chain starts at a guard for a known role: when the guard
      turns such a user away, the page it sends them to shows its content. */
  lemma GuardRedirectLands(path: string, user: Option<User>)
    requires user.Some? && IsKnown(user.value.role)
    requires Render(path, false, user).Navigate?
    requires AllowedRoles(Match(path)).Some?
    ensures Render(Render(path, false, user).to, false, user).Content?
  {
    var role := user.value.role;
    var to := Render(path, false, user).to;
    assert to == "/" + role;
    RouteTable(role, "x");
  }
}
