/** The three roles the client knows and the dashboard each one lives on. */
module Roles {
  import opened Js

  const Admin: string := "admin"
  const Customer: string := "customer"
  const Driver: string := "driver"

  predicate IsKnown(role: string) {
    role == Admin || role == Customer || role == Driver
  }

  /** The `switch (user.role)` shared by the route guard and the two public
      pages: a known role has a dashboard, which is the path "/" followed by
      the role's own name; any other role has none. */
  function DashboardFor(role: string): (p: Option<string>)
    ensures p.Some? <==> IsKnown(role)
    ensures p.Some? ==> p.value == "/" + role
  {
    match role
    case "admin" => Some("/admin")
    case "customer" => Some("/customer")
    case "driver" => Some("/driver")
    case _ => None
  }

  /** Where the two pages for visitors send a signed-in user. */
  const LandingPath: string := "/"

  /** The switch of the login and registration pages: a known role goes to
      its dashboard, any other role to "/". */
  function LandingFor(role: string): (p: string)
    ensures IsKnown(role) ==> p == "/" + role
    ensures !IsKnown(role) ==> p == LandingPath
  {
    match DashboardFor(role)
    case Some(path) => path
    case None => LandingPath
  }
}
