/** The client's route guard: what a private route shows for the state of
    the two auth queries, and the table of which roles each page allows. */
module App {
  import opened Wrappers

  /** What `PrivateRoute` returns. */
  datatype Guard = Spinner | Redirect(to: string) | Render

  /** The current user as the guard sees it: only the role matters, and an
      absent role is the empty string (falsy). */
  datatype Viewer = Viewer(role: string)

  predicate IsAdminRole(role: string) { role == "admin" || role == "proprietor" }

  /** The guard. While either query loads it shows the spinner; without
      authentication or a user it sends to the login page; a non-empty role
      outside the allowed roles is sent to its own home page. */
  function PrivateRoute(userLoading: bool, authLoading: bool, authenticated: bool,
                        user: Option<Viewer>, allowedRoles: Option<seq<string>>): (g: Guard)
    ensures userLoading || authLoading ==> g == Spinner
    ensures !userLoading && !authLoading && (!authenticated || user.None?) ==> g == Redirect("/login")
    ensures g == Render <==>
              && !userLoading && !authLoading && authenticated && user.Some?
              && (allowedRoles.None? || user.value.role == "" || user.value.role in allowedRoles.value)
    ensures g.Redirect? && g.to != "/login" ==>
              user.Some? && user.value.role != "" && allowedRoles.Some? && user.value.role !in allowedRoles.value
              && g.to == (if IsAdminRole(user.value.role) then "/admin" else "/dashboard")
  {
    if userLoading || authLoading then Spinner
    else if !authenticated || user.None? then Redirect("/login")
    else if allowedRoles.Some? && user.value.role != "" && user.value.role !in allowedRoles.value then
      Redirect(if IsAdminRole(user.value.role) then "/admin" else "/dashboard")
    else Render
  }

  const StaffOnly: seq<string> := ["staff"]
  const AdminOnly: seq<string> := ["admin", "proprietor"]

  /** The private routes and the roles each allows (`None`: any role). */
  const PrivateRoutes: seq<(string, Option<seq<string>>)> := [
    ("/dashboard", Some(StaffOnly)),
    ("/tasks", Some(StaffOnly)),
    ("/attendance", Some(StaffOnly)),
    ("/leaves", Some(StaffOnly)),
    ("/expenses", Some(StaffOnly)),
    ("/profile", None),
    ("/admin", Some(AdminOnly)),
    ("/admin/tasks", Some(AdminOnly)),
    ("/admin/employees", Some(AdminOnly)),
    ("/admin/approvals", Some(AdminOnly)),
    ("/admin/attendance", Some(AdminOnly)),
    ("/admin/organizations", Some(AdminOnly)),
    ("/admin/profile", Some(AdminOnly))
  ]

  /** The allowed roles of a path, when the path is a private route. */
  function AllowedOn(path: string): (r: Option<Option<seq<string>>>)
    ensures r.Some? <==> exists i :: 0 <= i < |PrivateRoutes| && PrivateRoutes[i].0 == path
  {
    AllowedIn(PrivateRoutes, path)
  }

  function AllowedIn(routes: seq<(string, Option<seq<string>>)>, path: string): (r: Option<Option<seq<string>>>)
    ensures r.Some? <==> exists i :: 0 <= i < |routes| && routes[i].0 == path
    ensures r.Some? ==> exists i :: 0 <= i < |routes| && routes[i] == (path, r.value)
  {
    if routes == [] then None
    else if routes[0].0 == path then Some(routes[0].1)
    else
      var r := AllowedIn(routes[1..], path);
      assert forall i :: 0 < i < |routes| ==> routes[1..][i - 1] == routes[i];
      r
  }

  /** Every private route allows the staff role or the admin roles, or any role. */
  lemma RouteRoles(path: string)
    requires AllowedOn(path).Some?
    ensures AllowedOn(path).value in {None, Some(StaffOnly), Some(AdminOnly)}
  {
  }

  /** For the three known roles the redirect of a role mismatch lands on a
      page that role is allowed on, so a second redirect never follows. */
  lemma OneRedirectSuffices(role: string, path: string)
    requires role in ["admin", "proprietor", "staff"]
    requires AllowedOn(path).Some?
    requires PrivateRoute(false, false, true, Some(Viewer(role)), AllowedOn(path).value).Redirect?
    ensures AllowedOn(PrivateRoute(false, false, true, Some(Viewer(role)), AllowedOn(path).value).to).Some?
    ensures var target := PrivateRoute(false, false, true, Some(Viewer(role)), AllowedOn(path).value).to;
            PrivateRoute(false, false, true, Some(Viewer(role)), AllowedOn(target).value) == Render
  {
    assert PrivateRoutes[0].0 == "/dashboard";
    assert PrivateRoutes[6].0 == "/admin";
  }
}
