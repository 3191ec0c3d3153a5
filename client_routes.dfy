/**
 * The client-side route guard and route table (frontend/src/App.tsx), and
 * where the login page sends a user afterwards
 * (frontend/src/pages/Login.tsx). The signed-in user is the object the auth
 * context holds; only its role matters here.
 */
module ClientRoutes {
  import opened Wrappers

  datatype SessionUser = SessionUser(role: string)

  datatype Page = Home | LoginPage | RegisterPage | AdminDashboard | FacultyDashboard

  /** What a route renders: the loading spinner, a redirect, or its page. */
  datatype Rendered = Spinner | Redirect(to: string) | Show(page: Page)

  /**
   * `ProtectedRoute`: spinner while the session is loading, `/login` when no
   * one is signed in, `/` when a role list is given and does not contain the
   * user's role, and the wrapped page otherwise.
   */
  function ProtectedRoute(loading: bool, user: Option<SessionUser>, allowedRoles: Option<seq<string>>, page: Page): (r: Rendered)
    ensures loading ==> r == Spinner
    ensures !loading && user.None? ==> r == Redirect("/login")
    ensures r == Show(page) <==>
      !loading && user.Some? && (allowedRoles.None? || user.value.role in allowedRoles.value)
    ensures !loading && user.Some? && allowedRoles.Some? && user.value.role !in allowedRoles.value ==>
      r == Redirect("/")
  {
    if loading then Spinner
    else if user.None? then Redirect("/login")
    else if allowedRoles.Some? && user.value.role !in allowedRoles.value then Redirect("/")
    else Show(page)
  }

  /** One entry of the route table: a path, its page, and whether it is guarded (and for which roles). */
  datatype ClientRoute = Open(path: string, page: Page) | Guarded(path: string, page: Page, roles: seq<string>)

  const AppRoutes: seq<ClientRoute> := [
    Open("/", Home),
    Open("/login", LoginPage),
    Open("/register", RegisterPage),
    Guarded("/admin", AdminDashboard, ["admin"]),
    Guarded("/faculty", FacultyDashboard, ["lecturer", "hod"])]

  /** What one route renders once it is the route chosen. */
  function RenderRoute(route: ClientRoute, loading: bool, user: Option<SessionUser>): Rendered {
    match route
    case Open(_, page) => Show(page)
    case Guarded(_, page, roles) => ProtectedRoute(loading, user, Some(roles), page)
  }

  /** Rendering `path`: the first route with that path; None when no route matches (nothing is rendered). */
  function Visit(routes: seq<ClientRoute>, path: string, loading: bool, user: Option<SessionUser>): (r: Option<Rendered>)
    ensures r.None? <==> forall i :: 0 <= i < |routes| ==> routes[i].path != path
  {
    if routes == [] then None
    else if routes[0].path == path then
      Some(RenderRoute(routes[0], loading, user))
    else
      var r := Visit(routes[1..], path, loading, user);
      assert forall i :: 0 < i < |routes| ==> routes[i] == routes[1..][i - 1];
      r
  }

  /** The first route with a given path is the one rendered. */
  lemma {:induction false} VisitFirst(routes: seq<ClientRoute>, k: nat, loading: bool, user: Option<SessionUser>)
    requires k < |routes|
    requires forall j :: 0 <= j < k ==> routes[j].path != routes[k].path
    ensures Visit(routes, routes[k].path, loading, user) == Some(RenderRoute(routes[k], loading, user))
  {
    if k > 0 {
      assert routes[1..][k - 1] == routes[k];
      VisitFirst(routes[1..], k - 1, loading, user);
    }
  }

  /** Where `Login.tsx` navigates after a successful login. */
  function LoginLanding(role: string): (r: string)
    ensures r == "/admin" <==> role == "admin"
    ensures r == "/admin" || r == "/faculty"
  {
    if role == "admin" then "/admin" else "/faculty"
  }

  /** The admin dashboard is shown only to a signed-in admin, once loading has finished. */
  lemma AdminDashboardOnlyForAdmins(loading: bool, user: Option<SessionUser>)
    ensures Visit(AppRoutes, "/admin", loading, user) == Some(Show(AdminDashboard)) <==>
      !loading && user.Some? && user.value.role == "admin"
  {
    VisitFirst(AppRoutes, 3, loading, user);
  }

  /** The faculty dashboard is shown only to a signed-in lecturer or hod. */
  lemma FacultyDashboardOnlyForStaff(loading: bool, user: Option<SessionUser>)
    ensures Visit(AppRoutes, "/faculty", loading, user) == Some(Show(FacultyDashboard)) <==>
      !loading && user.Some? && (user.value.role == "lecturer" || user.value.role == "hod")
  {
    VisitFirst(AppRoutes, 4, loading, user);
  }

  /** The three open pages render whoever is (or is not) signed in, even while loading. */
  lemma OpenPagesUnguarded(loading: bool, user: Option<SessionUser>)
    ensures Visit(AppRoutes, "/", loading, user) == Some(Show(Home))
    ensures Visit(AppRoutes, "/login", loading, user) == Some(Show(LoginPage))
    ensures Visit(AppRoutes, "/register", loading, user) == Some(Show(RegisterPage))
  {
    VisitFirst(AppRoutes, 1, loading, user);
    VisitFirst(AppRoutes, 2, loading, user);
  }

  /**
   * After login a user lands on their dashboard exactly when their role is
   * admin, hod or lecturer; any other role (such as 'faculty') is bounced to `/`.
   */
  lemma {:induction false} LandingAfterLogin(role: string)
    ensures var r := Visit(AppRoutes, LoginLanding(role), false, Some(SessionUser(role)));
      && (role == "admin" ==> r == Some(Show(AdminDashboard)))
      && (role == "hod" || role == "lecturer" ==> r == Some(Show(FacultyDashboard)))
      && (role != "admin" && role != "hod" && role != "lecturer" ==> r == Some(Redirect("/")))
  {
    var u := Some(SessionUser(role));
    VisitFirst(AppRoutes, 3, false, u);
    VisitFirst(AppRoutes, 4, false, u);
  }
}
