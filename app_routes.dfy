/**
 * The route guard of the application: while the signed-in user is being
 * looked up it shows a placeholder, without a user it sends to the login
 * page, and on a dashboard meant for another role it sends the user to the
 * dashboard of their own role.
 */
module AppRoutes {
  import opened Opt
  import Login

  type AuthUser = Login.AuthUser

  /** What the guard renders. */
  datatype Outcome = ShowLoading | Redirect(to: string) | RenderChildren

  /** The role each guarded route asks for; every other route is open. */
  function RequiredRole(path: string): (role: Option<string>)
    ensures role.Some? <==> path in {"/student-dashboard", "/instructor-dashboard", "/admin-dashboard"}
  {
    match path
    case "/student-dashboard" => Some("student")
    case "/instructor-dashboard" => Some("instructor")
    case "/admin-dashboard" => Some("admin")
    case _ => None
  }

  /** A required role counts only when it is present and not the empty (falsy) text. */
  predicate Restricts(requiredRole: Option<string>)
  {
    requiredRole.Some? && requiredRole.value != ""
  }

  /** The dashboard of a refused user's own role, as written: any other role also goes to "/admin-dashboard". */
  function OwnDashboardAsWritten(role: string): string
  {
    match role
    case "student" => "/student-dashboard"
    case "instructor" => "/instructor-dashboard"
    case "admin" => "/admin-dashboard"
    case _ => "/admin-dashboard"
  }

  /** The guard's decision as written. */
  function GuardAsWritten(loading: bool, user: Option<AuthUser>, requiredRole: Option<string>): Outcome
  {
    if loading then ShowLoading
    else if user.None? then Redirect("/login")
    else if Restricts(requiredRole) && user.value.role != requiredRole.value then
      Redirect(OwnDashboardAsWritten(user.value.role))
    else RenderChildren
  }

  /**
   * A user whose role is none of the three is refused by the admin dashboard
   * and sent to the admin dashboard again, so they never reach a page.
   */
  lemma GuardLoopsAsWritten()
    ensures var guest := Login.AuthUser("guest");
      GuardAsWritten(false, Some(guest), RequiredRole("/admin-dashboard")) == Redirect("/admin-dashboard")
  {
  }

  /**
   * The guard's decision with the refused user sent to the same page login
   * sends them to: their own dashboard, or "/home" for any other role.
   */
  function Guard(loading: bool, user: Option<AuthUser>, requiredRole: Option<string>): (o: Outcome)
    ensures loading <==> o == ShowLoading
    ensures !loading && user.None? <==> o == Redirect("/login")
    ensures user.Some? && !loading ==>
      (o == RenderChildren <==> !Restricts(requiredRole) || user.value.role == requiredRole.value)
    ensures o.Redirect? && user.Some? ==> o.to == Login.RoleRedirect(user.value.role)
  {
    if loading then ShowLoading
    else if user.None? then Redirect("/login")
    else if Restricts(requiredRole) && user.value.role != requiredRole.value then
      Redirect(Login.RoleRedirect(user.value.role))
    else RenderChildren
  }

  /** For the three roles the guard and the login page use the same table. */
  lemma SameTableAsLogin(role: string)
    requires role in {"student", "instructor", "admin"}
    ensures OwnDashboardAsWritten(role) == Login.RoleRedirect(role)
  {
  }

  /** On the corrected guard every redirect of a signed-in user lands on a page that renders. */
  lemma NoRedirectLoop(path: string, user: AuthUser)
    ensures var o := Guard(false, Some(user), RequiredRole(path));
      o.Redirect? ==> Guard(false, Some(user), RequiredRole(o.to)) == RenderChildren
  {
    var o := Guard(false, Some(user), RequiredRole(path));
    if o.Redirect? {
      var r := RequiredRole(o.to);
      assert r.Some? ==> r.value == user.role;
    }
  }

  /** The page login sends a user to lets that user in. */
  lemma LoginLandsOnOpenPage(user: AuthUser)
    ensures Guard(false, Some(user), RequiredRole(Login.RoleRedirect(user.role))) == RenderChildren
  {
    var r := RequiredRole(Login.RoleRedirect(user.role));
    assert r.Some? ==> r.value == user.role;
  }

  /** One guarded route: the user is looked up once, after which the decision is fixed. */
  class ProtectedRoute {
    const requiredRole: Option<string>
    var user: Option<AuthUser>
    var loading: bool

    constructor(requiredRole: Option<string>)
      ensures this.requiredRole == requiredRole && user == None && loading
      ensures Decision() == ShowLoading
    {
      this.requiredRole := requiredRole;
      user := None;
      loading := true;
    }

    function Decision(): Outcome
      reads this
    {
      Guard(loading, user, requiredRole)
    }

    /** The effect's `checkAuth`: the looked-up user is stored and loading ends. */
    method CheckAuth(current: Option<AuthUser>)
      modifies this
      ensures user == current && !loading
      ensures Decision() != ShowLoading
      ensures current.None? ==> Decision() == Redirect("/login")
    {
      user := current;
      loading := false;
    }
  }
}
