/** The guard in front of the admin dashboard. */
module PrivateRoute {
  import opened Wrappers
  import Auth

  datatype Gate = Spinner | RedirectToLogin | Dashboard

  const AdminRole: string := "admin"

  function Decide(loading: bool, user: Option<Auth.User>, role: Option<string>): (g: Gate)
    ensures loading <==> g == Spinner
    ensures g == Dashboard <==> !loading && user.Some? && role == Some(AdminRole)
    ensures g == RedirectToLogin <==> !loading && (user.None? || role != Some(AdminRole))
  {
    if loading then Spinner
    else if user.None? || role != Some(AdminRole) then RedirectToLogin
    else Dashboard
  }

  /** The guard is drawn only as a child of the authentication provider,
      which hides its children while loading: the spinner never shows, and
      the dashboard opens exactly for a signed-in user whose role on show is
      "admin". That role is the user's own only once their lookup settled
      (`StaleRoleWindow`). */
  lemma GuardUnderProvider(p: Auth.AuthProvider)
    requires p.ChildrenShown()
    ensures Decide(p.loading, p.currentUser, p.userRole) != Spinner
    ensures Decide(p.loading, p.currentUser, p.userRole) == Dashboard <==>
      p.currentUser.Some? && p.userRole == Some(AdminRole)
  {
  }

  /** A second user signing in without a sign-out in between: until their
      own lookup settles, the guard still sees the first user's "admin" role
      and opens the dashboard for the second user, who has no record. Once
      that lookup settles the guard redirects. */
  method StaleRoleWindow(a: Auth.User, b: Auth.User) returns (during: Gate, after: Gate)
    requires a != b
    ensures during == Dashboard
    ensures after == RedirectToLogin
  {
    var p := new Auth.AuthProvider();
    p.OnAuthStateChanged(Some(a), Auth.Record(Some(AdminRole)));
    p.UserChanged(Some(b));
    assert !p.RoleCurrent();
    during := Decide(p.loading, p.currentUser, p.userRole);
    p.RoleSettled(b, Auth.NoRecord);
    after := Decide(p.loading, p.currentUser, p.userRole);
  }

  /** A user without a `users` record, or with any role but exactly
      "admin", is sent to the login page. */
  lemma NoDefaultAdmin(user: Auth.User, role: Option<string>)
    requires role != Some(AdminRole)
    ensures Decide(false, Some(user), role) == RedirectToLogin
    ensures Decide(false, Some(user), None) == RedirectToLogin
    ensures Decide(false, Some(user), Some("Admin")) == RedirectToLogin
  {
  }
}
