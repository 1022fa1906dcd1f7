/** The two route guards. Each reads only `isLoggedIn` from the session:
    `loading` plays no part, so there is no waiting state. */
module ProtectedRoute {

  /** What a guard renders: the wrapped page, or a replacing redirect. */
  datatype Outcome = Children | Redirect(to: string)

  const LoginPath := "/login"
  const DashboardPath := "/dashboard"

  /** `ProtectedRoute`: the page for a logged-in user, else off to the login page. */
  function Protected(isLoggedIn: bool): (o: Outcome)
    ensures o.Children? <==> isLoggedIn
    ensures !isLoggedIn ==> o == Redirect(LoginPath)
  {
    if isLoggedIn then Children else Redirect(LoginPath)
  }

  /** `PublicRoute`: the page for a visitor, else off to the dashboard. */
  function Public(isLoggedIn: bool): (o: Outcome)
    ensures o.Children? <==> !isLoggedIn
    ensures isLoggedIn ==> o == Redirect(DashboardPath)
  {
    if !isLoggedIn then Children else Redirect(DashboardPath)
  }

  /** Whatever the session, exactly one of the two guards lets its page through,
      and the other redirects. */
  lemma ExactlyOneGuardOpen(isLoggedIn: bool)
    ensures Protected(isLoggedIn).Children? != Public(isLoggedIn).Children?
    ensures Protected(isLoggedIn).Redirect? == Public(isLoggedIn).Children?
  {
  }
}
