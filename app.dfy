/** The application's route table: each path, the guard wrapping it and the
    page it renders. */
module App {
  import opened Http
  import opened ProtectedRoute

  datatype Guard = PublicGuard | ProtectedGuard

  datatype Page = Landing | LoginPage | EnrollPage | Dashboard | ForgotPassword | ResetPassword

  datatype Route = Route(path: string, guard: Guard, page: Page)

  /** The `<Routes>` block, in declaration order. */
  const Routes: seq<Route> := [
    Route("/", PublicGuard, Landing),
    Route("/login", PublicGuard, LoginPage),
    Route("/enroll", PublicGuard, EnrollPage),
    Route("/dashboard", ProtectedGuard, Dashboard),
    Route("/profile", ProtectedGuard, Dashboard),
    Route("/forgot-password", PublicGuard, ForgotPassword),
    Route("/reset-password", PublicGuard, ResetPassword)
  ]

  /** The route that matches `path`, searching from the first declared. */
  function Lookup(routes: seq<Route>, path: string): (r: Option<Route>)
    ensures r.Some? ==> r.value in routes && r.value.path == path
    ensures r.None? <==> forall i :: 0 <= i < |routes| ==> routes[i].path != path
  {
    if routes == [] then None
    else if routes[0].path == path then Some(routes[0])
    else Lookup(routes[1..], path)
  }

  /** The guard's decision for a route, given whether someone is logged in. */
  function Guarded(route: Route, isLoggedIn: bool): (o: Outcome)
    ensures o.Children? <==> (route.guard == ProtectedGuard <==> isLoggedIn)
  {
    match route.guard
    case PublicGuard => Public(isLoggedIn)
    case ProtectedGuard => Protected(isLoggedIn)
  }

  /** What visiting `path` shows: the page, after following the guard's
      redirect once when there is one; `None` for an undeclared path. */
  function Visit(path: string, isLoggedIn: bool): Option<Page> {
    match Lookup(Routes, path)
    case None => None
    case Some(route) =>
      match Guarded(route, isLoggedIn)
      case Children => Some(route.page)
      case Redirect(to) =>
        match Lookup(Routes, to)
        case None => None
        case Some(target) =>
          if Guarded(target, isLoggedIn).Children? then Some(target.page) else None
  }

  /** Seven routes, no path declared twice; `/dashboard` and `/profile` are the
      protected ones and both render the dashboard. */
  lemma RouteTableShape()
    ensures |Routes| == 7
    ensures forall i, j :: 0 <= i < j < |Routes| ==> Routes[i].path != Routes[j].path
    ensures forall i :: 0 <= i < |Routes| ==>
      (Routes[i].guard == ProtectedGuard <==> Routes[i].path in {"/dashboard", "/profile"})
    ensures forall i :: 0 <= i < |Routes| && Routes[i].guard == ProtectedGuard ==> Routes[i].page == Dashboard
  {
  }

  /** Every declared path shows a page for every session, and the redirects
      settle in one step: logged-out visitors of a protected path get the
      login page, logged-in visitors of a public path get the dashboard. */
  lemma RedirectsSettleInOneStep(i: nat, isLoggedIn: bool)
    requires i < |Routes|
    ensures Visit(Routes[i].path, isLoggedIn).Some?
    ensures Routes[i].guard == ProtectedGuard && !isLoggedIn ==> Visit(Routes[i].path, isLoggedIn) == Some(LoginPage)
    ensures Routes[i].guard == PublicGuard && isLoggedIn ==> Visit(Routes[i].path, isLoggedIn) == Some(Dashboard)
    ensures Guarded(Routes[i], isLoggedIn).Children? ==> Visit(Routes[i].path, isLoggedIn) == Some(Routes[i].page)
  {
    RouteTableShape();
    LookupFindsFirst(Routes, i);
    VisitDeclared(Routes[i], isLoggedIn);
  }

  /** Visiting a declared route: its page when the guard lets it through, else
      the page of the redirect target. */
  lemma VisitDeclared(route: Route, isLoggedIn: bool)
    requires Lookup(Routes, route.path) == Some(route)
    ensures Guarded(route, isLoggedIn).Children? ==> Visit(route.path, isLoggedIn) == Some(route.page)
    ensures route.guard == ProtectedGuard && !isLoggedIn ==> Visit(route.path, isLoggedIn) == Some(LoginPage)
    ensures route.guard == PublicGuard && isLoggedIn ==> Visit(route.path, isLoggedIn) == Some(Dashboard)
  {
    RedirectTargets();
  }

  /** The two redirect targets are declared: `/login` as the second route and
      `/dashboard` as the fourth. */
  lemma RedirectTargets()
    ensures Lookup(Routes, LoginPath) == Some(Routes[1])
    ensures Lookup(Routes, DashboardPath) == Some(Routes[3])
  {
    RouteTableShape();
    LookupFindsFirst(Routes, 1);
    LookupFindsFirst(Routes, 3);
  }

  /** With distinct paths, looking up the path of the `i`-th route finds it. */
  lemma {:induction false} LookupFindsFirst(routes: seq<Route>, i: nat)
    requires i < |routes|
    requires forall j :: 0 <= j < i ==> routes[j].path != routes[i].path
    ensures Lookup(routes, routes[i].path) == Some(routes[i])
  {
    if i > 0 {
      LookupFindsFirst(routes[1..], i - 1);
    }
  }
}
