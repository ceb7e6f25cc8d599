/**
 * The route guards and the route table of `src/App.tsx`: what the router
 * shows for a path given the authentication state.
 */
module Routes {
  import opened Wrappers
  import opened Types

  /**
   * A router location: its path and, when a redirect put it there, the
   * location the visitor came from (`state.from`).
   */
  datatype Location = Location(pathname: string, from: Option<Location>)

  datatype Page = IndexPage | LoginPage | SignupPage | DashboardPage | TripLoggingPage | AdminDashboardPage | NotFoundPage

  /** What a guard returns: the loading screen, a `<Navigate replace>`, or the page. */
  datatype View = Loading | Redirect(to: string, from: Option<Location>) | Render(page: Page)

  /** The landing page of a signed-in visitor. */
  const Landing := "/dashboard"
  const LoginPath := "/login"

  /** `ProtectedRoute`: signed-in visitors only; others go to the login page, remembering where they were. */
  function ProtectedRoute(auth: AuthData, loc: Location, child: Page): (v: View)
    ensures v.Loading? <==> auth.isLoading
    ensures v.Render? <==> !auth.isLoading && auth.user.Some?
    ensures v.Render? ==> v.page == child
    ensures v.Redirect? ==> v == Redirect(LoginPath, Some(loc))
  {
    if auth.isLoading then Loading
    else if auth.user.None? then Redirect(LoginPath, Some(loc))
    else Render(child)
  }

  /** `AdminRoute`: admins only; everybody else goes to the landing page, never to the login page. */
  function AdminRoute(auth: AuthData, loc: Location, child: Page): (v: View)
    ensures v.Loading? <==> auth.isLoading
    ensures v.Render? <==> !auth.isLoading && auth.user.Some? && auth.isAdmin
    ensures v.Render? ==> v.page == child
    ensures v.Redirect? ==> v == Redirect(Landing, Some(loc))
  {
    if auth.isLoading then Loading
    else if auth.user.None? || !auth.isAdmin then Redirect(Landing, Some(loc))
    else Render(child)
  }

  /** `location.state?.from?.pathname || '/dashboard'`. */
  function ReturnPath(loc: Location): (path: string)
    ensures loc.from.Some? && loc.from.value.pathname != "" ==> path == loc.from.value.pathname
    ensures loc.from.None? || loc.from.value.pathname == "" ==> path == Landing
  {
    if loc.from.Some? && loc.from.value.pathname != "" then loc.from.value.pathname else Landing
  }

  /** `PublicRoute`: visitors who are not signed in; signed-in ones go back where they came from. */
  function PublicRoute(auth: AuthData, loc: Location, child: Page): (v: View)
    ensures v.Loading? <==> auth.isLoading
    ensures v.Render? <==> !auth.isLoading && auth.user.None?
    ensures v.Render? ==> v.page == child
    ensures v.Redirect? ==> v == Redirect(ReturnPath(loc), None)
  {
    if auth.isLoading then Loading
    else if auth.user.Some? then Redirect(ReturnPath(loc), None)
    else Render(child)
  }

  /** `IndexRoute`: the public home page, or the landing page for a signed-in visitor. */
  function IndexRoute(auth: AuthData): (v: View)
    ensures v.Loading? <==> auth.isLoading
    ensures v.Render? <==> !auth.isLoading && auth.user.None?
    ensures v.Render? ==> v.page == IndexPage
    ensures v.Redirect? ==> v == Redirect(Landing, None)
  {
    if auth.isLoading then Loading
    else if auth.user.Some? then Redirect(Landing, None)
    else Render(IndexPage)
  }

  datatype Guard = Protected | AdminOnly | PublicOnly | IndexOnly | Unguarded

  /** `AppRoutes`: the guard and page of each path; any other path is the not-found page. */
  function RouteFor(path: string): (Guard, Page)
  {
    if path == "/" then (IndexOnly, IndexPage)
    else if path == "/login" then (PublicOnly, LoginPage)
    else if path == "/signup" then (PublicOnly, SignupPage)
    else if path == "/dashboard" then (Protected, DashboardPage)
    else if path == "/dashboard/trips" then (Protected, TripLoggingPage)
    else if path == "/admin" then (AdminOnly, AdminDashboardPage)
    else (Unguarded, NotFoundPage)
  }

  /** What the application shows at `loc`. */
  function Show(auth: AuthData, loc: Location): View
  {
    var (guard, page) := RouteFor(loc.pathname);
    match guard
    case Protected => ProtectedRoute(auth, loc, page)
    case AdminOnly => AdminRoute(auth, loc, page)
    case PublicOnly => PublicRoute(auth, loc, page)
    case IndexOnly => IndexRoute(auth)
    case Unguarded => Render(page)
  }

  /** The route table: which guard stands in front of which page. */
  lemma RouteTable(path: string)
    ensures path == "/dashboard" || path == "/dashboard/trips" <==> RouteFor(path).0 == Protected
    ensures path == "/admin" <==> RouteFor(path).0 == AdminOnly
    ensures path == "/login" || path == "/signup" <==> RouteFor(path).0 == PublicOnly
    ensures path == "/" <==> RouteFor(path).0 == IndexOnly
    ensures RouteFor(path).0 == Unguarded <==> RouteFor(path).1 == NotFoundPage
  {
  }

  /** While the state is resolving, every guarded path shows the loading screen and never redirects. */
  lemma LoadingNeverRedirects(auth: AuthData, loc: Location)
    requires auth.isLoading
    ensures Show(auth, loc) == Loading || Show(auth, loc) == Render(NotFoundPage)
    ensures RouteFor(loc.pathname).0 != Unguarded ==> Show(auth, loc) == Loading
  {
  }

  /** The admin page renders only for a resolved admin, the driver pages only for a resolved user. */
  lemma PagesRenderOnlyForAdmitted(auth: AuthData, loc: Location)
    ensures Show(auth, loc) == Render(AdminDashboardPage) ==> !auth.isLoading && auth.user.Some? && auth.isAdmin
    ensures Show(auth, loc) == Render(DashboardPage) || Show(auth, loc) == Render(TripLoggingPage)
      ==> !auth.isLoading && auth.user.Some?
    ensures Show(auth, loc) == Render(LoginPage) || Show(auth, loc) == Render(SignupPage)
      ==> !auth.isLoading && auth.user.None?
  {
  }

  /** The admin guard never sends anybody to the login page. */
  lemma AdminNeverSendsToLogin(auth: AuthData, loc: Location)
    requires loc.pathname == "/admin"
    ensures Show(auth, loc).Redirect? ==> Show(auth, loc).to == Landing
    ensures !auth.isLoading && auth.user.Some? && !auth.isAdmin ==> Show(auth, loc) == Redirect(Landing, Some(loc))
  {
  }

  /**
   * The login round trip: a visitor bounced from a driver page to the login
   * page is, once signed in, sent back to the page they asked for.
   */
  lemma LoginReturnsToRequestedPage(out: AuthData, signedIn: AuthData, loc: Location)
    requires RouteFor(loc.pathname).0 == Protected
    requires !out.isLoading && out.user.None?
    requires !signedIn.isLoading && signedIn.user.Some?
    ensures Show(out, loc) == Redirect(LoginPath, Some(loc))
    ensures Show(signedIn, Location(Show(out, loc).to, Show(out, loc).from)) == Redirect(loc.pathname, None)
  {
    var back := Location(LoginPath, Some(loc));
    assert RouteFor(back.pathname).0 == PublicOnly;
  }

  /** The abstraction of the state the guards read. */
  function GuardView(auth: AuthData): (bool, bool, bool)
  {
    (auth.isLoading, auth.user.Some?, auth.isAdmin)
  }

  /** Each guard reads only loading, user presence, the admin flag and the location. */
  lemma ShowDependsOnlyOnGuardView(a: AuthData, b: AuthData, loc: Location)
    requires GuardView(a) == GuardView(b)
    ensures Show(a, loc) == Show(b, loc)
  {
  }
}
