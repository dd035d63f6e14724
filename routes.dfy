/**
 * The route guards and route table of src/App.js. A guard looks only at the session's
 * user and loading flag; the table maps a path to a guarded page or a redirect.
 */
module Routes {
  import opened Wrappers
  import opened Records

  const LoginPath: string := "/login"
  const DashboardPath: string := "/dashboard"

  /** What a guard renders: the loading screen, its children, or a <Navigate> to a path. */
  datatype Guarded = LoadingScreen | Children | Redirect(to: string)

  /** ProtectedRoute: children for a signed-in user, otherwise a redirect to the login page. */
  function ProtectedRoute(user: Option<User>, loading: bool): (g: Guarded)
    ensures loading ==> g == LoadingScreen
    ensures !loading ==> (g == Children <==> user.Some?)
    ensures !loading && user.None? ==> g == Redirect(LoginPath)
  {
    if loading then LoadingScreen
    else if user.Some? then Children
    else Redirect(LoginPath)
  }

  /** PublicRoute: children only while nobody is signed in, otherwise a redirect to the dashboard. */
  function PublicRoute(user: Option<User>, loading: bool): (g: Guarded)
    ensures loading ==> g == LoadingScreen
    ensures !loading ==> (g == Children <==> user.None?)
    ensures !loading && user.Some? ==> g == Redirect(DashboardPath)
  {
    if loading then LoadingScreen
    else if user.None? then Children
    else Redirect(DashboardPath)
  }

  /** Once the session is restored, exactly one of the two guards lets its children through. */
  lemma ExactlyOneGuardOpens(user: Option<User>, loading: bool)
    requires !loading
    ensures (ProtectedRoute(user, loading) == Children) != (PublicRoute(user, loading) == Children)
  {
  }

  datatype Page = LoginScreen | DashboardPage | HotelsPage | RoomsPage | BookingsPage

  /** What the router shows for a path: the loading screen, a page, or a redirect. */
  datatype Screen = Loading | Render(page: Page) | Navigate(to: string)

  function Through(g: Guarded, page: Page): Screen
  {
    match g
    case LoadingScreen => Loading
    case Children => Render(page)
    case Redirect(to) => Navigate(to)
  }

  /**
   * The route table: /login behind PublicRoute; "/" and its four children behind
   * ProtectedRoute, the index redirecting to /dashboard; every other path redirecting to
   * /dashboard unguarded.
   */
  function Resolve(path: string, user: Option<User>, loading: bool): (s: Screen)
    ensures path == LoginPath ==> s == Through(PublicRoute(user, loading), LoginScreen)
    ensures path == "/" && ProtectedRoute(user, loading) != Children ==> s == Through(ProtectedRoute(user, loading), DashboardPage)
    ensures path == "/" && !loading && user.Some? ==> s == Navigate(DashboardPath)
    ensures path == DashboardPath ==> s == Through(ProtectedRoute(user, loading), DashboardPage)
    ensures path == "/hotels" ==> s == Through(ProtectedRoute(user, loading), HotelsPage)
    ensures path == "/rooms" ==> s == Through(ProtectedRoute(user, loading), RoomsPage)
    ensures path == "/bookings" ==> s == Through(ProtectedRoute(user, loading), BookingsPage)
    ensures path !in {LoginPath, "/", DashboardPath, "/hotels", "/rooms", "/bookings"} ==> s == Navigate(DashboardPath)
  {
    if path == LoginPath then Through(PublicRoute(user, loading), LoginScreen)
    else if path == "/" then
      match ProtectedRoute(user, loading)
      case Children => Navigate(DashboardPath)
      case other => Through(other, DashboardPage)
    else if path == DashboardPath then Through(ProtectedRoute(user, loading), DashboardPage)
    else if path == "/hotels" then Through(ProtectedRoute(user, loading), HotelsPage)
    else if path == "/rooms" then Through(ProtectedRoute(user, loading), RoomsPage)
    else if path == "/bookings" then Through(ProtectedRoute(user, loading), BookingsPage)
    else Navigate(DashboardPath)
  }

  /** Follows at most `hops` redirects from `path` with the session already restored. */
  function Settle(path: string, user: Option<User>, hops: nat): Screen
    decreases hops
  {
    match Resolve(path, user, false)
    case Navigate(to) => if hops == 0 then Navigate(to) else Settle(to, user, hops - 1)
    case other => other
  }

  /** Nobody signed in: every path ends on the login page within two redirects. */
  lemma AnonymousEndsAtLogin(path: string)
    ensures Settle(path, None, 2) == Render(LoginScreen)
  {
    assert Settle(LoginPath, None, 0) == Render(LoginScreen);
    assert Settle(DashboardPath, None, 1) == Render(LoginScreen);
  }

  /** Someone signed in: every path ends on a page other than the login page within two redirects. */
  lemma SignedInEndsOnAPage(path: string, user: User)
    ensures Settle(path, Some(user), 2).Render?
    ensures Settle(path, Some(user), 2).page != LoginScreen
  {
    assert Settle(DashboardPath, Some(user), 0) == Render(DashboardPage);
    assert Settle(DashboardPath, Some(user), 1) == Render(DashboardPage);
  }
}
