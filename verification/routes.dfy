/** The application's route table: every path either renders a page or
    redirects, depending on whether someone is signed in and on the resolved
    user type. */
module Routes {
  import opened Wrappers

  /** `getDefaultRoute`: the home path of a user type; an absent or empty
      type goes to the sign-in path. */
  function DefaultRoute(userType: Option<string>): (p: string)
    ensures userType.None? || userType.value == "" ==> p == "/auth"
    ensures userType == Some("admin") ==> p == "/admin"
    ensures userType == Some("provider") ==> p == "/business"
    ensures userType.Some? && userType.value !in {"", "admin", "provider"} ==> p == "/services"
  {
    if userType.None? || userType.value == "" then "/auth"
    else if userType.value == "admin" then "/admin"
    else if userType.value == "provider" then "/business"
    else "/services"
  }

  /** The pages the table can render. */
  datatype Page = LoginForm | ServicesPage | ServiceDetailPage | MyBookingsPage
                | ProviderBookingsPage | BusinessPage | AdminPage

  /** What the table produces for one path. */
  datatype View = Loading | Render(page: Page) | Redirect(to: string)

  /** Which route entry a path matches. */
  datatype RouteEntry = RootEntry | Guarded(page: Page, role: string) | CatchAll

  /** `/service/:id`: the prefix and one non-empty segment. */
  predicate IsServiceDetailPath(path: string) {
    |path| > 9 && path[..9] == "/service/" && '/' !in path[9..]
  }

  function MatchRoute(path: string): (e: RouteEntry)
    ensures e.Guarded? ==> e.role in {"user", "provider", "admin"} && e.page != LoginForm
  {
    if path == "/" then RootEntry
    else if path == "/services" then Guarded(ServicesPage, "user")
    else if IsServiceDetailPath(path) then Guarded(ServiceDetailPage, "user")
    else if path == "/my-bookings" then Guarded(MyBookingsPage, "user")
    else if path == "/provider/bookings" then Guarded(ProviderBookingsPage, "provider")
    else if path == "/business" then Guarded(BusinessPage, "provider")
    else if path == "/admin" then Guarded(AdminPage, "admin")
    else CatchAll
  }

  /** The route table once loading has finished. */
  function Route(signedIn: bool, userType: Option<string>, path: string): (v: View)
    ensures v != Loading
    ensures !signedIn ==> v == (if path == "/" then Render(LoginForm) else Redirect("/"))
    ensures signedIn && path == "/" ==> v == Redirect(DefaultRoute(userType))
    ensures MatchRoute(path).CatchAll? ==> v == Redirect("/")
    ensures signedIn && MatchRoute(path).Guarded? ==>
              v == (if userType == Some(MatchRoute(path).role) then Render(MatchRoute(path).page)
                    else Redirect(DefaultRoute(userType)))
  {
    match MatchRoute(path)
    case RootEntry => if signedIn then Redirect(DefaultRoute(userType)) else Render(LoginForm)
    case Guarded(page, role) =>
      if !signedIn then Redirect("/")
      else if userType == Some(role) then Render(page)
      else Redirect(DefaultRoute(userType))
    case CatchAll => Redirect("/")
  }

  /** `AppRoutes`: nothing is decided while the session is loading. */
  function AppView(loading: bool, signedIn: bool, userType: Option<string>, path: string): (v: View)
    ensures loading <==> v == Loading
    ensures !loading ==> v == Route(signedIn, userType, path)
  {
    if loading then Loading else Route(signedIn, userType, path)
  }

  /** Each guarded path renders for exactly one user type; any other type is
      sent to its home path. */
  lemma GuardedPathsOneRole(path: string, userType: Option<string>)
    requires MatchRoute(path).Guarded?
    ensures Route(true, userType, path).Render? <==> userType == Some(MatchRoute(path).role)
    ensures !Route(true, userType, path).Render? ==> Route(true, userType, path) == Redirect(DefaultRoute(userType))
    ensures !Route(false, userType, path).Render?
  {
  }

  /** The paths each known role sees, over all paths: a customer the
      catalogue, every listing's detail page and the bookings page; a
      provider the dashboard and the booking requests; the administrator the
      admin page alone. Every other path redirects. */
  lemma PagesPerRole(p: string)
    ensures Route(true, Some("user"), p).Render? <==>
              p == "/services" || p == "/my-bookings" || IsServiceDetailPath(p)
    ensures Route(true, Some("user"), p) == Render(ServiceDetailPage) <==> IsServiceDetailPath(p)
    ensures Route(true, Some("provider"), p).Render? <==> p == "/provider/bookings" || p == "/business"
    ensures Route(true, Some("admin"), p).Render? <==> p == "/admin"
  {
    assert "/my-bookings"[..9] == "/my-booki";
    assert "/provider/bookings"[..9] == "/provider";
  }

  lemma RouteTableExamples(t: Option<string>)
    ensures MatchRoute("/services") == Guarded(ServicesPage, "user")
    ensures MatchRoute("/service/42") == Guarded(ServiceDetailPage, "user")
    ensures MatchRoute("/my-bookings") == Guarded(MyBookingsPage, "user")
    ensures MatchRoute("/provider/bookings") == Guarded(ProviderBookingsPage, "provider")
    ensures MatchRoute("/business") == Guarded(BusinessPage, "provider")
    ensures MatchRoute("/admin") == Guarded(AdminPage, "admin")
    ensures Route(true, t, "/auth") == Redirect("/")
    ensures MatchRoute("/service/") == CatchAll && MatchRoute("/service/4/2") == CatchAll
  {
    assert "/service/42"[..9] == "/service/";
    assert "/my-bookings"[..9] == "/my-booki";
    assert "/provider/bookings"[..9] == "/provider";
    assert "/service/4/2"[9..] == "4/2";
  }

  /** Follows redirects at most `fuel` times; `None` when no page has been
      rendered by then. */
  function Chase(signedIn: bool, userType: Option<string>, path: string, fuel: nat): Option<Page>
    decreases fuel
  {
    match Route(signedIn, userType, path)
    case Render(p) => Some(p)
    case Redirect(to) => if fuel == 0 then None else Chase(signedIn, userType, to, fuel - 1)
    case Loading => None
  }

  /** The user types the application knows. */
  predicate ClosedRole(userType: Option<string>) {
    userType == Some("user") || userType == Some("provider") || userType == Some("admin")
  }

  /** The page a closed role's home path renders. */
  function HomePage(userType: Option<string>): (p: Page)
    requires ClosedRole(userType)
    ensures Route(true, userType, DefaultRoute(userType)) == Render(p)
  {
    if userType == Some("user") then ServicesPage
    else if userType == Some("provider") then BusinessPage
    else AdminPage
  }

  /** Signed out, every path ends at the login form after at most one
      redirect. */
  lemma SignedOutReachesLogin(userType: Option<string>, path: string)
    ensures Chase(false, userType, path, 1) == Some(LoginForm)
  {
  }

  /** Signed in with a closed role, every path renders a page within two
      redirects: its own page if the role may see it, the role's home page
      otherwise. */
  lemma ClosedRolesTerminate(userType: Option<string>, path: string)
    requires ClosedRole(userType)
    ensures Chase(true, userType, path, 2) ==
              (if Route(true, userType, path).Render? then Some(Route(true, userType, path).page)
               else Some(HomePage(userType)))
  {
    var home := DefaultRoute(userType);
    assert Route(true, userType, home) == Render(HomePage(userType));
    match Route(true, userType, path)
    case Render(p) =>
    case Redirect(to) =>
      if to == "/" {
        assert Route(true, userType, "/") == Redirect(home);
      } else {
        assert to == home;
      }
    case Loading =>
  }

  /** Following a redirect does not change where a closed role ends up. */
  lemma RedirectIdempotent(userType: Option<string>, path: string)
    requires ClosedRole(userType)
    requires Route(true, userType, path).Redirect?
    ensures Chase(true, userType, Route(true, userType, path).to, 2) == Chase(true, userType, path, 2)
  {
    ClosedRolesTerminate(userType, path);
    ClosedRolesTerminate(userType, Route(true, userType, path).to);
  }

  /** Signed in without a closed role, no path ever renders: the table keeps
      redirecting (`/` to `/auth` to `/` for an absent type, `/services` to
      itself for an unrecognised one). */
  lemma {:induction false} OpenRolesNeverRender(userType: Option<string>, path: string, fuel: nat)
    requires !ClosedRole(userType)
    ensures Chase(true, userType, path, fuel) == None
    decreases fuel
  {
    assert Route(true, userType, path).Redirect?;
    if fuel > 0 {
      OpenRolesNeverRender(userType, Route(true, userType, path).to, fuel - 1);
    }
  }

  /** Signed in, the redirects end in a page iff the role is closed. */
  lemma TerminatesIffClosedRole(userType: Option<string>, path: string)
    ensures Chase(true, userType, path, 2).Some? <==> ClosedRole(userType)
  {
    if ClosedRole(userType) {
      ClosedRolesTerminate(userType, path);
    } else {
      OpenRolesNeverRender(userType, path, 2);
    }
  }

  lemma RedirectLoops()
    ensures Route(true, None, "/") == Redirect("/auth") && Route(true, None, "/auth") == Redirect("/")
    ensures Route(true, Some("guest"), "/services") == Redirect("/services")
  {
  }
}
