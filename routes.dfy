/**
 * The route guard (src/App.tsx, `AppRoutes`): what the application shows
 * for a path, given the identity and the loading flag of the session.
 */
module Routes {
  import opened Wrappers
  import opened Entities

  datatype Page = LoginPage | RegisterPage | DashboardPage | GroupsPage | ExpensesPage | ProfilePage | InvitationsPage

  /**
   * A spinner, a page (inside the shared layout or not), a redirect, or
   * nothing at all for a path no route matches.
   */
  datatype Outcome = Spinner | Render(page: Page, inLayout: bool) | Redirect(to: string) | NoMatch

  const LoginPath := "/login"
  const DashboardPath := "/dashboard"

  /** The pages that need an identity; they are also the ones inside the layout. */
  predicate IsProtected(p: Page) {
    !(p.LoginPage? || p.RegisterPage?)
  }

  /** The path a page is mounted at. */
  function PathOf(p: Page): string {
    match p
    case LoginPage => LoginPath
    case RegisterPage => "/register"
    case DashboardPage => DashboardPath
    case GroupsPage => "/groups"
    case ExpensesPage => "/expenses"
    case ProfilePage => "/profile"
    case InvitationsPage => "/invitations"
  }

  /** The page mounted at exactly `path`, if any. */
  function PageAt(path: string): (r: Option<Page>)
    ensures r.Some? ==> PathOf(r.value) == path
  {
    if path == LoginPath then Some(LoginPage)
    else if path == "/register" then Some(RegisterPage)
    else if path == DashboardPath then Some(DashboardPage)
    else if path == "/groups" then Some(GroupsPage)
    else if path == "/expenses" then Some(ExpensesPage)
    else if path == "/profile" then Some(ProfilePage)
    else if path == "/invitations" then Some(InvitationsPage)
    else None
  }

  /** Every page is reachable at its own path, and only there. */
  lemma PageAtPathOf(p: Page, path: string)
    ensures PageAt(PathOf(p)) == Some(p)
    ensures PageAt(path) == Some(p) <==> path == PathOf(p)
  {
  }

  /** Where a visitor in the wrong state is sent. */
  function Elsewhere(user: Option<User>): (r: string)
    ensures r == DashboardPath <==> user.Some?
    ensures r == LoginPath <==> user.None?
  {
    if user.Some? then DashboardPath else LoginPath
  }

  function AppRoutes(path: string, user: Option<User>, loading: bool): (r: Outcome)
    ensures loading <==> r == Spinner
    ensures r.Render? ==> PageAt(path) == Some(r.page) && r.inLayout == IsProtected(r.page)
    ensures r.Render? ==> (IsProtected(r.page) <==> user.Some?)
    ensures !loading && PageAt(path).Some? ==> (r.Render? <==> (IsProtected(PageAt(path).value) <==> user.Some?))
    ensures r.Redirect? ==> r.to == Elsewhere(user) && r.to != path
    ensures r.NoMatch? <==> !loading && PageAt(path).None? && path != "/"
    ensures !loading && path == "/" ==> r == Redirect(Elsewhere(user))
  {
    if loading then Spinner
    else if path == "/" then Redirect(Elsewhere(user))
    else
      match PageAt(path)
      case None => NoMatch
      case Some(p) =>
        if IsProtected(p) == user.Some? then Render(p, IsProtected(p))
        else Redirect(Elsewhere(user))
  }

  /** No protected page is ever shown without an identity. */
  lemma NoProtectedPageWithoutUser(path: string, loading: bool)
    ensures var r := AppRoutes(path, None, loading);
            r.Render? ==> !IsProtected(r.page)
  {
  }

  /** Every redirect lands, in one hop, on a page that is shown. */
  lemma RedirectSettles(path: string, user: Option<User>, loading: bool)
    requires AppRoutes(path, user, loading).Redirect?
    ensures AppRoutes(AppRoutes(path, user, loading).to, user, loading).Render?
  {
  }

  /**
   * The detail links the pages render (`/groups/<id>`, `/expenses/<id>`,
   * `/expenses/new?group=<id>`) have no route of their own: with the session
   * loaded, any path below `/groups/` or `/expenses/` matches nothing.
   */
  lemma DetailPathsUnrouted(tail: string, user: Option<User>)
    ensures AppRoutes("/groups/" + tail, user, false) == NoMatch
    ensures AppRoutes("/expenses/" + tail, user, false) == NoMatch
  {
    var g := "/groups/" + tail;
    var e := "/expenses/" + tail;
    assert g[1] == 'g' && g[7] == '/' && |g| >= 8;
    assert e[1] == 'e' && e[9] == '/' && |e| >= 10;
    assert g != "/groups" && e != "/expenses";
  }

  /** The outcome depends on the identity only through whether there is one. */
  lemma OnlyPresenceMatters(path: string, a: User, b: User, loading: bool)
    ensures AppRoutes(path, Some(a), loading) == AppRoutes(path, Some(b), loading)
  {
  }
}
