/** The application's route tree: the `ProtectedRoute` gate, the
    `RouteGuard` prefix check over per-role route lists, the dashboard
    choice, and the element each location finally shows. */
module AppRoutes {
  import opened Common

  /** What a guard component renders: a spinner, a redirect, one of the two
      account-state notices, or its children; and, for a whole location, the
      view finally shown. */
  datatype Screen = Spinner
                  | Redirect(to: string)
                  | VerificationNotice
                  | PendingApprovalNotice
                  | Children
                  | Show(view: View)

  datatype View = LoginView | RegisterView | UnauthorizedView | PageView(page: Page)

  /** An unverified mentee or a mentor awaiting approval. */
  predicate AwaitingAccount(u: User) {
    (u.role == Mentee && !u.verified) || (u.role == Mentor && u.status == PendingApproval)
  }

  /** `ProtectedRoute`, with `roles` absent (`None`) or given. */
  function ProtectedRoute(loading: bool, user: Option<User>, roles: Option<seq<Role>>): (r: Screen)
    ensures loading ==> r == Spinner
    ensures !loading && user.None? ==> r == Redirect("/login")
    ensures !loading && user.Some? && user.value.role == Mentee && !user.value.verified ==>
              r == VerificationNotice
    ensures !loading && user.Some? && user.value.role == Mentor && user.value.status == PendingApproval ==>
              r == PendingApprovalNotice
    ensures r == Redirect("/unauthorized") <==>
              !loading && user.Some? && !AwaitingAccount(user.value)
              && roles.Some? && user.value.role !in roles.value
    ensures r == Children <==>
              !loading && user.Some? && !AwaitingAccount(user.value)
              && (roles.None? || user.value.role in roles.value)
  {
    if loading then Spinner
    else if user.None? then Redirect("/login")
    else if user.value.role == Mentee && !user.value.verified then VerificationNotice
    else if user.value.role == Mentor && user.value.status == PendingApproval then PendingApprovalNotice
    else if roles.Some? && user.value.role !in roles.value then Redirect("/unauthorized")
    else Children
  }

  /** The per-role route lists of the App's `getAccessibleRoutes`. */
  function AccessibleRoutes(role: Role): (r: seq<string>)
    ensures role.OtherRole? ==> r == []
  {
    match role
    case Admin => ["/admin", "/users", "/sessions", "/announcements",
                   "/calendar", "/resources", "/chat", "/profile", "/video-call"]
    case Mentor => ["/mentor", "/mentor/mentees", "/sessions", "/calendar",
                    "/resources", "/chat", "/profile", "/video-call"]
    case Mentee => ["/mentee", "/mentee/mentors", "/calendar", "/resources",
                    "/chat", "/profile", "/video-call"]
    case OtherRole(_) => []
  }

  /** `path === route || path.startsWith(route + '/')`. */
  predicate Admits(route: string, path: string) {
    path == route || route + "/" <= path
  }

  /** `routes.some(route => Admits(route, path))`. */
  function AnyAdmits(routes: seq<string>, path: string): (b: bool)
    ensures b <==> exists i :: 0 <= i < |routes| && Admits(routes[i], path)
  {
    if routes == [] then false
    else Admits(routes[0], path) || AnyAdmits(routes[1..], path)
  }

  /** `RouteGuard`: signed-in users pass when one of their role's routes
      admits the guarded path. */
  function RouteGuard(user: Option<User>, path: string): (r: Screen)
    ensures user.None? ==> r == Redirect("/login")
    ensures r == Children <==>
              user.Some? && exists i :: 0 <= i < |AccessibleRoutes(user.value.role)|
                                        && Admits(AccessibleRoutes(user.value.role)[i], path)
    ensures user.Some? && r != Children ==> r == Redirect("/unauthorized")
  {
    if user.None? then Redirect("/login")
    else if AnyAdmits(AccessibleRoutes(user.value.role), path) then Children
    else Redirect("/unauthorized")
  }

  /** Only a '/' boundary extends a route: "/menteeX" is not below "/mentee",
      while every "/mentee/..." is. */
  lemma PrefixNeedsSeparator(tail: string)
    ensures !Admits("/mentee", "/menteeX")
    ensures Admits("/mentee", "/mentee/" + tail)
  {
    assert "/mentee/" <= "/mentee/" + tail;
    assert "/menteeX"[7] == 'X';
  }

  /** `getDashboard()`. */
  function Dashboard(user: Option<User>): (r: string)
    ensures r in {"/login", "/admin", "/mentor", "/mentee"}
    ensures user.None? || user.value.role.OtherRole? <==> r == "/login"
  {
    if user.None? then "/login"
    else match user.value.role
      case Admin => "/admin"
      case Mentor => "/mentor"
      case Mentee => "/mentee"
      case OtherRole(_) => "/login"
  }

  /** The `roles` prop passed to each page's inner `ProtectedRoute`. */
  function DeclaredRoles(p: Page): Option<seq<Role>> {
    match p
    case AdminPage | UsersPage | AnnouncementsPage => Some([Admin])
    case MentorPage | MentorMenteesPage => Some([Mentor])
    case MenteePage | MenteeMentorsPage => Some([Mentee])
    case SessionsPage => Some([Admin, Mentor])
    case _ => None
  }

  /** A nested element: the outer one renders the inner one only when it
      renders its children. */
  function Nest(outer: Screen, inner: Screen): Screen {
    if outer == Children then inner else outer
  }

  /** The element each page's route renders inside the layout. */
  function PageElement(loading: bool, user: Option<User>, p: Page): Screen {
    Nest(RouteGuard(user, PagePath(p)),
         Nest(ProtectedRoute(loading, user, DeclaredRoles(p)), Show(PageView(p))))
  }

  /** What the router shows for a location (exact path matching). */
  function Route(loading: bool, user: Option<User>, path: string): (r: Screen)
    ensures r != Children
    ensures PageOf(path).None? && path !in {"/", "/login", "/register", "/unauthorized"} ==>
              r == Redirect("/")
  {
    var layout := ProtectedRoute(loading, user, None);
    match path
    case "/login" => if user.None? then Show(LoginView) else Redirect(Dashboard(user))
    case "/register" => if user.None? then Show(RegisterView) else Redirect(Dashboard(user))
    case "/unauthorized" => Show(UnauthorizedView)
    case "/" => Nest(layout, Redirect(Dashboard(user)))
    case _ =>
      match PageOf(path)
      case Some(p) => Nest(layout, PageElement(loading, user, p))
      case None => Redirect("/")
  }

  /** A page's location renders the layout around the page's element. */
  lemma RouteOfPage(loading: bool, user: Option<User>, p: Page)
    ensures Route(loading, user, PagePath(p))
              == Nest(ProtectedRoute(loading, user, None), PageElement(loading, user, p))
  {
    PageOfPath(p);
    assert PageOf("/login").None? && PageOf("/register").None?;
    assert PageOf("/unauthorized").None? && PageOf("/").None?;
  }

  /** The two public pages send a signed-in user to the dashboard. */
  lemma PublicPagesRedirectSignedIn(loading: bool, user: Option<User>)
    requires user.Some?
    ensures Route(loading, user, "/login") == Redirect(Dashboard(user))
    ensures Route(loading, user, "/register") == Redirect(Dashboard(user))
  {
  }

  /** An unverified mentee or a pending mentor sees the matching notice on
      every protected location, whatever the page's `roles` prop says. */
  lemma AwaitingAccountSeesNotice(u: User, p: Page)
    requires AwaitingAccount(u)
    ensures Route(false, Some(u), PagePath(p)) in {VerificationNotice, PendingApprovalNotice}
    ensures Route(false, Some(u), "/") in {VerificationNotice, PendingApprovalNotice}
  {
    PageOfPath(p);
  }

  /** For the three known roles, the route lists admit a page's path exactly
      when that page's `roles` prop lets the role through. */
  lemma {:induction false} GuardAgreesWithRolesProp(u: User, p: Page)
    requires !u.role.OtherRole?
    ensures RouteGuard(Some(u), PagePath(p)) == Children <==>
              (DeclaredRoles(p).None? || u.role in DeclaredRoles(p).value)
  {
    var routes := AccessibleRoutes(u.role);
    var path := PagePath(p);
    if DeclaredRoles(p).None? || u.role in DeclaredRoles(p).value {
      assert path in routes;
      var i :| 0 <= i < |routes| && routes[i] == path;
      assert Admits(routes[i], path);
    } else {
      forall i | 0 <= i < |routes|
        ensures !Admits(routes[i], path)
      {
        NotBelowAnotherRole(u.role, p, i);
      }
    }
  }

  /** The only page paths that extend another path by a '/' boundary. */
  lemma SlashPrefixOfPage(route: string, p: Page)
    requires route != []
    ensures route + "/" <= PagePath(p) ==>
              (p == MentorMenteesPage && route == "/mentor")
              || (p == MenteeMentorsPage && route == "/mentee")
  {
    var path := PagePath(p);
    if route + "/" <= path {
      assert path[|route|] == '/';
      SlashesOfPage(p, |route|);
      assert route == path[..7];
    }
  }

  /** No route of a role extends the path of a page that role may not open. */
  lemma NotBelowAnotherRole(role: Role, p: Page, i: int)
    requires !role.OtherRole?
    requires DeclaredRoles(p).Some? && role !in DeclaredRoles(p).value
    requires 0 <= i < |AccessibleRoutes(role)|
    ensures !Admits(AccessibleRoutes(role)[i], PagePath(p))
  {
    var route := AccessibleRoutes(role)[i];
    assert route != [];
    SlashPrefixOfPage(route, p);
  }

  /** A role outside the three known ones passes no `RouteGuard`, even on the
      pages whose `ProtectedRoute` has no `roles` prop. */
  lemma UnknownRoleDeniedEverywhere(u: User, path: string)
    requires u.role.OtherRole?
    ensures RouteGuard(Some(u), path) == Redirect("/unauthorized")
    ensures Dashboard(Some(u)) == "/login"
  {
  }
}
