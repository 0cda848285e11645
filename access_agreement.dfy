/** The application states who may open which page in three places: the
    route tree's `roles` props and per-role route lists, the route-guard
    hook's permission table, and the sidebar menus. These lemmas relate
    them. */
module AccessAgreement {
  import opened Common
  import RouteGuardHook
  import AppRoutes
  import Sidebar

  /** A signed-in user of a known role whose account is in good standing. */
  predicate GoodStanding(u: User) {
    !u.role.OtherRole? && !AppRoutes.AwaitingAccount(u)
  }

  /** The route lists and the permission table name the same pages for each
      known role. */
  lemma RouteListsMatchPermissionTable(role: Role, p: Page)
    requires !role.OtherRole?
    ensures PagePath(p) in AppRoutes.AccessibleRoutes(role) <==> role in RouteGuardHook.RequiredRoles(p)
  {
    var routes := AppRoutes.AccessibleRoutes(role);
    if PagePath(p) in routes {
      var i :| 0 <= i < |routes| && routes[i] == PagePath(p);
      PageOfPath(p);
      RouteEntryPermitted(role, i);
    }
    if role in RouteGuardHook.RequiredRoles(p) {
      var i := RouteIndex(role, p);
      assert routes[i] in routes;
    }
  }

  /** Each entry of a role's route list is the path of a page the table
      admits for the role. */
  lemma RouteEntryPermitted(role: Role, i: int)
    requires 0 <= i < |AppRoutes.AccessibleRoutes(role)|
    ensures PageOf(AppRoutes.AccessibleRoutes(role)[i]).Some?
    ensures role in RouteGuardHook.RequiredRoles(PageOf(AppRoutes.AccessibleRoutes(role)[i]).value)
  {
  }

  /** Where `p`'s path sits in the role's route list. */
  function RouteIndex(role: Role, p: Page): (i: int)
    requires !role.OtherRole?
    requires role in RouteGuardHook.RequiredRoles(p)
    ensures 0 <= i < |AppRoutes.AccessibleRoutes(role)| && AppRoutes.AccessibleRoutes(role)[i] == PagePath(p)
  {
    match p
    case AdminPage | MentorPage | MenteePage => 0
    case UsersPage | MentorMenteesPage | MenteeMentorsPage => 1
    case SessionsPage => 2
    case AnnouncementsPage => 3
    case CalendarPage => if role == Admin then 4 else if role == Mentor then 3 else 2
    case ResourcesPage => if role == Admin then 5 else if role == Mentor then 4 else 3
    case ChatPage => if role == Admin then 6 else if role == Mentor then 5 else 4
    case ProfilePage => if role == Admin then 7 else if role == Mentor then 6 else 5
    case VideoCallPage => if role == Admin then 8 else if role == Mentor then 7 else 6
  }

  /** Where a page's `ProtectedRoute` names roles it names the table's
      roles; where it names none the table lists every known role. */
  lemma RolesPropMatchesPermissionTable(p: Page)
    ensures AppRoutes.DeclaredRoles(p).Some? ==>
              AppRoutes.DeclaredRoles(p).value == RouteGuardHook.RequiredRoles(p)
    ensures AppRoutes.DeclaredRoles(p).None? ==>
              RouteGuardHook.RequiredRoles(p) == [Admin, Mentor, Mentee]
  {
  }

  /** For a user in good standing, a page's location shows the page exactly
      when the permission table admits the role, and otherwise redirects to
      /unauthorized. */
  lemma RouteShowsPermittedPages(u: User, p: Page)
    requires GoodStanding(u)
    ensures (AppRoutes.Route(false, Some(u), PagePath(p)) == AppRoutes.Show(AppRoutes.PageView(p)))
              <==> u.role in RouteGuardHook.RequiredRoles(p)
    ensures u.role !in RouteGuardHook.RequiredRoles(p) ==>
              AppRoutes.Route(false, Some(u), PagePath(p)) == AppRoutes.Redirect("/unauthorized")
  {
    AppRoutes.RouteOfPage(false, Some(u), p);
    AppRoutes.GuardAgreesWithRolesProp(u, p);
    RolesPropMatchesPermissionTable(p);
  }

  /** The exact entry of a page's path is the page's table entry. */
  lemma ExactEntryOfPage(role: Role, p: Page)
    ensures RouteGuardHook.Excludes(PagePath(p), role) <==> role !in RouteGuardHook.RequiredRoles(p)
  {
    PageOfPath(p);
  }

  /** The corrected access test, which the effect applies, agrees with the
      table on every page: a nested page's parent lists the same roles. */
  lemma ParentCheckAgreesOnPages(u: User, p: Page)
    ensures RouteGuardHook.HasAccessWithParent(Some(u), PagePath(p))
              == (u.role in RouteGuardHook.RequiredRoles(p))
  {
    ExactEntryOfPage(u.role, p);
    RouteGuardHook.ParentOfPage(p);
    if p == MentorMenteesPage {
      ExactEntryOfPage(u.role, MentorPage);
    } else if p == MenteeMentorsPage {
      ExactEntryOfPage(u.role, MenteePage);
    }
  }

  /** The hook's effect leaves a user on a page exactly when the permission
      table admits the role. */
  lemma GuardEffectMatchesTable(u: User, p: Page)
    ensures (RouteGuardHook.GuardEffect(false, Some(u), PagePath(p)) == RouteGuardHook.NoAction)
              <==> u.role in RouteGuardHook.RequiredRoles(p)
  {
    PageOfPath(p);
    assert PagePath(p) != "/";
    RouteGuardHook.HasAccessWithParentMatchesGuard(Some(u), PagePath(p));
    ParentCheckAgreesOnPages(u, p);
  }

  /** Every item of a role's menu links to a page the table admits for the
      role, and none links to the video-call page. */
  lemma MenuLinksPermitted(role: Role, item: Sidebar.NavItem)
    requires item in Sidebar.MenuOf(role)
    ensures role in RouteGuardHook.RequiredRoles(item.link) && item.link != VideoCallPage
  {
    match role
    case Admin => MenuOfRolePermitted(Admin);
    case Mentor => MenuOfRolePermitted(Mentor);
    case Mentee => MenuOfRolePermitted(Mentee);
  }

  lemma MenuOfRolePermitted(role: Role)
    requires role in {Admin, Mentor, Mentee}
    ensures forall i :: 0 <= i < |Sidebar.MenuOf(role)| ==>
              role in RouteGuardHook.RequiredRoles(Sidebar.MenuOf(role)[i].link)
              && Sidebar.MenuOf(role)[i].link != VideoCallPage
  {
  }

  /** A page the table admits for a known role passes the route tree's
      guard. */
  lemma PermittedPagePassesGuard(u: User, p: Page)
    requires !u.role.OtherRole? && u.role in RouteGuardHook.RequiredRoles(p)
    ensures AppRoutes.RouteGuard(Some(u), PagePath(p)) == AppRoutes.Children
  {
    RouteListsMatchPermissionTable(u.role, p);
    var routes := AppRoutes.AccessibleRoutes(u.role);
    var i :| 0 <= i < |routes| && routes[i] == PagePath(p);
    assert AppRoutes.Admits(routes[i], PagePath(p));
  }

  /** Every sidebar link is admitted for its user by the route guard, the
      permission table, the hook's accessible routes and the hook's effect. */
  lemma NoOrphanLinks(u: User, item: Sidebar.NavItem)
    requires item in Sidebar.NavigationItems(Some(u))
    ensures AppRoutes.RouteGuard(Some(u), Sidebar.Href(item)) == AppRoutes.Children
    ensures u.role in RouteGuardHook.RequiredRoles(item.link)
    ensures Sidebar.Href(item) in RouteGuardHook.AccessibleRoutes(Some(u))
    ensures RouteGuardHook.GuardEffect(false, Some(u), Sidebar.Href(item)) == RouteGuardHook.NoAction
  {
    var p := item.link;
    MenuLinksPermitted(u.role, item);
    assert !u.role.OtherRole?;
    PermittedPagePassesGuard(u, p);
    RouteGuardHook.AccessibleRoutesExact(Some(u), p);
    GuardEffectMatchesTable(u, p);
  }

  /** For a user in good standing every sidebar link opens its page. */
  lemma SidebarLinksOpen(u: User, item: Sidebar.NavItem)
    requires GoodStanding(u)
    requires item in Sidebar.NavigationItems(Some(u))
    ensures AppRoutes.Route(false, Some(u), Sidebar.Href(item)) == AppRoutes.Show(AppRoutes.PageView(item.link))
  {
    NoOrphanLinks(u, item);
    RouteShowsPermittedPages(u, item.link);
  }

  /** Where `p` sits in the role's menu. */
  function MenuIndex(role: Role, p: Page): (i: int)
    requires !role.OtherRole?
    requires role in RouteGuardHook.RequiredRoles(p) && p != VideoCallPage
    ensures 0 <= i < |Sidebar.MenuOf(role)| && Sidebar.MenuOf(role)[i].link == p
  {
    match p
    case AdminPage | MentorPage | MenteePage => 0
    case UsersPage | MentorMenteesPage | MenteeMentorsPage => 1
    case SessionsPage => 2
    case AnnouncementsPage => 3
    case CalendarPage => if role == Admin then 4 else if role == Mentor then 3 else 2
    case ResourcesPage => if role == Admin then 5 else if role == Mentor then 4 else 3
    case ChatPage => if role == Admin then 6 else if role == Mentor then 5 else 4
    case ProfilePage => if role == Admin then 7 else if role == Mentor then 6 else 5
  }

  /** The menu links to every page the table admits for the role except the
      video-call page, and to nothing else. */
  lemma MenuCoversPermittedPages(u: User, p: Page)
    requires !u.role.OtherRole?
    ensures (exists item :: item in Sidebar.NavigationItems(Some(u)) && item.link == p)
              <==> u.role in RouteGuardHook.RequiredRoles(p) && p != VideoCallPage
  {
    var menu := Sidebar.NavigationItems(Some(u));
    if exists item :: item in menu && item.link == p {
      var item :| item in menu && item.link == p;
      MenuLinksPermitted(u.role, item);
    }
    if u.role in RouteGuardHook.RequiredRoles(p) && p != VideoCallPage {
      var i := MenuIndex(u.role, p);
      assert menu[i] in menu;
    }
  }

  /** The hook's redirect from "/" and the index route's dashboard agree for
      the known roles; both name a page the role may open. */
  lemma DashboardsAgree(u: User)
    requires !u.role.OtherRole?
    ensures RouteGuardHook.RootTarget(u.role) == AppRoutes.Dashboard(Some(u))
    ensures PageOf(AppRoutes.Dashboard(Some(u))).Some?
    ensures u.role in RouteGuardHook.RequiredRoles(PageOf(AppRoutes.Dashboard(Some(u))).value)
  {
  }

  /** For any other role the two disagree: the hook sends the user to
      /unauthorized, the index route to /login. */
  lemma UnknownRoleDashboards(u: User)
    requires u.role.OtherRole?
    ensures RouteGuardHook.RootTarget(u.role) == "/unauthorized"
    ensures AppRoutes.Dashboard(Some(u)) == "/login"
  {
  }
}
