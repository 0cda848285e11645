/** The sidebar's per-role navigation menus, the role filter applied while
    rendering, and the active-link test. */
module Sidebar {
  import opened Common

  /** A menu entry; its `href` is the path of `link`. */
  datatype NavItem = NavItem(name: string, link: Page, roles: seq<Role>)

  function Href(item: NavItem): string {
    PagePath(item.link)
  }

  function MenuOf(role: Role): seq<NavItem> {
    match role
    case Admin =>
      [NavItem("Dashboard", AdminPage, [Admin]), NavItem("Users", UsersPage, [Admin]),
       NavItem("Sessions", SessionsPage, [Admin]), NavItem("Announcements", AnnouncementsPage, [Admin]),
       NavItem("Calendar", CalendarPage, [Admin]), NavItem("Resources", ResourcesPage, [Admin]),
       NavItem("Chat", ChatPage, [Admin]), NavItem("Profile", ProfilePage, [Admin])]
    case Mentor =>
      [NavItem("Dashboard", MentorPage, [Mentor]), NavItem("My Mentees", MentorMenteesPage, [Mentor]),
       NavItem("Sessions", SessionsPage, [Mentor]), NavItem("Calendar", CalendarPage, [Mentor]),
       NavItem("Resources", ResourcesPage, [Mentor]), NavItem("Chat", ChatPage, [Mentor]),
       NavItem("Profile", ProfilePage, [Mentor])]
    case Mentee =>
      [NavItem("Dashboard", MenteePage, [Mentee]), NavItem("My Mentors", MenteeMentorsPage, [Mentee]),
       NavItem("Calendar", CalendarPage, [Mentee]), NavItem("Resources", ResourcesPage, [Mentee]),
       NavItem("Chat", ChatPage, [Mentee]), NavItem("Profile", ProfilePage, [Mentee])]
    case OtherRole(_) => []
  }

  /** `getNavigationItems()`. */
  function NavigationItems(user: Option<User>): (r: seq<NavItem>)
    ensures user.None? ==> r == []
    ensures user.Some? && user.value.role.OtherRole? ==> r == []
    ensures user.Some? ==> forall i :: 0 <= i < |r| ==> r[i].roles == [user.value.role]
  {
    if user.None? then [] else MenuOf(user.value.role)
  }

  /** The items the sidebar renders (`None`: the component renders nothing). */
  function VisibleItems(user: Option<User>): (r: Option<seq<NavItem>>)
    ensures user.None? <==> r.None?
    ensures r.Some? ==> r.value == NavigationItems(user)
  {
    if user.None? then None
    else
      var role := user.value.role;
      var keep := (item: NavItem) => role in item.roles;
      FilterKeepsAll(NavigationItems(user), keep);
      Some(Filter(NavigationItems(user), keep))
  }

  /** The items drawn as active for `pathname`. */
  function ActiveItems(items: seq<NavItem>, pathname: string): (r: seq<NavItem>)
    ensures forall it :: it in r <==> it in items && Href(it) == pathname
    ensures (forall it :: it in items ==> Href(it) != pathname) ==> r == []
  {
    if items == [] then []
    else (if Href(items[0]) == pathname then [items[0]] else []) + ActiveItems(items[1..], pathname)
  }

  /** No two items of a list link to the same page. */
  predicate DistinctLinks(items: seq<NavItem>) {
    forall i, j :: 0 <= i < j < |items| ==> items[i].link != items[j].link
  }

  lemma MenusHaveDistinctLinks(user: Option<User>)
    ensures DistinctLinks(NavigationItems(user))
  {
    if user.Some? {
      var menu := MenuOf(user.value.role);
      match user.value.role
      case Admin =>
        AdminMenuRanks();
        assert forall i :: 0 <= i < |menu| ==> MenuRank(menu[i].link) == i;
      case Mentor =>
        MentorMenuRanks();
      case Mentee =>
        MenteeMenuRanks();
      case OtherRole(_) =>
    }
  }

  lemma AdminMenuRanks()
    ensures forall i :: 0 <= i < |MenuOf(Admin)| ==> MenuRank(MenuOf(Admin)[i].link) == i
  {
  }

  lemma MentorMenuRanks()
    ensures forall i :: 0 <= i < |MenuOf(Mentor)| ==>
              MenuRank(MenuOf(Mentor)[i].link) == if i < 3 then i else i + 1
  {
  }

  lemma MenteeMenuRanks()
    ensures forall i :: 0 <= i < |MenuOf(Mentee)| ==>
              MenuRank(MenuOf(Mentee)[i].link) == if i < 2 then i else i + 2
  {
  }

  /** The position a page takes in whichever menu offers it. */
  function MenuRank(p: Page): int {
    match p
    case AdminPage | MentorPage | MenteePage => 0
    case UsersPage | MentorMenteesPage | MenteeMentorsPage => 1
    case SessionsPage => 2
    case AnnouncementsPage => 3
    case CalendarPage => 4
    case ResourcesPage => 5
    case ChatPage => 6
    case ProfilePage => 7
    case VideoCallPage => 8
  }

  /** With distinct links, at most one item is active for any pathname. */
  lemma {:induction false} AtMostOneActive(items: seq<NavItem>, pathname: string)
    requires DistinctLinks(items)
    ensures |ActiveItems(items, pathname)| <= 1
  {
    if items != [] {
      AtMostOneActive(items[1..], pathname);
      if Href(items[0]) == pathname {
        forall it | it in items[1..]
          ensures Href(it) != pathname
        {
          var j :| 0 <= j < |items[1..]| && items[1..][j] == it;
          assert items[j + 1] == it;
          PageOfPath(items[0].link);
          PageOfPath(it.link);
        }
      }
    }
  }

  /** The mentee menu offers neither sessions nor any administrator or mentor
      page. */
  lemma MenteeMenuScope(user: Option<User>)
    requires user.Some? && user.value.role == Mentee
    ensures forall item :: item in NavigationItems(user) ==>
              item.link !in {SessionsPage, AdminPage, UsersPage, AnnouncementsPage,
                             MentorPage, MentorMenteesPage}
  {
  }
}
