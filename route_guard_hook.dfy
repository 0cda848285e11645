/** The permission table of the route-guard hook, the decision its effect
    takes on every navigation, and the two query helpers it exports
    (`hasAccess`, `getAccessibleRoutes`). */
module RouteGuardHook {
  import opened Common

  /** Roles listed for each page's entry of `routePermissions`. */
  function RequiredRoles(p: Page): (r: seq<Role>)
    ensures r != []
  {
    match p
    case AdminPage | UsersPage | AnnouncementsPage => [Admin]
    case MentorPage | MentorMenteesPage => [Mentor]
    case MenteePage | MenteeMentorsPage => [Mentee]
    case SessionsPage => [Admin, Mentor]
    case _ => [Admin, Mentor, Mentee]
  }

  /** The table's keys in declaration order. */
  const PermissionKeys: seq<Page> :=
    [AdminPage, UsersPage, AnnouncementsPage, MentorPage, MentorMenteesPage,
     MenteePage, MenteeMentorsPage, SessionsPage, CalendarPage, ResourcesPage,
     ChatPage, ProfilePage, VideoCallPage]

  /** `routePermissions[path]`: the roles of the entry keyed exactly by `path`. */
  function Entry(path: string): (r: Option<seq<Role>>)
    ensures r.Some? <==> PageOf(path).Some?
    ensures r.Some? ==> r.value == RequiredRoles(PageOf(path).value)
  {
    match PageOf(path)
    case Some(p) => Some(RequiredRoles(p))
    case None => None
  }

  /** `requiredRoles && !requiredRoles.includes(role)`. */
  predicate Excludes(path: string, role: Role) {
    Entry(path).Some? && role !in Entry(path).value
  }

  // ---------------------------------------------------------------------
  // `path.split('/').filter(Boolean)`

  /** The text of `s` up to its first '/'. */
  function Word(s: string): (w: string)
    ensures w <= s && '/' !in w
    ensures |w| < |s| ==> s[|w|] == '/'
  {
    if s == [] || s[0] == '/' then [] else [s[0]] + Word(s[1..])
  }

  /** The non-empty '/'-separated segments of a path, in order. */
  function Segments(path: string): (r: seq<string>)
    decreases |path|
    ensures forall i :: 0 <= i < |r| ==> r[i] != [] && '/' !in r[i]
  {
    if path == [] then []
    else if path[0] == '/' then Segments(path[1..])
    else
      var w := Word(path);
      [w] + Segments(path[|w|..])
  }

  lemma {:induction false} WordUpToSlash(w: string, rest: string)
    requires '/' !in w
    requires rest == [] || rest[0] == '/'
    ensures Word(w + rest) == w
  {
    if w != [] {
      assert (w + rest)[0] == w[0];
      assert (w + rest)[1..] == w[1..] + rest;
      WordUpToSlash(w[1..], rest);
    }
  }

  /** A leading "/w" contributes exactly the segment `w`. */
  lemma SegmentsOfWord(w: string, rest: string)
    requires w != [] && '/' !in w
    requires rest == [] || rest[0] == '/'
    ensures Segments("/" + w + rest) == [w] + Segments(rest)
  {
    var p := "/" + w + rest;
    assert p[1..] == w + rest;
    WordUpToSlash(w, rest);
    assert (w + rest)[|w|..] == rest;
  }

  lemma RootHasNoSegments()
    ensures Segments("/") == []
  {
    assert "/"[1..] == [];
  }

  lemma SegmentsOfPlainWord(w: string)
    requires w != [] && '/' !in w
    ensures Segments(w) == [w]
  {
    WordUpToSlash(w, []);
    assert w + [] == w;
    assert w[|w|..] == [];
  }

  /** `/${pathSegments[0]}` when the path has more than one segment. */
  function ParentPath(path: string): (r: Option<string>)
    ensures r.Some? ==> |r.value| >= 2 && r.value[0] == '/' && '/' !in r.value[1..]
  {
    var segs := Segments(path);
    if |segs| > 1 then Some("/" + segs[0]) else None
  }

  /** A path "/w/tail" whose tail holds a non-empty segment has parent "/w". */
  lemma ParentOfNested(w: string, tail: string)
    requires w != [] && '/' !in w
    requires Segments(tail) != []
    ensures ParentPath("/" + w + "/" + tail) == Some("/" + w)
  {
    var rest := "/" + tail;
    assert "/" + w + "/" + tail == "/" + w + rest;
    SegmentsOfWord(w, rest);
    assert rest[1..] == tail;
  }

  /** The parent the effect consults for each page: only the two nested
      pages have one. */
  lemma ParentOfPage(p: Page)
    ensures p == MentorMenteesPage ==> ParentPath(PagePath(p)) == Some("/mentor")
    ensures p == MenteeMentorsPage ==> ParentPath(PagePath(p)) == Some("/mentee")
    ensures p != MentorMenteesPage && p != MenteeMentorsPage ==> ParentPath(PagePath(p)) == None
  {
    if p == MentorMenteesPage {
      MentorMenteesParent();
    } else if p == MenteeMentorsPage {
      MenteeMentorsParent();
    } else {
      FlatPageHasNoParent(p);
    }
  }

  /** "/w/t" for two plain words has parent "/w". */
  lemma NestedParent(w: string, t: string)
    requires w != [] && '/' !in w && t != [] && '/' !in t
    ensures ParentPath("/" + w + "/" + t) == Some("/" + w)
  {
    SegmentsOfPlainWord(t);
    ParentOfNested(w, t);
  }

  lemma MentorMenteesParent()
    ensures ParentPath("/mentor/mentees") == Some("/mentor")
  {
    NestedParent("mentor", "mentees");
    assert "/" + "mentor" + "/" + "mentees" == "/mentor/mentees";
    assert "/" + "mentor" == "/mentor";
  }

  lemma MenteeMentorsParent()
    ensures ParentPath("/mentee/mentors") == Some("/mentee")
  {
    NestedParent("mentee", "mentors");
    assert "/" + "mentee" + "/" + "mentors" == "/mentee/mentors";
    assert "/" + "mentee" == "/mentee";
  }

  /** A page path with no '/' past its first character has no parent. */
  lemma FlatPageHasNoParent(p: Page)
    requires p != MentorMenteesPage && p != MenteeMentorsPage
    ensures ParentPath(PagePath(p)) == None
  {
    var path := PagePath(p);
    var w := path[1..];
    assert path == "/" + w + [];
    forall k | 0 <= k < |w| ensures w[k] != '/' {
      SlashesOfPage(p, k + 1);
    }
    SegmentsOfWord(w, []);
  }

  // ---------------------------------------------------------------------
  // The effect

  datatype GuardAction = NoAction | NavigateTo(target: string)

  /** The dashboard the effect sends a user to from "/". */
  function RootTarget(role: Role): string {
    match role
    case Admin => "/admin"
    case Mentor => "/mentor"
    case Mentee => "/mentee"
    case OtherRole(_) => "/unauthorized"
  }

  /** What the effect does for the current user and pathname. */
  function GuardEffect(loading: bool, user: Option<User>, path: string): (r: GuardAction)
    ensures (loading || user.None?) ==> r == NoAction
    ensures !loading && user.Some? && Excludes(path, user.value.role) ==>
              r == NavigateTo("/unauthorized")
    ensures !loading && user.Some? && ParentPath(path).Some?
              && Excludes(ParentPath(path).value, user.value.role) ==>
              r == NavigateTo("/unauthorized")
    ensures r.NavigateTo? && r.target != "/unauthorized" ==> path == "/"
    ensures !loading && user.Some? && path == "/" ==> r == NavigateTo(RootTarget(user.value.role))
  {
    if loading || user.None? then NoAction
    else
      var role := user.value.role;
      RootHasNoSegments();
      var parent := ParentPath(path);
      if Excludes(path, role) then NavigateTo("/unauthorized")
      else if parent.Some? && Excludes(parent.value, role) then NavigateTo("/unauthorized")
      else if path == "/" then NavigateTo(RootTarget(role))
      else NoAction
  }

  /** `hasAccess(path)`: exact-key lookup only. */
  predicate HasAccess(user: Option<User>, path: string) {
    user.Some? && !Excludes(path, user.value.role)
  }

  /** The path of `k` when its roles include `role`, and nothing otherwise. */
  function Kept(role: Role, k: Page): (r: seq<string>)
    ensures r == [] || r == [PagePath(k)]
  {
    if role in RequiredRoles(k) then [PagePath(k)] else []
  }

  /** The paths of those `keys` whose roles include `role`, in order. */
  function PathsFor(role: Role, keys: seq<Page>): (r: seq<string>)
    ensures |r| <= |keys|
  {
    if keys == [] then [] else Kept(role, keys[0]) + PathsFor(role, keys[1..])
  }

  /** Every path listed is that of a key whose roles include `role`, and
      every such key's path is listed. */
  lemma {:induction false} PathsForMembers(role: Role, keys: seq<Page>)
    ensures forall i :: 0 <= i < |PathsFor(role, keys)| ==>
              PageOf(PathsFor(role, keys)[i]).Some? && PageOf(PathsFor(role, keys)[i]).value in keys
              && role in RequiredRoles(PageOf(PathsFor(role, keys)[i]).value)
    ensures forall p :: p in keys && role in RequiredRoles(p) ==> PagePath(p) in PathsFor(role, keys)
  {
    if keys != [] {
      PathsForMembers(role, keys[1..]);
      PageOfPath(keys[0]);
    }
  }

  /** The filter keeps the keys' order. */
  lemma {:induction false} PathsForConcat(role: Role, a: seq<Page>, b: seq<Page>)
    ensures PathsFor(role, a + b) == PathsFor(role, a) + PathsFor(role, b)
  {
    if a == [] {
      assert a + b == b;
    } else {
      assert (a + b)[0] == a[0];
      assert (a + b)[1..] == a[1..] + b;
      PathsForConcat(role, a[1..], b);
      assert Kept(role, a[0]) + (PathsFor(role, a[1..]) + PathsFor(role, b))
             == (Kept(role, a[0]) + PathsFor(role, a[1..])) + PathsFor(role, b);
    }
  }

  /** Distinct keys give distinct paths. */
  lemma {:induction false} PathsForNoDuplicates(role: Role, keys: seq<Page>)
    requires NoDuplicates(keys)
    ensures NoDuplicates(PathsFor(role, keys))
  {
    if keys != [] {
      var rest := PathsFor(role, keys[1..]);
      PathsForNoDuplicates(role, keys[1..]);
      PathsForMembers(role, keys[1..]);
      PageOfPath(keys[0]);
      forall i | 0 <= i < |rest|
        ensures rest[i] != PagePath(keys[0])
      {
        assert keys[0] !in keys[1..];
      }
    }
  }

  /** The table's keys are distinct, so `getAccessibleRoutes` lists each
      path once. */
  lemma PermissionKeysDistinct()
    ensures NoDuplicates(PermissionKeys)
  {
  }

  lemma EveryPageIsAKey(p: Page)
    ensures p in PermissionKeys
  {
  }

  /** `getAccessibleRoutes()`: the keys whose roles include the user's role,
      in table order (`PathsForConcat`), each once (`PathsForNoDuplicates`). */
  function AccessibleRoutes(user: Option<User>): (r: seq<string>)
    ensures user.None? ==> r == []
    ensures forall path :: path in r ==> HasAccess(user, path)
  {
    if user.None? then []
    else
      PathsForMembers(user.value.role, PermissionKeys);
      PathsFor(user.value.role, PermissionKeys)
  }

  /** A page's path is listed exactly when its entry names the user's role. */
  lemma AccessibleRoutesExact(user: Option<User>, p: Page)
    ensures PagePath(p) in AccessibleRoutes(user) <==> user.Some? && user.value.role in RequiredRoles(p)
  {
    PageOfPath(p);
    EveryPageIsAKey(p);
    if user.Some? {
      PathsForMembers(user.value.role, PermissionKeys);
    }
  }

  /** The corrected access test: the one the effect applies (exact entry and
      first-segment entry). */
  predicate HasAccessWithParent(user: Option<User>, path: string) {
    var parent := ParentPath(path);
    user.Some? && !Excludes(path, user.value.role)
    && !(parent.Some? && Excludes(parent.value, user.value.role))
  }

  /** Away from "/", the corrected test holds exactly when the effect lets the
      signed-in user stay. */
  lemma HasAccessWithParentMatchesGuard(user: Option<User>, path: string)
    requires user.Some? && path != "/"
    ensures HasAccessWithParent(user, path) <==> GuardEffect(false, user, path) == NoAction
  {
  }

  /** As written, `hasAccess` ignores the parent entry: below a single-segment
      page that excludes the role, an unlisted nested path is reported
      accessible while the effect sends the user to /unauthorized. */
  lemma HasAccessIgnoresParent(user: Option<User>, p: Page, w: string, tail: string)
    requires user.Some?
    requires w != [] && '/' !in w && PagePath(p) == "/" + w
    requires user.value.role !in RequiredRoles(p)
    requires Segments(tail) != []
    requires PageOf("/" + w + "/" + tail).None?
    ensures HasAccess(user, "/" + w + "/" + tail)
    ensures !HasAccessWithParent(user, "/" + w + "/" + tail)
    ensures GuardEffect(false, user, "/" + w + "/" + tail) == NavigateTo("/unauthorized")
  {
    ParentOfNested(w, tail);
    PageOfPath(p);
  }

  /** A mentee asking about "/sessions/new". */
  lemma MenteeNestedSessionsPath(user: Option<User>)
    requires user.Some? && user.value.role == Mentee
    ensures HasAccess(user, "/sessions/new")
    ensures GuardEffect(false, user, "/sessions/new") == NavigateTo("/unauthorized")
  {
    assert "/sessions/new" == "/" + "sessions" + "/" + "new";
    SegmentsOfPlainWord("new");
    HasAccessIgnoresParent(user, SessionsPage, "sessions", "new");
  }
}
